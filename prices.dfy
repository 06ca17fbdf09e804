// Reading a price out of free text, as both the chat manager and the markup
// helper do: the first match of /[\d,]+\.?\d*/, commas removed, read by
// parseFloat. Amounts are exact decimals (units / 10^scale); the binary
// floating-point value and its rounding are not modelled.

module Prices {
  import opened Text
  import opened JsValues

  /** A non-negative decimal amount: `units / 10^scale`. */
  datatype Amount = Amount(units: nat, scale: nat)

  function Pow10(n: nat): (r: nat)
    ensures r >= 1
  {
    if n == 0 then 1 else 10 * Pow10(n - 1)
  }

  /** The amount is not zero: parseFloat's result is truthy. */
  predicate NonZero(a: Amount)
  {
    a.units != 0
  }

  /** `a` is strictly larger than `b` as a number. */
  predicate Greater(a: Amount, b: Amount)
  {
    a.units * Pow10(b.scale) > b.units * Pow10(a.scale)
  }

  /** Characters of the class [\d,]. */
  predicate IsNumChar(c: char)
  {
    IsDigit(c) || c == ','
  }

  /** Length of the longest prefix of `s` whose characters all satisfy `p`. */
  function PrefixRun(s: string, p: char -> bool): (r: nat)
    ensures r <= |s|
    ensures forall k :: 0 <= k < r ==> p(s[k])
    ensures r < |s| ==> !p(s[r])
  {
    if s != [] && p(s[0]) then 1 + PrefixRun(s[1..], p) else 0
  }

  lemma {:induction false} PrefixRunAll(s: string, p: char -> bool)
    requires forall k :: 0 <= k < |s| ==> p(s[k])
    ensures PrefixRun(s, p) == |s|
  {
    if s != [] {
      PrefixRunAll(s[1..], p);
    }
  }

  /** Index of the first character of the class [\d,], or -1. */
  function FirstNumChar(s: string): (r: int)
    ensures -1 <= r < |s|
    ensures r >= 0 ==> IsNumChar(s[r])
    ensures forall k :: 0 <= k < |s| && (r == -1 || k < r) ==> !IsNumChar(s[k])
  {
    if s == [] then -1
    else if IsNumChar(s[0]) then 0
    else
      var k := FirstNumChar(s[1..]);
      if k == -1 then -1 else k + 1
  }

  /**
   * The text matched by /[\d,]+\.?\d*\/: at the first [\d,] character, the
   * longest run of [\d,], then a '.' if one follows, then the digits after it.
   */
  function NumericMatch(s: string): (r: Option<string>)
    ensures r.None? <==> forall k :: 0 <= k < |s| ==> !IsNumChar(s[k])
    ensures r.Some? ==> r.value != [] && IsNumChar(r.value[0])
    ensures r.Some? ==> exists i :: OccursAt(s, r.value, i) && forall k :: 0 <= k < i ==> !IsNumChar(s[k])
    ensures r.Some? ==> GreedyMatchAt(s, FirstNumChar(s), r.value)
  {
    var i := FirstNumChar(s);
    if i == -1 then None
    else
      var len := MatchLength(s[i..]);
      MatchAt(s, i, s[i..i + len]);
      MatchShapeAt(s, i);
      Some(s[i..i + len])
  }

  /** `m` occurs at index `i` of `s`, has the regex's shape, and the regex cannot extend it. */
  predicate GreedyMatchAt(s: string, i: int, m: string)
  {
    && 0 <= i && i + |m| <= |s| && s[i..i + |m|] == m
    && MatchForm(m)
    && (i + |m| < |s| ==> Stops(m, s[i + |m|]))
  }

  /** The match taken at index `i` has the regex's shape and ends where the regex stops. */
  lemma MatchShapeAt(s: string, i: nat)
    requires i < |s| && IsNumChar(s[i])
    ensures var len := MatchLength(s[i..]); i + len <= |s| && GreedyMatchAt(s, i, s[i..i + len])
  {
    var t := s[i..];
    var len := MatchLength(t);
    MatchLengthShape(t);
    assert t[..len] == s[i..i + len];
    assert len < |t| ==> t[len] == s[i + len];
  }

  /** The shape of a match of /[\d,]+\.?\d*\/: a non-empty [\d,] run, then optionally a '.' and digits. */
  predicate MatchForm(m: string)
  {
    var a := PrefixRun(m, IsNumChar);
    a >= 1 && (a == |m| || (m[a] == '.' && forall k :: a < k < |m| ==> IsDigit(m[k])))
  }

  /** Character `c` cannot extend the match `m`: the greedy match ends before it. */
  predicate Stops(m: string, c: char)
  {
    if PrefixRun(m, IsNumChar) < |m| then !IsDigit(c) else !IsNumChar(c) && c != '.'
  }

  /** The match at the start of `t` has the regex's shape and cannot be extended. */
  lemma MatchLengthShape(t: string)
    requires |t| > 0 && IsNumChar(t[0])
    ensures var n := MatchLength(t); MatchForm(t[..n]) && (n < |t| ==> Stops(t[..n], t[n]))
  {
    var n := MatchLength(t);
    var a := PrefixRun(t, IsNumChar);
    var m := t[..n];
    assert t[..a] + t[a..n] == m;
    if a < |t| && t[a] == '.' {
      PrefixRunConcat(t[..a], t[a..n], IsNumChar);
      assert forall k :: a < k < n ==> m[k] == t[a + 1..][k - a - 1];
    } else {
      assert n == a;
      PrefixRunAll(m, IsNumChar);
    }
  }

  /** A run satisfying `p` followed by text that does not start with such a character: the prefix run is exactly the run. */
  lemma {:induction false} PrefixRunConcat(x: string, y: string, p: char -> bool)
    requires forall k :: 0 <= k < |x| ==> p(x[k])
    requires y == [] || !p(y[0])
    ensures PrefixRun(x + y, p) == |x|
    decreases |x|
  {
    if x == [] {
      assert x + y == y;
    } else {
      assert (x + y)[0] == x[0] && (x + y)[1..] == x[1..] + y;
      PrefixRunConcat(x[1..], y, p);
    }
  }

  /** Text made of decimal digits only. */
  predicate Digits(s: string)
  {
    forall k :: 0 <= k < |s| ==> IsDigit(s[k])
  }

  /** Some digit of `s` is not '0'. */
  predicate HasNonZeroDigit(s: string)
  {
    exists k :: 0 <= k < |s| && '1' <= s[k] <= '9'
  }

  /** The match found at the first [\d,] character occurs there and starts with it. */
  lemma MatchAt(s: string, i: nat, m: string)
    requires 1 <= |m| && i + |m| <= |s| && m == s[i..i + |m|] && IsNumChar(s[i])
    requires forall k :: 0 <= k < i ==> !IsNumChar(s[k])
    ensures m != [] && IsNumChar(m[0])
    ensures exists j :: OccursAt(s, m, j) && forall k :: 0 <= k < j ==> !IsNumChar(s[k])
  {
    assert OccursAt(s, m, i);
  }

  /** Length of the match at the start of `t`: the [\d,] run, then a '.' and its digits when a '.' follows. */
  function MatchLength(t: string): (n: nat)
    requires |t| > 0 && IsNumChar(t[0])
    ensures 1 <= n <= |t|
  {
    var a := PrefixRun(t, IsNumChar);
    if a < |t| && t[a] == '.' then a + 1 + PrefixRun(t[a + 1..], IsDigit)
    else a + PrefixRun(t[a..], IsDigit)
  }

  /**
   * parseFloat on a text made of digits, at most one '.', and digits: the
   * digits before the point and those after it, or NaN (None) when there is
   * no digit on either side.
   */
  function ParseAmount(c: string): (r: Option<Amount>)
    ensures r.Some? && NonZero(r.value) ==> exists k :: 0 <= k < |c| && '1' <= c[k] <= '9'
  {
    var w := PrefixRun(c, IsDigit);
    if w < |c| && c[w] == '.' then
      var f := PrefixRun(c[w + 1..], IsDigit);
      if w == 0 && f == 0 then None
      else
        var digits := c[..w] + c[w + 1..][..f];
        NonZeroDigit(digits);
        assert DigitsValue(digits) != 0 ==> exists k :: 0 <= k < |c| && '1' <= c[k] <= '9' by {
          if DigitsValue(digits) != 0 {
            var k :| 0 <= k < |digits| && '1' <= digits[k] <= '9';
            if k < w { assert c[k] == digits[k]; } else { assert c[w + 1 + (k - w)] == digits[k]; }
          }
        }
        Some(Amount(DigitsValue(digits), f))
    else if w == 0 then None
    else
      NonZeroDigit(c[..w]);
      Some(Amount(DigitsValue(c[..w]), 0))
  }

  /** A string of digits has a non-zero value exactly when it holds a digit other than '0'. */
  lemma {:induction false} NonZeroDigit(s: string)
    requires forall k :: 0 <= k < |s| ==> IsDigit(s[k])
    ensures DigitsValue(s) >= 0
    ensures DigitsValue(s) != 0 <==> exists k :: 0 <= k < |s| && '1' <= s[k] <= '9'
  {
    if s != [] {
      var n := |s| - 1;
      NonZeroDigit(s[..n]);
      if DigitsValue(s) != 0 && s[n] == '0' {
        var k :| 0 <= k < n && '1' <= s[..n][k] <= '9';
        assert s[k] == s[..n][k];
      }
      if exists k :: 0 <= k < |s| && '1' <= s[k] <= '9' {
        var k :| 0 <= k < |s| && '1' <= s[k] <= '9';
        if k < n { assert s[..n][k] == s[k]; }
      }
    }
  }

  /**
   * parseFloat of digits, a point and digits: all the digits read as one
   * number scaled by the count after the point, NaN when there are none,
   * and non-zero exactly when some digit is not '0'.
   */
  lemma ParseDecimal(whole: string, frac: string)
    requires Digits(whole) && Digits(frac)
    ensures DigitsValue(whole + frac) >= 0
    ensures ParseAmount(whole + "." + frac) ==
              if |whole| + |frac| == 0 then None else Some(Amount(DigitsValue(whole + frac), |frac|))
    ensures var r := ParseAmount(whole + "." + frac);
            (r.Some? && NonZero(r.value)) <==> HasNonZeroDigit(whole + frac)
  {
    var c := whole + "." + frac;
    assert c == whole + ("." + frac);
    PrefixRunConcat(whole, "." + frac, IsDigit);
    var w := |whole|;
    assert c[w] == '.' && c[..w] == whole && c[w + 1..] == frac;
    PrefixRunAll(frac, IsDigit);
    assert frac[..|frac|] == frac;
    NonZeroDigit(whole + frac);
  }

  /** parseFloat of digits alone: their value as a whole number, NaN for none, non-zero exactly when some digit is not '0'. */
  lemma ParseWhole(whole: string)
    requires Digits(whole)
    ensures DigitsValue(whole) >= 0
    ensures ParseAmount(whole) == if whole == [] then None else Some(Amount(DigitsValue(whole), 0))
    ensures var r := ParseAmount(whole);
            (r.Some? && NonZero(r.value)) <==> HasNonZeroDigit(whole)
  {
    if whole != [] {
      ParseDigits(whole);
    }
    NonZeroDigit(whole);
  }

  /** `extractNumericPrice(v)`: null for a non-string or empty value or when nothing matches; NaN is None too. */
  function ExtractNumericPrice(v: Value): (r: Option<Amount>)
    ensures !(v.Str? && v.s != "") ==> r.None?
    ensures v.Str? && (forall k :: 0 <= k < |v.s| ==> !IsDigit(v.s[k])) ==> r.None?
  {
    if !(v.Str? && v.s != "") then None
    else
      match NumericMatch(v.s)
      case None => None
      case Some(m) =>
        var c := ReplaceAll(m, ',', "");
        NoDigitsStayNoDigits(v.s, m, c);
        ParseAmount(c)
  }

  /** A price text without digits yields a cleaned match without digits, which parseFloat reads as NaN. */
  lemma NoDigitsStayNoDigits(s: string, m: string, c: string)
    requires NumericMatch(s) == Some(m)
    requires c == ReplaceAll(m, ',', "")
    ensures (forall k :: 0 <= k < |s| ==> !IsDigit(s[k])) ==> ParseAmount(c).None?
  {
    if forall k :: 0 <= k < |s| ==> !IsDigit(s[k]) {
      var i :| OccursAt(s, m, i) && forall k :: 0 <= k < i ==> !IsNumChar(s[k]);
      assert forall k :: 0 <= k < |m| ==> m[k] == s[i + k];
      assert forall d :: d in m ==> !IsDigit(d);
      ParseNoDigits(c);
    }
  }

  /** parseFloat of a text without digits is NaN. */
  lemma ParseNoDigits(c: string)
    requires forall d :: d in c ==> !IsDigit(d)
    ensures ParseAmount(c).None?
  {
    if |c| > 0 {
      assert c[0] in c;
      assert PrefixRun(c, IsDigit) == 0;
      if 1 < |c| {
        assert c[1] in c;
        assert c[1..][0] == c[1];
      }
    }
  }

  /** The first [\d,] character of `pre + t` is the start of `t` when `pre` has none and `t` starts with one. */
  lemma {:induction false} FirstNumCharAfter(pre: string, t: string)
    requires forall k :: 0 <= k < |pre| ==> !IsNumChar(pre[k])
    requires t != [] && IsNumChar(t[0])
    ensures FirstNumChar(pre + t) == |pre|
    decreases |pre|
  {
    if pre == [] {
      assert pre + t == t;
    } else {
      assert (pre + t)[0] == pre[0] && (pre + t)[1..] == pre[1..] + t;
      FirstNumCharAfter(pre[1..], t);
    }
  }

  /** Removing the commas from a [\d,] run leaves its digits. */
  lemma CommasRemoved(run: string)
    requires forall k :: 0 <= k < |run| ==> IsNumChar(run[k])
    ensures Digits(ReplaceAll(run, ',', ""))
  {
    var ds := ReplaceAll(run, ',', "");
    forall k | 0 <= k < |ds| ensures IsDigit(ds[k]) {
      assert ds[k] in ds;
      var j :| 0 <= j < |run| && run[j] == ds[k];
    }
  }

  /** At a [\d,] run followed by a point and digits, the match takes the run, the point and the digits. */
  lemma MatchLengthDecimal(run: string, frac: string, post: string)
    requires run != [] && forall k :: 0 <= k < |run| ==> IsNumChar(run[k])
    requires Digits(frac)
    requires post == [] || !IsDigit(post[0])
    ensures var t := run + "." + frac + post; |t| > 0 && IsNumChar(t[0]) && MatchLength(t) == |run| + 1 + |frac|
  {
    var t := run + "." + frac + post;
    assert t == run + ("." + frac + post);
    PrefixRunConcat(run, "." + frac + post, IsNumChar);
    assert t[|run|] == '.' && t[|run| + 1..] == frac + post;
    PrefixRunConcat(frac, post, IsDigit);
  }

  /** At a [\d,] run followed by neither a [\d,] character nor a point, the match is the run. */
  lemma MatchLengthWhole(run: string, post: string)
    requires run != [] && forall k :: 0 <= k < |run| ==> IsNumChar(run[k])
    requires post == [] || (!IsNumChar(post[0]) && post[0] != '.')
    ensures var t := run + post; |t| > 0 && IsNumChar(t[0]) && MatchLength(t) == |run|
  {
    var t := run + post;
    PrefixRunConcat(run, post, IsNumChar);
    assert t[|run|..] == post;
    PrefixRunConcat([], post, IsDigit);
    assert [] + post == post;
  }

  /** The match in `pre + t`, where `pre` holds no [\d,] character, is the match at the start of `t`. */
  lemma MatchAfter(pre: string, t: string, n: nat)
    requires forall k :: 0 <= k < |pre| ==> !IsNumChar(pre[k])
    requires t != [] && IsNumChar(t[0]) && MatchLength(t) == n
    ensures n <= |t| && NumericMatch(pre + t) == Some(t[..n])
  {
    var s := pre + t;
    FirstNumCharAfter(pre, t);
    assert s[|pre|..] == t;
    assert s[|pre|..|pre| + n] == t[..n];
  }

  /** extractNumericPrice reads its match, without commas, with parseFloat. */
  lemma ExtractFromMatch(s: string, m: string)
    requires s != [] && NumericMatch(s) == Some(m)
    ensures ExtractNumericPrice(Str(s)) == ParseAmount(ReplaceAll(m, ',', ""))
  {
  }

  /** The text parseFloat reads from a decimal match: the run without commas, the point, the digits. */
  lemma CleanDecimal(run: string, frac: string)
    requires Digits(frac)
    ensures ReplaceAll(run + "." + frac, ',', "") == ReplaceAll(run, ',', "") + "." + frac
  {
    ReplaceAllAppend(run + ".", frac, ',', "");
    ReplaceAllAppend(run, ".", ',', "");
    NoCommas(frac);
  }

  /**
   * A price written as a [\d,] run, a point and digits, after text without
   * digits or commas and before text that does not go on with a digit, reads
   * as that decimal with the commas ignored: "Glass $1,250.50 each" reads as
   * 125050 hundredths.
   */
  lemma ExtractDecimal(pre: string, run: string, frac: string, post: string)
    requires forall k :: 0 <= k < |pre| ==> !IsNumChar(pre[k])
    requires run != [] && forall k :: 0 <= k < |run| ==> IsNumChar(run[k])
    requires Digits(frac)
    requires post == [] || !IsDigit(post[0])
    ensures var ds := ReplaceAll(run, ',', "");
            && DigitsValue(ds + frac) >= 0
            && ExtractNumericPrice(Str(pre + run + "." + frac + post)) ==
                 if |ds| + |frac| == 0 then None else Some(Amount(DigitsValue(ds + frac), |frac|))
  {
    var t := run + "." + frac + post;
    var s := pre + run + "." + frac + post;
    var m := run + "." + frac;
    assert s == pre + t;
    MatchLengthDecimal(run, frac, post);
    MatchAfter(pre, t, |m|);
    assert t[..|m|] == m;
    ExtractFromMatch(s, m);
    var ds := ReplaceAll(run, ',', "");
    CleanDecimal(run, frac);
    assert ExtractNumericPrice(Str(s)) == ParseAmount(ds + "." + frac);
    CommasRemoved(run);
    ParseDecimal(ds, frac);
  }

  /**
   * A price written as a [\d,] run with no point, after text without digits
   * or commas and before text that goes on with neither a digit, a comma nor
   * a point, reads as that whole number with the commas ignored:
   * "$1,250" reads as 1250.
   */
  lemma ExtractWhole(pre: string, run: string, post: string)
    requires forall k :: 0 <= k < |pre| ==> !IsNumChar(pre[k])
    requires run != [] && forall k :: 0 <= k < |run| ==> IsNumChar(run[k])
    requires post == [] || (!IsNumChar(post[0]) && post[0] != '.')
    ensures var ds := ReplaceAll(run, ',', "");
            && DigitsValue(ds) >= 0
            && ExtractNumericPrice(Str(pre + run + post)) ==
                 if ds == [] then None else Some(Amount(DigitsValue(ds), 0))
  {
    var t := run + post;
    var s := pre + run + post;
    assert s == pre + t;
    MatchLengthWhole(run, post);
    MatchAfter(pre, t, |run|);
    assert t[..|run|] == run;
    ExtractFromMatch(s, run);
    CommasRemoved(run);
    ParseWhole(ReplaceAll(run, ',', ""));
  }

  /** A dollar amount written as a whole number, "$48", reads as exactly that number. */
  lemma DollarsRead(k: nat)
    ensures ExtractNumericPrice(Str("$" + NatToString(k))) == Some(Amount(k, 0))
  {
    var digits := NatToString(k);
    DollarsMatch(digits);
    NoCommas(digits);
    ParseDigits(digits);
  }

  /** In "$" followed by digits, the numeric match is the digits. */
  lemma DollarsMatch(digits: string)
    requires |digits| > 0 && forall k :: 0 <= k < |digits| ==> IsDigit(digits[k])
    ensures NumericMatch("$" + digits) == Some(digits)
  {
    var s := "$" + digits;
    assert s[1..] == digits;
    assert FirstNumChar(s) == 1 by {
      assert !IsNumChar(s[0]);
      assert FirstNumChar(s[1..]) == 0;
    }
    PrefixRunAll(digits, IsNumChar);
    PrefixRunAll(digits[|digits|..], IsDigit);
    assert s[1..1 + |digits|] == digits;
  }

  /** parseFloat of a non-empty run of digits is their value. */
  lemma ParseDigits(digits: string)
    requires |digits| > 0 && forall k :: 0 <= k < |digits| ==> IsDigit(digits[k])
    ensures ParseAmount(digits).Some? && ParseAmount(digits).value.units == DigitsValue(digits)
    ensures ParseAmount(digits).value.scale == 0
  {
    PrefixRunAll(digits, IsDigit);
    assert digits[..|digits|] == digits;
  }

  lemma {:induction false} NoCommas(s: string)
    requires forall k :: 0 <= k < |s| ==> IsDigit(s[k])
    ensures ReplaceAll(s, ',', "") == s
  {
    if s != [] {
      NoCommas(s[1..]);
      assert [s[0]] + s[1..] == s;
    }
  }

  /** Digits of `n` padded on the left with zeros to `width` characters. */
  function PadDigits(n: nat, width: nat): (r: string)
    ensures |r| >= width && |r| >= 1
    ensures forall k :: 0 <= k < |r| ==> IsDigit(r[k])
  {
    var t := NatToString(n);
    if |t| >= width then t else Repeat('0', width - |t|) + t
  }

  /** `t` without its trailing '0' characters. */
  function StripZeros(t: string): (r: string)
    ensures |r| <= |t| && r == t[..|r|]
    ensures r != [] ==> r[|r| - 1] != '0'
    ensures forall k :: |r| <= k < |t| ==> t[k] == '0'
  {
    if t != [] && t[|t| - 1] == '0' then StripZeros(t[..|t| - 1]) else t
  }

  /**
   * How JavaScript prints the number: the digits of `units` with a point
   * `scale` places from the right, at least one digit before the point,
   * no trailing zeros after it, and no point for a whole number.
   */
  function AmountText(a: Amount): (r: string)
    ensures a.scale == 0 ==> r == NatToString(a.units)
    ensures r != [] && IsDigit(r[0])
  {
    var t := PadDigits(a.units, a.scale + 1);
    var whole := t[..|t| - a.scale];
    var frac := StripZeros(t[|t| - a.scale..]);
    if a.scale == 0 then NatToString(a.units)
    else if frac == [] then whole
    else whole + "." + frac
  }

  /** The amount five times larger: a glass price converted to a bottle price. */
  function TimesFive(a: Amount): (r: Amount)
    ensures r.scale == a.scale && r.units == 5 * a.units
    ensures NonZero(a) ==> NonZero(r) && Greater(r, a)
  {
    Amount(5 * a.units, a.scale)
  }
}
