// Response repair: turning the text a provider returns into a value without
// ever throwing. Three parse attempts (the text as is; trimmed, quote-fixed
// and bracket-closed; the greedy {...} span, quote-fixed), then a structured
// error object. JSON.parse itself is a parameter: any partial parser.

module Repair {
  import opened Text
  import opened JsValues

  /** What JSON.parse does with a text: a value, or a SyntaxError message. */
  datatype ParseResult = Parsed(value: Value) | ParseError(message: string)

  /** The value safeJSONParse returns, with the texts it handed to JSON.parse, in order. */
  datatype ParseTrace = ParseTrace(value: Value, attempts: seq<string>)

  // ---------------------------------------------------------------------
  // The scan shared by fixUnescapedQuotes and fixIncompleteJSON
  // ---------------------------------------------------------------------

  /** The scanners' `prevChar`: the character before index `i`, or '' at the start. */
  function PrevChar(s: string, i: nat): string
    requires i <= |s|
  {
    if i == 0 then "" else [s[i - 1]]
  }

  /** The scanners' variables after reading `s`: the in-string flag and the open-brace and open-bracket counters. */
  datatype ScanState = ScanState(inString: bool, braces: int, brackets: int)

  /** The scanners' variables after reading character `c`, preceded by `prev`, in state `st`. */
  function ScanChar(st: ScanState, c: char, prev: string): (r: ScanState)
    ensures r.inString == (if c == '"' && prev != "\\" then !st.inString else st.inString)
  {
    if c == '"' && prev != "\\" then st.(inString := !st.inString)
    else if st.inString then st
    else if c == '{' then st.(braces := st.braces + 1)
    else if c == '}' then st.(braces := st.braces - 1)
    else if c == '[' then st.(brackets := st.brackets + 1)
    else if c == ']' then st.(brackets := st.brackets - 1)
    else st
  }

  function Scan(s: string): ScanState
  {
    if s == [] then ScanState(false, 0, 0)
    else
      var n := |s| - 1;
      ScanChar(Scan(s[..n]), s[n], PrevChar(s, n))
  }

  /** Reading one character after `u`. */
  lemma ScanSnoc(u: string, c: char)
    ensures Scan(u + [c]) == ScanChar(Scan(u), c, PrevChar(u + [c], |u|))
  {
    assert (u + [c])[..|u|] == u;
  }

  /** Reading one more character of `s`: the state after `s[..i + 1]` from the state after `s[..i]`. */
  lemma ScanStep(s: string, i: nat)
    requires i < |s|
    ensures Scan(s[..i + 1]) == ScanChar(Scan(s[..i]), s[i], PrevChar(s, i))
  {
    assert s[..i + 1][..i] == s[..i];
  }

  // ---------------------------------------------------------------------
  // fixUnescapedQuotes
  // ---------------------------------------------------------------------

  /** A literal newline, carriage return or tab. */
  predicate IsControl(c: char)
  {
    c == '\n' || c == '\r' || c == '\t'
  }

  /**
   * What fixUnescapedQuotes appends for one character, branch by branch.
   * The second branch (escape a quote inside a string) can never be taken:
   * the first branch already claims every quote not preceded by a backslash.
   */
  function QuoteStep(c: char, prev: string, inString: bool): (r: string)
    ensures r != "\\\""
    ensures c == '"' ==> r == [c]
    ensures c != '"' ==> '"' !in r
    ensures !(inString && IsControl(c)) ==> r == [c]
    ensures inString && IsControl(c) ==> |r| == 2 && r[0] == '\\'
  {
    if c == '"' && prev != "\\" then [c]
    else if inString && c == '"' && prev != "\\" then "\\\""
    else if inString && c == '\n' then "\\n"
    else if inString && c == '\r' then "\\r"
    else if inString && c == '\t' then "\\t"
    else [c]
  }

  /** The text fixUnescapedQuotes returns. */
  function FixQuotes(s: string): string
  {
    if s == [] then []
    else
      var n := |s| - 1;
      FixQuotes(s[..n]) + QuoteStep(s[n], PrevChar(s, n), Scan(s[..n]).inString)
  }

  method FixUnescapedQuotes(s: string) returns (r: string)
    ensures r == FixQuotes(s)
  {
    var inString := false;
    r := "";
    var i := 0;
    while i < |s|
      invariant 0 <= i <= |s|
      invariant r == FixQuotes(s[..i])
      invariant inString == Scan(s[..i]).inString
    {
      FixQuotesStep(s, i);
      var c := s[i];
      var prev := if i > 0 then [s[i - 1]] else "";
      if c == '"' && prev != "\\" {
        inString := !inString;
        r := r + [c];
      } else if inString && c == '"' && prev != "\\" {
        r := r + "\\\"";
      } else if inString && c == '\n' {
        r := r + "\\n";
      } else if inString && c == '\r' {
        r := r + "\\r";
      } else if inString && c == '\t' {
        r := r + "\\t";
      } else {
        r := r + [c];
      }
      i := i + 1;
    }
    assert s[..|s|] == s;
  }

  /** One more character read: the text and the in-string flag after `s[..i + 1]`, from those after `s[..i]`. */
  lemma FixQuotesStep(s: string, i: nat)
    requires i < |s|
    ensures FixQuotes(s[..i + 1]) == FixQuotes(s[..i]) + QuoteStep(s[i], PrevChar(s, i), Scan(s[..i]).inString)
    ensures Scan(s[..i + 1]) == ScanChar(Scan(s[..i]), s[i], PrevChar(s, i))
  {
    assert s[..i + 1][..i] == s[..i];
  }

  /** Text with no newline, carriage return or tab inside a string comes back unchanged. */
  lemma {:induction false} FixQuotesIdentity(s: string)
    requires forall i :: 0 <= i < |s| && Scan(s[..i]).inString ==> !IsControl(s[i])
    ensures FixQuotes(s) == s
  {
    if s != [] {
      var n := |s| - 1;
      var u := s[..n];
      forall i | 0 <= i < n && Scan(u[..i]).inString ensures !IsControl(u[i]) {
        assert u[..i] == s[..i];
      }
      FixQuotesIdentity(u);
      assert Scan(u).inString ==> !IsControl(s[n]);
      FixQuotesSnoc(u, s[n]);
      LastSplit(s);
    }
  }

  lemma LastSplit(s: string)
    requires s != []
    ensures s[..|s| - 1] + [s[|s| - 1]] == s
  {
  }

  /** Fixing one character more after `u`. */
  lemma FixQuotesSnoc(u: string, c: char)
    ensures FixQuotes(u + [c]) == FixQuotes(u) + QuoteStep(c, PrevChar(u + [c], |u|), Scan(u).inString)
  {
    assert (u + [c])[..|u|] == u;
  }

  /** In particular, text with no newline, carriage return or tab at all is returned as is. */
  lemma NoControlCharsUnchanged(s: string)
    requires forall i :: 0 <= i < |s| ==> !IsControl(s[i])
    ensures FixQuotes(s) == s
  {
    FixQuotesIdentity(s);
  }

  /** Number of double quotes in a text. */
  function QuoteCount(s: string): nat
  {
    if s == [] then 0 else QuoteCount(s[..|s| - 1]) + (if s[|s| - 1] == '"' then 1 else 0)
  }

  lemma {:induction false} QuoteCountAppend(a: string, b: string)
    ensures QuoteCount(a + b) == QuoteCount(a) + QuoteCount(b)
    decreases |b|
  {
    if b == [] {
      assert a + b == a;
    } else {
      var m := |b| - 1;
      assert (a + b)[..|a + b| - 1] == a + b[..m];
      assert (a + b)[|a + b| - 1] == b[m];
      QuoteCountAppend(a, b[..m]);
    }
  }

  lemma {:induction false} QuoteCountNone(s: string)
    requires '"' !in s
    ensures QuoteCount(s) == 0
  {
    if s != [] {
      assert s[|s| - 1] in s;
      assert forall c :: c in s[..|s| - 1] ==> c in s;
      QuoteCountNone(s[..|s| - 1]);
    }
  }

  /** fixUnescapedQuotes neither adds, removes nor rewrites a double quote. */
  lemma {:induction false} FixQuotesKeepsQuotes(s: string)
    ensures QuoteCount(FixQuotes(s)) == QuoteCount(s)
  {
    if s != [] {
      var n := |s| - 1;
      var step := QuoteStep(s[n], PrevChar(s, n), Scan(s[..n]).inString);
      FixQuotesKeepsQuotes(s[..n]);
      QuoteCountAppend(FixQuotes(s[..n]), step);
      QuoteCountAppend(s[..n], [s[n]]);
      assert s[..n] + [s[n]] == s;
      if s[n] == '"' {
        assert step == [s[n]];
        assert [s[n]][..0] == [];
      } else {
        QuoteCountNone(step);
        QuoteCountNone([s[n]]);
      }
    }
  }

  // ---------------------------------------------------------------------
  // fixIncompleteJSON
  // ---------------------------------------------------------------------

  function Max0(n: int): nat
  {
    if n > 0 then n else 0
  }

  /** The text fixIncompleteJSON returns: the input, then one ']' per unclosed '[', then one '}' per unclosed '{'. */
  function FixIncomplete(s: string): string
  {
    var st := Scan(s);
    s + Repeat(']', Max0(st.brackets)) + Repeat('}', Max0(st.braces))
  }

  method FixIncompleteJSON(s: string) returns (r: string)
    ensures r == FixIncomplete(s)
  {
    var openBraces := 0;
    var openBrackets := 0;
    var inString := false;
    for i := 0 to |s|
      invariant ScanState(inString, openBraces, openBrackets) == Scan(s[..i])
    {
      ScanStep(s, i);
      var c := s[i];
      var prev := if i > 0 then [s[i - 1]] else "";
      if c == '"' && prev != "\\" {
        inString := !inString;
      } else if !inString {
        if c == '{' {
          openBraces := openBraces + 1;
        } else if c == '}' {
          openBraces := openBraces - 1;
        } else if c == '[' {
          openBrackets := openBrackets + 1;
        } else if c == ']' {
          openBrackets := openBrackets - 1;
        }
      }
    }
    assert s[..|s|] == s;
    r := s;
    var k := 0;
    while k < openBrackets
      invariant 0 <= k <= Max0(openBrackets)
      invariant r == s + Repeat(']', k)
    {
      r := r + "]";
      k := k + 1;
    }
    var closedBrackets := r;
    k := 0;
    while k < openBraces
      invariant 0 <= k <= Max0(openBraces)
      invariant r == closedBrackets + Repeat('}', k)
    {
      r := r + "}";
      k := k + 1;
    }
  }

  /** Characters inside an open string are not counted: while no quote appears the scan state stays put. */
  lemma {:induction false} InStringNotCounted(s: string, t: string)
    requires Scan(s).inString
    requires '"' !in t
    ensures Scan(s + t) == Scan(s)
    decreases |t|
  {
    if t == [] {
      assert s + t == s;
    } else {
      var m := |t| - 1;
      assert s + t == (s + t[..m]) + [t[m]];
      assert t[m] in t;
      assert forall c :: c in t[..m] ==> c in t;
      InStringNotCounted(s, t[..m]);
      ScanSnoc(s + t[..m], t[m]);
    }
  }

  /** Appending closers outside a string decrements the matching counter once per closer. */
  lemma {:induction false} ScanClosers(s: string, c: char, k: nat)
    requires !Scan(s).inString
    requires c == ']' || c == '}'
    ensures Scan(s + Repeat(c, k)) == if c == ']' then Scan(s).(brackets := Scan(s).brackets - k)
                                      else Scan(s).(braces := Scan(s).braces - k)
  {
    if k == 0 {
      assert s + Repeat(c, k) == s;
    } else {
      ScanClosers(s, c, k - 1);
      RepeatSnoc(s, c, k);
      ScanCloser(s + Repeat(c, k - 1), c);
    }
  }

  lemma RepeatSnoc(s: string, c: char, k: nat)
    requires k > 0
    ensures s + Repeat(c, k) == (s + Repeat(c, k - 1)) + [c]
  {
    assert Repeat(c, k) == Repeat(c, k - 1) + [c];
  }

  /** One closer read outside a string decrements its counter. */
  lemma ScanCloser(u: string, c: char)
    requires !Scan(u).inString
    requires c == ']' || c == '}'
    ensures Scan(u + [c]) == if c == ']' then Scan(u).(brackets := Scan(u).brackets - 1)
                             else Scan(u).(braces := Scan(u).braces - 1)
  {
    ScanSnoc(u, c);
  }

  /**
   * When the text does not end inside a string, the repaired text leaves no
   * bracket and no brace open: each counter ends at min(its count, 0).
   */
  lemma ClosesEverything(s: string)
    requires !Scan(s).inString
    ensures Scan(FixIncomplete(s)) == ScanState(false, Scan(s).braces - Max0(Scan(s).braces), Scan(s).brackets - Max0(Scan(s).brackets))
  {
    var st := Scan(s);
    var a := s + Repeat(']', Max0(st.brackets));
    ScanClosers(s, ']', Max0(st.brackets));
    ScanClosers(a, '}', Max0(st.braces));
  }

  // ---------------------------------------------------------------------
  // The third attempt: /\{[\s\S]*\}/
  // ---------------------------------------------------------------------

  /**
   * The match of the greedy regular expression /\{[\s\S]*\}/: from the first
   * '{' to the last '}', when a '}' follows some '{'.
   */
  function GreedyObjectSpan(s: string): (r: Option<string>)
    ensures r.Some? ==> |r.value| >= 2 && r.value[0] == '{' && r.value[|r.value| - 1] == '}'
  {
    var a := IndexOf(s, '{');
    var b := LastIndexOf(s, '}');
    if a >= 0 && b > a then Some(s[a..b + 1]) else None
  }

  /**
   * There is a span exactly when some '{' comes before some '}', and the
   * span is then a stretch of the text with no '{' before it and no '}'
   * after it.
   */
  lemma GreedyObjectSpanBounds(s: string)
    ensures GreedyObjectSpan(s).None? <==> forall x, y :: 0 <= x < y < |s| ==> !(s[x] == '{' && s[y] == '}')
    ensures GreedyObjectSpan(s).Some? ==>
              var span := GreedyObjectSpan(s).value;
              exists a :: OccursAt(s, span, a) && '{' !in s[..a] && '}' !in s[a + |span|..]
  {
    var a := IndexOf(s, '{');
    var b := LastIndexOf(s, '}');
    if a >= 0 && b > a {
      assert OccursAt(s, s[a..b + 1], a);
    } else {
      forall x, y | 0 <= x < y < |s| ensures !(s[x] == '{' && s[y] == '}') {
        if a < 0 {
          assert s[x] in s;
        } else if b < 0 {
          assert s[y] in s;
        } else if x < a {
          assert s[..a][x] == s[x];
        } else {
          assert s[b + 1..][y - b - 1] == s[y];
        }
      }
    }
  }

  /** Prose around one object, with no brace before it and no closing brace after it: the span is that object. */
  lemma EmbeddedSpan(prose: string, obj: string, tail: string)
    requires |obj| >= 2 && obj[0] == '{' && obj[|obj| - 1] == '}'
    requires '{' !in prose && '}' !in tail
    ensures GreedyObjectSpan(prose + obj + tail) == Some(obj)
  {
    var s := prose + obj + tail;
    var a := |prose|;
    var b := |prose| + |obj| - 1;
    assert s[..a] == prose;
    assert s[b + 1..] == tail;
    IndexOfIs(s, '{', a);
    LastIndexOfIs(s, '}', b);
    assert s[a..b + 1] == obj;
  }

  // ---------------------------------------------------------------------
  // safeJSONParse
  // ---------------------------------------------------------------------

  /** `{ error: message }`. */
  function ErrorObject(message: string): Value
  {
    Obj([Field("error", Str(message))])
  }

  /** The object returned when all three attempts fail. */
  function FailureObject(firstError: string, raw: string): Value
  {
    Obj([Field("error", Str("Failed to parse JSON response")),
         Field("originalError", Str(firstError)),
         Field("rawResponse", Str(raw))])
  }

  /** The failure object says parsing failed and carries the first error and the raw text. */
  lemma FailureObjectFields(firstError: string, raw: string)
    ensures Get(FailureObject(firstError, raw), "error") == Str("Failed to parse JSON response")
    ensures Get(FailureObject(firstError, raw), "originalError") == Str(firstError)
    ensures Get(FailureObject(firstError, raw), "rawResponse") == Str(raw)
  {
    var fs := FailureObject(firstError, raw).fields;
    assert fs[1..] == [fs[1], fs[2]];
    assert fs[1..][1..] == [fs[2]];
  }

  /** The text of the second attempt: trimmed, quote-fixed, then bracket-closed. */
  function SecondAttempt(s: string): string
  {
    FixIncomplete(FixQuotes(Trim(s)))
  }

  /** safeJSONParse(input), where `parse` stands for JSON.parse. */
  function SafeJSONParse(input: Value, parse: string -> ParseResult): (r: ParseTrace)
    // a non-string or empty input is refused before any parse
    ensures !(input.Str? && input.s != "") ==> r == ParseTrace(ErrorObject("Invalid response format"), [])
    // a text JSON.parse accepts is returned exactly as parsed, after one attempt
    ensures input.Str? && input.s != "" && parse(input.s).Parsed? ==> r == ParseTrace(parse(input.s).value, [input.s])
  {
    if !(input.Str? && input.s != "") then ParseTrace(ErrorObject("Invalid response format"), [])
    else
      var s := input.s;
      match parse(s)
      case Parsed(v) => ParseTrace(v, [s])
      case ParseError(firstError) =>
        var second := SecondAttempt(s);
        match parse(second)
        case Parsed(v) => ParseTrace(v, [s, second])
        case ParseError(_) =>
          match GreedyObjectSpan(s)
          case None => ParseTrace(FailureObject(firstError, s), [s, second])
          case Some(span) =>
            var third := FixQuotes(span);
            match parse(third)
            case Parsed(v) => ParseTrace(v, [s, second, third])
            case ParseError(_) => ParseTrace(FailureObject(firstError, s), [s, second, third])
  }

  /**
   * The cascade of a text input: the text itself, then the repaired text,
   * then the quote-fixed greedy span. Each attempt is made only after the
   * previous one failed, the third whenever there is a span.
   */
  lemma SafeJSONParseCascade(s: string, parse: string -> ParseResult)
    requires s != ""
    ensures var r := SafeJSONParse(Str(s), parse);
      && 1 <= |r.attempts| <= 3
      && r.attempts[0] == s
      && (|r.attempts| >= 2 ==> r.attempts[1] == SecondAttempt(s))
      && (|r.attempts| == 3 ==> GreedyObjectSpan(s).Some? && r.attempts[2] == FixQuotes(GreedyObjectSpan(s).value))
  {
    if parse(s).Parsed? {
    } else if parse(SecondAttempt(s)).Parsed? {
      SecondAttemptParses(s, parse);
    } else if GreedyObjectSpan(s).None? {
      NoSpanFails(s, parse);
    } else {
      ThirdAttempt(s, GreedyObjectSpan(s).value, parse);
    }
  }

  /**
   * The cascade stops at the first success: every attempt but the last
   * failed, and stopping before the third means success or no span.
   */
  lemma SafeJSONParseStops(s: string, parse: string -> ParseResult)
    requires s != ""
    ensures var r := SafeJSONParse(Str(s), parse);
      && |r.attempts| > 0
      && (forall k :: 0 <= k < |r.attempts| - 1 ==> parse(r.attempts[k]).ParseError?)
      && (|r.attempts| < 3 ==> parse(r.attempts[|r.attempts| - 1]).Parsed? || GreedyObjectSpan(s).None?)
  {
    if parse(s).Parsed? {
    } else if parse(SecondAttempt(s)).Parsed? {
      SecondAttemptParses(s, parse);
    } else if GreedyObjectSpan(s).None? {
      NoSpanFails(s, parse);
    } else {
      ThirdAttempt(s, GreedyObjectSpan(s).value, parse);
    }
  }

  /** The cascade's result: what the last attempt parsed to, or the failure object naming the first error. */
  lemma SafeJSONParseResult(s: string, parse: string -> ParseResult)
    requires s != ""
    ensures var r := SafeJSONParse(Str(s), parse);
      && |r.attempts| > 0
      && (parse(r.attempts[|r.attempts| - 1]).Parsed? ==> r.value == parse(r.attempts[|r.attempts| - 1]).value)
      && (parse(r.attempts[|r.attempts| - 1]).ParseError? ==> r.value == FailureObject(parse(s).message, s))
  {
    if parse(s).Parsed? {
    } else if parse(SecondAttempt(s)).Parsed? {
      SecondAttemptParses(s, parse);
    } else if GreedyObjectSpan(s).None? {
      NoSpanFails(s, parse);
    } else {
      ThirdAttempt(s, GreedyObjectSpan(s).value, parse);
    }
  }

  /**
   * An object wrapped in prose without braces ("Sure! {...} Let me know") is
   * found by the third attempt when the first two fail: its quote-fixed text
   * is what gets parsed.
   */
  lemma EmbeddedObjectRecovered(prose: string, obj: string, tail: string, parse: string -> ParseResult)
    requires |obj| >= 2 && obj[0] == '{' && obj[|obj| - 1] == '}'
    requires '{' !in prose && '}' !in tail
    requires parse(prose + obj + tail).ParseError?
    requires parse(SecondAttempt(prose + obj + tail)).ParseError?
    ensures SafeJSONParse(Str(prose + obj + tail), parse).attempts == [prose + obj + tail, SecondAttempt(prose + obj + tail), FixQuotes(obj)]
    ensures parse(FixQuotes(obj)).Parsed? ==> SafeJSONParse(Str(prose + obj + tail), parse).value == parse(FixQuotes(obj)).value
  {
    EmbeddedSpan(prose, obj, tail);
    ThirdAttempt(prose + obj + tail, obj, parse);
  }

  /** After two failed attempts, a text with a span has that span, quote-fixed, parsed third. */
  lemma ThirdAttempt(s: string, span: string, parse: string -> ParseResult)
    requires s != ""
    requires parse(s).ParseError? && parse(SecondAttempt(s)).ParseError?
    requires GreedyObjectSpan(s) == Some(span)
    ensures SafeJSONParse(Str(s), parse).attempts == [s, SecondAttempt(s), FixQuotes(span)]
    ensures parse(FixQuotes(span)).Parsed? ==> SafeJSONParse(Str(s), parse).value == parse(FixQuotes(span)).value
    ensures parse(FixQuotes(span)).ParseError? ==> SafeJSONParse(Str(s), parse).value == FailureObject(parse(s).message, s)
  {
  }

  /** A text the first attempt rejects and the second accepts is what the second attempt parsed to. */
  lemma SecondAttemptParses(s: string, parse: string -> ParseResult)
    requires s != ""
    requires parse(s).ParseError? && parse(SecondAttempt(s)).Parsed?
    ensures SafeJSONParse(Str(s), parse) == ParseTrace(parse(SecondAttempt(s)).value, [s, SecondAttempt(s)])
  {
  }

  /** With two failed attempts and no span, the result is the failure object after two attempts. */
  lemma NoSpanFails(s: string, parse: string -> ParseResult)
    requires s != ""
    requires parse(s).ParseError? && parse(SecondAttempt(s)).ParseError?
    requires GreedyObjectSpan(s).None?
    ensures SafeJSONParse(Str(s), parse) == ParseTrace(FailureObject(parse(s).message, s), [s, SecondAttempt(s)])
  {
  }
}
