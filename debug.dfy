// The debug panel's data side: the bounded, newest-first log of provider
// calls, the sanitiser that turns any payload into a depth-limited copy with
// long arrays, wide objects and base64 blobs cut down, the base64 heuristic,
// and the HTML escape applied before highlighting.

module Debug {
  import opened Text
  import opened JsValues
  import opened AppState

  // ---------------------------------------------------------------------
  // logDebug
  // ---------------------------------------------------------------------

  /** The log keeps this many entries, newest first. */
  const LogCap: nat := 100

  /**
   * `{ ...data }` with a defined `duration` replaced by its text in seconds;
   * `seconds` stands for `(d / 1000).toFixed(1)`.
   */
  function ProcessedData(data: Value, seconds: Value -> Value): (r: seq<Field>)
    ensures Keys(r) == Keys(AsFields(data))
    ensures forall k :: k != "duration" ==> Lookup(r, k) == Lookup(AsFields(data), k)
    ensures Lookup(AsFields(data), "duration") != Undefined ==> Lookup(r, "duration") == seconds(Lookup(AsFields(data), "duration"))
    ensures Lookup(AsFields(data), "duration") == Undefined ==> r == AsFields(data)
  {
    var fs := AsFields(data);
    var d := Lookup(fs, "duration");
    if d != Undefined then Set(fs, "duration", seconds(d)) else fs
  }

  /** The entry's own fields, in the order the literal writes them. */
  function EntryHead(timestamp: string, kind: Value, provider: Value, model: Value): seq<Field>
  {
    [Field("timestamp", Str(timestamp)), Field("type", kind), Field("provider", provider), Field("model", model)]
  }

  /** The entry logDebug records: timestamp, type, provider and model, with the processed data spread over them. */
  function Entry(timestamp: string, kind: Value, provider: Value, model: Value, data: Value, seconds: Value -> Value): Value
  {
    Obj(Assign(EntryHead(timestamp, kind, provider, model), ProcessedData(data, seconds)))
  }

  /** The keys of the entry's own fields. */
  lemma EntryHeadKeys(timestamp: string, kind: Value, provider: Value, model: Value)
    ensures Keys(EntryHead(timestamp, kind, provider, model)) == {"timestamp", "type", "provider", "model"}
  {
    var head := EntryHead(timestamp, kind, provider, model);
    assert head[0].key == "timestamp" && head[1].key == "type" && head[2].key == "provider" && head[3].key == "model";
  }

  /** An entry has the four own keys and the data's keys. */
  lemma EntryKeys(timestamp: string, kind: Value, provider: Value, model: Value, data: Value, seconds: Value -> Value)
    ensures Keys(Entry(timestamp, kind, provider, model, data, seconds).fields)
            == {"timestamp", "type", "provider", "model"} + Keys(AsFields(data))
  {
    EntryHeadKeys(timestamp, kind, provider, model);
  }

  /** A data field is spread last, so it overrides the entry's own field of that name. */
  lemma EntryDataWins(timestamp: string, kind: Value, provider: Value, model: Value, data: Value, seconds: Value -> Value, i: int)
    requires var pd := ProcessedData(data, seconds);
             0 <= i < |pd| && forall j :: i < j < |pd| ==> pd[j].key != pd[i].key
    ensures var pd := ProcessedData(data, seconds);
            Get(Entry(timestamp, kind, provider, model, data, seconds), pd[i].key) == pd[i].val
  {
    AssignLastWins(EntryHead(timestamp, kind, provider, model), ProcessedData(data, seconds), i);
  }

  /** An own field of the entry that the data does not name keeps its value. */
  lemma EntryKeepsOwn(timestamp: string, kind: Value, provider: Value, model: Value, data: Value, seconds: Value -> Value, i: nat)
    requires i < 4
    requires EntryHead(timestamp, kind, provider, model)[i].key !in Keys(AsFields(data))
    ensures var head := EntryHead(timestamp, kind, provider, model);
            Get(Entry(timestamp, kind, provider, model, data, seconds), head[i].key) == head[i].val
  {
    LookupAt(EntryHead(timestamp, kind, provider, model), i);
  }

  /**
   * The log after one call: unchanged when debugging is off; otherwise the
   * entry in front, every earlier entry one place later, cut to the cap.
   */
  function LogAfter(log: seq<Value>, enabled: bool, entry: Value): (r: seq<Value>)
    ensures !enabled ==> r == log
    ensures enabled ==> |r| == (if |log| + 1 > LogCap then LogCap else |log| + 1)
    ensures enabled ==> r[0] == entry && forall i :: 1 <= i < |r| ==> r[i] == log[i - 1]
    ensures |log| <= LogCap ==> |r| <= LogCap
  {
    if !enabled then log
    else
      var added := [entry] + log;
      if |added| > LogCap then added[..LogCap] else added
  }

  /** Two calls in a row: the later entry first, the earlier one second. */
  lemma {:induction false} LogNewestFirst(log: seq<Value>, first: Value, second: Value)
    ensures var r := LogAfter(LogAfter(log, true, first), true, second);
            |r| >= 2 && r[0] == second && r[1] == first
  {
    var once := LogAfter(log, true, first);
    assert |once| >= 1 && once[0] == first;
  }

  class DebugManager {
    const app: App

    constructor(app: App)
      ensures this.app == app
    {
      this.app := app;
    }

    /**
     * `logDebug(type, provider, model, data)`. The clock's formatted time and
     * the seconds formatting are parameters.
     */
    method LogDebug(kind: Value, provider: Value, model: Value, data: Value, timestamp: string, seconds: Value -> Value)
      modifies app`debugLog
      ensures app.debugLog == LogAfter(old(app.debugLog), app.debugEnabled, Entry(timestamp, kind, provider, model, data, seconds))
    {
      if !app.debugEnabled {
        return;
      }
      var processedData := AsFields(data);
      if Lookup(processedData, "duration") != Undefined {
        processedData := Set(processedData, "duration", seconds(Lookup(processedData, "duration")));
      }
      var entry := Obj(Assign(EntryHead(timestamp, kind, provider, model), processedData));
      app.debugLog := [entry] + app.debugLog;
      if |app.debugLog| > LogCap {
        app.debugLog := app.debugLog[..LogCap];
      }
    }
  }

  // ---------------------------------------------------------------------
  // isBase64AudioData
  // ---------------------------------------------------------------------

  /** A character of the class [A-Za-z0-9+/]. */
  predicate Base64Char(c: char)
  {
    'A' <= c <= 'Z' || 'a' <= c <= 'z' || '0' <= c <= '9' || c == '+' || c == '/'
  }

  /** The number of '=' the text ends with. */
  function TrailingPads(s: string): (r: nat)
    ensures r <= |s|
    ensures forall i :: |s| - r <= i < |s| ==> s[i] == '='
    ensures r < |s| ==> s[|s| - r - 1] != '='
  {
    if s != [] && s[|s| - 1] == '=' then TrailingPads(s[..|s| - 1]) + 1 else 0
  }

  /** The test `/^[A-Za-z0-9+/]*={0,2}$/`: at most two trailing '=', base64 characters before them. */
  predicate Base64Shaped(s: string)
  {
    var t := TrailingPads(s);
    t <= 2 && forall i :: 0 <= i < |s| - t ==> Base64Char(s[i])
  }

  /** The text splits into a base64 body and `m` trailing '='. */
  predicate PadSplit(s: string, m: int)
  {
    && 0 <= m <= 2 && m <= |s|
    && (forall i :: 0 <= i < |s| - m ==> Base64Char(s[i]))
    && (forall i :: |s| - m <= i < |s| ==> s[i] == '=')
  }

  /** Base64Shaped is the regular expression: some split into a base64 body and zero to two '='. */
  lemma Base64ShapedIsRegex(s: string)
    ensures Base64Shaped(s) <==> exists m :: PadSplit(s, m)
  {
    var t := TrailingPads(s);
    if Base64Shaped(s) {
      assert PadSplit(s, t);
    }
    if m :| PadSplit(s, m) {
      if m < |s| {
        assert Base64Char(s[|s| - m - 1]);
      }
      assert t == m;
    }
  }

  /**
   * `isBase64AudioData(str)`: shorter than 1000 is no; a text that is not
   * base64-shaped is no; otherwise longer than 10000.
   */
  function IsBase64AudioData(str: string): (r: bool)
    ensures r <==> |str| > 10000 && Base64Shaped(str)
  {
    if |str| < 1000 then false
    else if !Base64Shaped(str) then false
    else |str| > 10000
  }

  // ---------------------------------------------------------------------
  // createSafeDebugObject
  // ---------------------------------------------------------------------

  const MaxItems: nat := 100
  const MaxKeys: nat := 50

  /** `Math.round(len / 1024)` for a length. */
  function Kilobytes(len: nat): nat
  {
    (len + 512) / 1024
  }

  /** Kilobytes is the nearest whole number of kilobytes, halves rounded up. */
  lemma KilobytesNearest(len: nat)
    ensures -512 <= len - 1024 * Kilobytes(len) < 512
  {
    var k := Kilobytes(len);
    assert (len + 512) == 1024 * k + (len + 512) % 1024;
  }

  predicate StartsWith(s: string, prefix: string)
  {
    |prefix| <= |s| && s[..|prefix|] == prefix
  }

  function Trailer(extra: nat): string
  {
    "[... " + NatToString(extra) + " more items]"
  }

  function AudioPlaceholder(len: nat): string
  {
    "[Base64 Audio Data: " + NatToString(Kilobytes(len)) + "KB]"
  }

  function ImagePlaceholder(len: nat): string
  {
    "[Base64 Image Data: " + NatToString(Kilobytes(len)) + "KB]"
  }

  /** The object loop's variables: the result so far, the `processedKeys` counter, and whether it broke off. */
  datatype Copying = Copying(result: seq<Field>, processed: nat, stopped: bool)

  /**
   * The copy at `depth` of a value: past the depth limit a marker; an array
   * or object copied element by element one level deeper; a DOM node a
   * marker; anything else (null, undefined, primitives, functions) as is.
   */
  function SafeCopy(v: Value, depth: int, maxDepth: int): Value
    decreases maxDepth - depth, 0, 0
  {
    if depth >= maxDepth then Str("[Max depth reached]")
    else
      match v
      case Arr(items) => Arr(SafeItems(items, depth + 1, maxDepth))
      case Obj(fields) =>
        if Truthy(Lookup(fields, "nodeType")) then Str("[DOM Element]")
        else Obj(CopyFields(fields, depth + 1, maxDepth).result)
      case _ => v
  }

  /** The copied array: the first hundred elements copied, then a trailer counting the rest when there are more. */
  function SafeItems(items: seq<Value>, depth: int, maxDepth: int): (r: seq<Value>)
    ensures var n := if |items| < MaxItems then |items| else MaxItems;
            && |r| == n + (if |items| > MaxItems then 1 else 0)
            && (forall i :: 0 <= i < n ==> r[i] == SafeCopy(items[i], depth, maxDepth))
            && (|items| > MaxItems ==> r[n] == Str(Trailer(|items| - MaxItems)))
    decreases maxDepth - depth, 1, 0
  {
    var n := if |items| < MaxItems then |items| else MaxItems;
    seq(n, i requires 0 <= i < n => SafeCopy(items[i], depth, maxDepth))
    + (if |items| > MaxItems then [Str(Trailer(|items| - MaxItems))] else [])
  }

  /** One pass of the object loop over field `f`. */
  function CopyStep(st: Copying, f: Field, depth: int, maxDepth: int): Copying
    decreases maxDepth - depth, 1, 0
  {
    if f.key == "__debugId" then st
    else if st.processed >= MaxKeys then Copying(Set(st.result, "...", Str("[More properties truncated]")), st.processed, true)
    else if f.val.Func? || f.val.Undefined? then st
    else if f.val.Str? && IsBase64AudioData(f.val.s) then
      Copying(Set(st.result, f.key, Str(AudioPlaceholder(|f.val.s|))), st.processed + 1, false)
    else if f.val.Str? && StartsWith(f.val.s, "data:image/") then
      Copying(Set(st.result, f.key, Str(ImagePlaceholder(|f.val.s|))), st.processed + 1, false)
    else Copying(Set(st.result, f.key, SafeCopy(f.val, depth, maxDepth)), st.processed + 1, false)
  }

  /** The object loop over all fields, in order, stopping at the break. */
  function CopyFields(fs: seq<Field>, depth: int, maxDepth: int): Copying
    decreases maxDepth - depth, 2, |fs|
  {
    if fs == [] then Copying([], 0, false)
    else
      var st := CopyFields(fs[..|fs| - 1], depth, maxDepth);
      if st.stopped then st else CopyStep(st, fs[|fs| - 1], depth, maxDepth)
  }

  lemma CopyFieldsSnoc(fs: seq<Field>, i: nat, depth: int, maxDepth: int)
    requires i < |fs|
    ensures CopyFields(fs[..i + 1], depth, maxDepth) ==
              var st := CopyFields(fs[..i], depth, maxDepth);
              if st.stopped then st else CopyStep(st, fs[i], depth, maxDepth)
  {
    assert fs[..i + 1][..i] == fs[..i];
  }

  /** Once the loop has broken off, the remaining fields change nothing. */
  lemma {:induction false} StoppedStays(fs: seq<Field>, k: nat, depth: int, maxDepth: int)
    requires k <= |fs|
    requires CopyFields(fs[..k], depth, maxDepth).stopped
    ensures CopyFields(fs, depth, maxDepth) == CopyFields(fs[..k], depth, maxDepth)
    decreases |fs| - k
  {
    if k < |fs| {
      CopyFieldsSnoc(fs, k, depth, maxDepth);
      StoppedStays(fs, k + 1, depth, maxDepth);
    } else {
      assert fs[..k] == fs;
    }
  }

  /**
   * The loop's state is in bounds against the keys `keys` of the original:
   * at most fifty counted fields, no `__debugId`, only original keys and the
   * `...` marker, and the marker present once it broke off.
   */
  predicate Bounded(c: Copying, keys: set<string>)
  {
    && c.processed <= MaxKeys
    && "__debugId" !in Keys(c.result)
    && Keys(c.result) <= keys + {"..."}
    && (c.stopped ==> Lookup(c.result, "...") == Str("[More properties truncated]"))
  }

  lemma CopyStepBounded(st: Copying, f: Field, keys: set<string>, depth: int, maxDepth: int)
    requires Bounded(st, keys) && !st.stopped && f.key in keys
    ensures Bounded(CopyStep(st, f, depth, maxDepth), keys)
  {
  }

  lemma {:induction false} CopyFieldsBoundedBy(fs: seq<Field>, keys: set<string>, depth: int, maxDepth: int)
    requires Keys(fs) <= keys
    ensures Bounded(CopyFields(fs, depth, maxDepth), keys)
    decreases |fs|
  {
    if fs != [] {
      var n := |fs| - 1;
      assert Keys(fs[..n]) <= Keys(fs) by {
        forall k | k in Keys(fs[..n]) ensures k in Keys(fs) {
          var i :| 0 <= i < n && fs[..n][i].key == k;
          assert fs[i].key == k;
        }
      }
      CopyFieldsBoundedBy(fs[..n], keys, depth, maxDepth);
      assert fs[n].key in Keys(fs);
      var st := CopyFields(fs[..n], depth, maxDepth);
      if !st.stopped {
        CopyStepBounded(st, fs[n], keys, depth, maxDepth);
      }
    }
  }

  /**
   * The copied object counts at most fifty fields, never has `__debugId`,
   * has only keys of the original and the `...` marker, and carries the
   * marker when it broke off.
   */
  lemma CopyFieldsBounds(fs: seq<Field>, depth: int, maxDepth: int)
    ensures var c := CopyFields(fs, depth, maxDepth);
            && c.processed <= MaxKeys
            && c.processed <= |fs|
            && "__debugId" !in Keys(c.result)
            && Keys(c.result) <= Keys(fs) + {"..."}
            && (c.stopped ==> Lookup(c.result, "...") == Str("[More properties truncated]"))
            && |c.result| <= MaxKeys + 1
  {
    CopyFieldsBoundedBy(fs, Keys(fs), depth, maxDepth);
    ProcessedAtMostLength(fs, depth, maxDepth);
    ResultSize(fs, depth, maxDepth);
  }

  /** The copy holds one key per counted field, and the marker besides once it broke off. */
  lemma {:induction false} ResultSize(fs: seq<Field>, depth: int, maxDepth: int)
    ensures var c := CopyFields(fs, depth, maxDepth);
            |c.result| <= c.processed + (if c.stopped then 1 else 0)
    decreases |fs|
  {
    if fs != [] {
      ResultSize(fs[..|fs| - 1], depth, maxDepth);
    }
  }

  /** A function or undefined value below the cap is skipped: the step changes nothing. */
  lemma SkipsFunctionsAndUndefined(st: Copying, f: Field, depth: int, maxDepth: int)
    requires st.processed < MaxKeys
    requires f.val.Func? || f.val.Undefined?
    ensures CopyStep(st, f, depth, maxDepth) == st
  {
  }

  /** An object whose values are all functions or undefined copies to an empty object. */
  lemma {:induction false} OnlySkippedValues(fs: seq<Field>, depth: int, maxDepth: int)
    requires forall i :: 0 <= i < |fs| ==> fs[i].val.Func? || fs[i].val.Undefined?
    ensures CopyFields(fs, depth, maxDepth) == Copying([], 0, false)
    decreases |fs|
  {
    if fs != [] {
      var n := |fs| - 1;
      OnlySkippedValues(fs[..n], depth, maxDepth);
      SkipsFunctionsAndUndefined(CopyFields(fs[..n], depth, maxDepth), fs[n], depth, maxDepth);
    }
  }

  /** A step below the cap never breaks off. */
  lemma CopyStepGoesOn(st: Copying, f: Field, depth: int, maxDepth: int)
    requires !st.stopped && st.processed < MaxKeys
    ensures !CopyStep(st, f, depth, maxDepth).stopped
  {
  }

  /** Each field counts at most once. */
  lemma {:induction false} ProcessedAtMostLength(fs: seq<Field>, depth: int, maxDepth: int)
    ensures CopyFields(fs, depth, maxDepth).processed <= |fs|
    decreases |fs|
  {
    if fs != [] {
      ProcessedAtMostLength(fs[..|fs| - 1], depth, maxDepth);
    }
  }

  /** An object of at most fifty fields is never cut off. */
  lemma NoTruncationUnderCap(fs: seq<Field>, depth: int, maxDepth: int)
    requires |fs| <= MaxKeys
    ensures !CopyFields(fs, depth, maxDepth).stopped
  {
    if fs != [] {
      NeverStopsEarly(fs, |fs|, depth, maxDepth);
      assert fs[..|fs|] == fs;
    }
  }

  lemma {:induction false} NeverStopsEarly(fs: seq<Field>, k: nat, depth: int, maxDepth: int)
    requires k <= |fs| && k <= MaxKeys
    ensures !CopyFields(fs[..k], depth, maxDepth).stopped
  {
    if k > 0 {
      NeverStopsEarly(fs, k - 1, depth, maxDepth);
      CopyFieldsSnoc(fs, k - 1, depth, maxDepth);
      ProcessedAtMostLength(fs[..k - 1], depth, maxDepth);
      CopyStepGoesOn(CopyFields(fs[..k - 1], depth, maxDepth), fs[k - 1], depth, maxDepth);
    }
  }

  /** `createSafeDebugObject(obj, currentDepth, maxDepth)` on an acyclic value. */
  method CreateSafeDebugObject(obj: Value, currentDepth: int, maxDepth: int) returns (r: Value)
    ensures r == SafeCopy(obj, currentDepth, maxDepth)
    decreases maxDepth - currentDepth, 0
  {
    if currentDepth >= maxDepth {
      return Str("[Max depth reached]");
    }
    match obj {
      case Arr(items) =>
        var result: seq<Value> := [];
        var n := if |items| < MaxItems then |items| else MaxItems;
        for i := 0 to n
          invariant |result| == i
          invariant forall j :: 0 <= j < i ==> result[j] == SafeCopy(items[j], currentDepth + 1, maxDepth)
        {
          var copy := CreateSafeDebugObject(items[i], currentDepth + 1, maxDepth);
          result := result + [copy];
        }
        if |items| > MaxItems {
          result := result + [Str(Trailer(|items| - MaxItems))];
        }
        r := Arr(result);
      case Obj(fields) =>
        if Truthy(Lookup(fields, "nodeType")) {
          return Str("[DOM Element]");
        }
        r := CopyObject(fields, currentDepth + 1, maxDepth);
      case _ =>
        r := obj;
    }
  }

  /** The object branch's loop, with its `processedKeys` counter and its break. */
  method CopyObject(fields: seq<Field>, depth: int, maxDepth: int) returns (r: Value)
    ensures r == Obj(CopyFields(fields, depth, maxDepth).result)
    decreases maxDepth - depth, 1
  {
    var result: seq<Field> := [];
    var processedKeys: nat := 0;
    for i := 0 to |fields|
      invariant CopyFields(fields[..i], depth, maxDepth) == Copying(result, processedKeys, false)
    {
      CopyFieldsSnoc(fields, i, depth, maxDepth);
      var key := fields[i].key;
      var value := fields[i].val;
      if key == "__debugId" {
        continue;
      }
      if processedKeys >= MaxKeys {
        result := Set(result, "...", Str("[More properties truncated]"));
        StoppedStays(fields, i + 1, depth, maxDepth);
        break;
      }
      if value.Func? || value.Undefined? {
        continue;
      }
      if value.Str? {
        if IsBase64AudioData(value.s) {
          result := Set(result, key, Str(AudioPlaceholder(|value.s|)));
          processedKeys := processedKeys + 1;
          continue;
        } else if StartsWith(value.s, "data:image/") {
          result := Set(result, key, Str(ImagePlaceholder(|value.s|)));
          processedKeys := processedKeys + 1;
          continue;
        }
      }
      var copy := CreateSafeDebugObject(value, depth, maxDepth);
      result := Set(result, key, copy);
      processedKeys := processedKeys + 1;
    }
    assert fields[..|fields|] == fields;
    r := Obj(result);
  }

  // ---------------------------------------------------------------------
  // The HTML escape of syntaxHighlightJSON
  // ---------------------------------------------------------------------

  /** `json.replace(/&/g, '&amp;').replace(/</g, '&lt;').replace(/>/g, '&gt;')`. */
  function EscapeHtml(json: string): (r: string)
    ensures '<' !in r && '>' !in r
  {
    ReplaceAll(ReplaceAll(ReplaceAll(json, '&', "&amp;"), '<', "&lt;"), '>', "&gt;")
  }

  /** The escape of one character. */
  function EscapeChar(c: char): string
  {
    if c == '&' then "&amp;" else if c == '<' then "&lt;" else if c == '>' then "&gt;" else [c]
  }

  /** Escaping character by character. */
  function EscapeEach(s: string): string
  {
    if s == [] then [] else EscapeChar(s[0]) + EscapeEach(s[1..])
  }

  /** Reading the three entities back, left to right. */
  function Unescape(t: string): string
    decreases |t|
  {
    if t == [] then []
    else if |t| >= 5 && t[..5] == "&amp;" then "&" + Unescape(t[5..])
    else if |t| >= 4 && t[..4] == "&lt;" then "<" + Unescape(t[4..])
    else if |t| >= 4 && t[..4] == "&gt;" then ">" + Unescape(t[4..])
    else [t[0]] + Unescape(t[1..])
  }

  lemma {:induction false} ReplaceAllAbsent(s: string, c: char, rep: string)
    requires c !in s
    ensures ReplaceAll(s, c, rep) == s
    decreases |s|
  {
    if s != [] {
      assert s[0] != c;
      assert forall d :: d in s[1..] ==> d in s;
      ReplaceAllAbsent(s[1..], c, rep);
    }
  }

  /** The three passes escape each character on its own: no entity a pass inserts is touched by a later pass. */
  lemma {:induction false} EscapeHtmlEach(s: string)
    ensures EscapeHtml(s) == EscapeEach(s)
    decreases |s|
  {
    if s != [] {
      EscapeHtmlEach(s[1..]);
      var x := s[0];
      var r1 := ReplaceAll(s, '&', "&amp;");
      assert r1 == (if x == '&' then "&amp;" else [x]) + ReplaceAll(s[1..], '&', "&amp;");
      var head1 := if x == '&' then "&amp;" else [x];
      var tail1 := ReplaceAll(s[1..], '&', "&amp;");
      ReplaceAllAppend(head1, tail1, '<', "&lt;");
      var head2 := ReplaceAll(head1, '<', "&lt;");
      var tail2 := ReplaceAll(tail1, '<', "&lt;");
      ReplaceAllAppend(head2, tail2, '>', "&gt;");
      EscapeCharPasses(x);
    }
  }

  lemma EscapeCharPasses(x: char)
    ensures var head1 := if x == '&' then "&amp;" else [x];
            ReplaceAll(ReplaceAll(head1, '<', "&lt;"), '>', "&gt;") == EscapeChar(x)
  {
    if x == '&' {
      ReplaceAllAbsent("&amp;", '<', "&lt;");
      ReplaceAllAbsent("&amp;", '>', "&gt;");
    } else if x == '<' {
      assert ReplaceAll([x], '<', "&lt;") == "&lt;";
      ReplaceAllAbsent("&lt;", '>', "&gt;");
    } else {
      assert ReplaceAll([x], '<', "&lt;") == [x];
    }
  }

  lemma SplitAt(a: string, rest: string)
    ensures (a + rest)[..|a|] == a && (a + rest)[|a|..] == rest
  {
  }

  lemma UnescapeAmp(rest: string)
    ensures Unescape("&amp;" + rest) == "&" + Unescape(rest)
  {
    SplitAt("&amp;", rest);
  }

  lemma UnescapeLt(rest: string)
    ensures Unescape("&lt;" + rest) == "<" + Unescape(rest)
  {
    var t := "&lt;" + rest;
    SplitAt("&lt;", rest);
    assert |t| < 5 || t[..5][1] != "&amp;"[1];
  }

  lemma UnescapeGt(rest: string)
    ensures Unescape("&gt;" + rest) == ">" + Unescape(rest)
  {
    var t := "&gt;" + rest;
    SplitAt("&gt;", rest);
    assert |t| < 5 || t[..5][1] != "&amp;"[1];
    assert t[..4][1] != "&lt;"[1];
  }

  lemma UnescapeOther(x: char, rest: string)
    requires x != '&' && x != '<' && x != '>'
    ensures Unescape([x] + rest) == [x] + Unescape(rest)
  {
    var t := [x] + rest;
    assert t[0] == x && t[1..] == rest;
    assert |t| < 5 || t[..5][0] != '&';
    assert |t| < 4 || t[..4][0] != '&';
  }

  /** Unescaping an escaped character gives the character back, whatever follows. */
  lemma UnescapeChar(x: char, rest: string)
    ensures Unescape(EscapeChar(x) + rest) == [x] + Unescape(rest)
  {
    if x == '&' {
      UnescapeAmp(rest);
    } else if x == '<' {
      UnescapeLt(rest);
    } else if x == '>' {
      UnescapeGt(rest);
    } else {
      UnescapeOther(x, rest);
    }
  }

  /** The escape loses nothing: reading the entities back gives the text. */
  lemma {:induction false} UnescapeEscape(s: string)
    ensures Unescape(EscapeHtml(s)) == s
  {
    EscapeHtmlEach(s);
    UnescapeEach(s);
  }

  lemma {:induction false} UnescapeEach(s: string)
    ensures Unescape(EscapeEach(s)) == s
    decreases |s|
  {
    if s != [] {
      UnescapeEach(s[1..]);
      UnescapeChar(s[0], EscapeEach(s[1..]));
    }
  }
}
