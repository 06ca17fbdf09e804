// JavaScript values as the assistant handles them: parsed provider replies,
// wine records and debug payloads. Objects keep their keys in insertion
// order, as JavaScript objects do for non-numeric keys.

module JsValues {
  import opened Text

  /** A JavaScript value. Numbers are modelled as integers; a function keeps its source text. */
  datatype Value =
    | Undefined
    | Null
    | Bool(b: bool)
    | Num(n: int)
    | Str(s: string)
    | Arr(items: seq<Value>)
    | Obj(fields: seq<Field>)
    | Func(source: string)

  /** One own property of an object. */
  datatype Field = Field(key: string, val: Value)

  datatype Option<T> = None | Some(value: T)

  /** The outcome of evaluating code that may throw: a value, or the message of the thrown error. */
  datatype Completion<T> = Normal(value: T) | Thrown(message: string)

  /** JavaScript truthiness. */
  predicate Truthy(v: Value)
  {
    match v
    case Undefined => false
    case Null => false
    case Bool(b) => b
    case Num(n) => n != 0
    case Str(s) => s != ""
    case _ => true
  }

  /** `null` or `undefined`: reading a property of these throws a TypeError. */
  predicate Nullish(v: Value)
  {
    v.Undefined? || v.Null?
  }

  /** JavaScript's `a || b`. */
  function Or(a: Value, b: Value): Value
  {
    if Truthy(a) then a else b
  }

  /** The set of keys of an object's fields. */
  function Keys(fs: seq<Field>): set<string>
  {
    set i | 0 <= i < |fs| :: fs[i].key
  }

  /** `obj[k]` on an object: the value of the first field named `k`, or undefined. */
  function Lookup(fs: seq<Field>, k: string): (r: Value)
    ensures k !in Keys(fs) ==> r == Undefined
    ensures k in Keys(fs) ==> exists i :: 0 <= i < |fs| && fs[i].key == k && r == fs[i].val
  {
    if fs == [] then Undefined
    else if fs[0].key == k then fs[0].val
    else
      var r := Lookup(fs[1..], k);
      KeysCons(fs);
      if k in Keys(fs[1..]) then
        var i :| 0 <= i < |fs[1..]| && fs[1..][i].key == k && r == fs[1..][i].val;
        assert fs[i + 1].key == k;
        r
      else
        r
  }

  /** `v.k` for a value that is not null or undefined: only objects have named fields here. */
  function Get(v: Value, k: string): Value
  {
    if v.Obj? then Lookup(v.fields, k) else Undefined
  }

  /** `obj[k] = v`: an existing field keeps its position and takes the new value; a new key is appended. */
  function Set(fs: seq<Field>, k: string, v: Value): (r: seq<Field>)
    ensures Lookup(r, k) == v
    ensures forall j :: j != k ==> Lookup(r, j) == Lookup(fs, j)
    ensures Keys(r) == Keys(fs) + {k}
    ensures k in Keys(fs) ==> |r| == |fs|
    ensures k !in Keys(fs) ==> |r| == |fs| + 1
  {
    if fs == [] then [Field(k, v)]
    else if fs[0].key == k then
      var r := [Field(k, v)] + fs[1..];
      assert Keys(r) == Keys(fs) by {
        assert forall i :: 0 <= i < |fs| ==> r[i].key == fs[i].key;
      }
      r
    else
      var rest := Set(fs[1..], k, v);
      var r := [fs[0]] + rest;
      assert r[1..] == rest;
      KeysCons(fs);
      KeysCons(r);
      r
  }

  lemma KeysCons(fs: seq<Field>)
    requires fs != []
    ensures Keys(fs) == {fs[0].key} + Keys(fs[1..])
  {
    forall x | x in Keys(fs) ensures x in {fs[0].key} + Keys(fs[1..]) {
      var i :| 0 <= i < |fs| && fs[i].key == x;
      if i > 0 { assert fs[1..][i - 1].key == x; }
    }
    forall x | x in Keys(fs[1..]) ensures x in Keys(fs) {
      var i :| 0 <= i < |fs[1..]| && fs[1..][i].key == x;
      assert fs[i + 1].key == x;
    }
  }

  /** `{...target, ...source}`: the fields of `source` assigned in order onto `target`. */
  function Assign(target: seq<Field>, source: seq<Field>): (r: seq<Field>)
    ensures Keys(r) == Keys(target) + Keys(source)
    ensures forall k :: k !in Keys(source) ==> Lookup(r, k) == Lookup(target, k)
    decreases |source|
  {
    if source == [] then target
    else
      KeysCons(source);
      Assign(Set(target, source[0].key, source[0].val), source[1..])
  }

  /** In a spread the last field of `source` with a given key decides that key's value. */
  lemma {:induction false} AssignLastWins(target: seq<Field>, source: seq<Field>, i: int)
    requires 0 <= i < |source|
    requires forall j :: i < j < |source| ==> source[j].key != source[i].key
    ensures Lookup(Assign(target, source), source[i].key) == source[i].val
    decreases |source|
  {
    var k := source[i].key;
    var t' := Set(target, source[0].key, source[0].val);
    if i == 0 {
      assert forall j :: 0 <= j < |source[1..]| ==> source[1..][j].key != k;
    } else {
      AssignLastWins(t', source[1..], i - 1);
    }
  }

  /**
   * `{...v}`: the own enumerable fields a spread copies. An object gives its
   * fields, a string one field per character and an array one field per
   * element, keyed by the index; every other value gives none.
   */
  function AsFields(v: Value): seq<Field>
  {
    match v
    case Obj(fs) => fs
    case Str(s) => seq(|s|, i requires 0 <= i < |s| => Field(NatToString(i), Str([s[i]])))
    case Arr(items) => seq(|items|, i requires 0 <= i < |items| => Field(NatToString(i), items[i]))
    case _ => []
  }

  /** The number of index fields a string or an array spreads into. */
  function IndexCount(v: Value): nat
  {
    match v
    case Str(s) => |s|
    case Arr(items) => |items|
    case _ => 0
  }

  /** `{...v}[i]` for a string or an array: the character or the element at index `i`. */
  lemma SpreadIndexField(v: Value, i: nat)
    requires v.Str? || v.Arr?
    requires i < IndexCount(v)
    ensures Lookup(AsFields(v), NatToString(i)) == (if v.Str? then Str([v.s[i]]) else v.items[i])
  {
    var fs := AsFields(v);
    forall j | 0 <= j < i ensures fs[j].key != fs[i].key {
      assert DigitsValue(fs[j].key) == j;
    }
    LookupAt(fs, i);
  }

  /** A key holding a character other than a digit names no index field, so `v.k` reads the spread copy. */
  lemma GetNamedKey(v: Value, k: string)
    requires exists i :: 0 <= i < |k| && !IsDigit(k[i])
    ensures Get(v, k) == Lookup(AsFields(v), k)
  {
    if !v.Obj? {
      var fs := AsFields(v);
      forall j | 0 <= j < |fs| ensures fs[j].key != k {
        var t := NatToString(j);
        assert forall c :: 0 <= c < |t| ==> IsDigit(t[c]);
      }
    }
  }

  /** The TypeError V8 raises when reading property `key` of null or undefined. */
  function ReadError(v: Value, key: string): string
    requires Nullish(v)
  {
    "Cannot read properties of " + (if v.Null? then "null" else "undefined") + " (reading '" + key + "')"
  }

  /** String conversion of a value inside a template literal, `${v}`. */
  function Display(v: Value): string
  {
    match v
    case Undefined => "undefined"
    case Null => "null"
    case Bool(b) => if b then "true" else "false"
    case Num(n) => IntToString(n)
    case Str(s) => s
    case Arr(items) => DisplayItems(items)
    case Obj(_) => "[object Object]"
    case Func(source) => source
  }

  /** Array.prototype.toString: elements joined by ',', with null and undefined shown empty. */
  function DisplayItems(items: seq<Value>): string
  {
    if items == [] then ""
    else
      var head := if Nullish(items[0]) then "" else Display(items[0]);
      if |items| == 1 then head else head + "," + DisplayItems(items[1..])
  }

  /** Index of the first null or undefined element, or -1: where a `map` reading a property of each element throws. */
  function FirstNullish(items: seq<Value>): (r: int)
    ensures -1 <= r < |items|
    ensures r == -1 <==> forall i :: 0 <= i < |items| ==> !Nullish(items[i])
    ensures r >= 0 ==> Nullish(items[r]) && forall j :: 0 <= j < r ==> !Nullish(items[j])
  {
    if |items| == 0 then -1
    else if Nullish(items[0]) then 0
    else
      var k := FirstNullish(items[1..]);
      assert forall i :: 1 <= i < |items| ==> items[i] == items[1..][i - 1];
      if k == -1 then -1 else k + 1
  }

  /** The field at index `i` decides `obj[k]` when no earlier field has that key. */
  lemma {:induction false} LookupAt(fs: seq<Field>, i: nat)
    requires i < |fs|
    requires forall j :: 0 <= j < i ==> fs[j].key != fs[i].key
    ensures Lookup(fs, fs[i].key) == fs[i].val
    decreases i
  {
    if i > 0 {
      assert fs[1..][i - 1] == fs[i];
      LookupAt(fs[1..], i - 1);
    }
  }

  /** Keys absent from the first part of a field list are looked up in the rest. */
  lemma {:induction false} LookupSkip(a: seq<Field>, b: seq<Field>, k: string)
    requires forall j :: 0 <= j < |a| ==> a[j].key != k
    ensures Lookup(a + b, k) == Lookup(b, k)
    decreases |a|
  {
    if |a| == 0 {
      assert a + b == b;
    } else {
      assert (a + b)[0] == a[0] && (a + b)[1..] == a[1..] + b;
      LookupSkip(a[1..], b, k);
    }
  }
}
