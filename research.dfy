// Research of the priced wines: contiguous batches of ten, the numbered list
// text a batch is described by, one research call per batch, the merge that
// backstops the reply's name and menu price from the extracted records, the
// fallback records for an unusable reply, and the final wine list.

module Research {
  import opened Text
  import opened JsValues
  import opened Config
  import opened Requests
  import opened Prompts

  const BatchSize: nat := 10

  function Min(a: int, b: int): int
  {
    if a <= b then a else b
  }

  // ---------------------------------------------------------------------
  // Batches
  // ---------------------------------------------------------------------

  /** `xs` cut into consecutive slices of ten, the last one possibly shorter. */
  function Chunks<T>(xs: seq<T>): seq<seq<T>>
    decreases |xs|
  {
    if |xs| == 0 then []
    else
      var n := Min(BatchSize, |xs|);
      [xs[..n]] + Chunks(xs[n..])
  }

  /** The slices joined back in order. */
  function Flatten<T>(xss: seq<seq<T>>): seq<T>
  {
    if |xss| == 0 then [] else xss[0] + Flatten(xss[1..])
  }

  /** The `for (i = 0; i < length; i += batchSize) batches.push(slice(i, i + batchSize))` loop. */
  method SplitIntoBatches<T>(xs: seq<T>) returns (batches: seq<seq<T>>)
    ensures batches == Chunks(xs)
  {
    batches := [];
    var i := 0;
    while i < |xs|
      invariant 0 <= i
      invariant batches + Chunks(xs[Min(i, |xs|)..]) == Chunks(xs)
    {
      var end := Min(i + BatchSize, |xs|);
      assert Chunks(xs[i..]) == [xs[i..end]] + Chunks(xs[end..]) by {
        assert xs[i..][..end - i] == xs[i..end];
        assert xs[i..][end - i..] == xs[end..];
      }
      batches := batches + [xs[i..end]];
      i := i + BatchSize;
    }
  }

  /** Joining the batches gives back the wines, in order. */
  lemma {:induction false} ChunksFlatten<T>(xs: seq<T>)
    ensures Flatten(Chunks(xs)) == xs
    decreases |xs|
  {
    if |xs| > 0 {
      var n := Min(BatchSize, |xs|);
      ChunksFlatten(xs[n..]);
      assert Chunks(xs)[1..] == Chunks(xs[n..]);
      assert xs[..n] + xs[n..] == xs;
    }
  }

  /**
   * There are ceil(n / 10) batches; each holds one to ten wines, all but the
   * last exactly ten, and wine k of batch j is wine 10 * j + k of the list.
   */
  lemma {:induction false} ChunksShape<T>(xs: seq<T>)
    ensures |Chunks(xs)| == (|xs| + BatchSize - 1) / BatchSize
    ensures forall j :: 0 <= j < |Chunks(xs)| ==> 1 <= |Chunks(xs)[j]| <= BatchSize
    ensures forall j :: 0 <= j < |Chunks(xs)| - 1 ==> |Chunks(xs)[j]| == BatchSize
    ensures forall j :: 0 <= j < |Chunks(xs)| ==> BatchSize * j + |Chunks(xs)[j]| <= |xs|
    ensures forall j, k :: 0 <= j < |Chunks(xs)| && 0 <= k < |Chunks(xs)[j]| ==> Chunks(xs)[j][k] == xs[BatchSize * j + k]
    decreases |xs|
  {
    if |xs| > 0 {
      var n := Min(BatchSize, |xs|);
      var rest := xs[n..];
      ChunksShape(rest);
      var c := Chunks(xs);
      assert c[1..] == Chunks(rest);
      forall j, k | 0 <= j < |c| && 0 <= k < |c[j]|
        ensures c[j][k] == xs[BatchSize * j + k]
      {
        if j > 0 {
          assert c[j] == Chunks(rest)[j - 1];
          assert Chunks(rest)[j - 1][k] == rest[BatchSize * (j - 1) + k];
        }
      }
    }
  }

  // ---------------------------------------------------------------------
  // The list text of a batch
  // ---------------------------------------------------------------------

  /** One line of the list: number, name, and the menu price with its note when there is one. */
  function ListEntry(index: nat, w: Value): (r: string)
    ensures var head := NatToString(index + 1) + ". " + Display(Get(w, "name"));
            && |head| <= |r| && r[..|head|] == head
            && (!Truthy(Get(w, "final_price")) <==> r == head)
  {
    var price := Get(w, "final_price");
    var note := Get(w, "conversion_note");
    NatToString(index + 1) + ". " + Display(Get(w, "name"))
    + (if Truthy(price) then " (Menu: " + Display(price) + (if Truthy(note) then " - " + Display(note) else "") + ")" else "")
  }

  function Entries(batch: seq<Value>): (r: seq<string>)
    ensures |r| == |batch| && forall i :: 0 <= i < |batch| ==> r[i] == ListEntry(i, batch[i])
  {
    seq(|batch|, i requires 0 <= i < |batch| => ListEntry(i, batch[i]))
  }

  /** The batch's entries joined by newlines. */
  function ListText(batch: seq<Value>): string
  {
    Join(Entries(batch), '\n')
  }

  /** A batch whose names, prices and notes are single-line reads back as one line per wine, in order. */
  lemma ListTextLines(batch: seq<Value>)
    requires batch != []
    requires forall i :: 0 <= i < |batch| ==> '\n' !in Display(Get(batch[i], "name"))
    requires forall i :: 0 <= i < |batch| ==> '\n' !in Display(Get(batch[i], "final_price"))
    requires forall i :: 0 <= i < |batch| ==> '\n' !in Display(Get(batch[i], "conversion_note"))
    ensures |Split(ListText(batch), '\n')| == |batch|
    ensures forall i :: 0 <= i < |batch| ==> Split(ListText(batch), '\n')[i] == ListEntry(i, batch[i])
  {
    var e := Entries(batch);
    forall i | 0 <= i < |batch|
      ensures '\n' !in e[i]
    {
      EntryOneLine(i, batch[i]);
    }
    SplitJoin(e, '\n');
  }

  /** A list line holds no newline when the wine's name, price and note hold none. */
  lemma EntryOneLine(index: nat, w: Value)
    requires '\n' !in Display(Get(w, "name"))
    requires '\n' !in Display(Get(w, "final_price"))
    requires '\n' !in Display(Get(w, "conversion_note"))
    ensures '\n' !in ListEntry(index, w)
  {
    var t := NatToString(index + 1);
    assert forall k :: 0 <= k < |t| ==> t[k] != '\n';
  }

  /** The request that researches a batch: the selected provider's plain text call. */
  function ResearchRequest(st: Settings, tx: Texts, batch: seq<Value>): Request
  {
    TextRequest(st, tx.researchSystem, ResearchPrompt(tx, ListText(batch)))
  }

  // ---------------------------------------------------------------------
  // Merge and fallback
  // ---------------------------------------------------------------------

  /** A researched record with its menu price, note and name backstopped from the extracted record. */
  function Backstop(researched: Value, extracted: Value): (r: Value)
    ensures r.Obj?
    ensures Get(r, "name") == (if Truthy(Get(researched, "name")) then Get(researched, "name") else Get(extracted, "name"))
    ensures Get(r, "menu_price") ==
              (if Truthy(Get(researched, "menu_price")) then Get(researched, "menu_price")
               else if Truthy(Get(extracted, "final_price")) then Get(extracted, "final_price") else Null)
    ensures Get(r, "menu_price_note") ==
              (if Truthy(Get(researched, "menu_price_note")) then Get(researched, "menu_price_note")
               else if Truthy(Get(extracted, "conversion_note")) then Get(extracted, "conversion_note") else Null)
    ensures forall k :: k != "name" && k != "menu_price" && k != "menu_price_note" ==> Get(r, k) == Lookup(AsFields(researched), k)
  {
    Obj(Set(Set(Set(AsFields(researched),
      "menu_price", Or(Or(Get(researched, "menu_price"), Get(extracted, "final_price")), Null)),
      "menu_price_note", Or(Or(Get(researched, "menu_price_note"), Get(extracted, "conversion_note")), Null)),
      "name", Or(Get(researched, "name"), Get(extracted, "name"))))
  }

  /** Element `i` of the merge: backstopped when an extracted wine stands at the same index, unchanged otherwise. */
  function MergeOne(batch: seq<Value>, replies: seq<Value>, i: nat): Value
    requires i < |replies|
  {
    if i < |batch| && Truthy(batch[i]) then Backstop(replies[i], batch[i]) else replies[i]
  }

  /** A reply entry the merge reads a property of although it is null or undefined: the merge throws. */
  predicate MergeFails(batch: seq<Value>, replies: seq<Value>)
  {
    exists i :: 0 <= i < |replies| && i < |batch| && Truthy(batch[i]) && Nullish(replies[i])
  }

  /** `result.wines.map(...)`: one element per reply entry, or None when it throws. */
  function Merge(batch: seq<Value>, replies: seq<Value>): (r: Option<seq<Value>>)
    ensures r.None? <==> MergeFails(batch, replies)
    ensures r.Some? ==> |r.value| == |replies|
    ensures r.Some? ==> forall i :: 0 <= i < |replies| && i < |batch| && Truthy(batch[i]) ==> r.value[i] == Backstop(replies[i], batch[i])
    ensures r.Some? ==> forall i :: 0 <= i < |replies| && (i >= |batch| || !Truthy(batch[i])) ==> r.value[i] == replies[i]
  {
    if MergeFails(batch, replies) then None
    else Some(seq(|replies|, i requires 0 <= i < |replies| => MergeOne(batch, replies, i)))
  }

  /**
   * A merged record never loses what the extracted wine knew: it has a name
   * when the extracted wine has one, and a menu price when the extracted wine
   * has a final price.
   */
  lemma MergeKeepsMenuFacts(batch: seq<Value>, replies: seq<Value>, i: nat)
    requires Merge(batch, replies).Some?
    requires i < |replies| && i < |batch|
    ensures Truthy(Get(batch[i], "name")) ==> Truthy(Get(Merge(batch, replies).value[i], "name"))
    ensures Truthy(Get(batch[i], "final_price")) ==> Truthy(Get(Merge(batch, replies).value[i], "menu_price"))
  {
    if Truthy(Get(batch[i], "name")) || Truthy(Get(batch[i], "final_price")) {
      assert Truthy(batch[i]);
    }
  }

  /** The research fields of a fallback record: the source list empty, everything else null. */
  const ResearchDefaults: seq<Field> := [
    Field("retail_price", Null),
    Field("ratings", Null),
    Field("tasting_notes", Null),
    Field("food_pairing", Null),
    Field("sources", Arr([])),
    Field("producer", Null),
    Field("vintage", Null),
    Field("region", Null),
    Field("varietal", Null),
    Field("alcohol_content", Null),
    Field("style", Null)
  ]

  /** The fields a fallback record takes from the extracted wine. */
  function FallbackHead(w: Value): seq<Field>
  {
    [Field("name", Get(w, "name")), Field("menu_price", Get(w, "final_price")), Field("menu_price_note", Get(w, "conversion_note"))]
  }

  /** The record built from an extracted wine when research gives nothing usable. */
  function Fallback(w: Value): (r: Value)
    ensures r.Obj?
  {
    Obj(FallbackHead(w) + ResearchDefaults)
  }

  /**
   * A fallback record carries the extracted name, the final price as menu
   * price and the conversion note as its note, and every research field at
   * its default: an empty source list, null for the rest.
   */
  lemma FallbackFields(w: Value)
    ensures Get(Fallback(w), "name") == Get(w, "name")
    ensures Get(Fallback(w), "menu_price") == Get(w, "final_price")
    ensures Get(Fallback(w), "menu_price_note") == Get(w, "conversion_note")
    ensures forall i :: 0 <= i < |ResearchDefaults| ==> Get(Fallback(w), ResearchDefaults[i].key) == ResearchDefaults[i].val
  {
    FallbackHeadFields(w);
    forall i | 0 <= i < |ResearchDefaults|
      ensures Get(Fallback(w), ResearchDefaults[i].key) == ResearchDefaults[i].val
    {
      FallbackDefault(w, i);
    }
  }

  /** In particular a fallback record's source list is empty. */
  lemma FallbackSources(w: Value)
    ensures Get(Fallback(w), "sources") == Arr([])
  {
    FallbackDefault(w, 4);
  }

  lemma FallbackHeadFields(w: Value)
    ensures Get(Fallback(w), "name") == Get(w, "name")
    ensures Get(Fallback(w), "menu_price") == Get(w, "final_price")
    ensures Get(Fallback(w), "menu_price_note") == Get(w, "conversion_note")
  {
    var fs := Fallback(w).fields;
    LookupAt(fs, 1);
    LookupAt(fs, 2);
  }

  lemma FallbackDefault(w: Value, i: nat)
    requires i < |ResearchDefaults|
    ensures Get(Fallback(w), ResearchDefaults[i].key) == ResearchDefaults[i].val
  {
    DefaultKeyNotInHead(w, i);
    LookupSkip(FallbackHead(w), ResearchDefaults, ResearchDefaults[i].key);
    DefaultsLookup(i);
  }

  lemma DefaultKeyNotInHead(w: Value, i: nat)
    requires i < |ResearchDefaults|
    ensures forall j :: 0 <= j < |FallbackHead(w)| ==> FallbackHead(w)[j].key != ResearchDefaults[i].key
  {
  }

  lemma DefaultsLookup(i: nat)
    requires i < |ResearchDefaults|
    ensures Lookup(ResearchDefaults, ResearchDefaults[i].key) == ResearchDefaults[i].val
  {
    LookupAt(ResearchDefaults, i);
  }

  function Fallbacks(batch: seq<Value>): (r: seq<Value>)
    ensures |r| == |batch| && forall i :: 0 <= i < |batch| ==> r[i] == Fallback(batch[i])
  {
    seq(|batch|, i requires 0 <= i < |batch| => Fallback(batch[i]))
  }

  // ---------------------------------------------------------------------
  // One batch, all batches, the final list
  // ---------------------------------------------------------------------

  /**
   * The `wines` of what one batch's research resolves to. A null or
   * undefined wine makes the call throw before it is sent, and the batch
   * contributes nothing. A failed call, a reply without a `wines` array, or
   * a merge that throws gives the fallback records.
   */
  function ResearchBatch(st: Settings, tx: Texts, host: Host, batch: seq<Value>): (r: seq<Value>)
    ensures FirstNullish(batch) >= 0 ==> r == []
    ensures FirstNullish(batch) == -1 ==> r == Fallbacks(batch) || exists replies :: Merge(batch, replies) == Some(r)
  {
    if FirstNullish(batch) >= 0 then []
    else
      match Call(host, ResearchRequest(st, tx, batch))
      case Thrown(_) => Fallbacks(batch)
      case Normal(res) =>
        var ws := Get(res, "wines");
        if !ws.Arr? then Fallbacks(batch)
        else
          match Merge(batch, ws.items)
          case Some(merged) => merged
          case None => Fallbacks(batch)
  }

  /**
   * Research never loses what the extracted wine knew: at every position the
   * batch and its result share, the result has a name when the extracted
   * wine has one, and a menu price when the extracted wine has a final price.
   */
  lemma ResearchBatchKeepsMenuFacts(st: Settings, tx: Texts, host: Host, batch: seq<Value>, i: nat)
    requires i < |ResearchBatch(st, tx, host, batch)| && i < |batch|
    ensures Truthy(Get(batch[i], "name")) ==> Truthy(Get(ResearchBatch(st, tx, host, batch)[i], "name"))
    ensures Truthy(Get(batch[i], "final_price")) ==> Truthy(Get(ResearchBatch(st, tx, host, batch)[i], "menu_price"))
  {
    var r := ResearchBatch(st, tx, host, batch);
    if r == Fallbacks(batch) {
      FallbackHeadFields(batch[i]);
    } else {
      var c := Call(host, ResearchRequest(st, tx, batch));
      MergeKeepsMenuFacts(batch, Get(c.value, "wines").items, i);
    }
  }

  /** The outcome of a batch: nothing, the fallback of every wine in order, or the merged reply. */
  lemma ResearchBatchCases(st: Settings, tx: Texts, host: Host, batch: seq<Value>)
    ensures FirstNullish(batch) >= 0 ==> ResearchBatch(st, tx, host, batch) == []
    ensures FirstNullish(batch) == -1 && Call(host, ResearchRequest(st, tx, batch)).Thrown? ==>
              ResearchBatch(st, tx, host, batch) == Fallbacks(batch)
    ensures FirstNullish(batch) == -1 && Call(host, ResearchRequest(st, tx, batch)).Normal?
            && !Get(Call(host, ResearchRequest(st, tx, batch)).value, "wines").Arr? ==>
              ResearchBatch(st, tx, host, batch) == Fallbacks(batch)
    ensures var c := Call(host, ResearchRequest(st, tx, batch));
            FirstNullish(batch) == -1 && c.Normal? && Get(c.value, "wines").Arr? ==>
              var replies := Get(c.value, "wines").items;
              && (MergeFails(batch, replies) ==> ResearchBatch(st, tx, host, batch) == Fallbacks(batch))
              && (!MergeFails(batch, replies) ==> ResearchBatch(st, tx, host, batch) == Merge(batch, replies).value)
  {
  }

  /** The batch results flattened in batch order (the batches run one after another here). */
  function ResearchAll(st: Settings, tx: Texts, host: Host, batches: seq<seq<Value>>): seq<Value>
  {
    if |batches| == 0 then []
    else ResearchAll(st, tx, host, batches[..|batches| - 1]) + ResearchBatch(st, tx, host, batches[|batches| - 1])
  }

  lemma {:induction false} ResearchAllAppend(st: Settings, tx: Texts, host: Host, a: seq<seq<Value>>, b: seq<seq<Value>>)
    ensures ResearchAll(st, tx, host, a + b) == ResearchAll(st, tx, host, a) + ResearchAll(st, tx, host, b)
    decreases |b|
  {
    if |b| == 0 {
      assert a + b == a;
    } else {
      var n := |b| - 1;
      assert (a + b)[..|a + b| - 1] == a + b[..n];
      ResearchAllAppend(st, tx, host, a, b[..n]);
    }
  }

  /** The list shown after research: the researched wines, or the extracted ones when research produced none. */
  function FinalWines(extracted: seq<Value>, researched: seq<Value>): (r: seq<Value>)
    ensures |researched| > 0 ==> r == researched
    ensures |researched| == 0 ==> r == extracted
  {
    if |researched| > 0 then researched else extracted
  }

  /** A batch whose call fails yields its fallback records. */
  lemma BatchWhenDown(st: Settings, tx: Texts, host: Host, batch: seq<Value>)
    requires host.send(ResearchRequest(st, tx, batch)).Failed?
    requires FirstNullish(batch) == -1
    ensures ResearchBatch(st, tx, host, batch) == Fallbacks(batch)
  {
  }

  lemma FirstNullishSplit(xs: seq<Value>, n: nat)
    requires n <= |xs| && FirstNullish(xs) == -1
    ensures FirstNullish(xs[..n]) == -1 && FirstNullish(xs[n..]) == -1
  {
    assert forall i :: 0 <= i < n ==> xs[..n][i] == xs[i];
    assert forall i :: 0 <= i < |xs| - n ==> xs[n..][i] == xs[n + i];
  }

  /** With the provider unreachable, the final list is the fallback record of every extracted wine, in order. */
  lemma {:induction false} ProviderDown(st: Settings, tx: Texts, host: Host, xs: seq<Value>)
    requires forall req :: host.send(req).Failed?
    requires FirstNullish(xs) == -1
    ensures ResearchAll(st, tx, host, Chunks(xs)) == Fallbacks(xs)
    decreases |xs|
  {
    if |xs| > 0 {
      var n := Min(BatchSize, |xs|);
      FirstNullishSplit(xs, n);
      ProviderDown(st, tx, host, xs[n..]);
      ResearchAllFirst(st, tx, host, xs);
      BatchWhenDown(st, tx, host, xs[..n]);
      FallbacksSplit(xs, n);
    }
  }

  /** Researching a list's batches is researching its first batch, then the rest. */
  lemma ResearchAllFirst(st: Settings, tx: Texts, host: Host, xs: seq<Value>)
    requires |xs| > 0
    ensures var n := Min(BatchSize, |xs|);
            ResearchAll(st, tx, host, Chunks(xs)) == ResearchBatch(st, tx, host, xs[..n]) + ResearchAll(st, tx, host, Chunks(xs[n..]))
  {
    var n := Min(BatchSize, |xs|);
    var head := xs[..n];
    assert Chunks(xs) == [head] + Chunks(xs[n..]);
    ResearchAllAppend(st, tx, host, [head], Chunks(xs[n..]));
    ResearchAllOne(st, tx, host, head);
  }

  lemma ResearchAllOne(st: Settings, tx: Texts, host: Host, batch: seq<Value>)
    ensures ResearchAll(st, tx, host, [batch]) == ResearchBatch(st, tx, host, batch)
  {
    assert [batch][..0] == [];
  }

  lemma FallbacksSplit(xs: seq<Value>, n: nat)
    requires n <= |xs|
    ensures Fallbacks(xs) == Fallbacks(xs[..n]) + Fallbacks(xs[n..])
  {
    var a, b := Fallbacks(xs[..n]), Fallbacks(xs[n..]);
    forall i | 0 <= i < |xs|
      ensures Fallbacks(xs)[i] == (a + b)[i]
    {
      if i < n { assert xs[..n][i] == xs[i]; } else { assert xs[n..][i - n] == xs[i]; }
    }
  }

  /** A menu with no wines ends with an empty list, `{wines: []}`. */
  lemma NothingExtracted(st: Settings, tx: Texts, host: Host)
    ensures FinalWines([], ResearchAll(st, tx, host, Chunks([]))) == []
  {
  }
}
