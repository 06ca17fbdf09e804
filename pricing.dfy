// Price selection before research: each extracted wine gets a `final_price`
// and a `price_source` (bottle price first, then a glass price times five,
// then the glass price as written, then none), and keeps every field it had.

module Pricing {
  import opened Text
  import opened JsValues
  import opened Prices

  /** A price field that holds something usable: truthy and not the text 'null'. */
  predicate Present(v: Value)
  {
    Truthy(v) && v != Str("null")
  }

  /** A glass price whose numeric part is read and is not zero: it can be converted to a bottle price. */
  predicate Convertible(glass: Value)
  {
    var p := ExtractNumericPrice(glass);
    p.Some? && NonZero(p.value)
  }

  /** The note recorded with a converted glass price. */
  function ConversionNote(glass: Value): string
  {
    "Estimated from glass price (" + Display(glass) + " × 5)"
  }

  /** The bottle price estimated from a convertible glass price, as `$` and five times the amount. */
  function ConvertedPrice(glass: Value): string
    requires Convertible(glass)
  {
    "$" + AmountText(TimesFive(ExtractNumericPrice(glass).value))
  }

  /** Where a wine's research price comes from, and the `price_source` text that records it. */
  datatype PriceSource = Bottle | GlassConverted | Glass | NoPrice

  function SourceName(src: PriceSource): string
  {
    match src
    case Bottle => "bottle"
    case GlassConverted => "glass_converted"
    case Glass => "glass"
    case NoPrice => "none"
  }

  /** The branch the pricing takes for a wine with these bottle and glass prices. */
  function SourceOf(bottle: Value, glass: Value): (src: PriceSource)
    ensures src == Bottle <==> Present(bottle)
    ensures src == GlassConverted <==> !Present(bottle) && Present(glass) && Convertible(glass)
    ensures src == Glass <==> !Present(bottle) && Present(glass) && !Convertible(glass)
    ensures src == NoPrice <==> !Present(bottle) && !Present(glass)
  {
    if Present(bottle) then Bottle
    else if Present(glass) then (if Convertible(glass) then GlassConverted else Glass)
    else NoPrice
  }

  /** The `final_price` each branch assigns. */
  function FinalPrice(bottle: Value, glass: Value): Value
  {
    match SourceOf(bottle, glass)
    case Bottle => bottle
    case GlassConverted => Str(ConvertedPrice(glass))
    case Glass => glass
    case NoPrice => Null
  }

  /** The fields of one wine after price selection: the spread copy with the price fields assigned in order. */
  function PricedFields(fs: seq<Field>): (r: seq<Field>)
    ensures forall k :: k != "final_price" && k != "price_source" && k != "conversion_note" ==> Lookup(r, k) == Lookup(fs, k)
    ensures var bottle := Lookup(fs, "bottle_price");
            var glass := Lookup(fs, "glass_price");
            && Lookup(r, "final_price") == FinalPrice(bottle, glass)
            && Lookup(r, "price_source") == Str(SourceName(SourceOf(bottle, glass)))
            && Lookup(r, "conversion_note") == (if SourceOf(bottle, glass) == GlassConverted then Str(ConversionNote(glass)) else Lookup(fs, "conversion_note"))
  {
    var bottle := Lookup(fs, "bottle_price");
    var glass := Lookup(fs, "glass_price");
    var src := SourceOf(bottle, glass);
    var priced := Set(Set(fs, "final_price", FinalPrice(bottle, glass)), "price_source", Str(SourceName(src)));
    if src == GlassConverted then Set(priced, "conversion_note", Str(ConversionNote(glass))) else priced
  }

  /** Pricing keeps every key the wine had and adds `final_price` and `price_source`, and `conversion_note` only for a converted glass price. */
  lemma PricingKeepsKeys(fs: seq<Field>)
    ensures Keys(PricedFields(fs)) == Keys(fs) + {"final_price", "price_source"}
              + (if SourceOf(Lookup(fs, "bottle_price"), Lookup(fs, "glass_price")) == GlassConverted then {"conversion_note"} else {})
  {
    var bottle := Lookup(fs, "bottle_price");
    var glass := Lookup(fs, "glass_price");
    var once := Set(fs, "final_price", FinalPrice(bottle, glass));
    var priced := Set(once, "price_source", Str(SourceName(SourceOf(bottle, glass))));
    assert Keys(priced) == Keys(fs) + {"final_price", "price_source"};
    if SourceOf(bottle, glass) == GlassConverted {
      assert PricedFields(fs) == Set(priced, "conversion_note", Str(ConversionNote(glass)));
    } else {
      assert PricedFields(fs) == priced;
    }
  }

  /** One element of `wines.map(...)`: reading `bottle_price` of null or undefined throws. */
  function PriceWine(w: Value): (r: Completion<Value>)
    ensures r.Thrown? <==> Nullish(w)
    ensures r.Normal? ==> r.value == Obj(PricedFields(AsFields(w)))
  {
    if Nullish(w) then Thrown(ReadError(w, "bottle_price"))
    else Normal(Obj(PricedFields(AsFields(w))))
  }

  /** Every wine priced in order; the first null or undefined wine aborts the map with its error. */
  function PriceAll(items: seq<Value>): (r: Completion<seq<Value>>)
    ensures r.Normal? <==> forall i :: 0 <= i < |items| ==> !Nullish(items[i])
    ensures r.Normal? ==> |r.value| == |items|
                          && forall i :: 0 <= i < |items| ==> r.value[i] == Obj(PricedFields(AsFields(items[i])))
    ensures r.Thrown? ==> var i := FirstNullish(items); 0 <= i < |items| && r.message == ReadError(items[i], "bottle_price")
  {
    var i := FirstNullish(items);
    if i >= 0 then Thrown(ReadError(items[i], "bottle_price"))
    else Normal(seq(|items|, j requires 0 <= j < |items| => Obj(PricedFields(AsFields(items[j])))))
  }

  /** A string or an array priced as a wine keeps its characters or elements under their index keys, as `{...wine}` copies them. */
  lemma PricingKeepsIndexFields(w: Value, i: nat)
    requires w.Str? || w.Arr?
    requires i < IndexCount(w)
    ensures PriceWine(w).Normal?
    ensures Get(PriceWine(w).value, NatToString(i)) == (if w.Str? then Str([w.s[i]]) else w.items[i])
  {
    var k := NatToString(i);
    assert IsDigit(k[0]);
    assert k != "final_price" && k != "price_source" && k != "conversion_note";
    SpreadIndexField(w, i);
  }

  /** The TypeError message for calling `map` on `receiver` when it holds no array. */
  function MapTypeError(receiver: string): string
  {
    receiver + ".map is not a function"
  }

  /** `processExtractedPricing(wines)`: a value without `map` throws; an array is priced element by element. */
  function ProcessExtractedPricing(wines: Value): (r: Completion<seq<Value>>)
    ensures !wines.Arr? ==> r == Thrown(MapTypeError("wines"))
    ensures wines.Arr? ==> r == PriceAll(wines.items)
  {
    if !wines.Arr? then Thrown(MapTypeError("wines")) else PriceAll(wines.items)
  }

  /**
   * A glass price written as whole dollars, with no bottle price, becomes a
   * bottle price of five times as many dollars: "$12" gives "$60".
   */
  lemma GlassTimesFive(fs: seq<Field>, k: nat)
    requires k > 0
    requires !Present(Lookup(fs, "bottle_price"))
    requires Lookup(fs, "glass_price") == Str("$" + NatToString(k))
    ensures Lookup(PricedFields(fs), "price_source") == Str("glass_converted")
    ensures Lookup(PricedFields(fs), "final_price") == Str("$" + NatToString(5 * k))
    ensures Lookup(PricedFields(fs), "conversion_note") == Str("Estimated from glass price (" + ("$" + NatToString(k)) + " × 5)")
  {
    GlassDollarsConverted(k);
  }

  /** "$k" for k > 0 is a present, convertible glass price whose converted price is "$" and 5k. */
  lemma GlassDollarsConverted(k: nat)
    requires k > 0
    ensures var glass := Str("$" + NatToString(k));
            && Present(glass) && Convertible(glass)
            && ConvertedPrice(glass) == "$" + NatToString(5 * k)
            && Display(glass) == "$" + NatToString(k)
  {
    var glass := Str("$" + NatToString(k));
    DollarsRead(k);
    assert ExtractNumericPrice(glass) == Some(Amount(k, 0));
    assert TimesFive(Amount(k, 0)) == Amount(5 * k, 0);
  }
}
