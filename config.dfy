// The application's provider settings and the getters derived from them:
// which key and which model the selected provider uses, whether that model
// accepts a temperature, and the markup guard used by the wine table.

module Config {
  import opened Text
  import opened JsValues
  import opened Prices

  /** The settings fields the getters read. Temperature is kept as a number; how it was parsed is not modelled. */
  datatype Settings = Settings(
    selectedProvider: string,
    openaiKey: string, openaiModel: string,
    googleKey: string, googleModel: string,
    xaiKey: string, xaiModel: string,
    deepseekKey: string, deepseekModel: string,
    temperature: real)

  /** Models that do not accept a temperature: matched as substrings of the selected model. */
  const ReasoningModels: seq<string> := [
    "o1", "o1-pro", "o3", "o3-mini", "o4-mini",
    "gemini-2.0-flash-thinking-exp-1219", "gemini-2.0-flash-thinking-exp-01-21",
    "deepseek-reasoner"
  ]

  /** The API key of the selected provider; '' for a provider the switch does not know. */
  function ApiKey(st: Settings): string
  {
    match st.selectedProvider
    case "openai" => st.openaiKey
    case "google" => st.googleKey
    case "xai" => st.xaiKey
    case "deepseek" => st.deepseekKey
    case _ => ""
  }

  /** The model of the selected provider; '' for a provider the switch does not know. */
  function SelectedModel(st: Settings): string
  {
    match st.selectedProvider
    case "openai" => st.openaiModel
    case "google" => st.googleModel
    case "xai" => st.xaiModel
    case "deepseek" => st.deepseekModel
    case _ => ""
  }

  /** The four provider names the getters recognise. */
  predicate KnownProvider(name: string)
  {
    name == "openai" || name == "google" || name == "xai" || name == "deepseek"
  }

  /** Each known provider's stored key, as a table keyed by provider name. */
  function KeyTable(st: Settings): map<string, string>
  {
    map["openai" := st.openaiKey, "google" := st.googleKey, "xai" := st.xaiKey, "deepseek" := st.deepseekKey]
  }

  /** Each known provider's stored model, as a table keyed by provider name. */
  function ModelTable(st: Settings): map<string, string>
  {
    map["openai" := st.openaiModel, "google" := st.googleModel, "xai" := st.xaiModel, "deepseek" := st.deepseekModel]
  }

  /** A table entry, or '' for a name the table does not hold. */
  function TableEntry(table: map<string, string>, name: string): string
  {
    if name in table then table[name] else ""
  }

  /**
   * The getters read only the selected provider's own fields: two settings
   * that agree on the provider and on that provider's key and model give the
   * same key and model, whatever the other providers hold.
   */
  lemma GettersReadSelectedOnly(st: Settings, st': Settings)
    requires st.selectedProvider == st'.selectedProvider
    requires TableEntry(KeyTable(st), st.selectedProvider) == TableEntry(KeyTable(st'), st.selectedProvider)
    requires TableEntry(ModelTable(st), st.selectedProvider) == TableEntry(ModelTable(st'), st.selectedProvider)
    ensures ApiKey(st) == ApiKey(st') && SelectedModel(st) == SelectedModel(st')
  {
  }

  /**
   * The getters look the selected provider up in the table of stored keys
   * and models: a known provider gets its own stored value (which may itself
   * be ''), an unknown one ''.
   */
  lemma GettersMatchStored(st: Settings)
    ensures KeyTable(st).Keys == ModelTable(st).Keys == {"openai", "google", "xai", "deepseek"}
    ensures ApiKey(st) == TableEntry(KeyTable(st), st.selectedProvider)
    ensures SelectedModel(st) == TableEntry(ModelTable(st), st.selectedProvider)
    ensures KnownProvider(st.selectedProvider) <==> st.selectedProvider in KeyTable(st)
    ensures !KnownProvider(st.selectedProvider) ==> ApiKey(st) == "" && SelectedModel(st) == ""
  {
  }

  /** `names.some(n => model.includes(n))`. */
  function AnyIncluded(model: string, names: seq<string>): (r: bool)
    ensures r <==> exists i :: 0 <= i < |names| && Includes(model, names[i])
  {
    if names == [] then false
    else
      var rest := AnyIncluded(model, names[1..]);
      assert rest <==> exists i :: 1 <= i < |names| && Includes(model, names[i]) by {
        if rest {
          var i :| 0 <= i < |names[1..]| && Includes(model, names[1..][i]);
          assert names[1..][i] == names[i + 1];
        }
        if exists i :: 1 <= i < |names| && Includes(model, names[i]) {
          var i :| 1 <= i < |names| && Includes(model, names[i]);
          assert names[1..][i - 1] == names[i];
        }
      }
      Includes(model, names[0]) || rest
  }

  /** The selected model accepts a temperature unless some reasoning-model name occurs inside it. */
  function SupportsTemperature(st: Settings): (r: bool)
    ensures !r <==> exists i :: 0 <= i < |ReasoningModels| && OccursIn(SelectedModel(st), ReasoningModels[i])
  {
    !AnyIncluded(SelectedModel(st), ReasoningModels)
  }

  /** `sub` occurs somewhere in `s`. */
  ghost predicate OccursIn(s: string, sub: string)
  {
    exists k :: OccursAt(s, sub, k)
  }

  /** Every model whose name extends a reasoning model's name, such as "o3-mini-high", is refused a temperature. */
  lemma ReasoningFamily(st: Settings, i: nat, tail: string)
    requires i < |ReasoningModels|
    requires SelectedModel(st) == ReasoningModels[i] + tail
    ensures !SupportsTemperature(st)
  {
    assert OccursAt(SelectedModel(st), ReasoningModels[i], 0);
  }

  /** The temperature sent to providers: the configured one, or 1.0 for a model that does not accept one. */
  function EffectiveTemperature(st: Settings): (r: real)
    ensures SupportsTemperature(st) ==> r == st.temperature
    ensures !SupportsTemperature(st) ==> r == 1.0
  {
    if SupportsTemperature(st) then st.temperature else 1.0
  }

  /** Changing the temperature setting changes what is sent only for a model that accepts one. */
  lemma TemperatureIgnoredForReasoning(st: Settings, t: real)
    requires !SupportsTemperature(st)
    ensures EffectiveTemperature(st.(temperature := t)) == EffectiveTemperature(st) == 1.0
  {
    assert SelectedModel(st.(temperature := t)) == SelectedModel(st);
  }

  /**
   * What calculateMarkup returns: 'N/A', or a percentage whose digits are
   * not modelled but whose sign prefix is: '+' exactly when the menu price
   * is above the retail price.
   */
  datatype Markup = NotAvailable | Percentage(menu: Amount, retail: Amount, plusSign: bool)

  /** `calculateMarkup(menuPrice, retailPrice)`. */
  function CalculateMarkup(menuPrice: Value, retailPrice: Value): (r: Markup)
    ensures r.Percentage? <==>
              Truthy(menuPrice) && Truthy(retailPrice)
              && ExtractNumericPrice(menuPrice).Some? && NonZero(ExtractNumericPrice(menuPrice).value)
              && ExtractNumericPrice(retailPrice).Some? && NonZero(ExtractNumericPrice(retailPrice).value)
    ensures r.Percentage? ==> r.menu == ExtractNumericPrice(menuPrice).value
                              && r.retail == ExtractNumericPrice(retailPrice).value
                              && (r.plusSign <==> Greater(r.menu, r.retail))
    ensures !menuPrice.Str? || !retailPrice.Str? ==> r == NotAvailable
  {
    if !Truthy(menuPrice) || !Truthy(retailPrice) then NotAvailable
    else
      var menu := ExtractNumericPrice(menuPrice);
      var retail := ExtractNumericPrice(retailPrice);
      if menu.None? || !NonZero(menu.value) || retail.None? || !NonZero(retail.value) then NotAvailable
      else Percentage(menu.value, retail.value, Greater(menu.value, retail.value))
  }

  /** Whole-dollar prices: "$60" against "$40" is a markup with a '+' sign, "$40" against "$60" one without. */
  lemma MarkupOfDollars(menu: nat, retail: nat)
    requires menu > 0 && retail > 0
    ensures CalculateMarkup(Str("$" + NatToString(menu)), Str("$" + NatToString(retail)))
            == Percentage(Amount(menu, 0), Amount(retail, 0), menu > retail)
  {
    var m := Str("$" + NatToString(menu));
    var r := Str("$" + NatToString(retail));
    DollarsRead(menu);
    DollarsRead(retail);
    assert Truthy(m) && Truthy(r) by {
      assert m.s[0] == '$' && r.s[0] == '$';
    }
    assert Greater(Amount(menu, 0), Amount(retail, 0)) <==> menu > retail by {
      assert Pow10(0) == 1;
    }
  }
}
