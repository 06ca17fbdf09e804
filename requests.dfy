// The requests the assistant sends to its four providers, built from the
// settings and the prompts, and the adapter that turns a provider's reply
// into a parsed value or a thrown error. Sending itself (HTTP, the response
// envelope, logging) is outside the model: a reply is an abstract outcome.

module Requests {
  import opened Text
  import opened JsValues
  import opened Repair
  import opened Config

  datatype Provider = OpenAI | Google | XAI | DeepSeek

  /** The provider a `switch (selectedProvider)` with an OpenAI default picks. */
  function ProviderNamed(name: string): (p: Provider)
    ensures p == Google <==> name == "google"
    ensures p == XAI <==> name == "xai"
    ensures p == DeepSeek <==> name == "deepseek"
  {
    match name
    case "google" => Google
    case "xai" => XAI
    case "deepseek" => DeepSeek
    case _ => OpenAI
  }

  /** One part of a multimodal message. */
  datatype Part =
    | TextPart(text: string)
    | ImageUrlPart(url: string)
    | InlineDataPart(mimeType: Option<string>, data: Option<string>)

  /** A message's content: a plain string or a list of parts. */
  datatype Content = PlainText(text: string) | Parts(parts: seq<Part>)

  datatype ChatMessage = ChatMessage(role: string, content: Content)

  /** The JSON body of a request: the chat-completions shape, or Gemini's generateContent shape. */
  datatype Body =
    | ChatBody(model: string, messages: seq<ChatMessage>, responseFormat: string, maxTokens: nat, temperature: Option<real>)
    | GeminiBody(contents: seq<ChatMessage>, generationConfig: GenerationConfig)

  datatype GenerationConfig = GenerationConfig(temperature: real, responseMimeType: string, maxOutputTokens: nat)

  datatype Header = Header(name: string, value: string)

  datatype Request = Request(provider: Provider, url: string, headers: seq<Header>, body: Body)

  const OpenAIUrl := "https://api.openai.com/v1/chat/completions"
  const XAIUrl := "https://api.x.ai/v1/chat/completions"
  const DeepSeekUrl := "https://api.deepseek.com/v1/chat/completions"

  /** The Gemini endpoint carries the model in the path and the key in the query. */
  function GoogleUrl(model: string, key: string): string
  {
    "https://generativelanguage.googleapis.com/v1beta/models/" + model + ":generateContent?key=" + key
  }

  function BearerHeaders(key: string): seq<Header>
  {
    [Header("Content-Type", "application/json"), Header("Authorization", "Bearer " + key)]
  }

  const JsonHeaders := [Header("Content-Type", "application/json")]

  const OpenAIVisionModels: seq<string> := [
    "gpt-4o", "gpt-4o-mini", "gpt-4-turbo", "gpt-4-vision-preview",
    "o1", "o3", "o4-mini",
    "gpt-4.1", "gpt-4.1-mini", "gpt-4.1-nano", "gpt-4.5-preview"
  ]

  const DeepSeekVisionModels: seq<string> := ["deepseek-vl2", "deepseek-vl2-small", "janus-pro-7b"]

  /** `[system, user]` as chat messages. */
  function SystemAndUser(system: string, user: string): seq<ChatMessage>
  {
    [ChatMessage("system", PlainText(system)), ChatMessage("user", PlainText(user))]
  }

  /** One user message holding the prompt and the image as a URL part. */
  function VisionMessages(prompt: string, imageDataUrl: string): seq<ChatMessage>
  {
    [ChatMessage("user", Parts([TextPart(prompt), ImageUrlPart(imageDataUrl)]))]
  }

  /** The OpenAI temperature field: present exactly when the selected model accepts one. */
  function OpenAITemperature(st: Settings): (t: Option<real>)
    ensures t.Some? <==> SupportsTemperature(st)
    ensures t.Some? ==> t.value == EffectiveTemperature(st)
  {
    if SupportsTemperature(st) then Some(st.temperature) else None
  }

  // ---------------------------------------------------------------------
  // Single-turn requests
  // ---------------------------------------------------------------------

  /** The OpenAI text body: the selected model, `[system, user]`, and a temperature only when the model accepts one. */
  function OpenAIText(st: Settings, system: string, user: string): (r: Request)
    ensures r.provider == OpenAI && Header("Authorization", "Bearer " + st.openaiKey) in r.headers
    ensures r.body.ChatBody? && r.body.model == st.openaiModel && r.body.maxTokens == 16384
    ensures r.body.messages == SystemAndUser(system, user)
    ensures r.body.temperature.Some? <==> SupportsTemperature(st)
  {
    Request(OpenAI, OpenAIUrl, BearerHeaders(st.openaiKey),
            ChatBody(st.openaiModel, SystemAndUser(system, user), "json_object", 16384, OpenAITemperature(st)))
  }

  /** The selected OpenAI model if it is on the vision allow-list, else gpt-4o. */
  function OpenAIVisionModel(st: Settings): (m: string)
    ensures m in OpenAIVisionModels
    ensures m == st.openaiModel <==> st.openaiModel in OpenAIVisionModels
  {
    if st.openaiModel in OpenAIVisionModels then st.openaiModel else "gpt-4o"
  }

  /** The OpenAI image body: an allow-listed model and one user message holding the prompt and the image. */
  function OpenAIVision(st: Settings, prompt: string, imageDataUrl: string): (r: Request)
    ensures r.provider == OpenAI && Header("Authorization", "Bearer " + st.openaiKey) in r.headers
    ensures r.body.ChatBody? && r.body.model in OpenAIVisionModels
    ensures r.body.model == st.openaiModel <==> st.openaiModel in OpenAIVisionModels
    ensures r.body.messages == [ChatMessage("user", Parts([TextPart(prompt), ImageUrlPart(imageDataUrl)]))]
    ensures r.body.temperature.Some? <==> SupportsTemperature(st)
  {
    Request(OpenAI, OpenAIUrl, BearerHeaders(st.openaiKey),
            ChatBody(OpenAIVisionModel(st), VisionMessages(prompt, imageDataUrl), "json_object", 16384, OpenAITemperature(st)))
  }

  function GeminiBodyFor(st: Settings, parts: seq<Part>): Body
  {
    GeminiBody([ChatMessage("user", Parts(parts))], GenerationConfig(EffectiveTemperature(st), "application/json", 8192))
  }

  /** The Gemini text body: one user part joining the system prompt and the request; model and key travel in the URL. */
  function GoogleText(st: Settings, system: string, user: string): (r: Request)
    ensures r.provider == Google && r.url == GoogleUrl(st.googleModel, st.googleKey)
    ensures r.body.GeminiBody? && r.body.contents == [ChatMessage("user", Parts([TextPart(system + "\n\nUser request: " + user)]))]
    ensures r.body.generationConfig.temperature == EffectiveTemperature(st)
  {
    Request(Google, GoogleUrl(st.googleModel, st.googleKey), JsonHeaders,
            GeminiBodyFor(st, [TextPart(system + "\n\nUser request: " + user)]))
  }

  /** `parts[i]`, or undefined (None) past the end. */
  function Nth(parts: seq<string>, i: nat): Option<string>
  {
    if i < |parts| then Some(parts[i]) else None
  }

  /** `dataUrl.split(',')[1]`: the text between the first and the second comma. */
  function DataUrlBase64(url: string): (r: Option<string>)
    ensures r.Some? <==> ',' in url
  {
    SplitHasSecond(url, ',');
    Nth(Split(url, ','), 1)
  }

  /** `dataUrl.split(';')[0].split(':')[1]`: what follows the first ':' before the first ';'. */
  function DataUrlMime(url: string): Option<string>
  {
    Nth(Split(Split(url, ';')[0], ':'), 1)
  }

  /** A data URL "data:<mime>;base64,<data>" is taken apart into exactly its MIME type and its payload. */
  lemma DataUrlRoundTrip(mime: string, data: string)
    requires ',' !in mime && ';' !in mime && ':' !in mime
    requires ',' !in data
    ensures DataUrlMime("data:" + mime + ";base64," + data) == Some(mime)
    ensures DataUrlBase64("data:" + mime + ";base64," + data) == Some(data)
  {
    var url := "data:" + mime + ";base64," + data;
    var head := "data:" + mime;
    assert url == head + [';'] + ("base64," + data);
    SplitPrefix(head, "base64," + data, ';');
    assert head == "data" + [':'] + mime;
    SplitPrefix("data", mime, ':');
    SplitNoSep(mime, ':');
    var beforeComma := "data:" + mime + ";base64";
    assert url == beforeComma + [','] + data;
    SplitPrefix(beforeComma, data, ',');
    SplitNoSep(data, ',');
  }

  /** The Gemini image body: the prompt, then the image as inline data split out of the data URL. */
  function GoogleVision(st: Settings, prompt: string, imageDataUrl: string): (r: Request)
    ensures r.provider == Google && r.url == GoogleUrl(st.googleModel, st.googleKey)
    ensures r.body.GeminiBody? && |r.body.contents| == 1 && r.body.contents[0].role == "user"
    ensures r.body.contents[0].content == Parts([TextPart(prompt), InlineDataPart(DataUrlMime(imageDataUrl), DataUrlBase64(imageDataUrl))])
    ensures r.body.generationConfig.temperature == EffectiveTemperature(st)
  {
    Request(Google, GoogleUrl(st.googleModel, st.googleKey), JsonHeaders,
            GeminiBodyFor(st, [TextPart(prompt), InlineDataPart(DataUrlMime(imageDataUrl), DataUrlBase64(imageDataUrl))]))
  }

  /** The xAI text body: the selected model, `[system, user]`, and always the effective temperature. */
  function XAIText(st: Settings, system: string, user: string): (r: Request)
    ensures r.provider == XAI && Header("Authorization", "Bearer " + st.xaiKey) in r.headers
    ensures r.body.ChatBody? && r.body.model == st.xaiModel && r.body.maxTokens == 131072
    ensures r.body.messages == SystemAndUser(system, user)
    ensures r.body.temperature == Some(EffectiveTemperature(st))
  {
    Request(XAI, XAIUrl, BearerHeaders(st.xaiKey),
            ChatBody(st.xaiModel, SystemAndUser(system, user), "json_object", 131072, Some(EffectiveTemperature(st))))
  }

  /** The xAI image body: grok-vision-beta whatever model is selected. */
  function XAIVision(st: Settings, prompt: string, imageDataUrl: string): (r: Request)
    ensures r.provider == XAI && Header("Authorization", "Bearer " + st.xaiKey) in r.headers
    ensures r.body.ChatBody? && r.body.model == "grok-vision-beta"
    ensures r.body.messages == [ChatMessage("user", Parts([TextPart(prompt), ImageUrlPart(imageDataUrl)]))]
    ensures r.body.temperature == Some(EffectiveTemperature(st))
  {
    Request(XAI, XAIUrl, BearerHeaders(st.xaiKey),
            ChatBody("grok-vision-beta", VisionMessages(prompt, imageDataUrl), "json_object", 131072, Some(EffectiveTemperature(st))))
  }

  /** The DeepSeek text body: the selected model, `[system, user]`, and always the effective temperature. */
  function DeepSeekText(st: Settings, system: string, user: string): (r: Request)
    ensures r.provider == DeepSeek && Header("Authorization", "Bearer " + st.deepseekKey) in r.headers
    ensures r.body.ChatBody? && r.body.model == st.deepseekModel && r.body.maxTokens == 8192
    ensures r.body.messages == SystemAndUser(system, user)
    ensures r.body.temperature == Some(EffectiveTemperature(st))
  {
    Request(DeepSeek, DeepSeekUrl, BearerHeaders(st.deepseekKey),
            ChatBody(st.deepseekModel, SystemAndUser(system, user), "json_object", 8192, Some(EffectiveTemperature(st))))
  }

  /** The selected DeepSeek model if it is on the vision allow-list, else deepseek-vl2. */
  function DeepSeekVisionModel(st: Settings): (m: string)
    ensures m in DeepSeekVisionModels
    ensures m == st.deepseekModel <==> st.deepseekModel in DeepSeekVisionModels
  {
    if st.deepseekModel in DeepSeekVisionModels then st.deepseekModel else "deepseek-vl2"
  }

  /** The DeepSeek image body: an allow-listed model and one user message holding the prompt and the image. */
  function DeepSeekVision(st: Settings, prompt: string, imageDataUrl: string): (r: Request)
    ensures r.provider == DeepSeek && Header("Authorization", "Bearer " + st.deepseekKey) in r.headers
    ensures r.body.ChatBody? && r.body.model in DeepSeekVisionModels
    ensures r.body.model == st.deepseekModel <==> st.deepseekModel in DeepSeekVisionModels
    ensures r.body.messages == [ChatMessage("user", Parts([TextPart(prompt), ImageUrlPart(imageDataUrl)]))]
    ensures r.body.temperature == Some(EffectiveTemperature(st))
  {
    Request(DeepSeek, DeepSeekUrl, BearerHeaders(st.deepseekKey),
            ChatBody(DeepSeekVisionModel(st), VisionMessages(prompt, imageDataUrl), "json_object", 8192, Some(EffectiveTemperature(st))))
  }

  /** The text request of a turn, by provider name; any name but google, xai and deepseek goes to OpenAI. */
  function TextRequest(st: Settings, system: string, user: string): Request
  {
    match ProviderNamed(st.selectedProvider)
    case Google => GoogleText(st, system, user)
    case XAI => XAIText(st, system, user)
    case DeepSeek => DeepSeekText(st, system, user)
    case OpenAI => OpenAIText(st, system, user)
  }

  /** The image request of a turn, by provider name, with the same OpenAI default. */
  function VisionRequest(st: Settings, prompt: string, imageDataUrl: string): Request
  {
    match ProviderNamed(st.selectedProvider)
    case Google => GoogleVision(st, prompt, imageDataUrl)
    case XAI => XAIVision(st, prompt, imageDataUrl)
    case DeepSeek => DeepSeekVision(st, prompt, imageDataUrl)
    case OpenAI => OpenAIVision(st, prompt, imageDataUrl)
  }

  /** The model a request names: the body's model, or for Gemini the model in the URL. */
  function RequestModel(st: Settings, r: Request): string
  {
    if r.body.ChatBody? then r.body.model else st.googleModel
  }

  /**
   * Every request goes to the provider the settings name and carries that
   * provider's key. Text requests use the selected model. An image request
   * uses it only when the provider accepts it for images; otherwise it uses
   * the provider's fixed vision model.
   */
  lemma RequestsFollowSettings(st: Settings, system: string, user: string, prompt: string, image: string)
    ensures TextRequest(st, system, user).provider == ProviderNamed(st.selectedProvider)
    ensures VisionRequest(st, prompt, image).provider == ProviderNamed(st.selectedProvider)
    ensures KnownProvider(st.selectedProvider) ==> RequestModel(st, TextRequest(st, system, user)) == SelectedModel(st)
    ensures KnownProvider(st.selectedProvider) ==>
              (RequestModel(st, VisionRequest(st, prompt, image)) == SelectedModel(st) <==>
                 match ProviderNamed(st.selectedProvider)
                 case OpenAI => SelectedModel(st) in OpenAIVisionModels
                 case DeepSeek => SelectedModel(st) in DeepSeekVisionModels
                 case XAI => SelectedModel(st) == "grok-vision-beta"
                 case Google => true)
    ensures ProviderNamed(st.selectedProvider) != Google ==>
              TextRequest(st, system, user).headers[1] == Header("Authorization", "Bearer " + TableEntry(KeyTable(st), ProviderKeyName(st.selectedProvider)))
  {
  }

  /** The settings name whose key a request to the provider picked for `name` carries. */
  function ProviderKeyName(name: string): string
  {
    match ProviderNamed(name)
    case OpenAI => "openai"
    case Google => "google"
    case XAI => "xai"
    case DeepSeek => "deepseek"
  }

  /** The temperature a request carries, if any. */
  function RequestTemperature(r: Request): Option<real>
  {
    if r.body.ChatBody? then r.body.temperature else Some(r.body.generationConfig.temperature)
  }

  /**
   * Every text request that carries a temperature carries the effective
   * one, and only an OpenAI request can leave it out: exactly when the
   * selected model is a reasoning model.
   */
  lemma TextTemperatureRule(st: Settings, system: string, user: string)
    ensures RequestTemperature(TextRequest(st, system, user)).Some? ==> RequestTemperature(TextRequest(st, system, user)).value == EffectiveTemperature(st)
    ensures RequestTemperature(TextRequest(st, system, user)).None? <==> ProviderNamed(st.selectedProvider) == OpenAI && !SupportsTemperature(st)
  {
  }

  /** The same rule for image requests. */
  lemma VisionTemperatureRule(st: Settings, prompt: string, image: string)
    ensures RequestTemperature(VisionRequest(st, prompt, image)).Some? ==> RequestTemperature(VisionRequest(st, prompt, image)).value == EffectiveTemperature(st)
    ensures RequestTemperature(VisionRequest(st, prompt, image)).None? <==> ProviderNamed(st.selectedProvider) == OpenAI && !SupportsTemperature(st)
  {
  }

  // ---------------------------------------------------------------------

  /**
   * What a provider call comes to before parsing: the reply's text content,
   * or the message of the error it raised (an HTTP failure, a network
   * failure, or a reply without the expected envelope).
   */
  datatype Transport = Delivered(content: Value) | Failed(message: string)

  /** The value a provider call resolves to, or the error it rejects with: delivered content goes through safeJSONParse. */
  function CallResult(t: Transport, parse: string -> ParseResult): (r: Completion<Value>)
    ensures t.Failed? <==> r.Thrown?
    ensures t.Failed? ==> r.message == t.message
    ensures t.Delivered? ==> r.value == SafeJSONParse(t.content, parse).value
  {
    match t
    case Failed(m) => Thrown(m)
    case Delivered(c) => Normal(SafeJSONParse(c, parse).value)
  }

  /**
   * What the model treats as given: the provider's answer to each request
   * (HTTP, the response envelope and the network are not modelled), the
   * JSON.parse used on the answer's text, and JSON.stringify(_, null, 2).
   */
  datatype Host = Host(send: Request -> Transport, parse: string -> ParseResult, stringify: Value -> string)

  /** `await callXAPI(...)`: the parsed reply to `req`, or the error the call rejects with. */
  function Call(host: Host, req: Request): Completion<Value>
  {
    CallResult(host.send(req), host.parse)
  }
}
