# WineExpert core in Dafny

WineExpert is a browser assistant that reads a photographed wine menu with a
vision model, researches each wine with a text model, and answers questions
about the list. This project models the deterministic logic between the user
and the model providers, and proves properties of it:

- **Response repair** (`Repair`): the three-attempt `safeJSONParse` cascade,
  the quote fixer (`fixUnescapedQuotes`) and the closer (`fixIncompleteJSON`),
  both as loops proved against specification functions. `JSON.parse` is a
  parameter: any function from text to a value or an error.
- **Request shaping** (`Requests`, `History`): the bodies each provider
  receives, the vision-model allow-lists, the OpenAI temperature rule, the
  data-URL split, the `[system] ++ history ++ [user]` lists and the flattened
  Gemini history prompt.
- **Settings getters** (`Config`): `apiKey`, `selectedModel`,
  `supportsTemperature`, `effectiveTemperature` and the guards of
  `calculateMarkup`.
- **Pricing and research** (`Prices`, `Pricing`, `Research`):
  `extractNumericPrice`, price selection before research, batching into
  groups of ten, the list text, the merge that backstops name and menu price,
  and the fallback records.
- **Turn control** (`Turns`, `Chat`): `sendMessage`, `processWithAI`,
  `processWinesInBatches` and `formatWineResponse` as methods of a
  `ChatManager` class that update the fields of the shared `App` object
  (`AppState`). Each method is proved against a function that computes the
  turn's outcome as a value.
- **Debug panel** (`Debug`): `logDebug` on the bounded newest-first log,
  `createSafeDebugObject` as a recursive method with loops,
  `isBase64AudioData`, and the HTML escape of `syntaxHighlightJSON`.

JavaScript values are modelled by the `Value` tree in `JsValues`. Objects are
ordered field lists. `Lookup` gives the first field with a key and `Set`
replaces that field in place or appends it, as property assignment does.
Numbers are integers, and decimal prices are exact `Amount`s. Reading a
property of `null` or `undefined` is modelled as a thrown error
(`Completion.Thrown`), because the source lets those errors reach its
`catch` clauses.

A provider is a `Host` value. Its `send` gives the transport outcome of a
request: the reply's text, or the message of the error the call raised.
`parse` is the `JSON.parse` used on that text, and `stringify` is
`JSON.stringify(_, null, 2)`. The fixed prompts and messages of the chat
manager travel as a `Texts` value. `Prompts.SourceTexts` holds the texts the
source uses, so no proof depends on their wording.

The research merge maps over the reply's `wines` array, so its result has
one record per reply entry. A reply with fewer entries than the batch is not
padded with the missing extracted wines, and reply entries beyond the batch
are kept unchanged (js/chat.js:519-532).

A spread `{...v}` copies an object's fields, and for a string or an array one
field per character or element, keyed by its index (`JsValues.AsFields`). So
a wine reply that is a string or an array keeps its index fields through
pricing and the research merge.

The quote fixer's branch for an unescaped quote inside a string
(js/models.js:71-73) cannot be reached, because the branch before it takes
every such quote. The model reproduces this: `Repair.QuoteStep` copies every
quote unchanged, and `Repair.FixQuotesKeepsQuotes` proves that the number of
quotes never changes.

## Model

| member | source | states |
|---|---|---|
| Repair.ScanChar | js/models.js:68-69 | A '"' not preceded by a backslash toggles the in-string flag; any other character leaves it as it was. |
| Repair.QuoteStep | js/models.js:68-85 | A quote is copied as is (the escaping branch is unreachable). A character outside a string, or a non-control character inside one, is copied as is. Inside a string a newline, return or tab becomes a two-character backslash escape. No step emits an escaped quote. |
| Repair.FixUnescapedQuotes | js/models.js:57-90 | The while loop returns exactly the quote-fixed text FixQuotes(s), built from the per-character steps with the scan state of the prefix. |
| Repair.FixQuotesStep | js/models.js:63-87 | One iteration appends the step for character i, given the scan state of the characters before it, and advances the scan by that character. |
| Repair.FixQuotesIdentity | js/models.js:63-89 | A text with no newline, return or tab inside a string comes back unchanged. |
| Repair.NoControlCharsUnchanged | js/models.js:74-85 | A text without newlines, returns or tabs comes back unchanged. |
| Repair.FixQuotesKeepsQuotes | js/models.js:68-73 | The fixed text has exactly as many '"' characters as the input: no quote is added, dropped or escaped. |
| Repair.FixIncompleteJSON | js/models.js:93-122 | The counting loop and the appending loops return the input followed by one ']' per unclosed '[' and then one '}' per unclosed '{', counting only outside strings and never appending for a negative count. |
| Repair.InStringNotCounted | js/models.js:102-109 | Characters without quotes that follow an open string change no counter. |
| Repair.ScanClosers | js/models.js:114-119 | Appending k closers outside a string lowers the matching counter by exactly k. |
| Repair.ClosesEverything | js/models.js:112-121 | When the input ends outside a string, the repaired text leaves no '[' or '{' open: each count becomes min(count, 0). |
| Repair.GreedyObjectSpan | js/models.js:37 | A match of /\{[\s\S]*\}/ starts with '{' and ends with '}'. |
| Repair.GreedyObjectSpanBounds | js/models.js:37-38 | There is no match iff no '{' comes before a '}'. A match occurs in the text with no '{' before it and no '}' after it: it runs from the first '{' to the last '}'. |
| Repair.EmbeddedSpan | js/models.js:37 | An object inside prose that has no '{' before it and no '}' after it is matched exactly. |
| Repair.FailureObjectFields | js/models.js:47-51 | The failure object has error 'Failed to parse JSON response', the first parse's message as originalError, and the untrimmed input as rawResponse. |
| Repair.SafeJSONParse | js/models.js:8-16 | A non-string or empty input gives {error: 'Invalid response format'} with no parse attempted. An input that parses directly is returned as parsed, after a single attempt. |
| Repair.SafeJSONParseCascade | js/models.js:14-41 | One to three attempts are made: the input itself, then the trimmed, quote-fixed and closed text, then the quote-fixed greedy span of the untrimmed input. The third attempt happens only when a span exists. |
| Repair.SafeJSONParseStops | js/models.js:14-44 | Every attempt before the last failed. Stopping before the third attempt means the last attempt parsed or there was no span. |
| Repair.SafeJSONParseResult | js/models.js:14-51 | The result is the last attempt's value when it parsed. Otherwise it is the failure object naming the first error and the raw input. |
| Repair.SecondAttemptParses | js/models.js:21-31 | When only the repaired text parses, that value is returned after exactly two attempts. |
| Repair.NoSpanFails | js/models.js:35-51 | When the first two attempts fail and there is no span, the failure object is returned after two attempts. |
| Repair.ThirdAttempt | js/models.js:35-51 | With a span, the third attempt parses the quote-fixed span. Its value is returned if it parses; otherwise the failure object is returned. |
| Repair.EmbeddedObjectRecovered | js/models.js:35-41 | An object wrapped in brace-free prose is recovered by the third attempt when the first two fail. |
| Requests.ProviderNamed | js/chat.js:88-116 | The provider switch picks Google, xAI or DeepSeek exactly for their names and OpenAI for any other name. |
| Requests.OpenAITemperature | js/models.js:267-270 | An OpenAI body carries a temperature iff the selected model supports one, and then it is the effective temperature. |
| Requests.OpenAIVisionModel | js/models.js:304-310 | The OpenAI vision model is on the allow-list, and it is the selected model iff that model is on the list (otherwise gpt-4o). |
| Requests.DeepSeekVisionModel | js/models.js:515-517 | The DeepSeek vision model is on the allow-list, and it is the selected model iff that model is on the list (otherwise deepseek-vl2). |
| Requests.OpenAIText | js/models.js:247-270 | The OpenAI text request carries the OpenAI key and the selected OpenAI model, with 16384 tokens. The messages are `[system, user]`. It has a temperature iff the model accepts one. |
| Requests.OpenAIVision | js/models.js:284-322 | The OpenAI image request uses an allow-listed model, the selected one iff it is on the list. It sends one user message holding the prompt and then the image URL. It has a temperature iff the model accepts one. |
| Requests.GoogleText | js/models.js:337-350 | The Gemini text request carries model and key in the URL. It sends one user part, "system\n\nUser request: user", at the effective temperature. |
| Requests.GoogleVision | js/models.js:365-390 | The Gemini image request sends one user message: the prompt, then the MIME type and payload split out of the data URL as inline data, at the effective temperature. |
| Requests.XAIText | js/models.js:406-416 | The xAI text request carries the xAI key and model, with 131072 tokens. The messages are `[system, user]`, always at the effective temperature. |
| Requests.XAIVision | js/models.js:430-457 | The xAI image request always uses grok-vision-beta, whatever model is selected. |
| Requests.DeepSeekText | js/models.js:471-481 | The DeepSeek text request carries the DeepSeek key and model, with 8192 tokens. The messages are `[system, user]`, always at the effective temperature. |
| Requests.DeepSeekVision | js/models.js:495-525 | The DeepSeek image request uses an allow-listed model, the selected one iff it is on the list. It sends the prompt and the image in one user message. |
| Requests.DataUrlBase64 | js/models.js:367 | `split(',')[1]` exists iff the URL holds a comma. |
| Requests.DataUrlRoundTrip | js/models.js:366-368 | "data:<mime>;base64,<data>" splits back into exactly that MIME type and that payload. |
| Requests.RequestsFollowSettings | js/models.js:247-537 | Text and vision requests go to the provider the settings name and carry its key. Text requests use the selected model. A vision request uses it iff the provider's allow-list accepts it (xAI only for grok-vision-beta; Gemini always). |
| Requests.TextTemperatureRule | js/models.js:260-270 | A text request's temperature, when present, is the effective one. It is absent iff the provider is OpenAI and the model is a reasoning model. |
| Requests.VisionTemperatureRule | js/models.js:312-322 | The same rule for vision requests. |
| Requests.CallResult | js/models.js:272-281 | A call rejects iff its transport failed, with that message. Delivered content resolves to safeJSONParse of the content. |
| History.AsChatMessages | js/models.js:550 | The history is spread as one chat message per entry, in order, with the same role and content. |
| History.OpenAIWithHistory | js/models.js:540-568 | The system message, then every prior turn as a message with its role and content, in order, then the user message. A temperature is present iff the model accepts one. |
| History.XAIWithHistory | js/models.js:629-653 | The same message list for xAI, at the effective temperature. |
| History.DeepSeekWithHistory | js/models.js:667-691 | The same message list for DeepSeek, at the effective temperature. |
| History.GoogleWithHistory | js/models.js:582-614 | One user text part that starts with the system prompt and a blank line and ends with "Current request: " and the user prompt. With no history it is exactly those. |
| History.HistoryMessages | js/models.js:541-556 | The message list is the system message, then the history, then the user message. |
| History.EmptyHistoryIsSingleTurn | js/models.js:540-580 | With empty history the OpenAI, xAI and DeepSeek history requests equal their single-turn requests. |
| History.Lines | js/models.js:590-596 | There is one transcript line per history entry, in order. |
| History.BuildTranscript | js/models.js:590-596 | The loop over the history returns the transcript: each user or assistant line, in order. |
| History.BuildGoogleHistoryPrompt | js/models.js:585-600 | The prompt is assembled exactly as GoogleHistoryPrompt describes it. |
| History.TranscriptAppend | js/models.js:590-596 | The transcript of two stretches of history is the first's followed by the second's. |
| History.TranscriptSkipsOtherRoles | js/models.js:591-595 | Entries whose role is neither user nor assistant leave no trace in the transcript. |
| History.GooglePromptShape | js/models.js:585-600 | The prompt starts with the system prompt and a blank line and ends with 'Current request: ' and the user prompt. With no history it is exactly those. |
| Config.GettersMatchStored | js/app.js:62-81 | apiKey and selectedModel look the selected provider up in a table of the four providers' stored keys and models. A known provider gets its own stored value, which may itself be ''. Any other name gets ''. |
| Config.GettersReadSelectedOnly | js/app.js:62-81 | The getters depend only on the selected provider's own fields. |
| Config.AnyIncluded | js/app.js:53 | `some(rm => model.includes(rm))` holds iff some listed name occurs in the model. |
| Config.SupportsTemperature | js/app.js:50-54 | The model does not accept a temperature iff some reasoning-model name occurs inside it. |
| Config.ReasoningFamily | js/app.js:43-54 | Any model whose name extends a reasoning model's name is refused a temperature. |
| Config.EffectiveTemperature | js/app.js:57-59 | The effective temperature is the setting when the model accepts it, and 1.0 otherwise. |
| Config.TemperatureIgnoredForReasoning | js/app.js:57-59 | For a reasoning model, changing the temperature setting does not change what is sent. |
| Config.CalculateMarkup | js/app.js:190-202 | The result is a percentage iff both arguments are truthy and both extracted numbers exist and are non-zero (non-strings give 'N/A'). The '+' sign is present iff menu > retail. |
| Config.MarkupOfDollars | js/app.js:190-205 | "$m" against "$r" for whole m, r > 0 is a percentage of m over r, signed '+' iff m > r. |
| Prices.NumericMatch | js/chat.js:369 | There is no match iff the text has no digit or comma. The match starts at the first digit or comma. It takes the longest run of [\d,], then a '.' if one follows, then the digits after it. The next character cannot extend the match. |
| Prices.ParseAmount | js/chat.js:371 | parseFloat gives a non-zero amount only for text holding a digit 1-9. |
| Prices.ParseDecimal | js/chat.js:371 | parseFloat of digits, '.', digits reads all the digits as one number scaled by the count after the point. It is NaN when there are no digits, and non-zero iff some digit is 1-9. |
| Prices.ParseWhole | js/chat.js:371 | parseFloat of digits alone is their value, NaN for none, and non-zero iff some digit is 1-9. |
| Prices.ExtractNumericPrice | js/chat.js:365-374 | A non-string or empty value gives null. A text without digits gives no number. |
| Prices.ExtractFromMatch | js/chat.js:369-371 | The price read is parseFloat of the match with its commas removed. |
| Prices.ExtractDecimal | js/chat.js:365-374 | A [\d,] run, a point and digits, after text with no digit or comma, reads as that decimal with the commas ignored. |
| Prices.ExtractWhole | js/chat.js:365-374 | A [\d,] run not followed by a digit, comma or point, after text with no digit or comma, reads as that whole number with the commas ignored. |
| Prices.NoDigitsStayNoDigits | js/chat.js:369-371 | The match of a price text without digits, with commas removed, parses to NaN. |
| Prices.ParseNoDigits | js/chat.js:371 | parseFloat of a text without digits is NaN. |
| Prices.DollarsMatch | js/chat.js:369 | In "$" followed by digits the match is the digits. |
| Prices.ParseDigits | js/chat.js:371 | parseFloat of a run of digits is their value, with no fraction. |
| Prices.NoCommas | js/chat.js:371 | Removing commas from digits changes nothing. |
| Prices.DollarsRead | js/chat.js:365-374 | "$k" reads as exactly k. |
| Prices.AmountText | js/chat.js:347 | A whole amount is written as its decimal digits, and every rendering starts with a digit. |
| Prices.TimesFive | js/chat.js:346 | The converted amount is five times the glass amount: non-zero, and larger when the glass amount is non-zero. |
| Pricing.SourceOf | js/chat.js:338-359 | The source is the bottle iff the bottle price is present. Otherwise it is a converted glass price iff the glass price is present and non-zero, the plain glass price iff present but not convertible, and none iff both are absent. |
| Pricing.PricedFields | js/chat.js:335-361 | Fields other than final_price, price_source and conversion_note are kept. final_price and price_source follow the branch. conversion_note is set only for a converted glass price. |
| Pricing.PricingKeepsKeys | js/chat.js:335-361 | The priced wine has the wine's keys plus final_price and price_source, and conversion_note only for a converted glass price. |
| Pricing.PriceWine | js/chat.js:334-362 | Pricing one element throws iff the element is null or undefined. Otherwise it gives the priced copy of the element's spread fields. |
| Pricing.PricingKeepsIndexFields | js/chat.js:335 | A string or array priced as a wine keeps each character or element under its index key, as `{...wine}` copies it. |
| Pricing.PriceAll | js/chat.js:333-363 | The map succeeds iff no element is nullish, keeping length and order, and element i is the priced copy of wine i's spread fields. Otherwise it throws the first nullish element's error. |
| Pricing.ProcessExtractedPricing | js/chat.js:333-334 | A non-array throws the TypeError of `wines.map`; an array is priced element by element. |
| Pricing.GlassTimesFive | js/chat.js:343-349 | A glass price "$k" with no bottle price becomes final price "$5k", with source glass_converted and the note naming "$k × 5". |
| Pricing.GlassDollarsConverted | js/chat.js:343-347 | "$k" for k > 0 is a present, convertible glass price: shown as "$k", converted to "$5k". |
| Research.SplitIntoBatches | js/chat.js:380-384 | The slicing loop returns exactly the batches of ten. |
| Research.ChunksFlatten | js/chat.js:380-384 | Joining the batches gives back the wines in order. |
| Research.ChunksShape | js/chat.js:380-384 | There are ceil(n/10) batches, each non-empty and at most ten long, all but the last exactly ten. Element k of batch j is wine 10j+k. |
| Research.ListEntry | js/chat.js:445-452 | An entry starts with its number, ". " and the name. It is exactly that iff the wine has no truthy final price. |
| Research.Entries | js/chat.js:444-453 | There is one list entry per wine, numbered by position. |
| Research.EntryOneLine | js/chat.js:445-452 | An entry has no newline when the wine's name, price and note have none. |
| Research.ListTextLines | js/chat.js:444-454 | For single-line fields, the list text splits on newlines into exactly the entries, in order. |
| Research.Backstop | js/chat.js:524-531 | name is the reply's if truthy, else the extracted one. menu_price is reply ‖ final_price ‖ null, menu_price_note is reply ‖ conversion_note ‖ null, and every other field is the reply's. |
| Research.Merge | js/chat.js:519-532 | The merge throws iff it reads a nullish entry. Otherwise it has one record per reply entry. Entry i is Backstop(reply i, wine i) when wine i exists and is truthy, and the reply entry unchanged otherwise. |
| Research.MergeKeepsMenuFacts | js/chat.js:524-531 | A merged record has a name when its extracted wine has one, and a menu price when its extracted wine has a final price. |
| Research.FallbackFields | js/chat.js:539-554 | A fallback record has the wine's name, final_price as menu_price, conversion_note as menu_price_note, and every research field at its default. |
| Research.FallbackHeadFields | js/chat.js:540-542 | name, menu_price and menu_price_note come from the extracted wine. |
| Research.FallbackDefault | js/chat.js:543-553 | Each research field holds its default: null, or [] for sources. |
| Research.FallbackSources | js/chat.js:547 | A fallback record's sources list is empty. |
| Research.Fallbacks | js/chat.js:538-555 | There is one fallback per extracted wine, in order. |
| Research.ResearchBatch | js/chat.js:441-581 | A nullish wine makes the batch contribute nothing. Otherwise the result is the fallbacks or the merge of some reply. |
| Research.ResearchBatchCases | js/chat.js:441-581 | A nullish wine makes the batch contribute nothing. A failed call or a reply without a wines array gives the fallbacks. With a wines array, a throwing merge gives the fallbacks, and otherwise the result is the merged list. |
| Research.ResearchBatchKeepsMenuFacts | js/chat.js:518-579 | At every position a batch and its result share, the result has a name when the extracted wine has one, and a menu price when it has a final price. |
| Research.ResearchAllAppend | js/chat.js:402-404 | The results of two runs of batches are flattened in batch order. |
| Research.ResearchAllFirst | js/chat.js:389-404 | Researching a list is researching its first batch and then the rest. |
| Research.FinalWines | js/chat.js:414-421 | The researched wines are kept when there are any; otherwise the extracted wines are used. |
| Research.BatchWhenDown | js/chat.js:559-580 | A batch whose call fails yields the fallback records. |
| Research.ProviderDown | js/chat.js:378-421 | With every call failing, the researched list is the fallback record of every extracted wine, in order. |
| Research.NothingExtracted | js/chat.js:414-421 | No extracted wines gives an empty final list. |
| Turns.MessageClass | js/chat.js:8-14 | Each CSS class is returned exactly under its rule, and earlier rules win. |
| Turns.Classify | js/chat.js:254-263 | An API-key problem iff 'API error', '401' or '403' occurs. Otherwise invalid JSON iff 'JSON' or 'parse' occurs. Otherwise a network problem iff 'fetch' or 'network' occurs. |
| Turns.UnauthorizedAsksForKey | js/chat.js:255-256 | Any message containing 401 gets the API-key hint. |
| Turns.UnclassifiedShowsDetails | js/chat.js:261-262 | An unclassified message is shown in full after "Details: ". |
| Turns.StructuredErrorOfStrings | js/chat.js:199-205 | An error reply with non-empty originalError and rawResponse shows all three lines. |
| Turns.UnparsableReplyShown | js/chat.js:197-205 | A reply that failed every parse is shown with the parser's first error and the raw text. |
| Turns.TextTurnIsSingleTurn | js/chat.js:151-163 | A text turn sends no history: one system and one user message, or a single Gemini part. |
| Turns.ContextOnlyWithWines | js/chat.js:143-149 | The context lead is prefixed to the user text iff the current list has wines. Without wines, the prompts are unchanged. |
| Turns.ReportEntries | js/chat.js:295-311 | There is one report entry per wine, numbered by position. |
| Turns.ReportEntriesAppend | js/chat.js:295-311 | Adding a wine at the end adds its entry at the end. |
| Turns.ReportBodyIsEntries | js/chat.js:295-311 | The report body is every wine's entry in list order. |
| Turns.WineReport | js/chat.js:283-330 | No wines give the no-wines text. The report throws iff some wine is null or undefined, with the error of reading the first such wine's name. |
| Turns.WineReportText | js/chat.js:292-326 | Without nullish wines the report is the header, every wine's entry in order, then the footer. |
| Turns.ReportHeaderCounts | js/chat.js:293 | The header counts the wines: "1 wine", or "n wines" for more. |
| Turns.Turn | js/chat.js:45-281 | Only a turn with an image can set the wine lists. A turn without an image appends exactly one message. |
| Turns.ReplyOutcome | js/chat.js:166-228 | The lists are set only on an image turn whose reply is not nullish and has truthy wines. Without an image one message is appended. |
| Turns.PhotoOutcome | js/chat.js:167-188 | The lists are set iff the wines are an array with no nullish element. Then the extracted list has one priced wine per listed wine, and the current list is the research result. One message is appended, or two when the lists are set. |
| Turns.TurnMessageCount | js/chat.js:45-281 | A turn appends one message, or two exactly when it set the wine lists. |
| Turns.ReplyMessageCount | js/chat.js:166-228 | Handling a reply appends one message, or two when it set the lists. |
| Turns.PhotoMessageCount | js/chat.js:168-188 | The image branch appends one message, or two when it set the lists. |
| Turns.VisionFailureIsOneMessage | js/chat.js:118-137 | A failed vision call appends exactly one message and leaves both lists alone. |
| Turns.TextTurnKeepsLists | js/chat.js:139-164 | A turn without an image never changes the wine lists. |
| Turns.PhotoSetsLists | js/chat.js:167-188 | A photo reply listing wines sets the extracted list (one priced wine per listed wine) and the current list to the research result. With no wines listed, both lists are empty. |
| Turns.ReplyWithWines | js/chat.js:167-188 | The same, for the parsed reply of an image turn. |
| Turns.PhotoOfWines | js/chat.js:170-185 | The same, for the listed wines themselves. |
| Chat.ContextNoteIffWines | js/chat.js:25-38 | A send appends the trimmed user text, and a second note iff the current list has wines. That note counts the wines. |
| Chat.FormatWineResponse | js/chat.js:283-330 | The method computes WineReport: the no-wines text, the error from a nullish wine's name, or header, entries and footer. |
| Chat.FormatEntries | js/chat.js:295-311 | The forEach loop, whose callback builds each wine's lines piece by piece, returns the report body. |
| Chat.ChatManager.constructor | js/chat.js:3-5 | The manager holds the app (and the texts). |
| Chat.ChatManager.SendMessage | js/chat.js:16-42 | A blocked send (blank input, no key, processing, no image) changes nothing. Otherwise the input is cleared, the user message and context note are appended, and a text turn's messages follow. The lists are unchanged and processing ends false. |
| Chat.ChatManager.Send | js/chat.js:19-41 | The same new state, for the path after the guard. |
| Chat.ChatManager.PostSendNotes | js/chat.js:24-38 | Appends the user message and, iff the list has wines, the context note. |
| Chat.ChatManager.ProcessWithAI | js/chat.js:45-281 | Messages grow by the turn's messages. The lists change only as the turn says. processing is false on every exit. |
| Chat.ChatManager.AnalyzeImage | js/chat.js:62-138 | The image path reaches the vision turn's state. |
| Chat.ChatManager.AnswerText | js/chat.js:139-164 | The text path reaches the text turn's state. |
| Chat.ChatManager.HandleReply | js/chat.js:166-228 | The reply handling reaches the reply outcome's state. |
| Chat.ChatManager.HandlePhoto | js/chat.js:167-188 | Pricing, research and report reach the photo outcome's state. |
| Chat.ChatManager.ResearchAndReport | js/chat.js:172-188 | Announces the count, sets both lists, and posts the report of the final list. |
| Chat.ChatManager.PostReport | js/chat.js:188 | Appends the report message of the current list. |
| Chat.ChatManager.ProcessWinesInBatches | js/chat.js:378-421 | The current list becomes the flattened research of the batches, or the extracted wines when that is empty. |
| Debug.ProcessedData | js/debug.js:10-15 | The copy has the data's keys. A defined duration is replaced by its seconds text, every other key is unchanged, and an undefined duration leaves the copy equal to the data. |
| Debug.EntryKeys | js/debug.js:17-23 | An entry has timestamp, type, provider and model plus the data's keys. |
| Debug.EntryDataWins | js/debug.js:17-23 | A data field (the last of its key) overrides the entry's own field. |
| Debug.EntryKeepsOwn | js/debug.js:17-23 | An own field that the data does not name keeps its value. |
| Debug.LogAfter | js/debug.js:8-30 | Disabled debugging leaves the log unchanged. Otherwise the entry is at index 0, entry i moves to i+1, and the length is min(old+1, 100), so a log of at most 100 entries stays within 100. |
| Debug.LogNewestFirst | js/debug.js:25 | After two calls the later entry is first and the earlier one second. |
| Debug.DebugManager.constructor | js/debug.js:3-5 | The manager holds the app. |
| Debug.DebugManager.LogDebug | js/debug.js:7-31 | The app's log becomes LogAfter of the old log and the new entry. |
| Debug.Base64ShapedIsRegex | js/debug.js:197-198 | The shape test holds iff the text splits into base64 characters followed by zero to two '='. |
| Debug.IsBase64AudioData | js/debug.js:192-202 | True iff the length exceeds 10000 and the text matches /^[A-Za-z0-9+/]*={0,2}$/. |
| Debug.KilobytesNearest | js/debug.js:144-148 | The kilobyte count is the nearest whole number of kilobytes, with halves rounded up. |
| Debug.SafeItems | js/debug.js:112-120 | The first min(len, 100) elements are copied, plus a "[... k more items]" trailer with k = len − 100 iff len > 100. |
| Debug.StoppedStays | js/debug.js:131-134 | After the break the remaining fields change nothing. |
| Debug.CopyFieldsBounds | js/debug.js:122-158 | At most 50 fields are counted, and the copy holds at most 51 keys. No __debugId is kept, only original keys and '...' appear, and '...' holds the truncation marker after the break. |
| Debug.ResultSize | js/debug.js:130-155 | The copy holds at most one key per counted field, plus the '...' marker once the loop broke off. |
| Debug.SkipsFunctionsAndUndefined | js/debug.js:137-139 | Below the cap, a function or undefined value adds no key and is not counted. |
| Debug.OnlySkippedValues | js/debug.js:137-139 | An object whose values are all functions or undefined copies to an empty object. |
| Debug.NoTruncationUnderCap | js/debug.js:130-134 | An object of at most 50 fields is never truncated. |
| Debug.CreateSafeDebugObject | js/debug.js:82-166 | The recursive method returns SafeCopy: a marker at the depth limit, primitives as they are, DOM nodes as a marker, arrays and objects copied one level deeper. |
| Debug.CopyObject | js/debug.js:122-158 | The object loop, with its counter, skips and break, returns the copy CopyFields describes. |
| Debug.EscapeHtml | js/debug.js:171 | The escaped text holds no '<' and no '>'. |
| Debug.EscapeHtmlEach | js/debug.js:171 | The three passes escape each character independently: no entity one pass inserts is touched by a later pass. |
| Debug.UnescapeEscape | js/debug.js:171 | Reading the entities back gives the original text, so the escape loses nothing. |
| JsValues.SpreadIndexField | js/chat.js:335 | Spreading a string or an array gives, under index i, the i-th character or element. |
| JsValues.GetNamedKey | js/chat.js:335 | A key with a non-digit character reads the same from a value as from its spread copy. |
| JsValues.Assign | js/debug.js:17-23 | Spreading a source over a target keeps the union of keys, and a key the source lacks keeps the target's value. |
| JsValues.AssignLastWins | js/debug.js:17-23 | A source field that is the last of its key wins. |
| Text.Includes | js/app.js:53 | `includes` holds iff the substring occurs at some position. |

## Left out

- Networking, `fetch`, HTTP status handling, response envelopes and console logging (`makeAPICall`) are left out. A provider call is the `Host`'s answer: reply text or an error message.
- `JSON.parse` and `JSON.stringify` are parameters of the `Host`, not implementations.
- The research batches run in parallel with `Promise.all`. Here they run one after another; the result order comes from the batch index either way.
- Floating point is not modelled. This covers the `parseFloat` value beyond its digits, the `$${glassPrice*5}` rendering of non-integral amounts (written as exact decimals here), the markup percentage and its `toFixed`, the temperature `parseFloat`, and the duration conversion in `logDebug`.
- Config.CalculateMarkup: does not model the digits of the percentage, only 'N/A' versus a signed percentage, because they come from floating-point division and `toFixed(0)`.
- Debug.DebugManager.LogDebug: takes the formatted timestamp and the seconds text of a duration as parameters, because `formatTimestamp` is locale-dependent and `toFixed(1)` is floating point.
- `formatTimestamp` and `formatDebugJSON` are presentation code and are left out.
- The regex span highlighting of `syntaxHighlightJSON` is left out; only its HTML escape is modelled.
- createSafeDebugObject's circular-reference detection (a `WeakMap` of object identities) and its `catch` are left out. Values are acyclic trees and nothing in the copy throws.
- createSafeDebugObject's '[Function]' branch is not modelled, because it is unreachable: functions fail the preceding `typeof obj !== 'object'` test and are returned as they are.
- Object key order follows field order. JavaScript's enumeration of integer-like keys before the others is not modelled.
- processWithAI's own `logDebug` calls are left out, because they carry clock readings and error stacks. `logDebug` itself is modelled.
- The `*WithHistory` request builders are modelled, but nothing in the chat manager calls them; text turns use the single-turn calls.
- The error message of a research call that throws is discarded by the source's `catch`, so the model does not carry it.
- Chat.ChatManager.ProcessWithAI: the image data URL is a string, and a turn takes the image path when it is non-empty, because `null` is not modelled.
- The messages and prompts are passed as a `Texts` value, and `Prompts.SourceTexts` holds the source's own wording.
- DOM and UI code is left out: the textarea handlers, focus, scrolling, clipboard, and image upload through `FileReader`. `imageUploaded` is a field.
- localStorage persistence (settings.js and the startup reads in app.js) is left out; settings are a value.
- ParseAmount: its own contract states only that a non-zero amount needs a digit 1-9. The value read is stated by Prices.ParseDecimal and Prices.ParseWhole, for the two shapes a match can have.
- ExtractNumericPrice: its own contract states only when the result is null. The value read is stated by Prices.ExtractFromMatch, Prices.ExtractDecimal and Prices.ExtractWhole.
- Text.Trim: is specified by its result (a substring with no white space at either end) rather than as exactly the middle of the input.
