// What one chat turn produces, as values: the messages it appends, the texts
// of its error messages, the wine report shown after research, and the wine
// lists it leaves behind. The chat manager's methods are proved against
// these functions.

module Turns {
  import opened Text
  import opened JsValues
  import opened Repair
  import opened Config
  import opened Requests
  import opened Prompts
  import opened Pricing
  import opened Research

  /** A chat message: who sent it, its content, and its type (which decides where it is drawn). */
  datatype Message = Message(sender: string, content: Value, kind: string)

  /** `getMessageClass(message)`: the first matching rule wins. */
  function MessageClass(m: Message): (r: string)
    ensures r == "message-center" <==> m.kind == "system"
    ensures r == "message-center user-input" <==> m.kind != "system" && m.sender == "User"
    ensures r == "message-right" <==> m.kind != "system" && m.sender != "User" && m.kind == "npc-right"
    ensures r == "message-left" <==> m.kind != "system" && m.sender != "User" && m.kind != "npc-right"
  {
    if m.kind == "system" then "message-center"
    else if m.sender == "User" then "message-center user-input"
    else if m.kind == "npc-left" then "message-left"
    else if m.kind == "npc-right" then "message-right"
    else "message-left"
  }

  // ---------------------------------------------------------------------
  // Message texts
  // ---------------------------------------------------------------------

  /** The hint a caught error's message selects, tested in this order. */
  datatype ErrorKind = ApiKeyProblem | InvalidJson | NetworkProblem | OtherError

  function Classify(msg: string): (k: ErrorKind)
    ensures k == ApiKeyProblem <==> Includes(msg, "API error") || Includes(msg, "401") || Includes(msg, "403")
    ensures k == InvalidJson <==> k != ApiKeyProblem && (Includes(msg, "JSON") || Includes(msg, "parse"))
    ensures k == NetworkProblem <==> k != ApiKeyProblem && k != InvalidJson && (Includes(msg, "fetch") || Includes(msg, "network"))
  {
    if Includes(msg, "API error") || Includes(msg, "401") || Includes(msg, "403") then ApiKeyProblem
    else if Includes(msg, "JSON") || Includes(msg, "parse") then InvalidJson
    else if Includes(msg, "fetch") || Includes(msg, "network") then NetworkProblem
    else OtherError
  }

  /** The message shown for an error caught by the turn. */
  function ErrorText(tx: Texts, msg: string): string
  {
    tx.errorLead +
    match Classify(msg)
    case ApiKeyProblem => tx.apiKeyHint
    case InvalidJson => tx.jsonHint
    case NetworkProblem => tx.networkHint
    case OtherError => "Details: " + msg
  }

  /** Any message mentioning a 401 status asks the user to check the API key, whatever else it says. */
  lemma UnauthorizedAsksForKey(tx: Texts, before: string, after: string)
    ensures ErrorText(tx, before + "401" + after) == tx.errorLead + tx.apiKeyHint
  {
    var s := before + "401" + after;
    assert s[|before|..|before| + 3] == "401";
    assert OccursAt(s, "401", |before|);
  }

  /** A message that matches none of the hints is shown in full after "Details: ". */
  lemma UnclassifiedShowsDetails(tx: Texts, msg: string)
    requires Classify(msg) == OtherError
    ensures ErrorText(tx, msg) == tx.errorLead + "Details: " + msg
  {
  }

  function ErrorMessage(tx: Texts, msg: string): Message
  {
    Message("System", Str(ErrorText(tx, msg)), "system")
  }

  /** The message shown when the image call fails. */
  function VisionFailureText(tx: Texts, provider: string, msg: string): string
  {
    tx.visionFailureHead + provider + ": " + msg + tx.visionFailureTail
  }

  /** The message shown for a reply that carries an `error` field. */
  function StructuredErrorText(resp: Value): string
  {
    var original := Get(resp, "originalError");
    var raw := Get(resp, "rawResponse");
    "Error: " + Display(Get(resp, "error"))
    + (if Truthy(original) then "\nOriginal error: " + Display(original) else "")
    + (if Truthy(raw) then "\nRaw response: " + Display(raw) else "")
  }

  /** When every parse of a reply fails, the user sees the parser's first error and the raw reply. */
  lemma UnparsableReplyShown(firstError: string, raw: string)
    requires firstError != "" && raw != ""
    ensures StructuredErrorText(FailureObject(firstError, raw))
            == "Error: " + "Failed to parse JSON response" + ("\nOriginal error: " + firstError) + ("\nRaw response: " + raw)
  {
    FailureObjectFields(firstError, raw);
    StructuredErrorOfStrings(FailureObject(firstError, raw), "Failed to parse JSON response", firstError, raw);
  }

  /** An error object whose error, original error and raw response are non-empty texts is shown as all three. */
  lemma StructuredErrorOfStrings(resp: Value, error: string, original: string, raw: string)
    requires Get(resp, "error") == Str(error)
    requires Get(resp, "originalError") == Str(original) && original != ""
    requires Get(resp, "rawResponse") == Str(raw) && raw != ""
    ensures StructuredErrorText(resp) == "Error: " + error + ("\nOriginal error: " + original) + ("\nRaw response: " + raw)
  {
  }

  // ---------------------------------------------------------------------
  // Text turns
  // ---------------------------------------------------------------------

  /** The current wine list has wines: the turn sends it as context. */
  predicate HasWines(list: Option<seq<Value>>)
  {
    list.Some? && |list.value| > 0
  }

  /** `{wines: [...]}`, the shape the wine lists are kept in. */
  function WineListValue(ws: seq<Value>): Value
  {
    Obj([Field("wines", Arr(ws))])
  }

  /** The system prompt and user text of a text turn. */
  function TextPrompts(tx: Texts, current: Option<seq<Value>>, userInput: string, stringify: Value -> string): (string, string)
  {
    if HasWines(current) then
      (tx.textSystem + tx.contextHeader + stringify(WineListValue(current.value)), tx.contextLead + userInput)
    else
      (tx.textSystem, userInput)
  }

  /** The request of a text turn: the plain, history-free call of the selected provider; empty input becomes "Hello". */
  function TextTurnRequest(st: Settings, tx: Texts, current: Option<seq<Value>>, userInput: string, stringify: Value -> string): Request
  {
    var (system, user) := TextPrompts(tx, current, userInput, stringify);
    TextRequest(st, system, if user == "" then "Hello" else user)
  }

  /**
   * A text turn sends no conversation history: a chat-shaped request holds
   * exactly the system prompt and the user text, a Gemini request one text
   * part.
   */
  lemma TextTurnIsSingleTurn(st: Settings, tx: Texts, current: Option<seq<Value>>, userInput: string, stringify: Value -> string)
    ensures var r := TextTurnRequest(st, tx, current, userInput, stringify);
            (r.body.ChatBody? ==> |r.body.messages| == 2 && r.body.messages[0].role == "system" && r.body.messages[1].role == "user")
            && (r.body.GeminiBody? ==> |r.body.contents| == 1 && r.body.contents[0].content.Parts? && |r.body.contents[0].content.parts| == 1)
  {
  }

  /** The user text carries the context lead exactly when a non-empty wine list is sent along. */
  lemma ContextOnlyWithWines(tx: Texts, current: Option<seq<Value>>, userInput: string, stringify: Value -> string)
    ensures HasWines(current) ==> TextPrompts(tx, current, userInput, stringify).1 == tx.contextLead + userInput
    ensures !HasWines(current) ==> TextPrompts(tx, current, userInput, stringify) == (tx.textSystem, userInput)
  {
  }

  // ---------------------------------------------------------------------
  // The wine report
  // ---------------------------------------------------------------------

  /** The lines for wine `i` of the report: its number and name in bold, its menu price and note, its retail price, and a blank line. */
  function ReportEntry(i: nat, w: Value): string
  {
    var menu := Get(w, "menu_price");
    var note := Get(w, "menu_price_note");
    var retail := Get(w, "retail_price");
    var head := "**" + NatToString(i + 1) + ". " + Display(Get(w, "name")) + "**\n";
    var withMenu := if Truthy(menu) then head + MenuLine(menu, note) else head;
    var withRetail := if Truthy(retail) then withMenu + ("   Retail: " + Display(retail) + "\n") else withMenu;
    withRetail + "\n"
  }

  /** The menu price line, with the note in parentheses when there is one. */
  function MenuLine(menu: Value, note: Value): string
  {
    var price := "   Menu: " + Display(menu);
    var noted := if Truthy(note) then price + (" (" + Display(note) + ")") else price;
    noted + "\n"
  }

  /** The entries of the report, one after another. */
  function ReportBody(ws: seq<Value>): string
  {
    if |ws| == 0 then "" else ReportBody(ws[..|ws| - 1]) + ReportEntry(|ws| - 1, ws[|ws| - 1])
  }

  function ReportEntries(ws: seq<Value>): (r: seq<string>)
    ensures |r| == |ws| && forall i :: 0 <= i < |ws| ==> r[i] == ReportEntry(i, ws[i])
  {
    seq(|ws|, i requires 0 <= i < |ws| => ReportEntry(i, ws[i]))
  }

  function ReportHeader(n: nat): string
  {
    "Found " + NatToString(n) + " wine" + (if n > 1 then "s" else "") + " in the image:\n\n"
  }

  /** Some wine carries research data: a retail price, ratings, tasting notes or a producer. */
  predicate HasDetailedInfo(ws: seq<Value>)
  {
    exists i :: 0 <= i < |ws| && (Truthy(Get(ws[i], "retail_price")) || Truthy(Get(ws[i], "ratings"))
                                  || Truthy(Get(ws[i], "tasting_notes")) || Truthy(Get(ws[i], "producer")))
  }

  function ReportFooter(tx: Texts, detailed: bool): string
  {
    if detailed then tx.footerDetailed else tx.footerPlain
  }

  /** `formatWineResponse({wines: ws})`: the report text, or the error reading the name of a null or undefined wine. */
  function WineReport(tx: Texts, ws: seq<Value>): (r: Completion<string>)
    ensures ws == [] ==> r == Normal(tx.noWines)
    ensures r.Thrown? <==> ws != [] && exists i :: 0 <= i < |ws| && Nullish(ws[i])
    ensures r.Thrown? ==> var k := FirstNullish(ws); 0 <= k < |ws| && r.message == ReadError(ws[k], "name")
  {
    if |ws| == 0 then Normal(tx.noWines)
    else if FirstNullish(ws) >= 0 then Thrown(ReadError(ws[FirstNullish(ws)], "name"))
    else Normal(ReportHeader(|ws|) + ReportBody(ws) + ReportFooter(tx, HasDetailedInfo(ws)))
  }

  /** A report of wines none of which is null or undefined is the header, every wine's entry in order, and the footer. */
  lemma WineReportText(tx: Texts, ws: seq<Value>)
    requires ws != [] && forall i :: 0 <= i < |ws| ==> !Nullish(ws[i])
    ensures WineReport(tx, ws) == Normal(ReportHeader(|ws|) + Concat(ReportEntries(ws)) + ReportFooter(tx, HasDetailedInfo(ws)))
  {
    ReportBodyIsEntries(ws);
  }

  /** Adding a wine at the end of the list adds its entry at the end of the report body. */
  lemma ReportEntriesAppend(ws: seq<Value>, w: Value)
    ensures Concat(ReportEntries(ws + [w])) == Concat(ReportEntries(ws)) + ReportEntry(|ws|, w)
  {
    assert ReportEntries(ws + [w]) == ReportEntries(ws) + [ReportEntry(|ws|, w)];
    ConcatAppend(ReportEntries(ws), [ReportEntry(|ws|, w)]);
  }

  /** The report body is the entry of every wine, numbered from 1, in list order. */
  lemma {:induction false} ReportBodyIsEntries(ws: seq<Value>)
    ensures ReportBody(ws) == Concat(ReportEntries(ws))
    decreases |ws|
  {
    if |ws| > 0 {
      var n := |ws| - 1;
      ReportBodyIsEntries(ws[..n]);
      ReportEntriesAppend(ws[..n], ws[n]);
      assert ws[..n] + [ws[n]] == ws;
    }
  }

  /** The header counts the wines, with "wine" for one and "wines" for more. */
  lemma ReportHeaderCounts(n: nat)
    ensures n == 1 ==> ReportHeader(n) == "Found 1 wine in the image:\n\n"
    ensures n > 1 ==> ReportHeader(n) == "Found " + NatToString(n) + " wines in the image:\n\n"
  {
    if n == 1 {
      assert NatToString(1) == "1";
    }
  }

  // ---------------------------------------------------------------------
  // The outcome of a turn
  // ---------------------------------------------------------------------

  /** What a turn leaves behind: the messages it appends and, after a menu photo, the extracted and final wine lists. */
  datatype TurnOutcome = TurnOutcome(added: seq<Message>, lists: Option<(seq<Value>, seq<Value>)>)

  function ExpertMessage(content: Value): Message
  {
    Message("Wine Expert", content, "system")
  }

  function FoundMessage(tx: Texts, n: nat): Message
  {
    Message("System", Str(tx.foundHead + NatToString(n) + tx.foundTail), "system")
  }

  /** The last message of an image turn: the report, or the error caught while writing it. */
  function ReportMessage(tx: Texts, ws: seq<Value>): Message
  {
    match WineReport(tx, ws)
    case Normal(text) => ExpertMessage(Str(text))
    case Thrown(m) => ErrorMessage(tx, m)
  }

  /** After research: the count of extracted wines, then the report of the final list; both lists are set. */
  function ResearchedOutcome(tx: Texts, extracted: seq<Value>, final: seq<Value>): TurnOutcome
  {
    TurnOutcome([FoundMessage(tx, |extracted|), ReportMessage(tx, final)], Some((extracted, final)))
  }

  /** An image turn whose reply lists `wines`: pricing, then research of the priced wines, then the report. */
  function PhotoOutcome(st: Settings, tx: Texts, host: Host, wines: Value): (r: TurnOutcome)
    ensures r.lists.Some? <==> wines.Arr? && forall i :: 0 <= i < |wines.items| ==> !Nullish(wines.items[i])
    ensures r.lists.Some? ==> |r.lists.value.0| == |wines.items|
                              && r.lists.value.1 == FinalWines(r.lists.value.0, ResearchAll(st, tx, host, Chunks(r.lists.value.0)))
    ensures |r.added| == (if r.lists.Some? then 2 else 1)
  {
    match ProcessExtractedPricing(wines)
    case Thrown(m) => TurnOutcome([ErrorMessage(tx, m)], None)
    case Normal(extracted) => ResearchedOutcome(tx, extracted, FinalWines(extracted, ResearchAll(st, tx, host, Chunks(extracted))))
  }

  /** How the turn handles a parsed reply. */
  function ReplyOutcome(st: Settings, tx: Texts, host: Host, resp: Value, hasImage: bool): (r: TurnOutcome)
    ensures r.lists.Some? ==> hasImage && !Nullish(resp) && Truthy(Get(resp, "wines"))
    ensures !hasImage ==> |r.added| == 1
  {
    if Nullish(resp) then TurnOutcome([ErrorMessage(tx, ReadError(resp, "wines"))], None)
    else if Truthy(Get(resp, "wines")) then
      if hasImage then PhotoOutcome(st, tx, host, Get(resp, "wines"))
      else TurnOutcome([ExpertMessage(Or(Get(resp, "message"), Str(tx.needImage)))], None)
    else if Truthy(Get(resp, "error")) then TurnOutcome([ExpertMessage(Str(StructuredErrorText(resp)))], None)
    else TurnOutcome([ExpertMessage(Or(Get(resp, "message"), Str(host.stringify(resp))))], None)
  }

  /** The turn takes the image path when it has an image and image data. */
  predicate ImageTurn(hasImage: bool, imageDataUrl: string)
  {
    hasImage && imageDataUrl != ""
  }

  /** `processWithAI(userInput, hasImage, imageDataUrl)` as values. */
  function Turn(st: Settings, tx: Texts, host: Host, current: Option<seq<Value>>, userInput: string, hasImage: bool, imageDataUrl: string): (r: TurnOutcome)
    ensures r.lists.Some? ==> hasImage
    ensures !hasImage ==> |r.added| == 1
  {
    if ImageTurn(hasImage, imageDataUrl) then VisionTurn(st, tx, host, imageDataUrl)
    else TextTurn(st, tx, host, current, userInput, hasImage)
  }

  /** The image path: the vision call, whose failure is reported with the provider's name and a hint. */
  function VisionTurn(st: Settings, tx: Texts, host: Host, imageDataUrl: string): TurnOutcome
  {
    match Call(host, VisionRequest(st, tx.vision, imageDataUrl))
    case Thrown(m) => TurnOutcome([ExpertMessage(Str(VisionFailureText(tx, st.selectedProvider, m)))], None)
    case Normal(resp) => ReplyOutcome(st, tx, host, resp, true)
  }

  /** The text path: the text call, whose failure is reported like any error the turn catches. */
  function TextTurn(st: Settings, tx: Texts, host: Host, current: Option<seq<Value>>, userInput: string, hasImage: bool): TurnOutcome
  {
    match Call(host, TextTurnRequest(st, tx, current, userInput, host.stringify))
    case Thrown(m) => TurnOutcome([ErrorMessage(tx, m)], None)
    case Normal(resp) => ReplyOutcome(st, tx, host, resp, hasImage)
  }

  /** A turn appends one message, or two when a menu photo was read and researched; only then does it set the lists. */
  lemma TurnMessageCount(st: Settings, tx: Texts, host: Host, current: Option<seq<Value>>, userInput: string, hasImage: bool, imageDataUrl: string)
    ensures var t := Turn(st, tx, host, current, userInput, hasImage, imageDataUrl);
            |t.added| == (if t.lists.Some? then 2 else 1)
  {
    if ImageTurn(hasImage, imageDataUrl) {
      var c := Call(host, VisionRequest(st, tx.vision, imageDataUrl));
      if c.Normal? {
        ReplyMessageCount(st, tx, host, c.value, hasImage);
      }
    } else {
      var c := Call(host, TextTurnRequest(st, tx, current, userInput, host.stringify));
      if c.Normal? {
        ReplyMessageCount(st, tx, host, c.value, hasImage);
      }
    }
  }

  /** Handling a reply appends one message, or two when it set the lists. */
  lemma ReplyMessageCount(st: Settings, tx: Texts, host: Host, resp: Value, hasImage: bool)
    ensures var t := ReplyOutcome(st, tx, host, resp, hasImage);
            |t.added| == (if t.lists.Some? then 2 else 1)
  {
    if !Nullish(resp) && Truthy(Get(resp, "wines")) && hasImage {
      PhotoMessageCount(st, tx, host, Get(resp, "wines"));
    }
  }

  lemma PhotoMessageCount(st: Settings, tx: Texts, host: Host, wines: Value)
    ensures var t := PhotoOutcome(st, tx, host, wines);
            |t.added| == (if t.lists.Some? then 2 else 1)
  {
  }

  /** A failed image call appends exactly one message and leaves both wine lists alone. */
  lemma VisionFailureIsOneMessage(st: Settings, tx: Texts, host: Host, current: Option<seq<Value>>, userInput: string, imageDataUrl: string)
    requires imageDataUrl != ""
    requires host.send(VisionRequest(st, tx.vision, imageDataUrl)).Failed?
    ensures Turn(st, tx, host, current, userInput, true, imageDataUrl).lists.None?
    ensures |Turn(st, tx, host, current, userInput, true, imageDataUrl).added| == 1
  {
  }

  /** Only a turn with an image can change the wine lists. */
  lemma TextTurnKeepsLists(st: Settings, tx: Texts, host: Host, current: Option<seq<Value>>, userInput: string, imageDataUrl: string)
    ensures Turn(st, tx, host, current, userInput, false, imageDataUrl).lists.None?
  {
  }

  /**
   * A menu photo whose reply lists wines sets the extracted list to the
   * priced wines, one per listed wine, and the current list to the research
   * result; a reply listing no wines leaves both lists empty.
   */
  lemma PhotoSetsLists(st: Settings, tx: Texts, host: Host, current: Option<seq<Value>>, userInput: string, imageDataUrl: string, ws: seq<Value>)
    requires imageDataUrl != ""
    requires Call(host, VisionRequest(st, tx.vision, imageDataUrl)).Normal?
    requires Get(Call(host, VisionRequest(st, tx.vision, imageDataUrl)).value, "wines") == Arr(ws)
    requires FirstNullish(ws) == -1
    ensures var t := Turn(st, tx, host, current, userInput, true, imageDataUrl);
            t.lists.Some?
            && |t.lists.value.0| == |ws|
            && t.lists.value.1 == FinalWines(t.lists.value.0, ResearchAll(st, tx, host, Chunks(t.lists.value.0)))
            && (ws == [] ==> t.lists.value == ([], []))
  {
    var resp := Call(host, VisionRequest(st, tx.vision, imageDataUrl)).value;
    assert Turn(st, tx, host, current, userInput, true, imageDataUrl) == ReplyOutcome(st, tx, host, resp, true);
    ReplyWithWines(st, tx, host, resp, ws);
  }

  lemma ReplyWithWines(st: Settings, tx: Texts, host: Host, resp: Value, ws: seq<Value>)
    requires Get(resp, "wines") == Arr(ws)
    requires FirstNullish(ws) == -1
    ensures var t := ReplyOutcome(st, tx, host, resp, true);
            t.lists.Some?
            && |t.lists.value.0| == |ws|
            && t.lists.value.1 == FinalWines(t.lists.value.0, ResearchAll(st, tx, host, Chunks(t.lists.value.0)))
            && (ws == [] ==> t.lists.value == ([], []))
  {
    assert !Nullish(resp) && Truthy(Get(resp, "wines"));
    assert ReplyOutcome(st, tx, host, resp, true) == PhotoOutcome(st, tx, host, Arr(ws));
    PhotoOfWines(st, tx, host, ws);
  }

  lemma PhotoOfWines(st: Settings, tx: Texts, host: Host, ws: seq<Value>)
    requires FirstNullish(ws) == -1
    ensures var t := PhotoOutcome(st, tx, host, Arr(ws));
            t.lists.Some?
            && |t.lists.value.0| == |ws|
            && t.lists.value.1 == FinalWines(t.lists.value.0, ResearchAll(st, tx, host, Chunks(t.lists.value.0)))
            && (ws == [] ==> t.lists.value == ([], []))
  {
    var extracted := PriceAll(ws).value;
    assert ProcessExtractedPricing(Arr(ws)) == Normal(extracted);
  }
}
