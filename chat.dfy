// The chat manager: sending a question, running a turn against the selected
// provider, and researching the wines of a menu photo in batches of ten.
// Each method updates the shared application object in place and is proved
// against the value-level description of a turn.

module Chat {
  import opened Text
  import opened JsValues
  import opened Config
  import opened Requests
  import opened Prompts
  import opened Pricing
  import opened Research
  import opened Turns
  import opened AppState

  /** `sendMessage` returns at once: blank input, no API key, a turn already running, or no photo uploaded yet. */
  predicate SendBlocked(input: string, st: Settings, processing: bool, imageUploaded: bool)
  {
    Trim(input) == "" || ApiKey(st) == "" || processing || !imageUploaded
  }

  function UserMessage(text: string): Message
  {
    Message("User", Str(text), "user")
  }

  function ContextNote(tx: Texts, n: nat): Message
  {
    Message("System", Str(tx.contextNoteHead + NatToString(n) + tx.contextNoteTail), "system")
  }

  /** The messages a send appends before its turn runs. */
  function SendNotes(tx: Texts, trimmed: string, current: Option<seq<Value>>): seq<Message>
  {
    [UserMessage(trimmed)] + (if HasWines(current) then [ContextNote(tx, |current.value|)] else [])
  }

  /** A send announces the context exactly when the current list has wines, and then counts them. */
  lemma ContextNoteIffWines(tx: Texts, trimmed: string, current: Option<seq<Value>>)
    ensures |SendNotes(tx, trimmed, current)| == 2 <==> HasWines(current)
    ensures SendNotes(tx, trimmed, current)[0].content == Str(trimmed) && SendNotes(tx, trimmed, current)[0].sender == "User"
    ensures HasWines(current) ==>
              SendNotes(tx, trimmed, current)[1].content == Str(tx.contextNoteHead + NatToString(|current.value|) + tx.contextNoteTail)
  {
  }

  /**
   * `formatWineResponse`: the report, or the error thrown on reaching a null
   * or undefined wine (found before the text is built; a partly built text
   * is never shown).
   */
  method FormatWineResponse(tx: Texts, ws: seq<Value>) returns (r: Completion<string>)
    ensures r == WineReport(tx, ws)
  {
    if |ws| == 0 {
      return Normal(tx.noWines);
    }
    var k := FirstNullish(ws);
    if k >= 0 {
      return Thrown(ReadError(ws[k], "name"));
    }
    var body := FormatEntries(ws);
    r := Normal(ReportHeader(|ws|) + body + ReportFooter(tx, HasDetailedInfo(ws)));
  }

  /** The `forEach` over the wines: each callback builds one wine's lines, piece by piece, and appends them. */
  method FormatEntries(ws: seq<Value>) returns (body: string)
    ensures body == ReportBody(ws)
  {
    body := "";
    for i := 0 to |ws|
      invariant body == ReportBody(ws[..i])
    {
      var wine := ws[i];
      var entry := "**" + NatToString(i + 1) + ". " + Display(Get(wine, "name")) + "**\n";
      var menu := Get(wine, "menu_price");
      if Truthy(menu) {
        var line := "   Menu: " + Display(menu);
        var note := Get(wine, "menu_price_note");
        if Truthy(note) {
          line := line + (" (" + Display(note) + ")");
        }
        assert line + "\n" == MenuLine(menu, note);
        entry := entry + (line + "\n");
      }
      var retail := Get(wine, "retail_price");
      if Truthy(retail) {
        entry := entry + ("   Retail: " + Display(retail) + "\n");
      }
      entry := entry + "\n";
      assert entry == ReportEntry(i, wine);
      assert ws[..i + 1][..i] == ws[..i];
      body := body + entry;
    }
    assert ws[..|ws|] == ws;
  }

  class ChatManager {
    const app: App
    /** The prompts the manager sends and the messages it shows. */
    const texts: Texts

    /** A manager over `app` that uses `texts` (the source's own texts are `SourceTexts`). */
    constructor(app: App, texts: Texts)
      ensures this.app == app && this.texts == texts
    {
      this.app := app;
      this.texts := texts;
    }

    /**
     * `sendMessage`: a blocked send changes nothing. Otherwise the input is
     * cleared, the trimmed text (and the context note) is appended, and a
     * text turn runs, leaving the wine lists alone.
     */
    method SendMessage(host: Host)
      modifies app`currentInput, app`messages, app`processing, app`currentWineList, app`extractedWineList
      ensures SendBlocked(old(app.currentInput), app.settings, old(app.processing), app.imageUploaded) ==> unchanged(app)
      ensures !SendBlocked(old(app.currentInput), app.settings, old(app.processing), app.imageUploaded) ==>
                var trimmed := Trim(old(app.currentInput));
                var t := Turn(app.settings, texts, host, old(app.currentWineList), trimmed, false, "");
                && app.currentInput == ""
                && app.messages == old(app.messages) + SendNotes(texts, trimmed, old(app.currentWineList)) + t.added
                && app.currentWineList == old(app.currentWineList)
                && app.extractedWineList == old(app.extractedWineList)
                && !app.processing
    {
      if !SendBlocked(app.currentInput, app.settings, app.processing, app.imageUploaded) {
        Send(host);
      }
    }

    /** The part of `sendMessage` after its guard. */
    method Send(host: Host)
      modifies app`currentInput, app`messages, app`processing, app`currentWineList, app`extractedWineList
      ensures var trimmed := Trim(old(app.currentInput));
              var t := Turn(app.settings, texts, host, old(app.currentWineList), trimmed, false, "");
              && app.currentInput == ""
              && app.messages == old(app.messages) + SendNotes(texts, trimmed, old(app.currentWineList)) + t.added
              && app.currentWineList == old(app.currentWineList)
              && app.extractedWineList == old(app.extractedWineList)
              && !app.processing
    {
      var userMessage := Trim(app.currentInput);
      app.currentInput := "";
      PostSendNotes(userMessage);
      TextTurnKeepsLists(app.settings, texts, host, app.currentWineList, userMessage, "");
      ProcessWithAI(userMessage, false, "", host);
    }

    /** Appends the user's message and, when a wine list is current, the context note. */
    method PostSendNotes(userMessage: string)
      modifies app`messages
      ensures app.messages == old(app.messages) + SendNotes(texts, userMessage, app.currentWineList)
    {
      app.messages := app.messages + [UserMessage(userMessage)];
      if HasWines(app.currentWineList) {
        app.messages := app.messages + [ContextNote(texts, |app.currentWineList.value|)];
      }
    }

    /**
     * `processWithAI`: runs one turn. The processing flag is set for the
     * turn and cleared on every exit; the messages and wine lists end as
     * the turn's outcome says.
     */
    method ProcessWithAI(userInput: string, hasImage: bool, imageDataUrl: string, host: Host)
      modifies app`messages, app`processing, app`currentWineList, app`extractedWineList
      ensures var t := Turn(app.settings, texts, host, old(app.currentWineList), userInput, hasImage, imageDataUrl);
              && app.messages == old(app.messages) + t.added
              && (t.lists.None? ==> app.currentWineList == old(app.currentWineList) && app.extractedWineList == old(app.extractedWineList))
              && (t.lists.Some? ==> app.extractedWineList == Some(t.lists.value.0) && app.currentWineList == Some(t.lists.value.1))
      ensures !app.processing
    {
      app.processing := true;
      if hasImage && imageDataUrl != "" {
        AnalyzeImage(imageDataUrl, host);
      } else {
        AnswerText(userInput, hasImage, host);
      }
      app.processing := false;
    }

    /** The image path of `processWithAI`: a failed vision call is reported and ends the turn. */
    method AnalyzeImage(imageDataUrl: string, host: Host)
      modifies app`messages, app`currentWineList, app`extractedWineList
      ensures var t := VisionTurn(app.settings, texts, host, imageDataUrl);
              && app.messages == old(app.messages) + t.added
              && (t.lists.None? ==> app.currentWineList == old(app.currentWineList) && app.extractedWineList == old(app.extractedWineList))
              && (t.lists.Some? ==> app.extractedWineList == Some(t.lists.value.0) && app.currentWineList == Some(t.lists.value.1))
    {
      var st := app.settings;
      var response := Call(host, VisionRequest(st, texts.vision, imageDataUrl));
      if response.Thrown? {
        assert VisionTurn(st, texts, host, imageDataUrl) == TurnOutcome([ExpertMessage(Str(VisionFailureText(texts, st.selectedProvider, response.message)))], None);
        app.messages := app.messages + [ExpertMessage(Str(VisionFailureText(texts, st.selectedProvider, response.message)))];
        return;
      }
      assert VisionTurn(st, texts, host, imageDataUrl) == ReplyOutcome(st, texts, host, response.value, true);
      HandleReply(response.value, true, host);
    }

    /** The text path of `processWithAI`: the question, with the current wine list as context when it has wines. */
    method AnswerText(userInput: string, hasImage: bool, host: Host)
      modifies app`messages, app`currentWineList, app`extractedWineList
      ensures var t := TextTurn(app.settings, texts, host, old(app.currentWineList), userInput, hasImage);
              && app.messages == old(app.messages) + t.added
              && (t.lists.None? ==> app.currentWineList == old(app.currentWineList) && app.extractedWineList == old(app.extractedWineList))
              && (t.lists.Some? ==> app.extractedWineList == Some(t.lists.value.0) && app.currentWineList == Some(t.lists.value.1))
    {
      ghost var t := TextTurn(app.settings, texts, host, app.currentWineList, userInput, hasImage);
      var response := Call(host, TextTurnRequest(app.settings, texts, app.currentWineList, userInput, host.stringify));
      if response.Thrown? {
        assert t == TurnOutcome([ErrorMessage(texts, response.message)], None);
        app.messages := app.messages + [ErrorMessage(texts, response.message)];
      } else {
        assert t == ReplyOutcome(app.settings, texts, host, response.value, hasImage);
        HandleReply(response.value, hasImage, host);
      }
    }

    /** The part of `processWithAI` that handles a parsed reply, with its catch clause. */
    method HandleReply(response: Value, hasImage: bool, host: Host)
      modifies app`messages, app`currentWineList, app`extractedWineList
      ensures var t := ReplyOutcome(app.settings, texts, host, response, hasImage);
              && app.messages == old(app.messages) + t.added
              && (t.lists.None? ==> app.currentWineList == old(app.currentWineList) && app.extractedWineList == old(app.extractedWineList))
              && (t.lists.Some? ==> app.extractedWineList == Some(t.lists.value.0) && app.currentWineList == Some(t.lists.value.1))
    {
      if Nullish(response) {
        app.messages := app.messages + [ErrorMessage(texts, ReadError(response, "wines"))];
      } else if Truthy(Get(response, "wines")) {
        if hasImage {
          HandlePhoto(Get(response, "wines"), host);
        } else {
          app.messages := app.messages + [ExpertMessage(Or(Get(response, "message"), Str(texts.needImage)))];
        }
      } else if Truthy(Get(response, "error")) {
        app.messages := app.messages + [ExpertMessage(Str(StructuredErrorText(response)))];
      } else {
        app.messages := app.messages + [ExpertMessage(Or(Get(response, "message"), Str(host.stringify(response))))];
      }
    }

    /** The image branch of the reply handling: price the listed wines, then research and report them. */
    method HandlePhoto(wines: Value, host: Host)
      modifies app`messages, app`currentWineList, app`extractedWineList
      ensures var t := PhotoOutcome(app.settings, texts, host, wines);
              && app.messages == old(app.messages) + t.added
              && (t.lists.None? ==> app.currentWineList == old(app.currentWineList) && app.extractedWineList == old(app.extractedWineList))
              && (t.lists.Some? ==> app.extractedWineList == Some(t.lists.value.0) && app.currentWineList == Some(t.lists.value.1))
    {
      var priced := ProcessExtractedPricing(wines);
      if priced.Thrown? {
        assert PhotoOutcome(app.settings, texts, host, wines) == TurnOutcome([ErrorMessage(texts, priced.message)], None);
        app.messages := app.messages + [ErrorMessage(texts, priced.message)];
      } else {
        ghost var final := FinalWines(priced.value, ResearchAll(app.settings, texts, host, Chunks(priced.value)));
        assert PhotoOutcome(app.settings, texts, host, wines) == ResearchedOutcome(texts, priced.value, final);
        ResearchAndReport(priced.value, host);
      }
    }

    /** Announce the extracted wines, research them in batches, and post the report of the final list. */
    method ResearchAndReport(extractedWines: seq<Value>, host: Host)
      modifies app`messages, app`currentWineList, app`extractedWineList
      ensures var t := ResearchedOutcome(texts, extractedWines, FinalWines(extractedWines, ResearchAll(app.settings, texts, host, Chunks(extractedWines))));
              && app.messages == old(app.messages) + t.added
              && app.extractedWineList == Some(t.lists.value.0) && app.currentWineList == Some(t.lists.value.1)
    {
      app.messages := app.messages + [FoundMessage(texts, |extractedWines|)];
      app.extractedWineList := Some(extractedWines);
      app.currentWineList := None;
      ProcessWinesInBatches(extractedWines, host);
      PostReport();
    }

    /** Post the report of the current wine list, or the error caught while writing it. */
    method PostReport()
      requires app.currentWineList.Some?
      modifies app`messages
      ensures app.messages == old(app.messages) + [ReportMessage(texts, app.currentWineList.value)]
    {
      var report := FormatWineResponse(texts, app.currentWineList.value);
      if report.Normal? {
        app.messages := app.messages + [ExpertMessage(Str(report.value))];
      } else {
        app.messages := app.messages + [ErrorMessage(texts, report.message)];
      }
    }

    /**
     * `processWinesInBatches`: researches the wines ten at a time, in batch
     * order, and sets the current list to the researched wines, or to the
     * extracted ones when research produced none. The trailing `forEach`
     * that logs each wine (js/chat.js:427-437) only writes to the console;
     * for a null or undefined wine it throws the same "reading 'name'" error
     * that `formatWineResponse` raises next, with the same message and the
     * same resulting state, so the model leaves that error to `WineReport`.
     */
    method ProcessWinesInBatches(extractedWines: seq<Value>, host: Host)
      modifies app`currentWineList
      ensures app.currentWineList == Some(FinalWines(extractedWines, ResearchAll(app.settings, texts, host, Chunks(extractedWines))))
    {
      var batches := SplitIntoBatches(extractedWines);
      var researchedWines: seq<Value> := [];
      for j := 0 to |batches|
        invariant researchedWines == ResearchAll(app.settings, texts, host, batches[..j])
      {
        assert batches[..j + 1][..j] == batches[..j];
        researchedWines := researchedWines + ResearchBatch(app.settings, texts, host, batches[j]);
      }
      assert batches[..|batches|] == batches;
      if |researchedWines| > 0 {
        app.currentWineList := Some(researchedWines);
      } else {
        app.currentWineList := Some(extractedWines);
      }
    }
  }
}
