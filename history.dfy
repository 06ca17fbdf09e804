// The history-carrying request builders: chat-shaped providers receive the
// prior turns as messages, Gemini receives them folded into a single prompt.

module History {
  import opened Text
  import opened JsValues
  import opened Config
  import opened Requests

  /** A prior turn of the conversation, as the history builders receive it. */
  datatype HistoryEntry = HistoryEntry(role: string, content: string)

  function AsChatMessages(history: seq<HistoryEntry>): (r: seq<ChatMessage>)
    ensures |r| == |history|
    ensures forall i :: 0 <= i < |r| ==> r[i] == ChatMessage(history[i].role, PlainText(history[i].content))
  {
    if history == [] then [] else [ChatMessage(history[0].role, PlainText(history[0].content))] + AsChatMessages(history[1..])
  }

  /** `[system, ...history, user]`. */
  function HistoryMessages(system: string, history: seq<HistoryEntry>, user: string): (r: seq<ChatMessage>)
    ensures |r| == |history| + 2
    ensures r[0] == ChatMessage("system", PlainText(system))
    ensures r[|r| - 1] == ChatMessage("user", PlainText(user))
    ensures r[1..|r| - 1] == AsChatMessages(history)
  {
    var r := [ChatMessage("system", PlainText(system))] + AsChatMessages(history) + [ChatMessage("user", PlainText(user))];
    assert r[1..|r| - 1] == AsChatMessages(history);
    r
  }

  /** The OpenAI history body: the selected model and the system message, every prior turn in order, then the user message. */
  function OpenAIWithHistory(st: Settings, system: string, user: string, history: seq<HistoryEntry>): (r: Request)
    ensures r.provider == OpenAI && Header("Authorization", "Bearer " + st.openaiKey) in r.headers
    ensures r.body.ChatBody? && r.body.model == st.openaiModel
    ensures |r.body.messages| == |history| + 2
    ensures r.body.messages[0] == ChatMessage("system", PlainText(system))
    ensures r.body.messages[|history| + 1] == ChatMessage("user", PlainText(user))
    ensures forall i :: 0 <= i < |history| ==> r.body.messages[i + 1] == ChatMessage(history[i].role, PlainText(history[i].content))
    ensures r.body.temperature.Some? <==> SupportsTemperature(st)
  {
    Request(OpenAI, OpenAIUrl, BearerHeaders(st.openaiKey),
            ChatBody(st.openaiModel, HistoryMessages(system, history, user), "json_object", 16384, OpenAITemperature(st)))
  }

  /** The XAI history body: the selected model and the system message, every prior turn in order, then the user message. */
  function XAIWithHistory(st: Settings, system: string, user: string, history: seq<HistoryEntry>): (r: Request)
    ensures r.provider == XAI && Header("Authorization", "Bearer " + st.xaiKey) in r.headers
    ensures r.body.ChatBody? && r.body.model == st.xaiModel
    ensures |r.body.messages| == |history| + 2
    ensures r.body.messages[0] == ChatMessage("system", PlainText(system))
    ensures r.body.messages[|history| + 1] == ChatMessage("user", PlainText(user))
    ensures forall i :: 0 <= i < |history| ==> r.body.messages[i + 1] == ChatMessage(history[i].role, PlainText(history[i].content))
    ensures r.body.temperature == Some(EffectiveTemperature(st))
  {
    Request(XAI, XAIUrl, BearerHeaders(st.xaiKey),
            ChatBody(st.xaiModel, HistoryMessages(system, history, user), "json_object", 131072, Some(EffectiveTemperature(st))))
  }

  /** The DeepSeek history body: the selected model and the system message, every prior turn in order, then the user message. */
  function DeepSeekWithHistory(st: Settings, system: string, user: string, history: seq<HistoryEntry>): (r: Request)
    ensures r.provider == DeepSeek && Header("Authorization", "Bearer " + st.deepseekKey) in r.headers
    ensures r.body.ChatBody? && r.body.model == st.deepseekModel
    ensures |r.body.messages| == |history| + 2
    ensures r.body.messages[0] == ChatMessage("system", PlainText(system))
    ensures r.body.messages[|history| + 1] == ChatMessage("user", PlainText(user))
    ensures forall i :: 0 <= i < |history| ==> r.body.messages[i + 1] == ChatMessage(history[i].role, PlainText(history[i].content))
    ensures r.body.temperature == Some(EffectiveTemperature(st))
  {
    Request(DeepSeek, DeepSeekUrl, BearerHeaders(st.deepseekKey),
            ChatBody(st.deepseekModel, HistoryMessages(system, history, user), "json_object", 8192, Some(EffectiveTemperature(st))))
  }

  /** With no history the chat-shaped history requests send exactly what the single-turn requests send. */
  lemma EmptyHistoryIsSingleTurn(st: Settings, system: string, user: string)
    ensures OpenAIWithHistory(st, system, user, []) == OpenAIText(st, system, user)
    ensures XAIWithHistory(st, system, user, []) == XAIText(st, system, user)
    ensures DeepSeekWithHistory(st, system, user, []) == DeepSeekText(st, system, user)
  {
    assert HistoryMessages(system, [], user) == SystemAndUser(system, user);
  }

  /** The transcript line of one prior turn: user and assistant turns only. */
  function TranscriptLine(e: HistoryEntry): string
  {
    if e.role == "user" then "User: " + e.content + "\n"
    else if e.role == "assistant" then "Assistant: " + e.content + "\n"
    else ""
  }

  /** The transcript lines of the prior turns, one per turn (empty for other roles). */
  function Lines(history: seq<HistoryEntry>): (r: seq<string>)
    ensures |r| == |history| && forall i :: 0 <= i < |history| ==> r[i] == TranscriptLine(history[i])
  {
    seq(|history|, i requires 0 <= i < |history| => TranscriptLine(history[i]))
  }

  /** The lines of the prior turns, in order. */
  function Transcript(history: seq<HistoryEntry>): string
  {
    Concat(Lines(history))
  }

  /** The single prompt Gemini receives in place of a message list. */
  function GoogleHistoryPrompt(system: string, history: seq<HistoryEntry>, user: string): string
  {
    system + "\n\n" + HistoryBlock(history) + ("Current request: " + user)
  }

  /** The "Previous conversation:" block, present only when there is history. */
  function HistoryBlock(history: seq<HistoryEntry>): string
  {
    if |history| > 0 then "Previous conversation:\n" + Transcript(history) + "\n" else ""
  }

  /** The prompt as callGoogleAPIWithHistory assembles it. */
  method BuildGoogleHistoryPrompt(system: string, user: string, history: seq<HistoryEntry>) returns (fullPrompt: string)
    ensures fullPrompt == GoogleHistoryPrompt(system, history, user)
  {
    fullPrompt := system + "\n\n";
    if |history| > 0 {
      var transcript := BuildTranscript(history);
      fullPrompt := fullPrompt + "Previous conversation:\n" + transcript + "\n";
    }
    fullPrompt := fullPrompt + ("Current request: " + user);
  }

  /** The `for (const msg of conversationHistory)` loop: one line per user or assistant turn, in order. */
  method BuildTranscript(history: seq<HistoryEntry>) returns (transcript: string)
    ensures transcript == Transcript(history)
  {
    transcript := "";
    for i := 0 to |history|
      invariant transcript == Transcript(history[..i])
    {
      var msg := history[i];
      if msg.role == "user" {
        transcript := transcript + ("User: " + msg.content + "\n");
      } else if msg.role == "assistant" {
        transcript := transcript + ("Assistant: " + msg.content + "\n");
      }
      TranscriptStep(history, i);
    }
    assert history[..|history|] == history;
  }

  lemma TranscriptStep(history: seq<HistoryEntry>, i: nat)
    requires i < |history|
    ensures Transcript(history[..i + 1]) == Transcript(history[..i]) + TranscriptLine(history[i])
  {
    assert Lines(history[..i + 1]) == Lines(history[..i]) + [TranscriptLine(history[i])];
    ConcatAppend(Lines(history[..i]), [TranscriptLine(history[i])]);
  }

  /** The Gemini history body: one text part that opens with the system prompt and ends with the current request. */
  function GoogleWithHistory(st: Settings, system: string, user: string, history: seq<HistoryEntry>): (r: Request)
    ensures r.provider == Google && r.url == GoogleUrl(st.googleModel, st.googleKey)
    ensures r.body.GeminiBody? && |r.body.contents| == 1 && r.body.contents[0].role == "user"
    ensures r.body.contents[0].content.Parts? && |r.body.contents[0].content.parts| == 1 && r.body.contents[0].content.parts[0].TextPart?
    ensures var text := r.body.contents[0].content.parts[0].text;
            var tail := "Current request: " + user;
            && |text| >= |system| + 2 && text[..|system| + 2] == system + "\n\n"
            && |text| >= |tail| && text[|text| - |tail|..] == tail
    ensures history == [] ==> r.body.contents[0].content.parts[0] == TextPart(system + "\n\nCurrent request: " + user)
  {
    GooglePromptShape(system, history, user);
    Request(Google, GoogleUrl(st.googleModel, st.googleKey), JsonHeaders,
            GeminiBodyFor(st, [TextPart(GoogleHistoryPrompt(system, history, user))]))
  }

  /** The transcript of two stretches of history is the transcript of the first followed by that of the second. */
  lemma TranscriptAppend(a: seq<HistoryEntry>, b: seq<HistoryEntry>)
    ensures Transcript(a + b) == Transcript(a) + Transcript(b)
  {
    assert Lines(a + b) == Lines(a) + Lines(b);
    ConcatAppend(Lines(a), Lines(b));
  }

  /** Turns in any role other than user and assistant leave no trace in the prompt. */
  lemma {:induction false} TranscriptSkipsOtherRoles(history: seq<HistoryEntry>)
    requires forall i :: 0 <= i < |history| ==> history[i].role != "user" && history[i].role != "assistant"
    ensures Transcript(history) == ""
  {
    if |history| > 0 {
      var n := |history| - 1;
      TranscriptSkipsOtherRoles(history[..n]);
      TranscriptAppend(history[..n], [history[n]]);
      assert history[..n] + [history[n]] == history;
      assert Lines([history[n]]) == [""];
      assert Concat([""]) == Concat([""][..0]) + "";
    }
  }

  /**
   * The Gemini prompt opens with the system prompt and ends with the current
   * request; with no history it holds nothing else.
   */
  lemma GooglePromptShape(system: string, history: seq<HistoryEntry>, user: string)
    ensures GoogleHistoryPrompt(system, history, user)[..|system| + 2] == system + "\n\n"
    ensures var p := GoogleHistoryPrompt(system, history, user);
      var tail := "Current request: " + user;
      |p| >= |tail| && p[|p| - |tail|..] == tail
    ensures history == [] ==> GoogleHistoryPrompt(system, history, user) == system + "\n\nCurrent request: " + user
  {
    var a := system + "\n\n";
    var b := HistoryBlock(history);
    var c := "Current request: " + user;
    var p := GoogleHistoryPrompt(system, history, user);
    assert p == a + b + c;
    assert (a + b + c)[..|a|] == a;
    assert (a + b + c)[|a + b + c| - |c|..] == c;
    if history == [] {
      assert b == "";
      assert a + b + c == a + c;
      assert "\n\n" + "Current request: " == "\n\nCurrent request: ";
      assert a + c == system + ("\n\n" + "Current request: ") + user;
    }
  }

  // ---------------------------------------------------------------------
  // Replies
}
