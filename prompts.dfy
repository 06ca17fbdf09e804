// The fixed texts of the chat manager: the extraction prompt for a menu
// photo, the research prompt around a batch's list text, the text turn's
// system prompt with its optional wine-list context, and the messages it
// shows.

module Prompts {
  import opened Text

  /** The instruction sent with a menu photo: transcribe each wine line with its glass and bottle prices as JSON. */
  const VisionPrompt := @"FAST TEXT EXTRACTION: List each wine line from the image as simple JSON.
Don't parse or analyze - just transcribe what you see.

For each wine line, return:
{""name"": ""wine text"", ""glass_price"": ""$XX"", ""bottle_price"": ""$XX""}

Rules:
- ONE wine per line
- Capture glass price AND bottle price separately if visible
- Use null if a price type isn't shown
- If BOTH glass and bottle prices exist, capture both
- NO web search, NO added info
- SPEED is priority - raw text only

Return JSON:
{
  ""wines"": [
    {""name"": ""full wine text as shown"", ""glass_price"": ""$12"", ""bottle_price"": ""$48""}
  ]
}"

  /** The system prompt of every research call. */
  const ResearchSystemPrompt := @"You are a wine research expert. Search the web for current, accurate wine information from reputable sources like Vivino, Wine-Searcher, Wine.com, and Wine Spectator. Include both the menu pricing information provided and the retail pricing you research."

  const ResearchHead := @"Research detailed information for these wines. For each wine in the exact same order, provide complete details including both menu and retail pricing.

Wine List with Menu Pricing:
"

  const ResearchTail := @"

For each wine in the EXACT SAME ORDER, research and return:
1. **Current U.S. retail price** - Check Wine-Searcher, Wine.com, Total Wine
2. **Ratings** - Vivino crowd ratings, Wine Spectator scores, other critic reviews  
3. **Tasting notes** - Flavor profile from Vivino, winery notes
4. **Food pairing** - Recommended dishes and cuisines
5. **Wine details** - Producer, vintage, region, varietal, style

IMPORTANT: Return wines in the EXACT same order as the input list. Include the menu pricing information provided.

Return valid JSON with one wine object for each input wine:
{
  ""wines"": [
    {
      ""name"": ""exact wine name from list"",
      ""menu_price"": ""menu price from input if available"",
      ""menu_price_note"": ""note about glass conversion if applicable"",
      ""retail_price"": ""$XX average retail"",
      ""ratings"": {
        ""vivino"": ""X.X/5 (XXX reviews)"",
        ""wine_spectator"": ""XX points"",  
        ""other"": ""additional scores""
      },
      ""tasting_notes"": ""flavor profile summary"",
      ""food_pairing"": ""recommended pairings"",
      ""sources"": [""source1"", ""source2""],
      ""producer"": ""winery name"",
      ""vintage"": ""year"",
      ""region"": ""wine region"", 
      ""varietal"": ""grape varieties"",
      ""alcohol_content"": ""XX%"",
      ""style"": ""wine style description""
    }
  ]
}"


  /** The system prompt of a text turn before any wine-list context is added. */
  const TextSystemPrompt := "You are a wine expert assistant. Help the user with their wine-related questions."

  /** What precedes the pretty-printed wine list in a text turn's system prompt. */
  const ContextHeader := "\n\nCurrent wine list context (includes menu prices, retail prices, ratings, tasting notes, food pairings, producer, vintage, region, varietal, and sources):\n"

  /** What precedes the user's words when a wine-list context is sent. */
  const ContextLead := "Based on the detailed wine information provided in the system context, "

  /** The first words of the message shown for an error the turn catches. */
  const ErrorLead := "Error processing response. "

  /** The hints an error message selects: a key problem, invalid JSON, a network failure. */
  const ApiKeyHint := "Please check your API key and try again."
  const JsonHint := "The AI returned invalid JSON format. This may be a provider compatibility issue."
  const NetworkHint := "Network error. Please check your internet connection and try again."

  /** The message for a failed image call is the provider's name and the error between these two. */
  const VisionFailureHead := "Image analysis failed for "
  const VisionFailureTail := ". Please try uploading the image again or switch to OpenAI which has reliable vision support."

  /** The answer to a text reply that lists wines when no image was sent and the reply has no message. */
  const NeedImageText := "I can help you with questions about wines, but I need an image to analyze wines."

  /** The report for an empty wine list. */
  const NoWinesText := "No wines found in the image."

  /** The announcement before research is the count of extracted wines between these two. */
  const FoundHead := "🍷 Found "
  const FoundTail := " wines! Researching detailed information..."

  /** The last lines of the report, with and without research data. */
  const FooterDetailed := "✅ **Complete analysis finished!** All detailed information is available in the Wines tab.\n\n"
    + "*Ask me questions about these wines - I have full access to ratings, tasting notes, food pairings, and more!*"
  const FooterPlain := "*Ask me for detailed information about any of these wines!*"

  /** The note posted when a question is sent with the current list is its wine count between these two. */
  const ContextNoteHead := "Using context from "
  const ContextNoteTail := " wines in the current list"

  /**
   * The fixed texts of the chat manager: the prompts it sends and the
   * messages it shows. The model carries them as one value so that the turn
   * functions do not depend on their wording.
   */
  datatype Texts = Texts(
    vision: string,
    researchSystem: string, researchHead: string, researchTail: string,
    textSystem: string, contextHeader: string, contextLead: string,
    errorLead: string, apiKeyHint: string, jsonHint: string, networkHint: string,
    visionFailureHead: string, visionFailureTail: string,
    needImage: string, noWines: string,
    foundHead: string, foundTail: string,
    footerDetailed: string, footerPlain: string,
    contextNoteHead: string, contextNoteTail: string)

  /** The texts the chat manager is written with. */
  const SourceTexts := Texts(
    VisionPrompt,
    ResearchSystemPrompt, ResearchHead, ResearchTail,
    TextSystemPrompt, ContextHeader, ContextLead,
    ErrorLead, ApiKeyHint, JsonHint, NetworkHint,
    VisionFailureHead, VisionFailureTail,
    NeedImageText, NoWinesText,
    FoundHead, FoundTail,
    FooterDetailed, FooterPlain,
    ContextNoteHead, ContextNoteTail)

  /** The research prompt: the batch's numbered list text between the fixed instructions. */
  function ResearchPrompt(tx: Texts, wineList: string): string
  {
    tx.researchHead + wineList + tx.researchTail
  }
}
