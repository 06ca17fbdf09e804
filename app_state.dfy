// The application object the managers share: the fields the chat turn and
// the debug log read and update in place.

module AppState {
  import opened JsValues
  import opened Config
  import opened Turns

  class App {
    /** A turn is running; the chat input is disabled. */
    var processing: bool
    /** A menu photo has been uploaded; text questions are accepted only after one. */
    var imageUploaded: bool
    /** The provider settings the getters read. */
    var settings: Settings
    /** The chat transcript, oldest first. */
    var messages: seq<Message>
    /** The text in the chat input box. */
    var currentInput: string
    /** The researched wine list shown in the Wines tab and sent as context: `{wines: ...}`, or null. */
    var currentWineList: Option<seq<Value>>
    /** The priced wines read from the last photo, kept as research input: `{wines: ...}`, or null. */
    var extractedWineList: Option<seq<Value>>
    /** Whether debug entries are recorded. */
    var debugEnabled: bool
    /** The debug entries, newest first. */
    var debugLog: seq<Value>

    /** The initial state: idle, no photo, empty chat, no lists, empty log; settings and the debug switch as read at startup. */
    constructor(settings: Settings, debugEnabled: bool)
      ensures !processing && !imageUploaded
      ensures this.settings == settings && this.debugEnabled == debugEnabled
      ensures messages == [] && currentInput == ""
      ensures currentWineList.None? && extractedWineList.None?
      ensures debugLog == []
    {
      processing := false;
      imageUploaded := false;
      this.settings := settings;
      messages := [];
      currentInput := "";
      currentWineList := None;
      extractedWineList := None;
      this.debugEnabled := debugEnabled;
      debugLog := [];
    }
  }
}
