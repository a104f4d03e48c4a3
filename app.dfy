// The application shell: the active tool and its inputs, the credential and
// connection-test state of the settings panel, and the generate action up to
// the request it sends and the way it reacts to the reply.
module App {
  import opened Types
  import opened Strings
  import ItemSlots
  import Request

  datatype ApiStatus = Idle | Testing | Success | Error

  const NoKeyToTestMessage := "테스트할 API 키가 없습니다. 키를 입력해 주세요."
  const EmptyReplyMessage := "응답을 받았으나 텍스트가 비어있습니다."
  const UnknownErrorMessage := "알 수 없는 오류가 발생했습니다."
  const InvalidKeyMessage := "API 키가 올바르지 않거나 권한이 없습니다 (403)."
  const ModelNotFoundMessage := "모델을 찾을 수 없습니다 (404)."
  const QuotaMessage := "할당량 초과: 잠시 후 다시 시도하세요 (429)."
  const PickerFailedMessage := "키 선택 창을 열 수 없습니다."
  const ProjectNotFoundText := "Requested entity was not found."
  const GreetingText := "안녕하세요! 사진을 업로드하고 대화를 시작해 보세요."

  /** The chat history a tool starts with: the assistant's greeting. */
  const InitialMessages: seq<Message> := [Message("1", Ai, GreetingText)]

  /**
   * The key every request uses: the key typed into the settings panel, else
   * the build-time environment key (which the build sets to "" when absent).
   */
  function ActiveKey(manualKey: string, envKey: string): (key: string)
    ensures manualKey != "" ==> key == manualKey
    ensures manualKey == "" ==> key == envKey
    ensures key == "" <==> manualKey == "" && envKey == ""
  {
    if manualKey != "" then manualKey else envKey
  }

  /** How the connection test's request ended: a reply with its text, or a thrown error with its message. */
  datatype TestReply = Replied(text: string) | Threw(message: string)

  /**
   * The user-facing text for a failed connection test. The three checks run
   * one after the other on the text produced so far; since no replacement
   * text contains another code, the first code found decides.
   */
  function TestFailureText(raw: string): (msg: string)
    ensures Contains(raw, "403") ==> msg == InvalidKeyMessage
    ensures !Contains(raw, "403") && Contains(raw, "404") ==> msg == ModelNotFoundMessage
    ensures !Contains(raw, "403") && !Contains(raw, "404") && Contains(raw, "429") ==> msg == QuotaMessage
    ensures !Contains(raw, "403") && !Contains(raw, "404") && !Contains(raw, "429")
            ==> msg == (if raw == "" then UnknownErrorMessage else raw)
    ensures msg != ""
  {
    CodesInMessages();
    var m0 := if raw == "" then UnknownErrorMessage else raw;
    var m1 := if Contains(m0, "403") then InvalidKeyMessage else m0;
    var m2 := if Contains(m1, "404") then ModelNotFoundMessage else m1;
    if Contains(m2, "429") then QuotaMessage else m2
  }

  /** Which status codes the fixed messages mention. */
  lemma CodesInMessages()
    ensures !Contains(UnknownErrorMessage, "403") && !Contains(UnknownErrorMessage, "404")
    ensures !Contains(UnknownErrorMessage, "429")
    ensures !Contains(InvalidKeyMessage, "404") && !Contains(InvalidKeyMessage, "429")
    ensures !Contains(ModelNotFoundMessage, "429")
  {
    UnknownErrorCodes();
    InvalidKeyMessageCodes();
    ModelNotFoundMessageCodes();
  }

  lemma UnknownErrorCodes()
    ensures !Contains(UnknownErrorMessage, "403") && !Contains(UnknownErrorMessage, "404")
    ensures !Contains(UnknownErrorMessage, "429")
  {
    NoFourNoCode(UnknownErrorMessage);
  }

  lemma InvalidKeyMessageCodes()
    ensures !Contains(InvalidKeyMessage, "404") && !Contains(InvalidKeyMessage, "429")
  {
    InvalidKeyCodes(InvalidKeyMessage, "API 키가 올바르지 않거나 권한이 없습니다 (");
  }

  lemma ModelNotFoundMessageCodes()
    ensures !Contains(ModelNotFoundMessage, "429")
  {
    ModelNotFoundCodes(ModelNotFoundMessage, "모델을 찾을 수 없습니다 (");
  }

  /** A message without the digit 4 names none of the three codes. */
  lemma NoFourNoCode(message: string)
    requires '4' !in message
    ensures !Contains(message, "403") && !Contains(message, "404") && !Contains(message, "429")
  {
    MissingFirstChar(message, "403");
    MissingFirstChar(message, "404");
    MissingFirstChar(message, "429");
  }

  /** A message ending in "(403)." with no other '4' names neither 404 nor 429. */
  lemma InvalidKeyCodes(message: string, head: string)
    requires message == head + "403)." && '4' !in head
    ensures !Contains(message, "404") && !Contains(message, "429")
  {
    ContainsSkipsPrefix(head, "403).", "404");
    ContainsSkipsPrefix(head, "403).", "429");
    ContainsPastMismatch("403).", "404", 2);
    ContainsPastMismatch("403).", "429", 1);
    assert "403)."[1..] == "03).";
    MissingFirstChar("03).", "404");
    MissingFirstChar("03).", "429");
  }

  /** A message ending in "(404)." with no other '4' does not name 429. */
  lemma ModelNotFoundCodes(message: string, head: string)
    requires message == head + "404)." && '4' !in head
    ensures !Contains(message, "429")
  {
    ContainsSkipsPrefix(head, "404).", "429");
    ContainsPastMismatch("404).", "429", 1);
    assert "404)."[1..] == "0" + "4).";
    ContainsSkipsPrefix("0", "4).", "429");
    ContainsPastMismatch("4).", "429", 1);
    assert "4)."[1..] == ").";
    MissingFirstChar(").", "429");
  }

  /** Status and diagnostic a finished connection test leaves behind. */
  function TestOutcome(reply: TestReply): (r: (ApiStatus, Option<string>))
    ensures r.0 == Success <==> reply.Replied? && reply.text != ""
    ensures r.0 != Success ==> r.0 == Error && r.1.Some? && r.1.value != ""
    ensures r.0 == Success ==> r.1 == None
    ensures reply.Threw? ==> r.1 == Some(TestFailureText(reply.message))
  {
    match reply
    case Replied(text) => if text != "" then (Success, None) else (Error, Some(EmptyReplyMessage))
    case Threw(message) => (Error, Some(TestFailureText(message)))
  }

  /** What the key picker of the hosting environment did when asked to open. */
  datatype PickerOutcome = PickerUnavailable | KeyPicked | PickerFailed

  /** How the generate request ended. */
  datatype GenerateReply =
    | ImageReturned(mimeType: string, data: string)
    | NoImage
    | Failed(message: string)

  /** The notice shown to the user after a generate request. */
  datatype Notice =
    | NoNotice
    | NoResultNotice
    | QuotaNotice
    | ProjectNotFoundNotice
    | ErrorNotice(message: string)

  /** The data URL the result view shows for inline image data. */
  function DataUrl(mimeType: string, data: string): (url: string)
    ensures StartsWith(url, "data:" + mimeType + ";base64,")
    ensures |url| == 13 + |mimeType| + |data| && url[|url| - |data|..] == data
  {
    "data:" + mimeType + ";base64," + data
  }

  /**
   * The notice for a failed generate request: quota problems first (the code
   * 429, or "quota" in any letter case), then the missing project, then the
   * raw message.
   */
  function GenerateFailureNotice(message: string): (n: Notice)
    ensures n == QuotaNotice <==> Contains(message, "429") || Contains(Lower(message), "quota")
    ensures n == ProjectNotFoundNotice
            <==> !Contains(message, "429") && !Contains(Lower(message), "quota")
                 && Contains(message, ProjectNotFoundText)
    ensures n.ErrorNotice? ==> n.message == message
    ensures n != NoNotice && n != NoResultNotice
  {
    if Contains(message, "429") || Contains(Lower(message), "quota") then QuotaNotice
    else if Contains(message, ProjectNotFoundText) then ProjectNotFoundNotice
    else ErrorNotice(message)
  }

  class Studio {
    var activeTab: ToolId
    var isSettingsOpen: bool
    var loading: bool
    var result: Option<string>
    var aiEngine: Request.Tier
    var manualKey: string
    const envKey: string
    var image1: Slot
    var image2: Slot
    var itemImages: seq<Slot>
    var prompt: string
    var option: string
    var messages: seq<Message>
    var apiStatus: ApiStatus
    var testErrorMessage: Option<string>

    ghost predicate Valid()
      reads this
    {
      ItemSlots.SlotsValid(itemImages)
    }

    /** The state on first render; `storedKey` is the saved manual key, "" when none. */
    constructor (storedKey: string, envKey: string)
      ensures Valid()
      ensures activeTab == MagicEditor && !isSettingsOpen && !loading && result == None
      ensures aiEngine == Request.Flash && manualKey == storedKey && this.envKey == envKey
      ensures image1 == None && image2 == None && itemImages == ItemSlots.InitialSlots()
      ensures prompt == "" && option == "" && messages == InitialMessages
      ensures apiStatus == Idle && testErrorMessage == None
    {
      activeTab := MagicEditor;
      isSettingsOpen := false;
      loading := false;
      result := None;
      aiEngine := Request.Flash;
      manualKey := storedKey;
      this.envKey := envKey;
      image1, image2 := None, None;
      itemImages := ItemSlots.InitialSlots();
      prompt, option := "", "";
      messages := InitialMessages;
      apiStatus := Idle;
      testErrorMessage := None;
    }

    /**
     * The effect that runs after the first render and again whenever the
     * manual key changes: any active key, or a key already picked in the
     * hosting environment, marks the connection as working.
     */
    method CheckInitialKey(pickerHasKey: bool)
      modifies this`apiStatus
      ensures ActiveKey(manualKey, envKey) != "" || pickerHasKey ==> apiStatus == Success
      ensures ActiveKey(manualKey, envKey) == "" && !pickerHasKey ==> apiStatus == old(apiStatus)
    {
      if ActiveKey(manualKey, envKey) != "" {
        apiStatus := Success;
      } else if pickerHasKey {
        apiStatus := Success;
      }
    }

    /** Typing a key: it becomes the manual key and the panel forgets any test result. */
    method ManualKeyChange(val: string)
      modifies this`manualKey, this`apiStatus, this`testErrorMessage
      ensures manualKey == val && apiStatus == Idle && testErrorMessage == None
    {
      manualKey := val;
      apiStatus := Idle;
      testErrorMessage := None;
    }

    /**
     * A key edit as the running page processes it: the handler, then the
     * key effect, which re-runs because the key it depends on changed.
     */
    method EditKey(val: string, pickerHasKey: bool)
      modifies this`manualKey, this`apiStatus, this`testErrorMessage
      ensures manualKey == val && testErrorMessage == None
      ensures val != old(manualKey) && (ActiveKey(val, envKey) != "" || pickerHasKey) ==> apiStatus == Success
      ensures val == old(manualKey) || (ActiveKey(val, envKey) == "" && !pickerHasKey) ==> apiStatus == Idle
    {
      var changed := val != manualKey;
      ManualKeyChange(val);
      if changed {
        CheckInitialKey(pickerHasKey);
      }
    }

    /**
     * Pressing "test": with no key the panel reports the error and nothing is
     * sent; otherwise the status becomes testing and the returned key is the
     * one the probe request is sent with.
     */
    method BeginTest() returns (keyToTest: Option<string>)
      modifies this`apiStatus, this`testErrorMessage
      ensures ActiveKey(manualKey, envKey) == "" ==>
                keyToTest == None && apiStatus == Error && testErrorMessage == Some(NoKeyToTestMessage)
      ensures ActiveKey(manualKey, envKey) != "" ==>
                keyToTest == Some(ActiveKey(manualKey, envKey)) && apiStatus == Testing && testErrorMessage == None
    {
      var key := ActiveKey(manualKey, envKey);
      if key == "" {
        apiStatus := Error;
        testErrorMessage := Some(NoKeyToTestMessage);
        return None;
      }
      apiStatus := Testing;
      testErrorMessage := None;
      keyToTest := Some(key);
    }

    /** The probe request settled: record success, or the error and its diagnostic. */
    method CompleteTest(reply: TestReply)
      modifies this`apiStatus, this`testErrorMessage
      ensures reply.Replied? && reply.text != "" ==> apiStatus == Success
      ensures !(reply.Replied? && reply.text != "") ==> apiStatus == Error && testErrorMessage.Some?
      ensures reply.Replied? && reply.text == "" ==> testErrorMessage == Some(EmptyReplyMessage)
      ensures reply.Threw? ==> testErrorMessage == Some(TestFailureText(reply.message))
      ensures apiStatus == Success ==> testErrorMessage == old(testErrorMessage)
    {
      var outcome := TestOutcome(reply);
      apiStatus := outcome.0;
      if outcome.0 != Success {
        testErrorMessage := outcome.1;
      }
    }

    /** Opening the host's key picker: a picked key replaces the manual one. */
    method OpenKeySelect(outcome: PickerOutcome)
      modifies this`apiStatus, this`testErrorMessage, this`manualKey
      ensures outcome == PickerUnavailable ==>
                apiStatus == old(apiStatus) && testErrorMessage == old(testErrorMessage) && manualKey == old(manualKey)
      ensures outcome == KeyPicked ==> apiStatus == Success && testErrorMessage == None && manualKey == ""
      ensures outcome == PickerFailed ==>
                apiStatus == Error && testErrorMessage == Some(PickerFailedMessage) && manualKey == old(manualKey)
    {
      match outcome
      case PickerUnavailable =>
      case KeyPicked =>
        apiStatus := Success;
        testErrorMessage := None;
        manualKey := "";
      case PickerFailed =>
        apiStatus := Error;
        testErrorMessage := Some(PickerFailedMessage);
    }

    /**
     * Pressing "generate": without a key the settings panel opens and nothing
     * is sent; otherwise loading starts and the request for the active tool
     * and tier is built.
     */
    method StartGenerate() returns (sent: Option<Request.GenerateRequest>)
      requires Valid()
      modifies this`isSettingsOpen, this`loading
      ensures Valid()
      ensures ActiveKey(manualKey, envKey) == "" ==> sent == None && isSettingsOpen && loading == old(loading)
      ensures ActiveKey(manualKey, envKey) != "" ==>
                isSettingsOpen == old(isSettingsOpen) && loading
                && sent == Some(Request.BuildRequest(ActiveKey(manualKey, envKey), aiEngine, activeTab,
                                                     image1, image2, itemImages, prompt, option))
    {
      var apiKey := ActiveKey(manualKey, envKey);
      if apiKey == "" {
        isSettingsOpen := true;
        return None;
      }
      loading := true;
      var parts := Request.AssembleParts(activeTab, image1, image2, itemImages, prompt, option);
      var model := Request.ModelFor(aiEngine);
      sent := Some(Request.GenerateRequest(apiKey, model, parts, Request.ConfigFor(model)));
    }

    /**
     * The generate request settled: show the image, or raise the notice; a
     * missing project also fails the connection, drops the manual key and
     * reopens the settings panel. Loading ends in every case.
     */
    method FinishGenerate(reply: GenerateReply) returns (notice: Notice)
      modifies this`result, this`loading, this`apiStatus, this`manualKey, this`isSettingsOpen
      ensures !loading
      ensures reply.ImageReturned? ==> result == Some(DataUrl(reply.mimeType, reply.data)) && notice == NoNotice
      ensures !reply.ImageReturned? ==> result == old(result)
      ensures reply == NoImage ==> notice == NoResultNotice
      ensures reply.Failed? ==> notice == GenerateFailureNotice(reply.message)
      ensures notice == ProjectNotFoundNotice ==> apiStatus == Error && manualKey == "" && isSettingsOpen
      ensures notice != ProjectNotFoundNotice ==>
                apiStatus == old(apiStatus) && manualKey == old(manualKey) && isSettingsOpen == old(isSettingsOpen)
    {
      match reply {
        case ImageReturned(mimeType, data) =>
          result := Some(DataUrl(mimeType, data));
          notice := NoNotice;
        case NoImage =>
          notice := NoResultNotice;
        case Failed(message) =>
          notice := GenerateFailureNotice(message);
          if notice == ProjectNotFoundNotice {
            apiStatus := Error;
            manualKey := "";
            isSettingsOpen := true;
          }
      }
      loading := false;
    }

    /**
     * A settled generate request as the running page processes it: the
     * handler, then the key effect, which re-runs when the handler cleared a
     * non-empty manual key.
     */
    method FinishGenerateAndRerender(reply: GenerateReply, pickerHasKey: bool) returns (notice: Notice)
      modifies this`result, this`loading, this`apiStatus, this`manualKey, this`isSettingsOpen
      ensures !loading
      ensures reply.Failed? ==> notice == GenerateFailureNotice(reply.message)
      ensures notice == ProjectNotFoundNotice ==> manualKey == "" && isSettingsOpen
      ensures notice == ProjectNotFoundNotice && old(manualKey) != "" && (envKey != "" || pickerHasKey)
              ==> apiStatus == Success
      ensures notice == ProjectNotFoundNotice && (old(manualKey) == "" || (envKey == "" && !pickerHasKey))
              ==> apiStatus == Error
      ensures notice != ProjectNotFoundNotice ==>
                apiStatus == old(apiStatus) && manualKey == old(manualKey) && isSettingsOpen == old(isSettingsOpen)
    {
      var before := manualKey;
      notice := FinishGenerate(reply);
      if manualKey != before {
        CheckInitialKey(pickerHasKey);
      }
    }

    /** Clears the result and every per-tool input, and restarts the chat. */
    method ResetTool()
      modifies this`result, this`image1, this`image2, this`itemImages, this`prompt, this`option, this`messages
      ensures Valid()
      ensures result == None && image1 == None && image2 == None && itemImages == ItemSlots.InitialSlots()
      ensures prompt == "" && option == "" && messages == InitialMessages
    {
      result := None;
      image1, image2 := None, None;
      itemImages := ItemSlots.InitialSlots();
      prompt, option := "", "";
      messages := InitialMessages;
    }

    /**
     * Choosing a tool in the sidebar. The reset effect depends on the active
     * tab, so it runs only when the chosen tool differs from the active one.
     */
    method SelectTool(tool: ToolId)
      requires Valid()
      modifies this`activeTab, this`result, this`image1, this`image2, this`itemImages, this`prompt, this`option,
               this`messages
      ensures Valid() && activeTab == tool
      ensures tool != old(activeTab) ==>
                result == None && image1 == None && image2 == None && itemImages == ItemSlots.InitialSlots()
                && prompt == "" && option == "" && messages == InitialMessages
      ensures tool == old(activeTab) ==>
                result == old(result) && image1 == old(image1) && image2 == old(image2)
                && itemImages == old(itemImages) && prompt == old(prompt) && option == old(option)
                && messages == old(messages)
    {
      var changed := tool != activeTab;
      activeTab := tool;
      if changed {
        ResetTool();
      }
    }

    /** The result view's reset callback. */
    method ClearResult()
      modifies this`result
      ensures result == None
    {
      result := None;
    }

    method AddImageSlot()
      requires Valid()
      modifies this`itemImages
      ensures Valid() && itemImages == ItemSlots.AddImageSlot(old(itemImages))
    {
      ItemSlots.SlotOpsKeepValid(itemImages, 0, None);
      itemImages := ItemSlots.AddImageSlot(itemImages);
    }

    method RemoveImageSlot(idx: int)
      requires Valid()
      modifies this`itemImages
      ensures Valid() && itemImages == ItemSlots.RemoveImageSlot(old(itemImages), idx)
    {
      ItemSlots.SlotOpsKeepValid(itemImages, idx, None);
      itemImages := ItemSlots.RemoveImageSlot(itemImages, idx);
    }

    method UpdateItemImage(idx: int, file: Slot)
      requires Valid() && 0 <= idx < |itemImages|
      modifies this`itemImages
      ensures Valid() && itemImages == ItemSlots.UpdateItemImage(old(itemImages), idx, file)
    {
      ItemSlots.SlotOpsKeepValid(itemImages, idx, file);
      itemImages := ItemSlots.UpdateItemImage(itemImages, idx, file);
    }
  }
}
