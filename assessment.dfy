/**
 * The front end's assessment session: the `current_stage` string, the chat
 * `messages` list and the session keys around them, and the operations that
 * move them — processing an uploaded image, answering the user's text,
 * restarting, logging in, choosing an organ and uploading a new image.
 *
 * Each operation is specified by a function on a `SessionState` value; the
 * `Session` class holds the same state in fields, and each of its methods is
 * proved to leave the fields as that function says. The three backend calls
 * are opaque functions of the uploaded file and the target organ, returning
 * the JSON the front end reads with `.get`.
 */
module Assessment {
  import opened Wrappers
  import opened Text
  import opened Bytes

  /** A file handed to the uploader; uploads are told apart by identity. */
  datatype Upload = Upload(id: nat)

  /** An entry of `st.session_state.messages`; uploads carry their image. */
  datatype ChatMessage = ChatMessage(role: string, content: string, image: Option<Upload>)

  /** The JSON answers of the three backend calls, keyed as the front end reads them. */
  datatype IdentifyJson = IdentifyJson(found: Option<bool>, entity: Option<string>)
  datatype DescribeJson = DescribeJson(description: Option<string>)
  datatype NavigateJson = NavigateJson(response: Option<string>)

  /**
   * image_to_bytes, which re-encodes the upload as JPEG and may raise (a file
   * PIL cannot open, or a mode JPEG cannot hold), and call_identify_api,
   * call_description_api and call_navigate_api, as functions of those bytes
   * and the organ.
   */
  datatype Services = Services(
    toJpeg: Upload -> Option<seq<byte>>,
    identify: (seq<byte>, string) -> IdentifyJson,
    describe: (seq<byte>, string) -> DescribeJson,
    navigate: (seq<byte>, string) -> NavigateJson)

  /** `d.get(key, default)`. */
  function GetOr<T>(o: Option<T>, default: T): T {
    match o
    case Some(v) => v
    case None => default
  }

  /**
   * The values `current_stage` takes: the script only ever assigns these
   * literals ("welcome", "login", "dashboard", "select_organ", "initial",
   * "waiting_for_image", "identify", "navigate", "describe",
   * "wait_for_new_image", "chat"), and compares it with "ask_navigation".
   */
  datatype Stage =
    | Welcome | Login | Dashboard | SelectOrgan | Initial | WaitingForImage
    | Identify | Navigate | Describe | WaitForNewImage | Chat | AskNavigation

  /** The session key the login form writes. */
  const AstronautNameKey := "astronaut_name"

  // The texts the assistant posts.
  const NoDiagnosis := "No diagnosis available"
  const NoGuidanceAfterMiss := "No navigation guidance available."
  const NoGuidance := "No navigation guidance available"
  const NavigateAck := "I'll help you navigate to get a better view. Processing your current image..."
  const UploadAnother := "Please upload a different image that shows the target organ more clearly."
  const ChatReply := "Thank you for your question. To provide a more detailed answer, I would need to connect to a medical knowledge base. Is there something specific about the diagnosis you'd like to know more about?"

  function Assistant(content: string): ChatMessage { ChatMessage("assistant", content, None) }
  function User(content: string): ChatMessage { ChatMessage("user", content, None) }

  // The fixed pieces of the texts built around a name or a backend answer.
  const IdentifiedLead := "\U{2705} The "
  const IdentifiedTail := " has been successfully identified in the image."
  const DiagnosisLead := "\U{1F52C} **Diagnosis Results**:\n\n"
  const NotIdentifiedLead := "\U{274C} I couldn't clearly identify the "
  const NotIdentifiedMiddle := " in this image. Here's how to reposition for a better "
  const NotIdentifiedTail := " view:"
  const GuidanceLead := "\U{1F9ED} **Navigation Guidance**:\n\n"
  const GuidanceAfterMissTail := "\n\nPlease adjust your probe accordingly and re\U{2011}upload your image when ready."
  const GuidanceTail := "\n\nPlease adjust your probe following these instructions and upload a new image when ready."
  const UploadLead := "I've uploaded an ultrasound image for "
  const UploadTail := " analysis."

  function IdentifiedText(entity: string): string {
    IdentifiedLead + entity + IdentifiedTail
  }

  function DiagnosisText(diagnosis: string): string {
    DiagnosisLead + diagnosis
  }

  function NotIdentifiedText(organ: string): string {
    NotIdentifiedLead + organ + NotIdentifiedMiddle + organ + NotIdentifiedTail
  }

  /** The guidance posted right after a failed identification. */
  function GuidanceAfterMissText(guidance: string): string {
    GuidanceLead + guidance + GuidanceAfterMissTail
  }

  /** The guidance posted in the navigate stage. */
  function GuidanceText(guidance: string): string {
    GuidanceLead + guidance + GuidanceTail
  }

  function UploadText(organ: string): string {
    UploadLead + organ + UploadTail
  }

  /**
   * The session keys this model follows. `others` holds the further keys it
   * follows (the astronaut's name among them), with their values abstracted
   * to strings; keys the model does not follow, such as the spoken reply
   * cached by the text-to-speech helper, are not represented.
   */
  datatype SessionState = SessionState(
    stage: Stage,
    messages: seq<ChatMessage>,
    uploadedImage: Option<Upload>,
    needsNavigation: bool,
    navigateResponse: Option<NavigateJson>,
    descriptionResponse: Option<DescribeJson>,
    selectedOrgan: Option<string>,
    targetOrgan: string,
    others: map<string, string>)

  /** The keys created when the script first runs. */
  function InitialState(): SessionState {
    SessionState(Welcome, [], None, false, None, None, None, "", map[AstronautNameKey := ""])
  }

  /** What restart_session leaves: every key deleted, then the chat keys set afresh. */
  function RestartedState(): SessionState {
    SessionState(Initial, [], None, false, None, None, None, "", map[])
  }

  // ---------------------------------------------------------------------
  // The operations, as functions of the state
  // ---------------------------------------------------------------------

  /**
   * An uploaded image that image_to_bytes cannot convert: the flow raises
   * before it writes anything, and the exception ends the script run.
   */
  predicate Unconvertible(s: SessionState, svc: Services) {
    s.uploadedImage.Some? && svc.toJpeg(s.uploadedImage.value).None?
  }

  /** process_image_flow. */
  function Flow(s: SessionState, svc: Services): SessionState {
    if s.uploadedImage.None? || svc.toJpeg(s.uploadedImage.value).None? then s
    else
      var image := svc.toJpeg(s.uploadedImage.value).value;
      if s.stage == Identify then
        var response := svc.identify(image, s.targetOrgan);
        if GetOr(response.found, false) then
          var description := svc.describe(image, s.targetOrgan);
          s.(stage := Describe,
             descriptionResponse := Some(description),
             messages := s.messages
               + [Assistant(IdentifiedText(GetOr(response.entity, "target organ"))),
                  Assistant(DiagnosisText(GetOr(description.description, NoDiagnosis)))])
        else
          var guidance := svc.navigate(image, s.targetOrgan);
          s.(stage := WaitForNewImage,
             messages := s.messages
               + [Assistant(NotIdentifiedText(s.targetOrgan)),
                  Assistant(GuidanceAfterMissText(GetOr(guidance.response, NoGuidanceAfterMiss)))])
      else if s.stage == Navigate then
        var response := svc.navigate(image, s.targetOrgan);
        s.(stage := WaitForNewImage,
           navigateResponse := Some(response),
           messages := s.messages + [Assistant(GuidanceText(GetOr(response.response, NoGuidance)))])
      else if s.stage == Describe then
        var response := svc.describe(image, s.targetOrgan);
        s.(stage := Chat,
           descriptionResponse := Some(response),
           messages := s.messages + [Assistant(DiagnosisText(GetOr(response.description, NoDiagnosis)))])
      else s
  }

  /** The reply accepts navigation help when it mentions "yes", "sure" or "ok" in any case. */
  predicate Assent(reply: string) {
    var lowered := Lower(reply);
    Contains(lowered, "yes") || Contains(lowered, "sure") || Contains(lowered, "ok")
  }

  /** handle_user_input. */
  function AfterInput(s: SessionState, input: string, svc: Services): SessionState {
    if input == "" then s
    else
      var t := s.(messages := s.messages + [User(input)]);
      if t.stage == AskNavigation && t.needsNavigation then
        if Assent(input) then
          Flow(t.(stage := Navigate, messages := t.messages + [Assistant(NavigateAck)]), svc)
        else
          t.(messages := t.messages + [Assistant(UploadAnother)], stage := WaitForNewImage)
      else if t.stage == Chat then
        t.(messages := t.messages + [Assistant(ChatReply)])
      else t
  }

  /** The login form's Continue button. */
  function AfterLogin(s: SessionState, name: string): SessionState {
    if Strip(name) != "" then s.(others := s.others[AstronautNameKey := name], stage := Dashboard) else s
  }

  /** The organ selection buttons. */
  function AfterSelectOrgan(s: SessionState, organ: string): SessionState {
    s.(selectedOrgan := Some(organ), targetOrgan := organ, stage := Initial)
  }

  /** The welcome greeting, shown once on an empty chat. */
  function AfterGreeting(s: SessionState): SessionState {
    if s.stage == Initial && s.messages == [] then s.(stage := WaitingForImage) else s
  }

  /** A file in the uploader: a new file is recorded and, with a target organ, identified. */
  function AfterUpload(s: SessionState, file: Option<Upload>, svc: Services): SessionState {
    if file.Some? && (s.uploadedImage.None? || file.value != s.uploadedImage.value) then
      var t := s.(uploadedImage := file,
                  messages := s.messages + [ChatMessage("user", UploadText(s.targetOrgan), file)]);
      if t.targetOrgan != "" then Flow(t.(stage := Identify), svc) else t
    else s
  }

  // ---------------------------------------------------------------------
  // Properties of the operations
  // ---------------------------------------------------------------------

  /** Without an uploaded image the flow changes nothing. */
  lemma FlowWithoutImage(s: SessionState, svc: Services)
    requires s.uploadedImage.None?
    ensures Flow(s, svc) == s
  {
  }

  /**
   * An upload the conversion to JPEG rejects raises before the flow writes
   * anything, so the session is left exactly as it was.
   */
  lemma FlowUnconvertible(s: SessionState, svc: Services)
    requires Unconvertible(s, svc)
    ensures Flow(s, svc) == s
  {
  }

  /** A found organ posts the identification and the diagnosis, and stops at describe. */
  lemma FlowIdentifyFound(s: SessionState, svc: Services)
    requires s.uploadedImage.Some? && svc.toJpeg(s.uploadedImage.value).Some? && s.stage == Identify
    requires svc.identify(svc.toJpeg(s.uploadedImage.value).value, s.targetOrgan).found == Some(true)
    ensures var t := Flow(s, svc);
      var image := svc.toJpeg(s.uploadedImage.value).value;
      var response := svc.identify(image, s.targetOrgan);
      var description := svc.describe(image, s.targetOrgan);
      t == s.(stage := Describe,
              messages := s.messages + [Assistant(IdentifiedText(GetOr(response.entity, "target organ"))),
                                        Assistant(DiagnosisText(GetOr(description.description, NoDiagnosis)))],
              descriptionResponse := Some(description))
  {
  }

  /** A missed organ (false or no "found" key) posts the miss and the guidance, and waits for a new image. */
  lemma FlowIdentifyMissed(s: SessionState, svc: Services)
    requires s.uploadedImage.Some? && svc.toJpeg(s.uploadedImage.value).Some? && s.stage == Identify
    requires svc.identify(svc.toJpeg(s.uploadedImage.value).value, s.targetOrgan).found != Some(true)
    ensures var t := Flow(s, svc);
      var guidance := svc.navigate(svc.toJpeg(s.uploadedImage.value).value, s.targetOrgan);
      t == s.(stage := WaitForNewImage,
              messages := s.messages + [Assistant(NotIdentifiedText(s.targetOrgan)),
                                        Assistant(GuidanceAfterMissText(GetOr(guidance.response, NoGuidanceAfterMiss)))])
  {
  }

  /** The navigate stage posts the guidance and waits for a new image. */
  lemma FlowNavigate(s: SessionState, svc: Services)
    requires s.uploadedImage.Some? && svc.toJpeg(s.uploadedImage.value).Some? && s.stage == Navigate
    ensures var t := Flow(s, svc);
      var response := svc.navigate(svc.toJpeg(s.uploadedImage.value).value, s.targetOrgan);
      t == s.(stage := WaitForNewImage,
              messages := s.messages + [Assistant(GuidanceText(GetOr(response.response, NoGuidance)))],
              navigateResponse := Some(response))
  {
  }

  /** The describe stage posts the diagnosis and opens the chat. */
  lemma FlowDescribe(s: SessionState, svc: Services)
    requires s.uploadedImage.Some? && svc.toJpeg(s.uploadedImage.value).Some? && s.stage == Describe
    ensures var t := Flow(s, svc);
      var response := svc.describe(svc.toJpeg(s.uploadedImage.value).value, s.targetOrgan);
      t == s.(stage := Chat,
              messages := s.messages + [Assistant(DiagnosisText(GetOr(response.description, NoDiagnosis)))],
              descriptionResponse := Some(response))
  {
  }

  /**
   * The stage table of the flow: identify ends at describe or
   * wait_for_new_image (navigate and describe are given above), and every
   * other stage is left alone.
   */
  lemma FlowSuccessor(s: SessionState, svc: Services)
    requires s.uploadedImage.Some? && svc.toJpeg(s.uploadedImage.value).Some?
    ensures s.stage == Identify ==> Flow(s, svc).stage in {Describe, WaitForNewImage}
    ensures s.stage !in {Identify, Navigate, Describe} ==> Flow(s, svc) == s
  {
  }

  /** The flow only appends to the chat. */
  lemma FlowAppendsOnly(s: SessionState, svc: Services)
    ensures s.messages <= Flow(s, svc).messages
  {
  }

  /** Of the followed keys, the flow changes only the stage, the chat and the two stored responses. */
  lemma FlowKeepsSessionKeys(s: SessionState, svc: Services)
    ensures Flow(s, svc).(stage := s.stage, messages := s.messages,
      navigateResponse := s.navigateResponse, descriptionResponse := s.descriptionResponse) == s
  {
  }

  /** Empty input changes nothing. */
  lemma EmptyInputIgnored(s: SessionState, svc: Services)
    ensures AfterInput(s, "", svc) == s
  {
  }

  /** Non-empty input is recorded first, after the unchanged earlier messages. */
  lemma InputRecordedFirst(s: SessionState, input: string, svc: Services)
    requires input != ""
    ensures var t := AfterInput(s, input, svc);
      |s.messages| < |t.messages| && t.messages[..|s.messages|] == s.messages &&
      t.messages[|s.messages|] == User(input)
  {
  }

  /** Accepting help moves to navigate and runs the flow there: with an image, three messages and a new wait. */
  lemma AssentRunsNavigation(s: SessionState, input: string, svc: Services)
    requires input != "" && s.stage == AskNavigation && s.needsNavigation && Assent(input)
    ensures var t := AfterInput(s, input, svc);
      ((s.uploadedImage.None? || Unconvertible(s, svc)) ==>
        t.stage == Navigate && t.messages == s.messages + [User(input), Assistant(NavigateAck)]) &&
      (s.uploadedImage.Some? && svc.toJpeg(s.uploadedImage.value).Some? ==>
        var guidance := svc.navigate(svc.toJpeg(s.uploadedImage.value).value, s.targetOrgan);
        t.stage == WaitForNewImage && t.navigateResponse == Some(guidance) &&
        t.messages == s.messages
          + [User(input), Assistant(NavigateAck), Assistant(GuidanceText(GetOr(guidance.response, NoGuidance)))])
  {
  }

  /**
   * Input at any other stage (identify, describe, wait_for_new_image, or
   * ask_navigation without a pending offer of help) is only recorded.
   */
  lemma InputOtherwiseOnlyRecorded(s: SessionState, input: string, svc: Services)
    requires input != "" && s.stage != Chat && !(s.stage == AskNavigation && s.needsNavigation)
    ensures AfterInput(s, input, svc) == s.(messages := s.messages + [User(input)])
  {
  }

  /** The assent test ignores letter case: a reply and its lower-cased form are judged alike. */
  lemma AssentIgnoresCase(reply: string)
    ensures Assent(Lower(reply)) == Assent(reply)
  {
    LowerIdempotent(reply);
  }

  /** Declining help asks for another image and waits for it. */
  lemma DeclineAsksForNewImage(s: SessionState, input: string, svc: Services)
    requires input != "" && s.stage == AskNavigation && s.needsNavigation && !Assent(input)
    ensures AfterInput(s, input, svc).stage == WaitForNewImage
    ensures AfterInput(s, input, svc).messages == s.messages + [User(input), Assistant(UploadAnother)]
  {
  }

  /** In chat, every question gets exactly the one canned reply. */
  lemma ChatGetsCannedReply(s: SessionState, input: string, svc: Services)
    requires input != "" && s.stage == Chat
    ensures AfterInput(s, input, svc) == s.(messages := s.messages + [User(input), Assistant(ChatReply)])
  {
  }

  /** Assent is a substring test, so "No, not okay" counts as assent and "no" does not. */
  lemma AssentIsSubstringTest()
    ensures Assent("No, not okay")
    ensures !Assent("no")
  {
    var l := Lower("No, not okay");
    assert l == "no, not okay";
    assert l[8..10] == "ok";
    assert OccursAt(l, "ok", 8);
    var n := Lower("no");
    assert n == "no";
    assert n[0..2][0] == 'n';
    assert !OccursAt(n, "ok", 0);
  }

  /** Login advances to the dashboard exactly when the name has a non-blank character. */
  lemma LoginNeedsName(s: SessionState, name: string)
    ensures (exists i :: 0 <= i < |name| && !IsSpace(name[i])) ==>
      AfterLogin(s, name).stage == Dashboard && AfterLogin(s, name).others[AstronautNameKey] == name
    ensures (forall i :: 0 <= i < |name| ==> IsSpace(name[i])) ==> AfterLogin(s, name) == s
  {
    StripEmptyIff(name);
  }

  /** A new upload without a target organ is only recorded; the stage stays. */
  lemma UploadWithoutOrgan(s: SessionState, file: Upload, svc: Services)
    requires s.uploadedImage != Some(file) && s.targetOrgan == ""
    ensures AfterUpload(s, Some(file), svc)
      == s.(uploadedImage := Some(file), messages := s.messages + [ChatMessage("user", UploadText(""), Some(file))])
  {
  }

  /** A new upload with a target organ is identified at once, ending at describe or wait_for_new_image. */
  lemma UploadWithOrgan(s: SessionState, file: Upload, svc: Services)
    requires s.uploadedImage != Some(file) && s.targetOrgan != "" && svc.toJpeg(file).Some?
    ensures AfterUpload(s, Some(file), svc).stage in {Describe, WaitForNewImage}
    ensures AfterUpload(s, Some(file), svc).uploadedImage == Some(file)
    ensures |AfterUpload(s, Some(file), svc).messages| == |s.messages| + 3
  {
  }

  /**
   * A new upload with a target organ that cannot be converted to JPEG keeps
   * what the upload handler wrote before the flow raised: the file, the
   * upload message and the identify stage, and nothing from a service.
   */
  lemma UploadUnconvertible(s: SessionState, file: Upload, svc: Services)
    requires s.uploadedImage != Some(file) && s.targetOrgan != "" && svc.toJpeg(file).None?
    ensures AfterUpload(s, Some(file), svc)
      == s.(uploadedImage := Some(file), stage := Identify,
            messages := s.messages + [ChatMessage("user", UploadText(s.targetOrgan), Some(file))])
  {
  }

  /** The same file again, or no file, changes nothing. */
  lemma UploadSameFile(s: SessionState, file: Option<Upload>, svc: Services)
    requires file.None? || file == s.uploadedImage
    ensures AfterUpload(s, file, svc) == s
  {
  }

  // ---------------------------------------------------------------------
  // The session object
  // ---------------------------------------------------------------------

  class Session {
    var stage: Stage
    var messages: seq<ChatMessage>
    var uploadedImage: Option<Upload>
    var needsNavigation: bool
    var navigateResponse: Option<NavigateJson>
    var descriptionResponse: Option<DescribeJson>
    var selectedOrgan: Option<string>
    var targetOrgan: string
    var others: map<string, string>

    function State(): SessionState
      reads this
    {
      SessionState(stage, messages, uploadedImage, needsNavigation, navigateResponse,
        descriptionResponse, selectedOrgan, targetOrgan, others)
    }

    /** The initialisation block at the top of the script. */
    constructor ()
      ensures State() == InitialState()
    {
      messages := [];
      stage := Welcome;
      uploadedImage := None;
      needsNavigation := false;
      navigateResponse := None;
      descriptionResponse := None;
      others := map[AstronautNameKey := ""];
      selectedOrgan := None;
      targetOrgan := "";
    }

    /**
     * process_image_flow. `raised` is set when converting the upload to
     * JPEG fails; the exception leaves the script run at that point, before
     * any field is written.
     */
    method ProcessImageFlow(svc: Services) returns (raised: bool)
      modifies this
      ensures State() == Flow(old(State()), svc)
      ensures raised <==> Unconvertible(old(State()), svc)
    {
      raised := false;
      if uploadedImage.None? {
        return;
      }
      var converted := svc.toJpeg(uploadedImage.value);
      if converted.None? {
        raised := true;
        return;
      }
      var image := converted.value;
      if stage == Identify {
        var response := svc.identify(image, targetOrgan);
        if GetOr(response.found, false) {
          messages := messages + [Assistant(IdentifiedText(GetOr(response.entity, "target organ")))];
          stage := Describe;
          var description := svc.describe(image, targetOrgan);
          descriptionResponse := Some(description);
          messages := messages + [Assistant(DiagnosisText(GetOr(description.description, NoDiagnosis)))];
        } else {
          messages := messages + [Assistant(NotIdentifiedText(targetOrgan))];
          var guidance := svc.navigate(image, targetOrgan);
          messages := messages + [Assistant(GuidanceAfterMissText(GetOr(guidance.response, NoGuidanceAfterMiss)))];
          stage := WaitForNewImage;
        }
      } else if stage == Navigate {
        var response := svc.navigate(image, targetOrgan);
        navigateResponse := Some(response);
        messages := messages + [Assistant(GuidanceText(GetOr(response.response, NoGuidance)))];
        stage := WaitForNewImage;
      } else if stage == Describe {
        var response := svc.describe(image, targetOrgan);
        descriptionResponse := Some(response);
        messages := messages + [Assistant(DiagnosisText(GetOr(response.description, NoDiagnosis)))];
        stage := Chat;
      }
    }

    /** handle_user_input; `raised` reports the conversion failure of the flow it may run. */
    method HandleUserInput(input: string, svc: Services) returns (raised: bool)
      modifies this
      ensures State() == AfterInput(old(State()), input, svc)
      ensures raised <==> (input != "" && old(stage) == AskNavigation && old(needsNavigation)
        && Assent(input) && Unconvertible(old(State()), svc))
    {
      raised := false;
      if input != "" {
        messages := messages + [User(input)];
        if stage == AskNavigation && needsNavigation {
          if Assent(input) {
            stage := Navigate;
            messages := messages + [Assistant(NavigateAck)];
            raised := ProcessImageFlow(svc);
          } else {
            messages := messages + [Assistant(UploadAnother)];
            stage := WaitForNewImage;
          }
        } else if stage == Chat {
          messages := messages + [Assistant(ChatReply)];
        }
      }
    }

    /** restart_session: deletes every key, then sets the chat keys afresh. */
    method RestartSession()
      modifies this
      ensures State() == RestartedState()
    {
      while others != map[]
        decreases |others|
      {
        var key :| key in others;
        assert others.Keys == (others - {key}).Keys + {key};
        others := others - {key};
      }
      messages := [];
      stage := Initial;
      uploadedImage := None;
      needsNavigation := false;
      navigateResponse := None;
      descriptionResponse := None;
      selectedOrgan := None;
      targetOrgan := "";
    }

    method Login(name: string)
      modifies this
      ensures State() == AfterLogin(old(State()), name)
    {
      if Strip(name) != "" {
        others := others[AstronautNameKey := name];
        stage := Dashboard;
      }
    }

    method SelectOrgan(organ: string)
      modifies this
      ensures State() == AfterSelectOrgan(old(State()), organ)
    {
      selectedOrgan := Some(organ);
      targetOrgan := organ;
      stage := Initial;
    }

    method Greet()
      modifies this
      ensures State() == AfterGreeting(old(State()))
    {
      if stage == Initial && messages == [] {
        stage := WaitingForImage;
      }
    }

    /** The upload handler of the sidebar; `raised` reports the conversion failure of the flow it runs. */
    method UploadImage(file: Option<Upload>, svc: Services) returns (raised: bool)
      modifies this
      ensures State() == AfterUpload(old(State()), file, svc)
      ensures raised <==> (file.Some? && old(uploadedImage) != file && old(targetOrgan) != ""
        && svc.toJpeg(file.value).None?)
    {
      raised := false;
      if file.Some? && (uploadedImage.None? || file.value != uploadedImage.value) {
        uploadedImage := file;
        messages := messages + [ChatMessage("user", UploadText(targetOrgan), file)];
        if targetOrgan != "" {
          stage := Identify;
          raised := ProcessImageFlow(svc);
        }
      }
    }
  }
}
