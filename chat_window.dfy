/** The chat window: a transcript that starts with a greeting, a text box
    and an optional attached photo. Sending takes a snapshot of the text and
    the photo, clears both, shows the user's entry at once and, when the
    request settles, appends the assistant's entry, which on failure holds
    the error. The send handler is split into its start and its completion. */
module ChatWindow {
  import opened Common
  import opened Text

  datatype Role = User | Assistant

  /** One transcript entry: its role, its text, the preview of the photo
      sent with it (user entries) and the model named under it (assistant
      entries). */
  datatype Message = Message(role: Role, text: string, image: Option<string>, model: Option<string>)

  /** The request sent: the session, the message text and the photo. */
  datatype ChatRequest = ChatRequest(sessionId: string, message: string, image: Option<ImageFile>)

  /** The fields of a chat answer read by the window; a field that is
      missing reads as empty, which is falsy as well. */
  datatype ChatAnswer = ChatAnswer(answer: string, modelUsed: string)

  const Greeting := Message(Assistant, "Hello! I am your Fashion Assistant. Show me an outfit or ask for advice.",
                            None, Some("GPT OSS"))

  const SessionId := "user-session-1"

  /** The message sent for a photo without text. */
  const AnalyzePhotoMessage := "Please analyze this outfit and give me styling advice."

  /** The message sent: the text as typed when it is non-empty, else the
      fixed request to analyse the photo when one is attached, else empty. */
  function OutgoingMessage(input: string, image: Option<ImageFile>): (message: string)
    ensures input != "" ==> message == input
    ensures input == "" && image.Some? ==> message == AnalyzePhotoMessage
    ensures message == "" <==> input == "" && image.None?
  {
    if input != "" then input
    else if image.Some? then AnalyzePhotoMessage
    else ""
  }

  /** The model named under an answer: the one the answer reports, else the
      vision model when a photo was sent and the text model otherwise. */
  function ModelName(modelUsed: string, withPhoto: bool): (model: string)
    ensures modelUsed != "" ==> model == modelUsed
    ensures modelUsed == "" && withPhoto ==> model == "Llama 4 Maverik"
    ensures modelUsed == "" && !withPhoto ==> model == "GPT OSS"
  {
    if modelUsed != "" then modelUsed else if withPhoto then "Llama 4 Maverik" else "GPT OSS"
  }

  /** The message of the error a failed send throws: the status and body of
      a response that is not ok, or the message of a failed fetch. */
  function ErrorMessage(reply: Reply<ChatAnswer>): string
    requires !reply.Answered?
  {
    if reply.NotOk? then "HTTP " + NatToString(reply.status) + ": " + reply.text else reply.message
  }

  /** The assistant entry appended when a send settles: the answer and its
      model on success; on failure an apology quoting the error, signed by
      'System'. */
  function AssistantEntry(req: ChatRequest, reply: Reply<ChatAnswer>): (m: Message)
    ensures m.role == Assistant && m.image.None? && m.model.Some?
    ensures reply.Answered? ==> m.text == reply.body.answer
                                && m.model == Some(ModelName(reply.body.modelUsed, req.image.Some?))
    ensures !reply.Answered? ==>
      (m.model == Some("System")
       && m.text == "Sorry, I encountered an error: " + ErrorMessage(reply) + ". Please check the console for details.")
  {
    if reply.Answered? then
      Message(Assistant, reply.body.answer, None, Some(ModelName(reply.body.modelUsed, req.image.Some?)))
    else
      Message(Assistant, "Sorry, I encountered an error: " + ErrorMessage(reply) + ". Please check the console for details.",
              None, Some("System"))
  }

  /** The transcript after the greeting alternates user and assistant
      entries, starting with a user entry. */
  predicate Alternates(messages: seq<Message>)
  {
    && |messages| >= 1 && messages[0] == Greeting
    && forall i :: 1 <= i < |messages| ==> (messages[i].role == User <==> i % 2 == 1)
  }

  /** Appending an entry of the role whose turn it is keeps the
      alternation. */
  lemma AlternatesAppend(messages: seq<Message>, m: Message)
    requires Alternates(messages)
    requires m.role == User <==> |messages| % 2 == 1
    ensures Alternates(messages + [m])
  {
    var extended := messages + [m];
    forall i | 1 <= i < |extended| ensures extended[i].role == User <==> i % 2 == 1 {
      if i < |messages| {
        assert extended[i] == messages[i];
      }
    }
  }

  class ChatScreen {
    var messages: seq<Message>
    var input: string
    var isLoading: bool
    var selectedImage: Option<ImageFile>
    var imagePreview: Option<string>

    /** The send in flight, if any. */
    ghost var inFlight: Option<ChatRequest>
    /** The preview reads not yet finished. */
    ghost var previewReads: multiset<ImageFile>

    /** The handler refuses to send while loading, so at most one send is
        in flight; the transcript alternates, and it ends with a user entry
        exactly while a reply is awaited. */
    ghost predicate Valid()
      reads this
    {
      && (isLoading <==> inFlight.Some?)
      && Alternates(messages)
      && (isLoading <==> |messages| % 2 == 0)
    }

    constructor ()
      ensures Valid()
      ensures messages == [Greeting] && input == "" && !isLoading
      ensures selectedImage.None? && imagePreview.None?
    {
      messages := [Greeting];
      input, isLoading := "", false;
      selectedImage, imagePreview := None, None;
      inFlight, previewReads := None, multiset{};
    }

    /** Whether the send button may be pressed: not while loading, and not
        when the text trims to empty (see `TrimEmptyIffBlank`) and no photo
        is attached. */
    function SendEnabled(): (enabled: bool)
      reads this
      ensures enabled <==> !isLoading && (!IsBlank(input) || selectedImage.Some?)
    {
      !((IsBlank(input) && selectedImage.None?) || isLoading)
    }

    method SetInput(text: string)
      requires Valid()
      modifies this
      ensures Valid()
      ensures input == text
      ensures messages == old(messages) && isLoading == old(isLoading)
      ensures selectedImage == old(selectedImage) && imagePreview == old(imagePreview)
      ensures inFlight == old(inFlight) && previewReads == old(previewReads)
    {
      input := text;
    }

    /** `handleImageSelect` with a file: the photo is attached and a preview
        read starts. */
    method SelectImage(file: ImageFile)
      requires Valid()
      modifies this
      ensures Valid()
      ensures selectedImage == Some(file) && previewReads == old(previewReads) + multiset{file}
      ensures messages == old(messages) && input == old(input) && isLoading == old(isLoading)
      ensures imagePreview == old(imagePreview) && inFlight == old(inFlight)
    {
      selectedImage := Some(file);
      previewReads := previewReads + multiset{file};
    }

    /** A preview read has finished: its data URL is shown. */
    method PreviewLoaded(file: ImageFile)
      requires Valid() && file in previewReads
      modifies this
      ensures Valid()
      ensures imagePreview == Some(file.dataUrl) && previewReads == old(previewReads) - multiset{file}
      ensures messages == old(messages) && input == old(input) && isLoading == old(isLoading)
      ensures selectedImage == old(selectedImage) && inFlight == old(inFlight)
    {
      imagePreview := Some(file.dataUrl);
      previewReads := previewReads - multiset{file};
    }

    /** The remove button, shown over the preview of the attached photo. */
    method RemoveImage()
      requires Valid() && imagePreview.Some?
      modifies this
      ensures Valid()
      ensures selectedImage.None? && imagePreview.None?
      ensures messages == old(messages) && input == old(input) && isLoading == old(isLoading)
      ensures inFlight == old(inFlight) && previewReads == old(previewReads)
    {
      selectedImage := None;
      imagePreview := None;
    }

    /** `handleSend`, up to the request: nothing when the text trims to
        empty and no photo is attached, or while a reply is awaited.
        Otherwise the text, photo and preview are taken as they are, all
        three are cleared, the user entry (untrimmed text, preview) is
        appended and the request is sent. */
    method SendStart() returns (req: Option<ChatRequest>)
      requires Valid()
      modifies this
      ensures Valid()
      ensures req.Some? <==> old(SendEnabled())
      ensures req.None? ==> messages == old(messages) && input == old(input) && isLoading == old(isLoading)
                            && selectedImage == old(selectedImage) && imagePreview == old(imagePreview)
                            && inFlight == old(inFlight)
      ensures req.Some? ==>
        && req.value == ChatRequest(SessionId, OutgoingMessage(old(input), old(selectedImage)), old(selectedImage))
        && messages == old(messages) + [Message(User, old(input), old(imagePreview), None)]
        && input == "" && selectedImage.None? && imagePreview.None?
        && isLoading && inFlight == req
      ensures previewReads == old(previewReads)
    {
      // `!input.trim()`, stated as "blank"
      if (IsBlank(input) && selectedImage.None?) || isLoading {
        return None;
      }
      var currentInput, currentImage, currentImagePreview := input, selectedImage, imagePreview;
      input, selectedImage, imagePreview := "", None, None;
      var userEntry := Message(User, currentInput, currentImagePreview, None);
      AlternatesAppend(messages, userEntry);
      messages, isLoading := messages + [userEntry], true;
      var message := if currentInput != "" then currentInput
                     else if currentImage.Some? then AnalyzePhotoMessage
                     else "";
      req := Some(ChatRequest(SessionId, message, currentImage));
      inFlight := req;
    }

    /** `handleSend`, once its request settles: exactly one assistant entry
        is appended (nothing is thrown), and loading ends. */
    method SendComplete(req: ChatRequest, reply: Reply<ChatAnswer>)
      requires Valid() && inFlight == Some(req)
      modifies this
      ensures Valid()
      ensures messages == old(messages) + [AssistantEntry(req, reply)]
      ensures !isLoading && inFlight.None?
      ensures input == old(input) && selectedImage == old(selectedImage) && imagePreview == old(imagePreview)
      ensures previewReads == old(previewReads)
    {
      AlternatesAppend(messages, AssistantEntry(req, reply));
      messages := messages + [AssistantEntry(req, reply)];
      isLoading := false;
      inFlight := None;
    }
  }

  /** Text made only of spaces is sent as it is when a photo is attached,
      not replaced by the request to analyse the photo. */
  method SpacesWithPhoto(photo: ImageFile) returns (sent: string, shown: string)
    ensures sent == "  " && shown == "  "
  {
    var screen := new ChatScreen();
    screen.SetInput("  ");
    screen.SelectImage(photo);
    var req := screen.SendStart();
    sent := req.value.message;
    shown := screen.messages[1].text;
  }

  /** Two exchanges leave the greeting, then user, assistant, user,
      assistant; a failed one is answered by 'System'. */
  method TwoExchanges(answer: ChatAnswer, status: nat) returns (transcript: seq<Message>)
    ensures |transcript| == 5 && transcript[0] == Greeting
    ensures transcript[1].role == User && transcript[3].role == User
    ensures transcript[2].role == Assistant && transcript[4].role == Assistant
    ensures transcript[2].text == answer.answer && transcript[4].model == Some("System")
  {
    var screen := new ChatScreen();
    screen.SetInput("What goes with navy?");
    assert !IsJsSpace(screen.input[0]);
    var first := screen.SendStart();
    screen.SendComplete(first.value, Answered(answer));
    screen.SetInput("And with grey?");
    assert !IsJsSpace(screen.input[0]);
    var second := screen.SendStart();
    screen.SendComplete(second.value, NotOk(status, "busy"));
    transcript := screen.messages;
  }
}
