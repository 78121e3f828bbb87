/**
 * The AI edit session: a chat in which each instruction the customer sends
 * becomes a request to an image-generation service, and each reply either
 * replaces the current image (and is appended to the history of versions)
 * or adds an apology. Only one request is in flight at a time. The service
 * itself is outside the model: a request is handed out by `Send`, and its
 * result comes back through `Complete`.
 */
module AIEditing {
  import opened JsText

  datatype Role = User | Model

  datatype Message = Message(role: Role, text: string)

  const SuccessText: string := "¡He actualizado la imagen según tus instrucciones!"
  const NoImageText: string := "Lo siento, no pude generar la imagen. Intenta con otra instrucción."
  const ErrorText: string := "Ocurrió un error al procesar tu solicitud."

  /** The instruction as the service receives it. */
  function Prompt(instruction: string): (p: string)
    ensures |p| == |instruction| + 83
    ensures p[52..52 + |instruction|] == instruction
  {
    "Edit this image based on the following instruction: " + instruction + ". Return only the edited image."
  }

  /** Distinct instructions give distinct prompts. */
  lemma PromptInjective(a: string, b: string)
    requires Prompt(a) == Prompt(b)
    ensures a == b
  {
    assert Prompt(a)[52..52 + |a|] == Prompt(b)[52..52 + |b|];
  }

  /** What is sent: the image being edited and the prompt. */
  datatype Request = Request(image: string, prompt: string)

  // ---------------------------------------------------------------------
  // The service's reply, as far as the editor reads it

  datatype InlineData = InlineData(mimeType: string, data: string)

  /** A part of the reply's content; only inline image data is read. */
  datatype Part = Part(inlineData: Option<InlineData>)

  /** A candidate's content; `None` stands for absent parts. */
  datatype Content = Content(parts: Option<seq<Part>>)

  /** A candidate answer; `None` stands for absent content. */
  datatype Candidate = Candidate(content: Option<Content>)

  datatype Reply = Reply(candidates: Option<seq<Candidate>>)

  /** The call either answers or throws. */
  datatype CallResult = Replied(reply: Reply) | Threw

  /** How an answer is classified: a new image, no image, or an error. */
  datatype Outcome = Edited(src: string) | NoImage | Failed

  /** An inline image as a data URL. */
  function DataUrl(d: InlineData): (url: string)
    ensures |url| == |d.mimeType| + |d.data| + 13
    ensures url[5..5 + |d.mimeType|] == d.mimeType && url[|url| - |d.data|..] == d.data
  {
    "data:" + d.mimeType + ";base64," + d.data
  }

  /** The image of the first part that carries one. */
  function FirstImage(parts: seq<Part>): Option<string> {
    if parts == [] then None
    else if parts[0].inlineData.Some? then Some(DataUrl(parts[0].inlineData.value))
    else FirstImage(parts[1..])
  }

  /** `FirstImage` finds an image exactly when some part has one, and then
      it is the first such part's. */
  lemma {:induction false} FirstImageIsFirst(parts: seq<Part>)
    ensures FirstImage(parts).None? <==> forall i :: 0 <= i < |parts| ==> parts[i].inlineData.None?
    ensures FirstImage(parts).Some? ==>
      exists i :: 0 <= i < |parts| && parts[i].inlineData.Some?
        && (forall j :: 0 <= j < i ==> parts[j].inlineData.None?)
        && FirstImage(parts).value == DataUrl(parts[i].inlineData.value)
  {
    if parts != [] && parts[0].inlineData.None? {
      FirstImageIsFirst(parts[1..]);
      if FirstImage(parts).Some? {
        var i :| 0 <= i < |parts[1..]| && parts[1..][i].inlineData.Some?
          && (forall j :: 0 <= j < i ==> parts[1..][j].inlineData.None?)
          && FirstImage(parts[1..]).value == DataUrl(parts[1..][i].inlineData.value);
        assert parts[i + 1] == parts[1..][i];
        assert forall j :: 0 <= j < i + 1 ==> parts[j].inlineData.None? by {
          forall j | 0 <= j < i + 1 ensures parts[j].inlineData.None? {
            if j > 0 {
              assert parts[j] == parts[1..][j - 1];
            }
          }
        }
      }
    }
  }

  /** The loop over the reply's parts, stopping at the first inline
      image. */
  method ScanParts(parts: seq<Part>) returns (found: Option<string>)
    ensures found == FirstImage(parts)
  {
    found := None;
    var k := 0;
    while k < |parts|
      invariant 0 <= k <= |parts|
      invariant FirstImage(parts) == FirstImage(parts[k..])
      invariant found.None?
    {
      if parts[k].inlineData.Some? {
        found := Some(DataUrl(parts[k].inlineData.value));
        return;
      }
      assert parts[k..][1..] == parts[k + 1..];
      k := k + 1;
    }
  }

  /** Reading `candidates[0].content.parts` of a reply that has a list of
      candidates throws when the list is empty or its first element has
      no content. */
  predicate ReadThrows(reply: Reply) {
    reply.candidates.Some? && (reply.candidates.value == [] || reply.candidates.value[0].content.None?)
  }

  /** The classification the editor makes of a call's result: the first
      inline image of the first candidate's parts; no image when the reply
      has no candidates or the content has no parts; an error when the call
      throws or reading the parts throws. */
  function Classify(result: CallResult): (o: Outcome)
    ensures o.Failed? <==> result.Threw? || ReadThrows(result.reply)
    ensures o.Edited? ==>
      && result.reply.candidates.Some? && result.reply.candidates.value != []
      && result.reply.candidates.value[0].content.Some?
      && result.reply.candidates.value[0].content.value.parts.Some?
      && Some(o.src) == FirstImage(result.reply.candidates.value[0].content.value.parts.value)
    ensures result.Replied? && !ReadThrows(result.reply) && o.NoImage? ==>
      || result.reply.candidates.None?
      || result.reply.candidates.value[0].content.value.parts.None?
      || FirstImage(result.reply.candidates.value[0].content.value.parts.value).None?
  {
    match result
    case Threw => Failed
    case Replied(reply) =>
      if reply.candidates.None? then NoImage
      else if ReadThrows(reply) then Failed
      else if reply.candidates.value[0].content.value.parts.None? then NoImage
      else
        match FirstImage(reply.candidates.value[0].content.value.parts.value)
        case Some(src) => Edited(src)
        case None => NoImage
  }

  /** The reply the editor turns into text for each outcome. */
  function ReplyText(o: Outcome): (t: string)
    ensures t == SuccessText <==> o.Edited?
  {
    match o
    case Edited(_) => SuccessText
    case NoImage => NoImageText
    case Failed => ErrorText
  }

  /** The transcript alternates, starting with the customer. */
  predicate Alternating(ms: seq<Message>) {
    forall i :: 0 <= i < |ms| ==> ms[i].role == (if i % 2 == 0 then User else Model)
  }

  /** How many replies announced a new image. */
  function Successes(ms: seq<Message>): nat {
    if ms == [] then 0
    else Successes(ms[..|ms| - 1]) + (if ms[|ms| - 1] == Message(Model, SuccessText) then 1 else 0)
  }

  /** Appending a message counts it if it announces a new image, and keeps
      the transcript alternating if it is the expected speaker's. */
  lemma AppendMessage(ms: seq<Message>, m: Message)
    requires Alternating(ms)
    requires m.role == (if |ms| % 2 == 0 then User else Model)
    ensures Alternating(ms + [m])
    ensures Successes(ms + [m]) == Successes(ms) + (if m == Message(Model, SuccessText) then 1 else 0)
  {
    AppendCounts(ms, m);
  }

  lemma AppendCounts(ms: seq<Message>, m: Message)
    ensures Successes(ms + [m]) == Successes(ms) + (if m == Message(Model, SuccessText) then 1 else 0)
  {
    assert (ms + [m])[..|ms|] == ms;
  }

  /** In an alternating transcript, a request is pending exactly when the
      customer spoke last. */
  lemma PendingIffUserLast(ms: seq<Message>)
    requires Alternating(ms)
    ensures |ms| % 2 == 1 <==> ms != [] && ms[|ms| - 1].role == User
  {
  }

  /** The body of `handleSend` after the call returns or throws: how the
      reply is read, scanning the first candidate's parts with a loop. */
  method ReadReply(result: CallResult) returns (outcome: Outcome)
    ensures outcome == Classify(result)
  {
    match result {
      case Threw =>
        outcome := Failed;
      case Replied(reply) =>
        if reply.candidates.None? {
          outcome := NoImage;
        } else if reply.candidates.value == [] || reply.candidates.value[0].content.None? {
          outcome := Failed;
        } else if reply.candidates.value[0].content.value.parts.None? {
          outcome := NoImage;
        } else {
          var found := ScanParts(reply.candidates.value[0].content.value.parts.value);
          outcome := if found.Some? then Edited(found.value) else NoImage;
        }
    }
  }

  class AIEditSession {
    /** The image the editor was opened with. */
    const original: string
    var messages: seq<Message>
    var input: string
    var isLoading: bool
    var currentImage: string
    /** Every version so far, the original first. */
    var history: seq<string>

    ghost predicate Valid()
      reads this
    {
      && |history| >= 1 && history[0] == original
      && currentImage in history
      && Alternating(messages)
      && (isLoading <==> |messages| % 2 == 1)
      && |history| == 1 + Successes(messages)
    }

    constructor (imageSrc: string)
      ensures Valid()
      ensures original == imageSrc && currentImage == imageSrc && history == [imageSrc]
      ensures messages == [] && input == "" && !isLoading
    {
      original := imageSrc;
      currentImage := imageSrc;
      history := [imageSrc];
      messages := [];
      input := "";
      isLoading := false;
    }

    /** Typing an instruction; the box is disabled while a request is in
        flight. */
    method SetInput(value: string)
      requires Valid() && !isLoading
      modifies this
      ensures Valid() && input == value
      ensures messages == old(messages) && isLoading == old(isLoading)
      ensures currentImage == old(currentImage) && history == old(history)
    {
      input := value;
    }

    /** The first half of `handleSend`: ignored when the instruction is
        blank or a request is in flight; otherwise the instruction, as
        typed, is appended to the transcript, the box is cleared, and the
        request for the current image goes out. */
    method Send() returns (request: Option<Request>)
      requires Valid()
      modifies this
      ensures Valid()
      ensures request.None? <==> Trim(old(input)) == [] || old(isLoading)
      ensures request.None? ==>
        && messages == old(messages) && input == old(input) && isLoading == old(isLoading)
      ensures request.Some? ==>
        && messages == old(messages) + [Message(User, old(input))]
        && input == "" && isLoading
        && request.value == Request(old(currentImage), Prompt(old(input)))
      ensures currentImage == old(currentImage) && history == old(history)
    {
      if Trim(input) == [] || isLoading {
        return None;
      }
      var sent := Dispatch();
      request := Some(sent);
    }

    /** The accepted path of `Send`. */
    method Dispatch() returns (request: Request)
      requires Valid() && !isLoading
      modifies this
      ensures Valid()
      ensures messages == old(messages) + [Message(User, old(input))]
      ensures input == "" && isLoading
      ensures request == Request(old(currentImage), Prompt(old(input)))
      ensures currentImage == old(currentImage) && history == old(history)
    {
      var userMessage := input;
      input := "";
      AppendMessage(messages, Message(User, userMessage));
      messages := messages + [Message(User, userMessage)];
      isLoading := true;
      request := Request(currentImage, Prompt(userMessage));
    }

    /** The second half of `handleSend`: the result of the call comes back.
        A new image becomes current and joins the history; otherwise image
        and history stay as they are. Either way one reply is appended and
        the session stops loading. */
    method Complete(result: CallResult)
      requires Valid() && isLoading
      modifies this
      ensures Valid() && !isLoading
      ensures messages == old(messages) + [Message(Model, ReplyText(Classify(result)))]
      ensures Classify(result).Edited? ==>
        currentImage == Classify(result).src && history == old(history) + [Classify(result).src]
      ensures !Classify(result).Edited? ==>
        currentImage == old(currentImage) && history == old(history)
      ensures input == old(input)
    {
      var outcome := ReadReply(result);
      var reply := Message(Model, ReplyText(outcome));
      AppendMessage(messages, reply);
      if outcome.Edited? {
        currentImage := outcome.src;
        history := history + [outcome.src];
      }
      messages := messages + [reply];
      isLoading := false;
    }

    /** Clicking a version in the history strip makes it current; the
        history itself never changes. */
    method SelectHistory(idx: nat)
      requires Valid() && idx < |history|
      modifies this
      ensures Valid()
      ensures history == old(history) && currentImage == history[idx]
      ensures messages == old(messages) && isLoading == old(isLoading) && input == old(input)
    {
      currentImage := history[idx];
    }

    /** The save button hands the current image back to the customizer. */
    method Save() returns (src: string)
      requires Valid()
      ensures src == currentImage && src in history
    {
      src := currentImage;
    }
  }
}
