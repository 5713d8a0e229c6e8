/** The dashboard controller (src/App.tsx): the state every panel renders
    from, and the handlers that change it.

    Each handler runs in the source as: raise its busy flag, call the
    model service, apply the outcome, clear the flag in `finally`. Here the
    part before the call (`Begin...`) and the part after it (`Finish...`)
    are methods of their own, and `Handle...` runs them around the service
    flow. The clock readings the source makes (`Date.now()` ids,
    `toLocaleTimeString` timestamps) and the file reader's result are
    parameters. The pure functions below say what each step does to a
    snapshot of the state; the methods are proved against them. */
module Dashboard {
  import opened Types
  import opened Constants
  import opened GeminiService
  import MemoryPanel
  import PersonalityEngine
  import ChatColumn

  /** A snapshot of the dashboard's state. */
  datatype DashState = DashState(
    messages: seq<Message>,
    memories: Option<MemoryData>,
    persona: PersonaType,
    response: Option<PersonaResponse>,
    isExtracting: bool,
    isGenerating: bool,
    isProcessingImage: bool,
    isSendingMessage: bool)

  /** The state the dashboard starts in: idle on the thirty sample turns
      with distinct ids, the last from the user, the Calm Mentor persona and
      no memories or response; extraction is offered and generation waits
      for memories. */
  function InitialState(): (s: DashState)
    ensures Idle(s) && s.memories == None && s.response == None && s.persona == Mentor
    ensures |s.messages| == 30 && s.messages[|s.messages| - 1].role == User
    ensures forall i, j :: 0 <= i < j < |s.messages| ==> s.messages[i].id != s.messages[j].id
    ensures !MemoryPanel.ExtractDisabled(s.memories, s.isExtracting)
    ensures MemoryPanel.ExtractLabel(s.memories, s.isExtracting) == "Analyze Memories"
    ensures PersonalityEngine.GenerateDisabled(s.memories.Some?, s.isGenerating)
    ensures PersonalityEngine.GenerateLabel(s.memories.Some?, s.isGenerating) == "Extract Memories First"
  {
    SampleIdsDistinct();
    DashState(SampleConversation(), None, Mentor, None, false, false, false, false)
  }

  /** No handler is waiting on the model. */
  predicate Idle(s: DashState)
  {
    !s.isExtracting && !s.isGenerating && !s.isProcessingImage && !s.isSendingMessage
  }

  /** What a handler did: the request it sent to the model, if any, and the
      state it left behind. */
  datatype Step = Step(sent: Option<Request>, after: DashState)

  // ---------------------------------------------------------------------
  // Memory extraction

  /** `setIsExtracting(true)`: only the flag rises. */
  function ExtractStarted(s: DashState): (t: DashState)
    ensures t.isExtracting && t.(isExtracting := s.isExtracting) == s
  {
    s.(isExtracting := true)
  }

  /** A decoded profile replaces the memories, a failure keeps them, and
      the flag is cleared; nothing else changes. */
  function ExtractFinished(s: DashState, outcome: Result<MemoryData, Error>): (t: DashState)
    ensures !t.isExtracting && t.(memories := s.memories, isExtracting := s.isExtracting) == s
    ensures outcome.Success? ==> t.memories == Some(outcome.value)
    ensures outcome.Failure? ==> t.memories == s.memories
  {
    s.(memories := if outcome.Success? then Some(outcome.value) else s.memories, isExtracting := false)
  }

  /** `handleExtractMemories`. Extraction sends the log of the current
      messages once the key is found; it replaces the memories with a
      decoded profile, even when memories were already there, keeps them on
      any failure, and changes nothing else but clearing its flag. */
  function ExtractHandled(s: DashState, apiKey: Option<string>, reply: Result<Option<string>, Error>,
                          decode: string -> Result<MemoryData, Error>): (step: Step)
    ensures step.after == s.(memories := step.after.memories, isExtracting := false)
    ensures step.sent.Some? <==> HasKey(apiKey)
    ensures step.sent.Some? ==> step.sent.value == LogRequest(ConversationLog(s.messages))
    ensures if HasKey(apiKey) && reply.Success? && !IsEmptyText(reply.value) && decode(reply.value.value).Success?
      then step.after.memories == Some(decode(reply.value.value).value)
      else step.after.memories == s.memories
  {
    var run := ExtractMemories(apiKey, s.messages, reply, decode);
    Step(run.sent, ExtractFinished(ExtractStarted(s), run.result))
  }

  // ---------------------------------------------------------------------
  // Persona response

  /** The content of the last message, read the way
      `messages[messages.length - 1].content` reads it: an empty list makes
      the read throw. */
  function LastContent(messages: seq<Message>): (r: Result<string, Error>)
    ensures r.Failure? <==> |messages| == 0
    ensures r.Failure? ==> r.error == NoLastMessage
    ensures r.Success? ==> r.value == messages[|messages| - 1].content
  {
    if |messages| == 0 then Failure(NoLastMessage) else Success(messages[|messages| - 1].content)
  }

  /** `setIsGenerating(true)`: only the flag rises. */
  function GenerateStarted(s: DashState): (t: DashState)
    ensures t.isGenerating && t.(isGenerating := s.isGenerating) == s
  {
    s.(isGenerating := true)
  }

  /** A decoded response replaces the old one, a failure keeps it, and the
      flag is cleared; nothing else changes. */
  function GenerateFinished(s: DashState, outcome: Result<PersonaResponse, Error>): (t: DashState)
    ensures !t.isGenerating && t.(response := s.response, isGenerating := s.isGenerating) == s
    ensures outcome.Success? ==> t.response == Some(outcome.value)
    ensures outcome.Failure? ==> t.response == s.response
  {
    s.(response := if outcome.Success? then Some(outcome.value) else s.response, isGenerating := false)
  }

  /** The body of the `try` in `handleGenerateResponse`: read the last
      message, then run the persona flow on it. */
  function GenerateRun(s: DashState, apiKey: Option<string>, reply: Result<Option<string>, Error>,
                       decode: string -> Result<PersonaResponse, Error>): (run: Run<PersonaResponse>)
    requires s.memories.Some?
    ensures |s.messages| == 0 ==> run == Run(None, Failure(NoLastMessage))
    ensures |s.messages| > 0 ==>
      run == GeneratePersonaResponse(apiKey, s.messages[|s.messages| - 1].content, s.memories.value,
                                     s.persona, reply, decode)
  {
    match LastContent(s.messages)
    case Failure(e) => Run(None, Failure(e))
    case Success(content) => GeneratePersonaResponse(apiKey, content, s.memories.value, s.persona, reply, decode)
  }

  /** `handleGenerateResponse`. Without memories it does nothing at all.
      With memories it sends the last message's content, the memory context
      and the selected persona; an empty message list fails before anything
      is sent. A decoded response replaces the old one, any failure keeps
      it, and nothing else changes but the cleared flag. */
  function GenerateHandled(s: DashState, apiKey: Option<string>, reply: Result<Option<string>, Error>,
                           decode: string -> Result<PersonaResponse, Error>): (step: Step)
    ensures s.memories.None? ==> step == Step(None, s)
    ensures s.memories.Some? ==> step.after == s.(response := step.after.response, isGenerating := false)
    ensures s.memories.Some? && |s.messages| == 0 ==> step.sent == None && step.after.response == s.response
    ensures s.memories.Some? && |s.messages| > 0 ==>
      step.sent == (if HasKey(apiKey)
        then Some(PersonaRequest(s.messages[|s.messages| - 1].content, MemoriesContext(s.memories.value),
                                 s.persona, PersonaDescription(s.persona)))
        else None)
    ensures s.memories.Some? ==>
      if |s.messages| > 0 && HasKey(apiKey) && reply.Success? && !IsEmptyText(reply.value)
         && decode(reply.value.value).Success?
      then step.after.response == Some(decode(reply.value.value).value)
      else step.after.response == s.response
  {
    if s.memories.None? then Step(None, s)
    else
      var run := GenerateRun(s, apiKey, reply, decode);
      Step(run.sent, GenerateFinished(GenerateStarted(s), run.result))
  }

  // ---------------------------------------------------------------------
  // Sending a message

  /** The user's turn, appended before the model is asked, and the flag
      raised; nothing else changes. */
  function SendStarted(s: DashState, userMessage: Message): (t: DashState)
    ensures t.isSendingMessage && t.messages == s.messages + [userMessage]
    ensures t.(messages := s.messages, isSendingMessage := s.isSendingMessage) == s
  {
    s.(isSendingMessage := true, messages := s.messages + [userMessage])
  }

  /** The reply, appended to the list as it is when the reply arrives;
      a failure appends nothing. The flag is cleared and nothing else
      changes. */
  function SendFinished(s: DashState, outcome: Result<string, Error>, replyId: string, replyTime: string): (t: DashState)
    ensures !t.isSendingMessage && t.(messages := s.messages, isSendingMessage := s.isSendingMessage) == s
    ensures outcome.Success? ==> t.messages == s.messages + [Message(replyId, Assistant, outcome.value, replyTime)]
    ensures outcome.Failure? ==> t.messages == s.messages
  {
    s.(messages := if outcome.Success? then s.messages + [Message(replyId, Assistant, outcome.value, replyTime)]
                   else s.messages,
       isSendingMessage := false)
  }

  /** `handleSendMessage(text)`; `userId`, `userTime`, `replyId` and
      `replyTime` are the clock readings the source takes. Sending hands the
      model the history as it was before the user's turn was appended. On
      success the list grows by the user's turn and a non-empty assistant
      reply; on failure the user's turn stays and nothing is rolled back.
      Nothing else changes but the cleared flag. */
  function SendHandled(s: DashState, text: string, userId: string, userTime: string, apiKey: Option<string>,
                       reply: Result<Option<string>, Error>, replyId: string, replyTime: string): (step: Step)
    ensures step.after == s.(messages := step.after.messages, isSendingMessage := false)
    ensures step.sent == (if HasKey(apiKey) then Some(ChatRequest(RecastHistory(s.messages), text)) else None)
    ensures var user := Message(userId, User, text, userTime);
      if HasKey(apiKey) && reply.Success?
      then step.after.messages == s.messages + [user, Message(replyId, Assistant, ReplyOrFallback(reply.value), replyTime)]
      else step.after.messages == s.messages + [user]
    ensures var n := |step.after.messages|;
      n > |s.messages|
      && step.after.messages[..|s.messages|] == s.messages
      && step.after.messages[|s.messages|].role == User && step.after.messages[|s.messages|].content == text
      && (n == |s.messages| + 2 ==>
            step.after.messages[n - 1].role == Assistant && step.after.messages[n - 1].content != "")
  {
    var run := ContinueConversation(apiKey, s.messages, text, reply);
    var user := Message(userId, User, text, userTime);
    var step := Step(run.sent, SendFinished(SendStarted(s, user), run.result, replyId, replyTime));
    assert reply.Success? ==>
      var answer := Message(replyId, Assistant, ReplyOrFallback(reply.value), replyTime);
      s.messages + [user] + [answer] == s.messages + [user, answer];
    assert step.after.messages[..|s.messages|] == s.messages;
    step
  }

  // ---------------------------------------------------------------------
  // Uploading a screenshot

  /** The old response and memories are cleared before the transcription
      is known. */
  function UploadStarted(s: DashState): (t: DashState)
    ensures t.isProcessingImage && t.response == None && t.memories == None
    ensures t.(isProcessingImage := s.isProcessingImage, response := s.response, memories := s.memories) == s
  {
    s.(isProcessingImage := true, response := None, memories := None)
  }

  /** A transcription replaces the messages, a failure keeps them, and the
      flag is cleared; nothing else changes. */
  function UploadFinished(s: DashState, outcome: Result<seq<Message>, Error>): (t: DashState)
    ensures !t.isProcessingImage && t.(messages := s.messages, isProcessingImage := s.isProcessingImage) == s
    ensures outcome.Success? ==> t.messages == outcome.value
    ensures outcome.Failure? ==> t.messages == s.messages
  {
    s.(messages := if outcome.Success? then outcome.value else s.messages, isProcessingImage := false)
  }

  /** The body of the `try` in `handleImageUpload`: read the file as base64
      (`image`), then transcribe it. */
  function UploadRun(apiKey: Option<string>, image: Result<string, Error>, reply: Result<Option<string>, Error>,
                     decode: string -> Result<seq<Message>, Error>): (run: Run<seq<Message>>)
    ensures image.Failure? ==> run == Run(None, Failure(image.error))
    ensures image.Success? ==> run == ParseChatScreenshot(apiKey, image.value, reply, decode)
  {
    match image
    case Failure(e) => Run(None, Failure(e))
    case Success(data) => ParseChatScreenshot(apiKey, data, reply, decode)
  }

  /** `handleImageUpload`. An upload always clears the response and the
      memories. The messages are replaced by the transcription, with every
      id filled in, only when it succeeds, and are kept otherwise; an
      unreadable file sends nothing. */
  function UploadHandled(s: DashState, apiKey: Option<string>, image: Result<string, Error>,
                         reply: Result<Option<string>, Error>, decode: string -> Result<seq<Message>, Error>): (step: Step)
    ensures step.after == s.(messages := step.after.messages, memories := None, response := None, isProcessingImage := false)
    ensures step.sent == (if image.Success? && HasKey(apiKey) then Some(ImageRequest(image.value)) else None)
    ensures if image.Success? && HasKey(apiKey) && reply.Success? && !IsEmptyText(reply.value)
         && decode(reply.value.value).Success?
      then step.after.messages == FillIds(decode(reply.value.value).value)
           && (forall i :: 0 <= i < |step.after.messages| ==> step.after.messages[i].id != "")
      else step.after.messages == s.messages
  {
    var run := UploadRun(apiKey, image, reply, decode);
    var step := Step(run.sent, UploadFinished(UploadStarted(s), run.result));
    if image.Success? && HasKey(apiKey) && reply.Success? && !IsEmptyText(reply.value)
       && decode(reply.value.value).Success?
    then
      FillIdsNonEmpty(decode(reply.value.value).value);
      step
    else
      step
  }

  // ---------------------------------------------------------------------
  // The handlers together

  /** Every handler leaves an idle dashboard idle. */
  lemma HandlersKeepIdle(s: DashState, apiKey: Option<string>, reply: Result<Option<string>, Error>,
                         memoryDecode: string -> Result<MemoryData, Error>,
                         responseDecode: string -> Result<PersonaResponse, Error>,
                         messagesDecode: string -> Result<seq<Message>, Error>,
                         text: string, image: Result<string, Error>, id1: string, time1: string, id2: string, time2: string)
    requires Idle(s)
    ensures Idle(ExtractHandled(s, apiKey, reply, memoryDecode).after)
    ensures Idle(GenerateHandled(s, apiKey, reply, responseDecode).after)
    ensures Idle(SendHandled(s, text, id1, time1, apiKey, reply, id2, time2).after)
    ensures Idle(UploadHandled(s, apiKey, image, reply, messagesDecode).after)
  {
  }

  /** While a handler waits on the model, the control that started it is
      disabled, so the interface cannot start the same handler twice. */
  lemma PendingDisablesTrigger(s: DashState, input: string, userMessage: Message)
    ensures var t := ExtractStarted(s); MemoryPanel.ExtractDisabled(t.memories, t.isExtracting)
    ensures var t := GenerateStarted(s); PersonalityEngine.GenerateDisabled(t.memories.Some?, t.isGenerating)
    ensures var t := SendStarted(s, userMessage);
      ChatColumn.ChatControls(input, t.isSendingMessage, t.isProcessingImage).sendDisabled
      && ChatColumn.ChatControls(input, t.isSendingMessage, t.isProcessingImage).inputDisabled
      && ChatColumn.SendRequest(input, t.isSendingMessage).None?
    ensures var t := UploadStarted(s);
      ChatColumn.ChatControls(input, t.isSendingMessage, t.isProcessingImage).uploadDisabled
      && PersonalityEngine.GenerateDisabled(t.memories.Some?, t.isGenerating)
  {
  }

  /** The gating is per control, not across panels: while a transcription
      is pending, the upload has cleared the memories, so the extract button
      is enabled again and an extraction can start on the conversation the
      transcription is about to replace. */
  lemma UploadLeavesExtractEnabled(s: DashState, input: string)
    requires !s.isExtracting
    ensures var t := UploadStarted(s);
      ChatColumn.ChatControls(input, t.isSendingMessage, t.isProcessingImage).uploadDisabled
      && !MemoryPanel.ExtractDisabled(t.memories, t.isExtracting)
  {
  }

  // ---------------------------------------------------------------------
  // The controller

  /** The dashboard's state, field by field as the source holds it. */
  class App {
    var messages: seq<Message>
    var memories: Option<MemoryData>
    var persona: PersonaType
    var response: Option<PersonaResponse>
    var isExtracting: bool
    var isGenerating: bool
    var isProcessingImage: bool
    var isSendingMessage: bool

    function State(): DashState
      reads this
    {
      DashState(messages, memories, persona, response, isExtracting, isGenerating, isProcessingImage, isSendingMessage)
    }

    /** The sample conversation, no memories or response, the Calm Mentor
        persona, and nothing pending. */
    constructor()
      ensures State() == InitialState()
    {
      messages := SampleConversation();
      memories := None;
      persona := Mentor;
      response := None;
      isExtracting := false;
      isGenerating := false;
      isProcessingImage := false;
      isSendingMessage := false;
    }

    /** `setPersona`, the persona buttons' click handler: only the persona
        changes. */
    method SelectPersona(p: PersonaType)
      modifies this
      ensures State() == old(State()).(persona := p)
    {
      persona := p;
    }

    method BeginExtract()
      modifies this
      ensures State() == ExtractStarted(old(State()))
    {
      isExtracting := true;
    }

    method FinishExtract(outcome: Result<MemoryData, Error>)
      modifies this
      ensures State() == ExtractFinished(old(State()), outcome)
    {
      if outcome.Success? {
        memories := Some(outcome.value);
      }
      isExtracting := false;
    }

    method HandleExtractMemories(apiKey: Option<string>, reply: Result<Option<string>, Error>,
                                 decode: string -> Result<MemoryData, Error>) returns (sent: Option<Request>)
      modifies this
      ensures Step(sent, State()) == ExtractHandled(old(State()), apiKey, reply, decode)
    {
      BeginExtract();
      var run := ExtractMemories(apiKey, messages, reply, decode);
      FinishExtract(run.result);
      sent := run.sent;
    }

    method BeginGenerate()
      modifies this
      ensures State() == GenerateStarted(old(State()))
    {
      isGenerating := true;
    }

    method FinishGenerate(outcome: Result<PersonaResponse, Error>)
      modifies this
      ensures State() == GenerateFinished(old(State()), outcome)
    {
      if outcome.Success? {
        response := Some(outcome.value);
      }
      isGenerating := false;
    }

    method HandleGenerateResponse(apiKey: Option<string>, reply: Result<Option<string>, Error>,
                                  decode: string -> Result<PersonaResponse, Error>) returns (sent: Option<Request>)
      modifies this
      ensures Step(sent, State()) == GenerateHandled(old(State()), apiKey, reply, decode)
    {
      if memories.None? {
        return None;
      }
      BeginGenerate();
      var run := GenerateRun(State(), apiKey, reply, decode);
      FinishGenerate(run.result);
      sent := run.sent;
    }

    method BeginSend(userMessage: Message)
      modifies this
      ensures State() == SendStarted(old(State()), userMessage)
    {
      isSendingMessage := true;
      messages := messages + [userMessage];
    }

    method FinishSend(outcome: Result<string, Error>, replyId: string, replyTime: string)
      modifies this
      ensures State() == SendFinished(old(State()), outcome, replyId, replyTime)
    {
      if outcome.Success? {
        messages := messages + [Message(replyId, Assistant, outcome.value, replyTime)];
      }
      isSendingMessage := false;
    }

    method HandleSendMessage(text: string, userId: string, userTime: string, apiKey: Option<string>,
                             reply: Result<Option<string>, Error>, replyId: string, replyTime: string)
      returns (sent: Option<Request>)
      modifies this
      ensures Step(sent, State()) == SendHandled(old(State()), text, userId, userTime, apiKey, reply, replyId, replyTime)
    {
      var history := messages;
      BeginSend(Message(userId, User, text, userTime));
      var run := ContinueConversation(apiKey, history, text, reply);
      FinishSend(run.result, replyId, replyTime);
      sent := run.sent;
    }

    method BeginUpload()
      modifies this
      ensures State() == UploadStarted(old(State()))
    {
      isProcessingImage := true;
      response := None;
      memories := None;
    }

    method FinishUpload(outcome: Result<seq<Message>, Error>)
      modifies this
      ensures State() == UploadFinished(old(State()), outcome)
    {
      if outcome.Success? {
        messages := outcome.value;
      }
      isProcessingImage := false;
    }

    method HandleImageUpload(apiKey: Option<string>, image: Result<string, Error>,
                             reply: Result<Option<string>, Error>, decode: string -> Result<seq<Message>, Error>)
      returns (sent: Option<Request>)
      modifies this
      ensures Step(sent, State()) == UploadHandled(old(State()), apiKey, image, reply, decode)
    {
      BeginUpload();
      var run := UploadRun(apiKey, image, reply, decode);
      FinishUpload(run.result);
      sent := run.sent;
    }
  }
}
