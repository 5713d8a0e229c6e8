/** The model service (src/services/geminiService.ts): the API-key check,
    the four flows that talk to the hosted model, and the local
    transformations around those calls.

    The hosted model is outside the model. Each flow takes what the call
    answered as an input `reply`:
    - `Failure(e)` when the call threw `e`;
    - `Success(None)` when the answer had no text;
    - `Success(Some(t))` when its text was `t`.
    A JSON flow also takes the decoder `decode`, which stands for
    `JSON.parse` followed by the `as` cast. Each flow returns the request it
    handed to the model, if it got that far, together with its outcome. */
module GeminiService {
  import opened Types
  import opened Text
  import opened Constants

  // ---------------------------------------------------------------------
  // Client and flow outcomes

  /** The client `getClient` builds, with the key it was built from. */
  datatype Client = Client(apiKey: string)

  /** `!apiKey` is false: the key is set and is not the empty string. */
  predicate HasKey(apiKey: Option<string>)
  {
    apiKey.Some? && apiKey.value != ""
  }

  /** `getClient`: throws when the key is missing or empty, and otherwise
      builds a client with that key. */
  function GetClient(apiKey: Option<string>): (r: Result<Client, Error>)
    ensures r.Success? <==> HasKey(apiKey)
    ensures r.Failure? ==> r.error == ApiKeyNotFound
    ensures r.Success? ==> r.value.apiKey == apiKey.value
  {
    if HasKey(apiKey) then Success(Client(apiKey.value)) else Failure(ApiKeyNotFound)
  }

  /** `!response.text`: the answer had no text, or its text was empty. */
  predicate IsEmptyText(text: Option<string>)
  {
    text.None? || text.value == ""
  }

  /** Who speaks a turn of the chat history handed to the model. */
  datatype ChatRole = ChatUser | ChatModel

  /** One turn of that history: `{ role, parts: [{ text }] }`. */
  datatype ChatTurn = ChatTurn(role: ChatRole, text: string)

  /** What a flow hands to the hosted model; the prompt wording around
      these values is not modelled. */
  datatype Request =
    | ImageRequest(image: string)
    | LogRequest(log: string)
    | PersonaRequest(lastMessage: string, memories: string, persona: PersonaType, description: string)
    | ChatRequest(history: seq<ChatTurn>, message: string)

  /** One run of a flow: the request it sent, if any, and what it returned
      or threw. */
  datatype Run<T> = Run(sent: Option<Request>, result: Result<T, Error>)

  /** The shared shape of the three JSON flows: check the key, send the
      request, reject an answer without text, decode the text, and rethrow
      whatever went wrong. */
  function JsonFlow<T>(apiKey: Option<string>, request: Request, reply: Result<Option<string>, Error>,
                       decode: string -> Result<T, Error>): (run: Run<T>)
    ensures run.sent.Some? <==> HasKey(apiKey)
    ensures run.sent.Some? ==> run.sent.value == request
    ensures !HasKey(apiKey) ==> run.result == Failure(ApiKeyNotFound)
    ensures HasKey(apiKey) && reply.Failure? ==> run.result == Failure(reply.error)
    ensures HasKey(apiKey) && reply.Success? && IsEmptyText(reply.value) ==> run.result == Failure(NoResponse)
    ensures HasKey(apiKey) && reply.Success? && !IsEmptyText(reply.value) ==> run.result == decode(reply.value.value)
  {
    match GetClient(apiKey)
    case Failure(e) => Run(None, Failure(e))
    case Success(_) =>
      var result :=
        match reply
        case Failure(e) => Failure(e)
        case Success(text) => if IsEmptyText(text) then Failure(NoResponse) else decode(text.value);
      Run(Some(request), result)
  }

  /** Without a key a JSON flow sends nothing, and its outcome does not
      depend on what the model would have answered or on the decoder. */
  lemma JsonFlowKeyFirst<T>(apiKey: Option<string>, request: Request,
                            reply1: Result<Option<string>, Error>, decode1: string -> Result<T, Error>,
                            reply2: Result<Option<string>, Error>, decode2: string -> Result<T, Error>)
    requires !HasKey(apiKey)
    ensures JsonFlow(apiKey, request, reply1, decode1) == JsonFlow(apiKey, request, reply2, decode2)
    ensures JsonFlow(apiKey, request, reply1, decode1).sent == None
  {
  }

  /** An error thrown by the call or the decoder reaches the caller
      unchanged, and a failed flow carries no partial value. */
  lemma JsonFlowRethrows<T>(apiKey: Option<string>, request: Request, reply: Result<Option<string>, Error>,
                            decode: string -> Result<T, Error>)
    requires HasKey(apiKey)
    ensures var r := JsonFlow(apiKey, request, reply, decode).result;
      r.Failure? <==> reply.Failure? || IsEmptyText(reply.value) || decode(reply.value.value).Failure?
    ensures reply.Failure? ==> JsonFlow(apiKey, request, reply, decode).result.error == reply.error
    ensures reply.Success? && !IsEmptyText(reply.value) && decode(reply.value.value).Failure? ==>
      JsonFlow(apiKey, request, reply, decode).result.error == decode(reply.value.value).error
  {
  }

  // ---------------------------------------------------------------------
  // Screenshot transcription

  /** The id given to the transcribed message at `index` when it has none:
      "imported-" followed by the decimal text of the position, which reads
      back as that position. */
  function ImportedId(index: nat): (id: string)
    ensures |id| > 9 && id[..9] == "imported-"
    ensures ParseNat(id[9..]) == Some(index)
  {
    var id := "imported-" + NatToString(index);
    assert id[9..] == NatToString(index);
    ParseNatToString(index);
    id
  }

  /** Distinct positions get distinct fill-in ids. */
  lemma ImportedIdInjective(i: nat, j: nat)
    ensures ImportedId(i) == ImportedId(j) <==> i == j
  {
    if ImportedId(i) == ImportedId(j) {
      assert ImportedId(i)[9..] == NatToString(i);
      assert ImportedId(j)[9..] == NatToString(j);
      NatToStringInjective(i, j);
    }
  }

  /** The id fill-in over the transcribed list: every message keeps its
      role, content and timestamp, and keeps its id unless that id is
      empty, in which case it gets the fill-in id of its position. */
  function FillIds(messages: seq<Message>): (r: seq<Message>)
    ensures |r| == |messages|
    ensures forall i :: 0 <= i < |r| ==>
      r[i].role == messages[i].role && r[i].content == messages[i].content
      && r[i].timestamp == messages[i].timestamp
    ensures forall i :: 0 <= i < |r| ==> messages[i].id != "" ==> r[i].id == messages[i].id
    ensures forall i :: 0 <= i < |r| ==> messages[i].id == "" ==> r[i].id == ImportedId(i)
  {
    seq(|messages|, i requires 0 <= i < |messages| =>
      messages[i].(id := if messages[i].id != "" then messages[i].id else ImportedId(i)))
  }

  /** After the fill-in no id is empty. */
  lemma FillIdsNonEmpty(messages: seq<Message>)
    ensures forall i :: 0 <= i < |messages| ==> FillIds(messages)[i].id != ""
  {
    var r := FillIds(messages);
    forall i | 0 <= i < |messages| ensures r[i].id != "" {
      if messages[i].id == "" {
        assert |ImportedId(i)| > 9;
      }
    }
  }

  /** Filling in a second time changes nothing. */
  lemma FillIdsIdempotent(messages: seq<Message>)
    ensures FillIds(FillIds(messages)) == FillIds(messages)
  {
    var r := FillIds(messages);
    FillIdsNonEmpty(messages);
    assert forall i :: 0 <= i < |r| ==> FillIds(r)[i] == r[i];
  }

  /** The ids the fill-in made up are pairwise distinct. */
  lemma FillIdsImportedDistinct(messages: seq<Message>, i: nat, j: nat)
    requires i < j < |messages|
    requires messages[i].id == "" && messages[j].id == ""
    ensures FillIds(messages)[i].id != FillIds(messages)[j].id
  {
    ImportedIdInjective(i, j);
  }

  /** `parseChatScreenshot`: the JSON flow on the image, with the id fill-in
      applied to a decoded list. */
  function ParseChatScreenshot(apiKey: Option<string>, image: string, reply: Result<Option<string>, Error>,
                               decode: string -> Result<seq<Message>, Error>): (run: Run<seq<Message>>)
    ensures run.sent == (if HasKey(apiKey) then Some(ImageRequest(image)) else None)
    ensures run.result.Success? <==>
      HasKey(apiKey) && reply.Success? && !IsEmptyText(reply.value) && decode(reply.value.value).Success?
    ensures run.result.Success? ==> run.result.value == FillIds(decode(reply.value.value).value)
    ensures !HasKey(apiKey) ==> run.result == Failure(ApiKeyNotFound)
    ensures HasKey(apiKey) && reply.Failure? ==> run.result == Failure(reply.error)
    ensures HasKey(apiKey) && reply.Success? && IsEmptyText(reply.value) ==> run.result == Failure(NoResponse)
    ensures HasKey(apiKey) && reply.Success? && !IsEmptyText(reply.value) && decode(reply.value.value).Failure? ==>
      run.result == Failure(decode(reply.value.value).error)
  {
    var run := JsonFlow(apiKey, ImageRequest(image), reply, decode);
    match run.result
    case Success(messages) => Run(run.sent, Success(FillIds(messages)))
    case Failure(_) => run
  }

  // ---------------------------------------------------------------------
  // Continuing the conversation

  /** The role a history turn is recast to: `model` for the assistant,
      `user` otherwise. */
  function ChatRoleOf(role: Role): (c: ChatRole)
    ensures c == ChatModel <==> role == Assistant
  {
    if role == Assistant then ChatModel else ChatUser
  }

  /** The history handed to the chat: one turn per message, in order, with
      the recast role and the message's content as its text. */
  function RecastHistory(history: seq<Message>): (r: seq<ChatTurn>)
    ensures |r| == |history|
    ensures forall i :: 0 <= i < |r| ==> r[i].role == ChatRoleOf(history[i].role) && r[i].text == history[i].content
  {
    seq(|history|, i requires 0 <= i < |history| => ChatTurn(ChatRoleOf(history[i].role), history[i].content))
  }

  /** The message role a chat role stands for. */
  function RoleOf(c: ChatRole): Role
  {
    if c == ChatModel then Assistant else User
  }

  /** The recast loses nothing but the ids and timestamps: each turn's
      role and text give back the message's role and content. */
  lemma RecastHistoryRecoverable(history: seq<Message>)
    ensures forall i :: 0 <= i < |history| ==>
      RoleOf(RecastHistory(history)[i].role) == history[i].role
      && RecastHistory(history)[i].text == history[i].content
  {
  }

  /** Recasting a longer history recasts the extra messages after the old
      ones. */
  lemma RecastHistoryAppend(history: seq<Message>, more: seq<Message>)
    ensures RecastHistory(history + more) == RecastHistory(history) + RecastHistory(more)
  {
    var l, r := RecastHistory(history + more), RecastHistory(history) + RecastHistory(more);
    forall i | 0 <= i < |l| ensures l[i] == r[i] {
      if i < |history| {
        assert (history + more)[i] == history[i];
      } else {
        assert (history + more)[i] == more[i - |history|];
      }
    }
  }

  /** The reply used when the chat answered without text. */
  function Fallback(): (reply: string)
    ensures |reply| > 0
  {
    "I'm sorry, I couldn't process that."
  }

  /** `result.text || fallback`: the answer's text when it has any, the
      fallback otherwise; either way not empty. */
  function ReplyOrFallback(text: Option<string>): (r: string)
    ensures r != ""
    ensures !IsEmptyText(text) ==> r == text.value
    ensures IsEmptyText(text) ==> r == Fallback()
  {
    if IsEmptyText(text) then Fallback() else text.value
  }

  /** `continueConversation`: check the key, send the recast history and the
      new message, and return the reply or the fallback. It has no
      empty-text error of its own, and a thrown call is rethrown. */
  function ContinueConversation(apiKey: Option<string>, history: seq<Message>, newMessage: string,
                                reply: Result<Option<string>, Error>): (run: Run<string>)
    ensures run.sent == (if HasKey(apiKey) then Some(ChatRequest(RecastHistory(history), newMessage)) else None)
    ensures !HasKey(apiKey) ==> run.result == Failure(ApiKeyNotFound)
    ensures HasKey(apiKey) && reply.Failure? ==> run.result == Failure(reply.error)
    ensures HasKey(apiKey) && reply.Success? ==> run.result == Success(ReplyOrFallback(reply.value))
    ensures run.result.Success? ==> run.result.value != ""
  {
    match GetClient(apiKey)
    case Failure(e) => Run(None, Failure(e))
    case Success(_) =>
      var request := ChatRequest(RecastHistory(history), newMessage);
      match reply
      case Failure(e) => Run(Some(request), Failure(e))
      case Success(text) => Run(Some(request), Success(ReplyOrFallback(text)))
  }

  // ---------------------------------------------------------------------
  // Memory extraction

  /** One line of the conversation log: the upper-cased role, a colon and a
      space, then the content. The content ends the line, behind a label
      that is not empty and holds no newline. */
  function LogLine(m: Message): (line: string)
    ensures |line| > |m.content|
    ensures line[|line| - |m.content|..] == m.content
    ensures '\n' !in line[..|line| - |m.content|]
  {
    Upper(RoleName(m.role)) + ": " + m.content
  }

  /** The label that opens the log line of each role. */
  lemma LogLineLabels(m: Message)
    ensures m.role == User ==> LogLine(m) == "USER: " + m.content
    ensures m.role == Assistant ==> LogLine(m) == "ASSISTANT: " + m.content
  {
    var u := Upper(RoleName(m.role));
    if m.role == User {
      assert u == "USER";
    } else {
      assert u == "ASSISTANT";
    }
  }

  /** The log lines, one per message, in order. */
  function LogLines(messages: seq<Message>): (lines: seq<string>)
    ensures |lines| == |messages|
    ensures forall i :: 0 <= i < |messages| ==> lines[i] == LogLine(messages[i])
  {
    seq(|messages|, i requires 0 <= i < |messages| => LogLine(messages[i]))
  }

  /** The conversation log sent for memory extraction: the log lines joined
      by newlines. It is empty exactly when there are no messages, since
      every line starts with a role label. */
  function ConversationLog(messages: seq<Message>): (log: string)
    ensures log == "" <==> |messages| == 0
  {
    var lines := LogLines(messages);
    if |lines| == 0 then Join("\n", lines)
    else
      JoinLength("\n", lines);
      assert |lines[0]| > 0;
      assert TotalLength(lines) > 0;
      Join("\n", lines)
  }

  /** Logging one more message adds its line after a newline. */
  lemma ConversationLogAppend(messages: seq<Message>, m: Message)
    requires |messages| > 0
    ensures ConversationLog(messages + [m]) == ConversationLog(messages) + "\n" + LogLine(m)
  {
    assert LogLines(messages + [m]) == LogLines(messages) + [LogLine(m)];
    JoinAppend("\n", LogLines(messages), LogLine(m));
  }

  /** When no content holds a newline, splitting the log at newlines gives
      back one line per message, in order. */
  lemma ConversationLogSplit(messages: seq<Message>)
    requires |messages| > 0
    requires forall i :: 0 <= i < |messages| ==> '\n' !in messages[i].content
    ensures Split(ConversationLog(messages), '\n') == LogLines(messages)
  {
    var lines := LogLines(messages);
    forall i | 0 <= i < |lines| ensures '\n' !in lines[i] {
      var n := |lines[i]| - |messages[i].content|;
      assert lines[i] == lines[i][..n] + lines[i][n..];
    }
    SplitJoin(lines, '\n');
  }

  /** `extractMemories`: the JSON flow on the conversation log. */
  function ExtractMemories(apiKey: Option<string>, messages: seq<Message>, reply: Result<Option<string>, Error>,
                           decode: string -> Result<MemoryData, Error>): (run: Run<MemoryData>)
    ensures run.sent == (if HasKey(apiKey) then Some(LogRequest(ConversationLog(messages))) else None)
    ensures !HasKey(apiKey) ==> run.result == Failure(ApiKeyNotFound)
    ensures HasKey(apiKey) && reply.Failure? ==> run.result == Failure(reply.error)
    ensures HasKey(apiKey) && reply.Success? && IsEmptyText(reply.value) ==> run.result == Failure(NoResponse)
    ensures HasKey(apiKey) && reply.Success? && !IsEmptyText(reply.value) ==> run.result == decode(reply.value.value)
  {
    JsonFlow(apiKey, LogRequest(ConversationLog(messages)), reply, decode)
  }

  // ---------------------------------------------------------------------
  // Persona response

  /** The memory context of the persona prompt: one line per bucket, each
      bucket's entries joined by ", ". Around the three joins stand 73
      characters of fixed text: the labels, their indentation and the line
      breaks. */
  function MemoriesContext(m: MemoryData): (context: string)
    ensures |context| == |Join(", ", m.preferences)| + |Join(", ", m.emotionalPatterns)| + |Join(", ", m.facts)| + 73
  {
    "\n    USER PREFERENCES: " + Join(", ", m.preferences)
    + "\n    USER EMOTIONAL PATTERNS: " + Join(", ", m.emotionalPatterns)
    + "\n    USER FACTS: " + Join(", ", m.facts)
    + "\n  "
  }

  /** The context reads back, split at newlines, as an empty first line,
      one labelled line per bucket (preferences, emotional patterns, facts,
      each bucket's entries joined by ", ") and the closing indentation,
      provided no entry holds a newline. */
  lemma MemoriesContextLines(m: MemoryData)
    requires forall i :: 0 <= i < |m.preferences| ==> '\n' !in m.preferences[i]
    requires forall i :: 0 <= i < |m.emotionalPatterns| ==> '\n' !in m.emotionalPatterns[i]
    requires forall i :: 0 <= i < |m.facts| ==> '\n' !in m.facts[i]
    ensures Split(MemoriesContext(m), '\n') ==
      [ "",
        "    USER PREFERENCES: " + Join(", ", m.preferences),
        "    USER EMOTIONAL PATTERNS: " + Join(", ", m.emotionalPatterns),
        "    USER FACTS: " + Join(", ", m.facts),
        "  " ]
  {
    var p, e, f := Join(", ", m.preferences), Join(", ", m.emotionalPatterns), Join(", ", m.facts);
    JoinAvoids(", ", m.preferences, '\n');
    JoinAvoids(", ", m.emotionalPatterns, '\n');
    JoinAvoids(", ", m.facts, '\n');
    var lines := ["", "    USER PREFERENCES: " + p, "    USER EMOTIONAL PATTERNS: " + e, "    USER FACTS: " + f, "  "];
    var l1, l2, l3, t := "    USER PREFERENCES: ", "    USER EMOTIONAL PATTERNS: ", "    USER FACTS: ", "  ";
    JoinFive(lines[0], lines[1], lines[2], lines[3], lines[4]);
    ContextLabels();
    Regroup("\n", l1, p, l2, e, l3, f, t);
    assert lines == [lines[0], lines[1], lines[2], lines[3], lines[4]];
    SplitJoin(lines, '\n');
  }

  /** Proof step for MemoriesContextLines: each label of the context is
      a newline followed by the label's line. Kept apart from its caller
      because the solver handles these literals cheaply only on their own. */
  lemma ContextLabels()
    ensures "\n    USER PREFERENCES: " == "\n" + "    USER PREFERENCES: "
    ensures "\n    USER EMOTIONAL PATTERNS: " == "\n" + "    USER EMOTIONAL PATTERNS: "
    ensures "\n    USER FACTS: " == "\n" + "    USER FACTS: "
    ensures "\n  " == "\n" + "  "
  {
  }

  /** Proof step for MemoriesContextLines: moving each newline from the
      front of a label to the end of the line before it, stated on plain
      variables so that the solver does not unfold the literals. */
  lemma Regroup(n: string, l1: string, p: string, l2: string, e: string, l3: string, f: string, t: string)
    ensures (n + l1) + p + (n + l2) + e + (n + l3) + f + (n + t)
         == "" + n + (l1 + p) + n + (l2 + e) + n + (l3 + f) + n + t
  {
  }

  /** Five lines joined by newlines. */
  lemma JoinFive(a: string, b: string, c: string, d: string, e: string)
    ensures Join("\n", [a, b, c, d, e]) == a + "\n" + b + "\n" + c + "\n" + d + "\n" + e
  {
    var de, cde, bcde := [d, e], [c, d, e], [b, c, d, e];
    assert de[1..] == [e] && cde[1..] == de && bcde[1..] == cde && [a, b, c, d, e][1..] == bcde;
    assert Join("\n", de) == d + "\n" + e;
    assert Join("\n", cde) == c + "\n" + (d + "\n" + e);
    assert Join("\n", bcde) == b + "\n" + (c + "\n" + (d + "\n" + e));
  }

  /** A bucket's entries can be read back from its joined text by splitting
      at commas, when no entry holds a comma: the first comes back as it
      was, the others behind the one space the join put in front. */
  lemma BucketRoundTrip(entries: seq<string>)
    requires |entries| > 0
    requires forall i :: 0 <= i < |entries| ==> ',' !in entries[i]
    ensures Split(Join(", ", entries), ',') == [entries[0]] + Padded(" ", entries[1..])
  {
    assert ", " == [','] + " ";
    SplitJoinPadded(entries, ',', " ");
  }

  /** A bucket's joined text grows by one separator and the new entry when
      an entry is added. */
  lemma BucketAppend(entries: seq<string>, e: string)
    requires |entries| > 0
    ensures Join(", ", entries + [e]) == Join(", ", entries) + ", " + e
  {
    JoinAppend(", ", entries, e);
  }

  /** `generatePersonaResponse`: the JSON flow on the last message, the
      memory context, the persona and its description. */
  function GeneratePersonaResponse(apiKey: Option<string>, lastMessage: string, memories: MemoryData,
                                   persona: PersonaType, reply: Result<Option<string>, Error>,
                                   decode: string -> Result<PersonaResponse, Error>): (run: Run<PersonaResponse>)
    ensures run.sent == (if HasKey(apiKey)
      then Some(PersonaRequest(lastMessage, MemoriesContext(memories), persona, PersonaDescription(persona)))
      else None)
    ensures !HasKey(apiKey) ==> run.result == Failure(ApiKeyNotFound)
    ensures HasKey(apiKey) && reply.Failure? ==> run.result == Failure(reply.error)
    ensures HasKey(apiKey) && reply.Success? && IsEmptyText(reply.value) ==> run.result == Failure(NoResponse)
    ensures HasKey(apiKey) && reply.Success? && !IsEmptyText(reply.value) ==> run.result == decode(reply.value.value)
  {
    var request := PersonaRequest(lastMessage, MemoriesContext(memories), persona, PersonaDescription(persona));
    JsonFlow(apiKey, request, reply, decode)
  }
}
