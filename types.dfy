/** The records shared by the dashboard, its panels and the model service
    (src/types.ts), plus the Option/Result wrappers the model uses for
    absent values and thrown errors. */
module Types {

  /** `T | null` and `T | undefined` in the source. */
  datatype Option<+T> = None | Some(value: T)

  /** A computation that either returns a value or throws an error. */
  datatype Result<+T, +E> = Success(value: T) | Failure(error: E)

  /** The two roles a chat turn may have: `'user' | 'assistant'`. */
  datatype Role = User | Assistant

  /** One chat turn. */
  datatype Message = Message(id: string, role: Role, content: string, timestamp: string)

  /** The three-bucket profile returned by memory extraction. */
  datatype MemoryData = MemoryData(preferences: seq<string>, emotionalPatterns: seq<string>, facts: seq<string>)

  /** The five personas, in the declaration order of the `PersonaType` object. */
  datatype PersonaType = Standard | Mentor | Witty | Therapist | Pirate

  /** The paired replies and the analysis produced by the personality engine. */
  datatype PersonaResponse = PersonaResponse(standardReply: string, personaReply: string, analysis: string)

  /** What a flow or a handler can throw. `Thrown` carries any error raised by
      code outside the model (the network client, the JSON decoder, the file
      reader), which the flows rethrow unchanged. */
  datatype Error =
    | ApiKeyNotFound      // "API Key not found in environment variables"
    | NoResponse          // "No response from Gemini"
    | NoLastMessage       // reading `.content` of the missing last message
    | Thrown(reason: string)

  /** The string value of a role, as it appears in the JSON records. */
  function RoleName(r: Role): string
  {
    match r
    case User => "user"
    case Assistant => "assistant"
  }

  /** The string value of each `PersonaType` member; it is also the text of
      the persona's button. */
  function PersonaName(p: PersonaType): string
  {
    match p
    case Standard => "Standard AI"
    case Mentor => "Calm Mentor"
    case Witty => "Witty Friend"
    case Therapist => "Therapist"
    case Pirate => "Space Pirate"
  }

  /** Distinct personas have distinct string values, so the string-keyed
      description table and the `key={persona}` buttons are well defined. */
  lemma PersonaNameInjective(p: PersonaType, q: PersonaType)
    ensures PersonaName(p) == PersonaName(q) <==> p == q
  {
  }
}
