/** The values that cross the guarded exchange: the caller's request body with its
    conversation messages and system prompt, the flat records the inspection
    service reads, the service's verdicts, and the completion service's response. */
module Types {

  datatype Option<+T> = None | Some(value: T)

  /** Roles of the inspection view. The conversation itself only carries `User`
      and `Assistant`; `System` and `Developer` exist only in the inspection view. */
  datatype Role = System | User | Assistant | Developer

  /** The roles a conversation message may carry. */
  type ChatRole = r: Role | r.User? || r.Assistant? witness User

  datatype Citation = Citation(citedText: string)

  /** The `type` tag of a block that is not a text block ("image", "document",
      "tool_use", "tool_result", "thinking", ...). */
  type OtherTag = k: string | k != "text" witness "image"

  /** A content block of a request message or of a completion response: the block
      whose `type` tag is "text" is `TextBlock`, every other block is `OtherBlock`
      with its tag. */
  datatype Block =
    | TextBlock(text: string, citations: seq<Citation>)
    | OtherBlock(kind: OtherTag)
  {
    /** The block's `type` tag. */
    function Tag(): string
    {
      match this
      case TextBlock(_, _) => "text"
      case OtherBlock(k) => k
    }
  }

  /** A message's content: a plain string, a list of blocks, or nothing. */
  datatype Content = Text(value: string) | Blocks(blocks: seq<Block>) | Absent

  /** One turn of the conversation. */
  datatype Message = Message(role: ChatRole, content: Content)

  /** The optional system prompt: a string or a list, whose elements are taken
      to be strings. */
  datatype SystemPrompt = NoSystem | SystemText(text: string) | SystemLines(lines: seq<string>)

  /** A flat `{role, content}` record of the inspection view. */
  datatype Record = Record(role: Role, content: string)

  /** The `output` object of a verdict: the inspection service's rewritten records. */
  datatype GuardOutput = GuardOutput(messages: seq<Record>)

  /** The `result` of one guard call. */
  datatype Verdict = Verdict(blocked: bool, transformed: bool, output: Option<GuardOutput>)

  /** The request parameters the exchange never looks at (model, token budget, ...). */
  datatype Settings = Settings(model: string, maxTokens: nat)

  /** What a forwarded body's `messages` field holds: the caller's conversation, or,
      after an input transformation, the guard's output object itself. */
  datatype MessageList = Conversation(messages: seq<Message>) | GuardPayload(payload: GuardOutput)

  /** A request body; `M` is the type of its `messages` field. */
  datatype Body<M> = Body(messages: M, system: SystemPrompt, stream: bool, settings: Settings)

  /** The body as the caller builds it. */
  type Request = Body<seq<Message>>

  /** The body handed to the completion service. */
  type Forwarded = Body<MessageList>

  /** A non-streaming completion response. */
  datatype Completion = Completion(id: string, model: string, content: seq<Block>, stopReason: string)
}
