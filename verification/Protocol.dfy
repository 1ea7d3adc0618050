module Options {
  datatype Option<+T> = None | Some(value: T)
}

/** The message and chunk types of the wire layer. */
module Protocol {
  import opened Options
  import opened Canonical

  datatype ToolCall = ToolCall(id: string, kind: string, name: string, arguments: string)

  datatype Message = Message(
    role: string,
    content: string,
    reasoning: string,
    toolCalls: seq<ToolCall>,
    toolCallID: string,
    name: string,
    multi: seq<map<string, Any>>)

  /** An error as its readers tell errors apart: by being a `StreamInterruptedError` or not. */
  datatype Failure = Failure(text: string, interrupted: bool)

  datatype Usage = Usage(prompt: int, completion: int, total: int)

  datatype Chunk =
    | TextChunk(text: string)
    | ReasoningChunk(text: string)
    | StartChunk(call: Option<ToolCall>)
    | CallChunk(call: Option<ToolCall>)
    | UsageChunk(usage: Usage)
    | WarnChunk(text: string)
    | DoneChunk
    | ErrorChunk(error: Option<Failure>)
    | RawChunk(text: string)
}
