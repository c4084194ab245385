/** The values that travel through the chat hook and the tools: the shapes of
    project/src/types/index.ts, plus the JavaScript values the source types as `any`. */
module Types {

  datatype Option<+T> = None | Some(value: T)

  /** A JavaScript value as the model, the tools and the data providers exchange it
      (parsed JSON, plus `undefined`). NaN and the infinities are not values here. */
  datatype Value =
    | Undefined
    | Null
    | Bool(b: bool)
    | Num(n: real)
    | Str(s: string)
    | Arr(items: seq<Value>)
    | Obj(fields: map<string, Value>)

  /** What a `throw` carries: an `Error` object with its message, or any other value. */
  datatype Thrown = ErrorObj(message: string) | NonError

  /** The outcome of a call that may throw (an awaited promise that may reject). */
  datatype Outcome<+T> = Done(value: T) | Failed(thrown: Thrown)

  datatype Role = User | Model

  /** A function call requested by the model: the tool name and its JSON arguments. */
  datatype ToolCall = ToolCall(name: string, args: map<string, Value>)

  /** The outcome of one requested call; `error` is absent when the tool returned. */
  datatype ToolResult = ToolResult(name: string, result: Value, error: Option<string>)

  /** One turn of the conversation. `id` and `timestamp` come from the clock. */
  datatype Message = Message(
    id: string,
    role: Role,
    content: string,
    timestamp: int,
    toolCalls: Option<seq<ToolCall>>,
    toolResults: Option<seq<ToolResult>>)
}
