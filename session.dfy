/** The `useGeminiAI` hook of project/src/hooks/useGeminiAI.ts: the chat session
    state (`messages`, `isLoading`, `error`), `sendMessage` with its tool loop, and
    `clearMessages`. The two model calls and the tools themselves are parameters. */
module Session {
  import opened Types
  import opened Js
  import opened Tools

  /** One entry of the history handed to `startChat`: a role and its text. */
  datatype HistoryEntry = HistoryEntry(role: Role, text: string)

  /** The first reply of the model: its text and the function calls it asks for
      (none when `functionCalls()` is undefined or empty). */
  datatype Reply = Reply(text: string, functionCalls: seq<ToolCall>)

  /** `{ error }` or `{ result }`, the body of one function response. */
  datatype ResponseBody = ErrorBody(error: string) | ResultBody(result: Value)

  datatype FunctionResponse = FunctionResponse(name: string, response: ResponseBody)

  /** The id (`Date.now()`, as text) and the time (`new Date()`) of one message. */
  datatype Stamp = Stamp(id: string, time: int)

  /** `chat.sendMessage(userInput)` on a chat started with the history. */
  type FirstCall = (seq<HistoryEntry>, string) -> Outcome<Reply>

  /** `availableTools[name](args)` for a tool the registry holds. */
  type Invoker = (ToolName, map<string, Value>) -> Outcome<Value>

  /** `chat.sendMessage(functionResponseParts)` on the chat that already holds the
      history, the user input and the whole first reply; the text of its response. */
  type SecondCall = (seq<HistoryEntry>, string, Reply, seq<FunctionResponse>) -> Outcome<string>

  const UnknownError := "Unknown error"
  const GenericError := "An error occurred"

  // ----------------------------------------------------------------- history

  /** `messages.map(msg => ({ role, parts: [{ text: content }] }))`. */
  function History(messages: seq<Message>): (h: seq<HistoryEntry>)
    ensures |h| == |messages|
    ensures forall i :: 0 <= i < |messages| ==> h[i] == HistoryEntry(messages[i].role, messages[i].content)
  {
    if messages == [] then []
    else [HistoryEntry(messages[0].role, messages[0].content)] + History(messages[1..])
  }

  /** The history of a longer conversation extends the history of its beginning. */
  lemma {:induction false} HistoryAppend(a: seq<Message>, b: seq<Message>)
    ensures History(a + b) == History(a) + History(b)
  {
    if a == [] {
      assert a + b == b;
    } else {
      assert (a + b)[1..] == a[1..] + b;
      HistoryAppend(a[1..], b);
    }
  }

  /** Ids, timestamps, tool calls and tool results never reach the model: messages
      that agree on role and content give the same history. */
  lemma HistoryIgnoresToolData(a: seq<Message>, b: seq<Message>)
    requires |a| == |b|
    requires forall i :: 0 <= i < |a| ==> a[i].role == b[i].role && a[i].content == b[i].content
    ensures History(a) == History(b)
  {
  }

  // -------------------------------------------------------------- the tool loop

  /** What a caught throw becomes: an `Error`'s message, otherwise the fallback. */
  function ErrorText(t: Thrown, fallback: string): string {
    match t
    case ErrorObj(m) => m
    case NonError => fallback
  }

  function NotFound(name: string): string {
    "Tool " + name + " not found"
  }

  /** The tool result one call produces: the tool's value when it returns; `null`
      with the thrown message (or "Unknown error") when it throws; `null` with the
      not-found message when the name is none of the six tools. */
  function Dispatch(call: ToolCall, invoke: Invoker): (r: ToolResult)
    ensures r.name == call.name
    ensures r.error.None? <==> call.name in RegistryKeys && invoke(Lookup(call.name).value, call.args).Done?
    ensures r.error.None? ==> r.result == invoke(Lookup(call.name).value, call.args).value
    ensures r.error.Some? ==> r.result == Null
    ensures call.name !in RegistryKeys ==> r.error == Some(NotFound(call.name))
    ensures call.name in RegistryKeys && invoke(Lookup(call.name).value, call.args).Failed? ==>
      r.error == Some(ErrorText(invoke(Lookup(call.name).value, call.args).thrown, UnknownError))
  {
    match Lookup(call.name)
    case None => ToolResult(call.name, Null, Some(NotFound(call.name)))
    case Some(tool) =>
      match invoke(tool, call.args)
      case Done(v) => ToolResult(call.name, v, None)
      case Failed(t) => ToolResult(call.name, Null, Some(ErrorText(t, UnknownError)))
  }

  /** The results of the whole loop: one per call, in the calls' order, each depending
      on its own call only. */
  function RunTools(calls: seq<ToolCall>, invoke: Invoker): (results: seq<ToolResult>)
    ensures |results| == |calls|
    ensures forall i :: 0 <= i < |calls| ==> results[i] == Dispatch(calls[i], invoke)
  {
    if calls == [] then []
    else [Dispatch(calls[0], invoke)] + RunTools(calls[1..], invoke)
  }

  /** Running two batches of calls one after the other gives the concatenated results:
      an unknown name or a throw in the first batch leaves the second untouched. */
  lemma {:induction false} RunToolsAppend(a: seq<ToolCall>, b: seq<ToolCall>, invoke: Invoker)
    ensures RunTools(a + b, invoke) == RunTools(a, invoke) + RunTools(b, invoke)
  {
    if a == [] {
      assert a + b == b;
    } else {
      assert (a + b)[1..] == a[1..] + b;
      RunToolsAppend(a[1..], b, invoke);
    }
  }

  /** Each result carries the name of its call, and has an error exactly when the
      name is unknown or the tool threw. */
  lemma RunToolsNames(calls: seq<ToolCall>, invoke: Invoker)
    ensures forall i :: 0 <= i < |calls| ==> RunTools(calls, invoke)[i].name == calls[i].name
    ensures forall i :: 0 <= i < |calls| ==>
      (RunTools(calls, invoke)[i].error.Some? <==>
        calls[i].name !in RegistryKeys || invoke(Lookup(calls[i].name).value, calls[i].args).Failed?)
  {
  }

  /** `for (const call of functionCalls) { try { ... } catch { ... } }`: each pass
      pushes exactly one result. */
  method ExecuteCalls(calls: seq<ToolCall>, invoke: Invoker) returns (toolResults: seq<ToolResult>)
    ensures toolResults == RunTools(calls, invoke)
  {
    toolResults := [];
    for k := 0 to |calls|
      invariant |toolResults| == k
      invariant forall i :: 0 <= i < k ==> toolResults[i] == Dispatch(calls[i], invoke)
    {
      var call := calls[k];
      var toolFunction := Lookup(call.name);
      if toolFunction.Some? {
        var outcome := invoke(toolFunction.value, call.args);
        if outcome.Done? {
          toolResults := toolResults + [ToolResult(call.name, outcome.value, None)];
        } else {
          toolResults := toolResults + [ToolResult(call.name, Null, Some(ErrorText(outcome.thrown, UnknownError)))];
        }
      } else {
        toolResults := toolResults + [ToolResult(call.name, Null, Some(NotFound(call.name)))];
      }
    }
  }

  // ------------------------------------------------------- function responses

  /** `result.error ? { error } : { result }`: an empty error message is falsy and is
      sent as a result. */
  function ResponsePart(r: ToolResult): FunctionResponse {
    FunctionResponse(r.name, if Present(r.error) then ErrorBody(r.error.value) else ResultBody(r.result))
  }

  /** One part per result, in order, with the result's name; `{ error }` exactly when
      the result has a non-empty error. */
  function ResponseParts(results: seq<ToolResult>): (parts: seq<FunctionResponse>)
    ensures |parts| == |results|
    ensures forall i :: 0 <= i < |results| ==> parts[i].name == results[i].name
    ensures forall i :: 0 <= i < |results| ==> (parts[i].response.ErrorBody? <==> Present(results[i].error))
    ensures forall i :: 0 <= i < |results| && parts[i].response.ErrorBody? ==>
      Some(parts[i].response.error) == results[i].error
    ensures forall i :: 0 <= i < |results| && parts[i].response.ResultBody? ==>
      parts[i].response.result == results[i].result
  {
    seq(|results|, i requires 0 <= i < |results| => ResponsePart(results[i]))
  }

  /** A call whose tool, if it throws an `Error`, gives it a message. */
  predicate NoEmptyMessage(call: ToolCall, invoke: Invoker) {
    call.name in RegistryKeys ==> invoke(Lookup(call.name).value, call.args) != Failed(ErrorObj(""))
  }

  /** When no tool throws an `Error` with an empty message, the model is told of an
      error for exactly the calls whose result has one, in the calls' order. */
  lemma ErrorPartsMatchErrors(calls: seq<ToolCall>, invoke: Invoker)
    requires forall i :: 0 <= i < |calls| ==> NoEmptyMessage(calls[i], invoke)
    ensures |ResponseParts(RunTools(calls, invoke))| == |calls|
    ensures forall i :: 0 <= i < |calls| ==>
      var part := ResponseParts(RunTools(calls, invoke))[i];
      && part.name == calls[i].name
      && (part.response.ErrorBody? <==> RunTools(calls, invoke)[i].error.Some?)
  {
    var results := RunTools(calls, invoke);
    forall i | 0 <= i < |calls|
      ensures RunTools(calls, invoke)[i].error.Some? ==> Present(RunTools(calls, invoke)[i].error)
    {
      assert results[i] == Dispatch(calls[i], invoke);
      if calls[i].name !in RegistryKeys {
        assert |NotFound(calls[i].name)| > 0;
      }
    }
  }

  // ----------------------------------------------------------- one exchange

  /** How one non-blank `sendMessage` ends: the model message to append, or the
      error to show. */
  datatype TurnResult =
    | Answered(content: string, toolCalls: Option<seq<ToolCall>>, toolResults: Option<seq<ToolResult>>)
    | Errored(message: string)

  /** The exchange after the user message is appended: a first model call; when it
      asks for functions, the tool loop and a second call with the responses. A
      failing model call is caught and shown as its message. */
  function Turn(history: seq<HistoryEntry>, input: string, first: FirstCall, invoke: Invoker, second: SecondCall)
    : TurnResult
  {
    match first(history, input)
    case Failed(t) => Errored(ErrorText(t, GenericError))
    case Done(reply) =>
      if |reply.functionCalls| > 0 then
        var results := RunTools(reply.functionCalls, invoke);
        match second(history, input, reply, ResponseParts(results))
        case Failed(t) => Errored(ErrorText(t, GenericError))
        case Done(text) => Answered(text, Some(reply.functionCalls), Some(results))
      else
        Answered(reply.text, None, None)
  }

  /** A model message records its tool calls and results together: a non-empty list
      of calls and one result per call, with the call's name. */
  predicate WellFormed(m: Message) {
    && (m.toolCalls.Some? <==> m.toolResults.Some?)
    && (m.toolCalls.Some? ==>
          && m.role == Model
          && |m.toolCalls.value| > 0
          && |m.toolResults.value| == |m.toolCalls.value|
          && forall k :: 0 <= k < |m.toolCalls.value| ==> m.toolResults.value[k].name == m.toolCalls.value[k].name)
  }

  /** The exchange fails exactly when a model call that is made fails, and then shows
      that call's message. */
  lemma TurnErrors(history: seq<HistoryEntry>, input: string, first: FirstCall, invoke: Invoker, second: SecondCall)
    ensures var t := Turn(history, input, first, invoke, second);
      t.Errored? <==>
        || first(history, input).Failed?
        || (&& first(history, input).Done?
            && var reply := first(history, input).value;
               && |reply.functionCalls| > 0
               && second(history, input, reply, ResponseParts(RunTools(reply.functionCalls, invoke))).Failed?)
    ensures first(history, input).Failed? ==>
      Turn(history, input, first, invoke, second) == Errored(ErrorText(first(history, input).thrown, GenericError))
  {
  }

  /** A reply without function calls is answered with its own text; no tool runs and
      the message carries no tool data. */
  lemma TurnTextPath(history: seq<HistoryEntry>, input: string, first: FirstCall, invoke: Invoker, second: SecondCall)
    requires first(history, input).Done? && first(history, input).value.functionCalls == []
    ensures Turn(history, input, first, invoke, second) == Answered(first(history, input).value.text, None, None)
  {
  }

  /** A reply with function calls, answered by the second call, records the calls and
      one result per call, in order and by name, and shows the second call's text. */
  lemma TurnToolPath(history: seq<HistoryEntry>, input: string, first: FirstCall, invoke: Invoker, second: SecondCall)
    requires first(history, input).Done?
    requires var reply := first(history, input).value;
      |reply.functionCalls| > 0 && second(history, input, reply, ResponseParts(RunTools(reply.functionCalls, invoke))).Done?
    ensures var t := Turn(history, input, first, invoke, second);
      var calls := first(history, input).value.functionCalls;
      && t.Answered?
      && t.content == second(history, input, first(history, input).value, ResponseParts(RunTools(calls, invoke))).value
      && t.toolCalls == Some(calls)
      && t.toolResults == Some(RunTools(calls, invoke))
      && |t.toolResults.value| == |calls|
      && WellFormed(Message("", Model, t.content, 0, t.toolCalls, t.toolResults))
  {
    RunToolsNames(first(history, input).value.functionCalls, invoke);
  }

  /** Every message an exchange appends is well formed. */
  lemma TurnWellFormed(history: seq<HistoryEntry>, input: string, first: FirstCall, invoke: Invoker, second: SecondCall,
                       stamp: Stamp)
    ensures match Turn(history, input, first, invoke, second)
      case Answered(content, calls, results) => WellFormed(Message(stamp.id, Model, content, stamp.time, calls, results))
      case Errored(_) => true
  {
    if first(history, input).Done? && |first(history, input).value.functionCalls| > 0 {
      RunToolsNames(first(history, input).value.functionCalls, invoke);
    }
  }

  // ------------------------------------------------------------ the prototype

  /** The loop body as written: `availableTools[call.name]` also finds the members
      every object inherits, and calling one of them runs `inherited`. */
  function DispatchAsWritten(call: ToolCall, invoke: Invoker, inherited: (string, map<string, Value>) -> Outcome<Value>)
    : (r: ToolResult)
    ensures call.name !in ObjectPrototypeMembers ==> r == Dispatch(call, invoke)
    ensures call.name in ObjectPrototypeMembers ==> (r.error.None? <==> inherited(call.name, call.args).Done?)
  {
    match PropertyLookup(call.name)
    case Missing => ToolResult(call.name, Null, Some(NotFound(call.name)))
    case OwnTool(tool) =>
      (match invoke(tool, call.args)
       case Done(v) => ToolResult(call.name, v, None)
       case Failed(t) => ToolResult(call.name, Null, Some(ErrorText(t, UnknownError))))
    case Inherited(member) =>
      match inherited(member, call.args)
      case Done(v) => ToolResult(call.name, v, None)
      case Failed(t) => ToolResult(call.name, Null, Some(ErrorText(t, UnknownError)))
  }

  /** A call named "toString" runs `Object.prototype.toString` (in strict code,
      with `this` undefined, it returns "[object Undefined]"), so the model is told
      of a successful tool call instead of "Tool toString not found". */
  lemma PrototypeNameSkipsNotFound(args: map<string, Value>, invoke: Invoker,
                                   inherited: (string, map<string, Value>) -> Outcome<Value>)
    requires inherited("toString", args) == Done(Str("[object Undefined]"))
    ensures DispatchAsWritten(ToolCall("toString", args), invoke, inherited)
         == ToolResult("toString", Str("[object Undefined]"), None)
    ensures Dispatch(ToolCall("toString", args), invoke)
         == ToolResult("toString", Null, Some("Tool toString not found"))
  {
    assert "toString" in ObjectPrototypeMembers;
    assert "toString" !in RegistryKeys;
    assert NotFound("toString") == "Tool toString not found";
  }

  // ---------------------------------------------------------------- the hook

  class ChatSession {
    var messages: seq<Message>
    var isLoading: bool
    var error: Option<string>

    /** Every message in the conversation is well formed. */
    predicate Valid()
      reads this
    {
      forall i :: 0 <= i < |messages| ==> WellFormed(messages[i])
    }

    /** The hook's initial state: no messages, not loading, no error. */
    constructor ()
      ensures messages == [] && !isLoading && error == None
      ensures Valid()
    {
      messages := [];
      isLoading := false;
      error := None;
    }

    /** `sendMessage(userInput)`. A blank input changes nothing. Otherwise the user
        message is appended, the model sees the earlier messages only, and the
        exchange ends either with one model message appended and no error, or with
        the error shown and nothing more appended; loading is over on every path. */
    method SendMessage(userInput: string, userStamp: Stamp, modelStamp: Stamp,
                       first: FirstCall, invoke: Invoker, second: SecondCall)
      requires Valid()
      modifies this
      ensures Valid()
      ensures IsBlank(userInput) ==>
        messages == old(messages) && isLoading == old(isLoading) && error == old(error)
      ensures !IsBlank(userInput) ==>
        && !isLoading
        && var user := Message(userStamp.id, User, userInput, userStamp.time, None, None);
           match Turn(History(old(messages)), userInput, first, invoke, second)
           case Answered(content, calls, results) =>
             && messages == old(messages) + [user, Message(modelStamp.id, Model, content, modelStamp.time, calls, results)]
             && error == None
           case Errored(m) =>
             && messages == old(messages) + [user]
             && error == Some(m)
    {
      TrimEmptyIffBlank(userInput);
      if Trim(userInput) == [] {
        return;
      }
      isLoading := true;
      error := None;
      var userMessage := Message(userStamp.id, User, userInput, userStamp.time, None, None);
      var history := History(messages);
      messages := messages + [userMessage];
      TurnWellFormed(history, userInput, first, invoke, second, modelStamp);
      var result := first(history, userInput);
      if result.Failed? {
        error := Some(ErrorText(result.thrown, GenericError));
      } else {
        var functionCalls := result.value.functionCalls;
        if |functionCalls| > 0 {
          var toolResults := ExecuteCalls(functionCalls, invoke);
          var functionResponseParts := ResponseParts(toolResults);
          var followUpResult := second(history, userInput, result.value, functionResponseParts);
          if followUpResult.Failed? {
            error := Some(ErrorText(followUpResult.thrown, GenericError));
          } else {
            var aiMessage := Message(modelStamp.id, Model, followUpResult.value, modelStamp.time,
                                     Some(functionCalls), Some(toolResults));
            messages := messages + [aiMessage];
          }
        } else {
          var aiMessage := Message(modelStamp.id, Model, result.value.text, modelStamp.time, None, None);
          messages := messages + [aiMessage];
        }
      }
      isLoading := false;
    }

    /** `clearMessages()`: whatever came before, no messages and no error; loading is
        left as it was. Clearing twice is clearing once. */
    method ClearMessages()
      modifies this
      ensures messages == [] && error == None && isLoading == old(isLoading)
      ensures Valid()
    {
      messages := [];
      error := None;
    }
  }
}
