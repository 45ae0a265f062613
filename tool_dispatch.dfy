/** The tool dispatcher of the task loop (`handleToolCalls`, `parseErrorObject`):
    only the first tool call of a turn is dispatched, and its outcome is
    classified into a message state. JSON parsing and the tool executor are
    collaborators and enter as parameters. */
module ToolDispatch {
  import opened Common
  import opened ChatTypes

  /** A value thrown by `JSON.parse`, by a property access on a missing entry
      or by the tool executor. `ThrownObject` carries the text that
      `JSON.stringify(error, null, 2)` gives for it and its `message` property. */
  datatype Thrown = ThrownString(text: string) | ThrownObject(json: string, message: string) | ThrownOther(text: string)

  /** What `callTool` gives back: a diagnostic string, a result record, or an error it throws. */
  datatype ToolResponse = Diagnostic(text: string) | Result(isError: bool, content: seq<ContentBlock>) | Raised(error: Thrown)

  /** The collaborators of the dispatcher: whether a text parses as JSON, what
      `JSON.parse` throws for one that does not, what the access to a missing
      first entry throws, and the tool executor (called with the tool name and
      the arguments text that parsed). */
  datatype ToolEnv = ToolEnv(
    parses: string -> bool,
    parseFailure: string -> Thrown,
    missingEntryFailure: Thrown,
    callTool: (string, string) -> ToolResponse)

  datatype ToolCallResult = ToolCallResult(content: seq<ContentBlock>, state: MessageState)

  /** `parseErrorObject`: a string as it is, an object as its JSON text, anything else by `toString`. */
  function ParseErrorObject(e: Thrown): string {
    match e
    case ThrownString(s) => s
    case ThrownObject(json, _) => json
    case ThrownOther(text) => text
  }

  /** `(error as Error).message` inside a template string. */
  function MessageText(e: Thrown): string {
    match e
    case ThrownObject(_, message) => message
    case _ => "undefined"
  }

  /** The message reported to the error sink when the tool executor throws. */
  function ToolFailureMessage(e: Thrown): string {
    "工具调用失败: " + MessageText(e)
  }

  /** The first tool call exists and its arguments parse. */
  predicate ArgumentsParse(calls: ToolCallList, env: ToolEnv) {
    |calls| > 0 && calls[0].Some? && env.parses(calls[0].value.arguments)
  }

  /** The executor's answer for the first tool call. */
  function Response(calls: ToolCallList, env: ToolEnv): ToolResponse
    requires ArgumentsParse(calls, env)
  {
    env.callTool(calls[0].value.name, calls[0].value.arguments)
  }

  /** `handleToolCalls`: classify the outcome of dispatching `calls[0]`. */
  function Dispatch(calls: ToolCallList, env: ToolEnv): (r: ToolCallResult)
    ensures r.state == ParseJsonError <==> !ArgumentsParse(calls, env)
    ensures r.state == Success <==> ArgumentsParse(calls, env) && Response(calls, env).Result? && !Response(calls, env).isError
    ensures r.state == ToolCall <==> ArgumentsParse(calls, env) && !(Response(calls, env).Result? && !Response(calls, env).isError)
    ensures ArgumentsParse(calls, env) && Response(calls, env).Result? ==> r.content == Response(calls, env).content
    ensures r.state != ReceiveChunkError
    ensures !(ArgumentsParse(calls, env) && Response(calls, env).Result?) ==> |r.content| == 1 && r.content[0].kind == "error"
    ensures (|calls| == 0 || calls[0].None?) ==> r.content == [ErrorBlock(ParseErrorObject(env.missingEntryFailure))]
    ensures |calls| > 0 && calls[0].Some? && !env.parses(calls[0].value.arguments)
            ==> r.content == [ErrorBlock(ParseErrorObject(env.parseFailure(calls[0].value.arguments)))]
    ensures ArgumentsParse(calls, env) && Response(calls, env).Diagnostic?
            ==> r.content == [ErrorBlock(Response(calls, env).text)]
    ensures ArgumentsParse(calls, env) && Response(calls, env).Raised?
            ==> r.content == [ErrorBlock(ParseErrorObject(Response(calls, env).error))]
  {
    if |calls| == 0 || calls[0].None? then
      ToolCallResult([ErrorBlock(ParseErrorObject(env.missingEntryFailure))], ParseJsonError)
    else if !env.parses(calls[0].value.arguments) then
      ToolCallResult([ErrorBlock(ParseErrorObject(env.parseFailure(calls[0].value.arguments)))], ParseJsonError)
    else
      match Response(calls, env)
      case Diagnostic(text) => ToolCallResult([ErrorBlock(text)], ToolCall)
      case Result(isError, content) => if !isError then ToolCallResult(content, Success) else ToolCallResult(content, ToolCall)
      case Raised(e) => ToolCallResult([ErrorBlock(ParseErrorObject(e))], ToolCall)
  }

  /** The events `handleToolCalls` reports: one error when the executor throws. */
  function DispatchEvents(calls: ToolCallList, env: ToolEnv): (r: seq<LoopEvent>)
    ensures |r| <= 1
    ensures |r| == 1 <==> ArgumentsParse(calls, env) && Response(calls, env).Raised?
    ensures |r| == 1 ==> r[0] == Error(ToolCall, ToolFailureMessage(Response(calls, env).error))
  {
    if ArgumentsParse(calls, env) && Response(calls, env).Raised? then
      [Error(ToolCall, ToolFailureMessage(Response(calls, env).error))]
    else []
  }

  /** A parse failure is decided before the executor is reached: the result
      does not depend on the executor at all. */
  lemma ParseFailureNeverCallsTool(calls: ToolCallList, env: ToolEnv, callTool': (string, string) -> ToolResponse)
    requires !ArgumentsParse(calls, env)
    ensures Dispatch(calls, env) == Dispatch(calls, env.(callTool := callTool'))
    ensures DispatchEvents(calls, env) == [] == DispatchEvents(calls, env.(callTool := callTool'))
  {
  }

  /** Only the first tool call is looked at: the others never change the outcome. */
  lemma OnlyFirstCallDispatched(calls: ToolCallList, others: ToolCallList, env: ToolEnv)
    requires |calls| > 0
    ensures Dispatch([calls[0]] + others, env) == Dispatch(calls, env)
  {
  }
}
