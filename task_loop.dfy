/** The conversation task loop (class `TaskLoop` of
    renderer/src/components/main-panel/chat/core/task-loop.ts): the request
    builder, the epoch loop that appends to and pops from the transcript, and
    the class whose methods update the streaming buffers in place.

    The behaviour of one epoch and of the whole loop is given by the functions
    `EpochStep` and `RunFrom`; the class methods are proved to follow them,
    and the lemmas at the end state what the loop promises. */
module TaskLoop {
  import opened Common
  import opened ChatTypes
  import opened StreamAggregator
  import opened ToolDispatch

  /** The chat settings the request builder reads (`tabStorage.settings`). */
  datatype Settings = Settings(systemPrompt: string, contextLength: int)

  /** The selected model entry (`llms[llmManager.currentModelIndex]`). */
  datatype LlmConfig = LlmConfig(id: Option<string>, baseUrl: string, userToken: Option<string>, userModel: string)

  /** The request of one exchange (temperature and tool schemas are passed
      through by the source and are not modelled). */
  datatype ChatData = ChatData(id: string, baseUrl: string, apiKey: string, model: string, messages: seq<Message>)

  /** How an exchange with the backend ended: the done event, or the error
      event with its optional message. */
  datatype Ending = Completed | Failed(msg: Option<string>)

  /** One exchange as the loop sees it: the chunks in arrival order, then the end. */
  datatype Exchange = Exchange(chunks: seq<Chunk>, ending: Ending)

  /** Everything the loop reads but does not own: the model entry, the chat
      settings, the backend (which answers a request of a given epoch), the
      tool collaborators, the request ids (`crypto.randomUUID`) and the JSON
      retry budget. */
  datatype Config = Config(
    llm: LlmConfig,
    settings: Settings,
    backend: (nat, ChatData) -> Exchange,
    tools: ToolEnv,
    ids: nat -> string,
    maxRetry: int)

  function ApiKey(llm: LlmConfig): string {
    OrElse(llm.userToken, "")
  }

  function ServerName(llm: LlmConfig): string {
    OrElse(llm.id, "unknown")
  }

  function Max(a: int, b: int): int {
    if a < b then b else a
  }

  // ----- Request builder (`makeChatData`) -----

  /** `messages.slice(-contextLength)`: JavaScript's slice with a start of
      `-contextLength`. */
  function SliceFromEnd(msgs: seq<Message>, contextLength: int): (r: seq<Message>)
    ensures |r| <= |msgs| && r == msgs[|msgs| - |r|..]
    ensures contextLength == 0 || contextLength >= |msgs| ==> r == msgs
    ensures 0 < contextLength <= |msgs| ==> |r| == contextLength
    ensures contextLength < 0 ==> |r| == Max(|msgs| + contextLength, 0)
  {
    var start := -contextLength;
    var k := if start < 0 then Max(|msgs| + start, 0) else if start < |msgs| then start else |msgs|;
    msgs[k..]
  }

  /** The rollback of a blank credential: the last message goes only when it is a user message. */
  function PopTrailingUser(msgs: seq<Message>): (r: seq<Message>)
    ensures |msgs| > 0 && msgs[|msgs| - 1].role == User ==> r + [msgs[|msgs| - 1]] == msgs
    ensures !(|msgs| > 0 && msgs[|msgs| - 1].role == User) ==> r == msgs
  {
    if |msgs| > 0 && msgs[|msgs| - 1].role == User then msgs[..|msgs| - 1] else msgs
  }

  function SystemMessage(prompt: string): Message {
    Message(System, Text(prompt), None, None, None)
  }

  /** The request messages: the system prompt when one is set, then the most
      recent `contextLength` transcript messages. */
  function RequestMessages(settings: Settings, msgs: seq<Message>): (r: seq<Message>)
    ensures settings.systemPrompt != "" ==> |r| >= 1 && r[0] == SystemMessage(settings.systemPrompt)
    ensures settings.systemPrompt != "" ==> r[1..] == SliceFromEnd(msgs, settings.contextLength)
    ensures settings.systemPrompt == "" ==> r == SliceFromEnd(msgs, settings.contextLength)
  {
    (if settings.systemPrompt != "" then [SystemMessage(settings.systemPrompt)] else [])
    + SliceFromEnd(msgs, settings.contextLength)
  }

  /** The value `makeChatData` returns: nothing for a blank credential. */
  function BuildRequest(settings: Settings, msgs: seq<Message>, llm: LlmConfig, id: string): (r: Option<ChatData>)
    ensures r.None? <==> IsBlank(ApiKey(llm))
    ensures r.Some? ==> r.value.messages == RequestMessages(settings, msgs)
    ensures r.Some? ==> r.value.id == id && r.value.apiKey == ApiKey(llm) && r.value.model == llm.userModel
  {
    if IsBlank(ApiKey(llm)) then None
    else Some(ChatData(id, llm.baseUrl, ApiKey(llm), llm.userModel, RequestMessages(settings, msgs)))
  }

  // ----- Messages the loop appends -----

  function UserMessage(text: string, server: string): Message {
    Message(User, Text(text), None, None, Some(ExtraInfo(Success, server, None)))
  }

  function ToolCallRequest(turn: Turn, server: string): Message {
    Message(Assistant, Text(turn.content), Some(turn.toolCalls), None, Some(ExtraInfo(Success, server, None)))
  }

  /** `tool_call_id`: the call's id, or its name when the id is empty or missing. */
  function ToolCallIdOf(call: ToolInvocation): string {
    OrElse(call.id, call.name)
  }

  function ToolResultMessage(call: ToolInvocation, result: ToolCallResult, usage: Option<Usage>, server: string): Message {
    Message(Tool, Blocks(result.content), None, Some(ToolCallIdOf(call)), Some(ExtraInfo(result.state, server, usage)))
  }

  function RetryExhaustedMessage(maxRetry: int, server: string): Message {
    Message(Assistant, Text("解析 JSON 错误，无法继续调用工具 (累计错误次数 " + IntToString(maxRetry) + ")"),
            None, None, Some(ExtraInfo(ParseJsonError, server, None)))
  }

  function FinalAnswer(turn: Turn, server: string): Message {
    Message(Assistant, Text(turn.content), None, None, Some(ExtraInfo(Success, server, turn.usage)))
  }

  // ----- Events of one exchange (`doConversation`) -----

  function ChunkEvents(cs: seq<Chunk>): (r: seq<LoopEvent>)
    ensures |r| == |cs| && forall k :: 0 <= k < |cs| ==> r[k] == ChunkReceived(cs[k])
  {
    if cs == [] then [] else ChunkEvents(cs[..|cs| - 1]) + [ChunkReceived(cs[|cs| - 1])]
  }

  lemma ChunkEventsPrefix(cs: seq<Chunk>, k: nat)
    requires k < |cs|
    ensures ChunkEvents(cs[..k + 1]) == ChunkEvents(cs[..k]) + [ChunkReceived(cs[k])]
  {
    assert cs[..k + 1][..k] == cs[..k];
  }

  const DefaultStreamError := "请求模型服务时发生错误"

  /** The event that ends an exchange: `onDone`, or `onError` with the
      stream's message or the default one. */
  function EndEvent(ending: Ending): LoopEvent {
    match ending
    case Completed => Done
    case Failed(msg) => Error(ReceiveChunkError, OrElse(msg, DefaultStreamError))
  }

  /** The chunks observed, then the end of the exchange. */
  function ExchangeEvents(ex: Exchange): seq<LoopEvent> {
    ChunkEvents(ex.chunks) + [EndEvent(ex.ending)]
  }

  // ----- The epoch loop as a function -----

  /** The state the loop owns: the transcript, the turn-accumulation state,
      the current request id, the events reported so far, the JSON retry
      counter and the number of exchanges made. */
  datatype LoopState = LoopState(
    messages: seq<Message>,
    turn: Turn,
    chatId: string,
    events: seq<LoopEvent>,
    retries: nat,
    exchanges: nat)

  /** The state after one epoch, and whether the loop stops there. */
  datatype Step = Step(state: LoopState, halt: bool)

  /** The branch on the accumulated state after an exchange. */
  function Conclude(st: LoopState, stop: bool, cfg: Config): (r: Step)
    ensures st.messages <= r.state.messages && |r.state.messages| <= |st.messages| + 2
    ensures r.state.exchanges == st.exchanges && st.retries <= r.state.retries <= st.retries + 1
  {
    var server := ServerName(cfg.llm);
    var turn := st.turn;
    if |turn.toolCalls| > 0 then
      var res := Dispatch(turn.toolCalls, cfg.tools);
      var st1 := st.(events := st.events + DispatchEvents(turn.toolCalls, cfg.tools));
      if res.state == ParseJsonError then
        var st2 := st1.(retries := st1.retries + 1);
        if st2.retries >= cfg.maxRetry then
          Step(st2.(messages := st2.messages + [RetryExhaustedMessage(cfg.maxRetry, server)]), true)
        else
          Step(st2, stop)
      else
        var tool := ToolResultMessage(turn.toolCalls[0].value, res, turn.usage, server);
        Step(st1.(messages := st1.messages + [ToolCallRequest(turn, server), tool]), stop)
    else if turn.content != "" then
      Step(st.(messages := st.messages + [FinalAnswer(turn, server)]), true)
    else
      Step(st, true)
  }

  /** One iteration of the `for` loop of `start`. */
  function EpochStep(st: LoopState, i: nat, cfg: Config): (r: Step)
    ensures r.state.exchanges <= st.exchanges + 1 && st.retries <= r.state.retries <= st.retries + 1
    ensures !IsBlank(ApiKey(cfg.llm)) ==> st.messages <= r.state.messages && |r.state.messages| <= |st.messages| + 2
    ensures IsBlank(ApiKey(cfg.llm)) ==> r.halt && r.state.exchanges == st.exchanges
  {
    var events := st.events + [EpochStarted];
    match BuildRequest(cfg.settings, st.messages, cfg.llm, cfg.ids(i))
    case None =>
      Step(st.(messages := PopTrailingUser(st.messages), turn := EmptyTurn, events := events + [Done]), true)
    case Some(req) =>
      var ex := cfg.backend(i, req);
      var st1 := st.(turn := Aggregate(EmptyTurn, ex.chunks), chatId := req.id,
                     events := events + ExchangeEvents(ex), exchanges := st.exchanges + 1);
      Conclude(st1, ex.ending.Failed?, cfg)
  }

  /** The loop from epoch `i` on, up to `maxEpochs`. */
  function RunFrom(st: LoopState, i: nat, maxEpochs: int, cfg: Config): LoopState
    decreases maxEpochs - i
  {
    if i >= maxEpochs then st
    else
      var s := EpochStep(st, i, cfg);
      if s.halt then s.state else RunFrom(s.state, i + 1, maxEpochs, cfg)
  }

  /** The state `start` enters its loop with: the user message appended,
      counters at zero. */
  function Initial(msgs: seq<Message>, userMessage: string, turn: Turn, chatId: string,
                   events: seq<LoopEvent>, llm: LlmConfig): LoopState {
    LoopState(msgs + [UserMessage(userMessage, ServerName(llm))], turn, chatId, events, 0, 0)
  }

  // ----- What the loop promises -----

  /** The loop makes at most one exchange per epoch. */
  lemma {:induction false} ExchangesBounded(st: LoopState, i: nat, maxEpochs: int, cfg: Config)
    ensures RunFrom(st, i, maxEpochs, cfg).exchanges <= st.exchanges + Max(maxEpochs - i, 0)
    decreases maxEpochs - i
  {
    if i < maxEpochs {
      var s := EpochStep(st, i, cfg);
      if !s.halt {
        ExchangesBounded(s.state, i + 1, maxEpochs, cfg);
      }
    }
  }

  /** A blank credential stops the loop in its first epoch, before any
      exchange, and takes back a trailing user message. */
  lemma BlankKeyRollback(st: LoopState, i: nat, maxEpochs: int, cfg: Config)
    requires IsBlank(ApiKey(cfg.llm)) && i < maxEpochs
    ensures RunFrom(st, i, maxEpochs, cfg)
         == st.(messages := PopTrailingUser(st.messages), turn := EmptyTurn, events := st.events + [EpochStarted, Done])
  {
    assert BuildRequest(cfg.settings, st.messages, cfg.llm, cfg.ids(i)).None?;
  }

  /** So `start` with a blank credential leaves the transcript as it found it
      (when it runs at least one epoch). */
  lemma StartWithBlankKeyRestoresTranscript(msgs: seq<Message>, userMessage: string, turn: Turn, chatId: string,
                                            events: seq<LoopEvent>, maxEpochs: int, cfg: Config)
    requires IsBlank(ApiKey(cfg.llm)) && 0 < maxEpochs
    ensures RunFrom(Initial(msgs, userMessage, turn, chatId, events, cfg.llm), 0, maxEpochs, cfg).messages == msgs
    ensures RunFrom(Initial(msgs, userMessage, turn, chatId, events, cfg.llm), 0, maxEpochs, cfg).exchanges == 0
  {
    var init := Initial(msgs, userMessage, turn, chatId, events, cfg.llm);
    BlankKeyRollback(init, 0, maxEpochs, cfg);
    assert init.messages[..|init.messages| - 1] == msgs;
  }

  /** With a usable credential the transcript only grows: what was there
      before the loop is still there, in place, after it. */
  lemma {:induction false} TranscriptAppendOnly(st: LoopState, i: nat, maxEpochs: int, cfg: Config)
    requires !IsBlank(ApiKey(cfg.llm))
    ensures st.messages <= RunFrom(st, i, maxEpochs, cfg).messages
    decreases maxEpochs - i
  {
    if i < maxEpochs {
      var s := EpochStep(st, i, cfg);
      if !s.halt {
        TranscriptAppendOnly(s.state, i + 1, maxEpochs, cfg);
      }
    }
  }

  /** The turn an exchange accumulates from an empty start. */
  function TurnOf(ex: Exchange): Turn {
    Aggregate(EmptyTurn, ex.chunks)
  }

  /** An exchange that completes with a first tool call whose arguments parse. */
  predicate WellFormedToolTurn(ex: Exchange, tools: ToolEnv) {
    ex.ending.Completed? && ArgumentsParse(TurnOf(ex).toolCalls, tools)
  }

  /** An exchange that completes with tool calls whose first entry is missing or does not parse. */
  predicate MalformedToolTurn(ex: Exchange, tools: ToolEnv) {
    ex.ending.Completed? && |TurnOf(ex).toolCalls| > 0 && !ArgumentsParse(TurnOf(ex).toolCalls, tools)
  }

  ghost predicate AlwaysWellFormedToolTurns(cfg: Config) {
    forall i: nat, req: ChatData :: WellFormedToolTurn(cfg.backend(i, req), cfg.tools)
  }

  ghost predicate AlwaysMalformedToolTurns(cfg: Config) {
    forall i: nat, req: ChatData :: MalformedToolTurn(cfg.backend(i, req), cfg.tools)
  }

  lemma WellFormedEpoch(st: LoopState, i: nat, cfg: Config)
    requires !IsBlank(ApiKey(cfg.llm)) && AlwaysWellFormedToolTurns(cfg)
    ensures !EpochStep(st, i, cfg).halt
    ensures EpochStep(st, i, cfg).state.exchanges == st.exchanges + 1
    ensures EpochStep(st, i, cfg).state.retries == st.retries
    ensures |EpochStep(st, i, cfg).state.messages| == |st.messages| + 2
  {
    var req := BuildRequest(cfg.settings, st.messages, cfg.llm, cfg.ids(i)).value;
    assert WellFormedToolTurn(cfg.backend(i, req), cfg.tools);
  }

  /** When every turn calls a tool that parses, nothing ends the loop but the
      epoch budget: it makes exactly one exchange per remaining epoch and
      appends a tool-call request and a tool result for each. */
  lemma {:induction false} BudgetTermination(st: LoopState, i: nat, maxEpochs: int, cfg: Config)
    requires !IsBlank(ApiKey(cfg.llm)) && AlwaysWellFormedToolTurns(cfg)
    ensures RunFrom(st, i, maxEpochs, cfg).exchanges == st.exchanges + Max(maxEpochs - i, 0)
    ensures |RunFrom(st, i, maxEpochs, cfg).messages| == |st.messages| + 2 * Max(maxEpochs - i, 0)
    ensures RunFrom(st, i, maxEpochs, cfg).retries == st.retries
    decreases maxEpochs - i
  {
    if i < maxEpochs {
      WellFormedEpoch(st, i, cfg);
      BudgetTermination(EpochStep(st, i, cfg).state, i + 1, maxEpochs, cfg);
    }
  }

  /** The branch after an exchange whose first tool call does not parse. */
  lemma ConcludeMalformed(st: LoopState, stop: bool, cfg: Config)
    requires |st.turn.toolCalls| > 0 && !ArgumentsParse(st.turn.toolCalls, cfg.tools)
    ensures Conclude(st, stop, cfg).halt == (stop || st.retries + 1 >= cfg.maxRetry)
    ensures Conclude(st, stop, cfg).state.exchanges == st.exchanges
    ensures Conclude(st, stop, cfg).state.retries == st.retries + 1
    ensures st.retries + 1 >= cfg.maxRetry ==>
      Conclude(st, stop, cfg).state.messages == st.messages + [RetryExhaustedMessage(cfg.maxRetry, ServerName(cfg.llm))]
    ensures st.retries + 1 < cfg.maxRetry ==> Conclude(st, stop, cfg).state.messages == st.messages
  {
    assert Dispatch(st.turn.toolCalls, cfg.tools).state == ParseJsonError;
  }

  /** The branch after an exchange whose first tool call parses. */
  lemma ConcludeWellFormed(st: LoopState, stop: bool, cfg: Config)
    requires ArgumentsParse(st.turn.toolCalls, cfg.tools)
    ensures var server := ServerName(cfg.llm);
      var res := Dispatch(st.turn.toolCalls, cfg.tools);
      Conclude(st, stop, cfg)
      == Step(st.(events := st.events + DispatchEvents(st.turn.toolCalls, cfg.tools),
                  messages := st.messages + [ToolCallRequest(st.turn, server),
                                             ToolResultMessage(st.turn.toolCalls[0].value, res, st.turn.usage, server)]),
              stop)
  {
  }

  /** A turn with text and no tool call records the answer and ends the loop. */
  lemma ConcludeAnswer(st: LoopState, stop: bool, cfg: Config)
    requires |st.turn.toolCalls| == 0 && st.turn.content != ""
    ensures Conclude(st, stop, cfg)
         == Step(st.(messages := st.messages + [FinalAnswer(st.turn, ServerName(cfg.llm))]), true)
  {
  }

  /** A turn with neither text nor tool calls changes nothing and ends the loop. */
  lemma ConcludeIdle(st: LoopState, stop: bool, cfg: Config)
    requires |st.turn.toolCalls| == 0 && st.turn.content == ""
    ensures Conclude(st, stop, cfg) == Step(st, true)
  {
  }

  /** An epoch whose request is built concludes from the exchange the request gets back. */
  lemma EpochWithRequest(st: LoopState, i: nat, cfg: Config, req: ChatData, ex: Exchange, st1: LoopState)
    requires BuildRequest(cfg.settings, st.messages, cfg.llm, cfg.ids(i)) == Some(req)
    requires ex == cfg.backend(i, req)
    requires st1 == st.(turn := TurnOf(ex), chatId := req.id,
                        events := st.events + [EpochStarted] + ExchangeEvents(ex), exchanges := st.exchanges + 1)
    ensures EpochStep(st, i, cfg) == Conclude(st1, ex.ending.Failed?, cfg)
  {
    var st1' := st.(turn := Aggregate(EmptyTurn, ex.chunks), chatId := req.id,
                    events := st.events + [EpochStarted] + ExchangeEvents(ex), exchanges := st.exchanges + 1);
    assert st1' == st1;
    assert EpochStep(st, i, cfg) == Conclude(st1', ex.ending.Failed?, cfg);
  }

  /** The same epoch seen from the state after the turn buffers are reset
      and the epoch is announced. */
  lemma EpochAfterReset(st: LoopState, st0: LoopState, i: nat, cfg: Config, req: ChatData, ex: Exchange)
    requires BuildRequest(cfg.settings, st.messages, cfg.llm, cfg.ids(i)) == Some(req)
    requires ex == cfg.backend(i, req)
    requires st0 == st.(turn := EmptyTurn, events := st.events + [EpochStarted])
    ensures EpochStep(st, i, cfg)
         == Conclude(st0.(turn := TurnOf(ex), chatId := req.id, events := st0.events + ExchangeEvents(ex),
                          exchanges := st0.exchanges + 1), ex.ending.Failed?, cfg)
  {
    var st1 := st.(turn := TurnOf(ex), chatId := req.id,
                   events := st.events + [EpochStarted] + ExchangeEvents(ex), exchanges := st.exchanges + 1);
    EpochWithRequest(st, i, cfg, req, ex, st1);
  }

  /** An epoch without a request takes back the trailing user message and halts. */
  lemma EpochWithoutRequest(st: LoopState, i: nat, cfg: Config)
    requires BuildRequest(cfg.settings, st.messages, cfg.llm, cfg.ids(i)).None?
    ensures EpochStep(st, i, cfg)
      == Step(st.(messages := PopTrailingUser(st.messages), turn := EmptyTurn,
                  events := st.events + [EpochStarted] + [Done]), true)
  {
  }

  /** An epoch with a request sends it and concludes from the exchange it gets back. */
  lemma ExchangeOf(st: LoopState, i: nat, cfg: Config) returns (st1: LoopState, ex: Exchange)
    requires !IsBlank(ApiKey(cfg.llm))
    ensures ex == cfg.backend(i, BuildRequest(cfg.settings, st.messages, cfg.llm, cfg.ids(i)).value)
    ensures st1.turn == TurnOf(ex) && st1.messages == st.messages
    ensures st1.exchanges == st.exchanges + 1 && st1.retries == st.retries
    ensures EpochStep(st, i, cfg) == Conclude(st1, ex.ending.Failed?, cfg)
  {
    var req := BuildRequest(cfg.settings, st.messages, cfg.llm, cfg.ids(i)).value;
    ex := cfg.backend(i, req);
    st1 := st.(turn := TurnOf(ex), chatId := req.id,
               events := st.events + [EpochStarted] + ExchangeEvents(ex), exchanges := st.exchanges + 1);
    EpochWithRequest(st, i, cfg, req, ex, st1);
  }

  lemma MalformedEpoch(st: LoopState, i: nat, cfg: Config)
    requires !IsBlank(ApiKey(cfg.llm)) && AlwaysMalformedToolTurns(cfg)
    ensures EpochStep(st, i, cfg).halt == (st.retries + 1 >= cfg.maxRetry)
    ensures EpochStep(st, i, cfg).state.exchanges == st.exchanges + 1
    ensures EpochStep(st, i, cfg).state.retries == st.retries + 1
    ensures st.retries + 1 >= cfg.maxRetry ==>
      EpochStep(st, i, cfg).state.messages == st.messages + [RetryExhaustedMessage(cfg.maxRetry, ServerName(cfg.llm))]
    ensures st.retries + 1 < cfg.maxRetry ==> EpochStep(st, i, cfg).state.messages == st.messages
  {
    var st1, ex := ExchangeOf(st, i, cfg);
    assert MalformedToolTurn(ex, cfg.tools);
    ConcludeMalformed(st1, false, cfg);
  }

  /** Malformed tool arguments are retried a bounded number of times: after
      `K = max(maxRetry - retries, 1)` consecutive failures the loop appends
      exactly one terminal message and stops; if the epoch budget runs out
      first, the transcript is left as it was. */
  lemma {:induction false} BoundedRetry(st: LoopState, i: nat, maxEpochs: int, cfg: Config)
    requires !IsBlank(ApiKey(cfg.llm)) && AlwaysMalformedToolTurns(cfg)
    ensures var K := Max(cfg.maxRetry - st.retries, 1);
      var r := RunFrom(st, i, maxEpochs, cfg);
      && (i + K <= maxEpochs ==>
            && r.messages == st.messages + [RetryExhaustedMessage(cfg.maxRetry, ServerName(cfg.llm))]
            && r.exchanges == st.exchanges + K && r.retries == st.retries + K)
      && (i + K > maxEpochs ==>
            && r.messages == st.messages
            && r.exchanges == st.exchanges + Max(maxEpochs - i, 0)
            && r.retries == st.retries + Max(maxEpochs - i, 0))
    decreases maxEpochs - i
  {
    if i < maxEpochs {
      MalformedEpoch(st, i, cfg);
      var s := EpochStep(st, i, cfg);
      if !s.halt {
        BoundedRetry(s.state, i + 1, maxEpochs, cfg);
        assert s.state.messages == st.messages;
      }
    }
  }

  /** The caller's chat tab: its transcript and settings. */
  class ChatStorage {
    var messages: seq<Message>
    var settings: Settings

    constructor (messages: seq<Message>, settings: Settings)
      ensures this.messages == messages && this.settings == settings
    {
      this.messages := messages;
      this.settings := settings;
    }
  }

  class TaskLoop {
    var streamingContent: string
    var streamingToolCalls: ToolCallList
    var completionUsage: Option<Usage>
    var currentChatId: string
    /** What the registered hooks were called with, and the abort notices posted. */
    var events: seq<LoopEvent>
    var maxEpochs: int
    const maxJsonParseRetry: int

    constructor (maxEpochs: int, maxJsonParseRetry: int)
      ensures this.maxEpochs == maxEpochs && this.maxJsonParseRetry == maxJsonParseRetry
      ensures streamingContent == "" && streamingToolCalls == [] && completionUsage.None?
      ensures currentChatId == "" && events == []
    {
      this.maxEpochs := maxEpochs;
      this.maxJsonParseRetry := maxJsonParseRetry;
      streamingContent := "";
      streamingToolCalls := [];
      completionUsage := None;
      currentChatId := "";
      events := [];
    }

    /** The default task options: 20 epochs, 3 JSON retries. */
    constructor Default()
      ensures maxEpochs == 20 && maxJsonParseRetry == 3
      ensures streamingContent == "" && streamingToolCalls == [] && completionUsage.None?
      ensures currentChatId == "" && events == []
    {
      maxEpochs := 20;
      maxJsonParseRetry := 3;
      streamingContent := "";
      streamingToolCalls := [];
      completionUsage := None;
      currentChatId := "";
      events := [];
    }

    method HandleChunkDeltaContent(chunk: Chunk)
      modifies this`streamingContent
      ensures streamingContent == AppendDelta(old(streamingContent), chunk)
    {
      var content := OrElse(chunk.content, "");
      if content != "" {
        streamingContent := streamingContent + content;
      }
    }

    method HandleChunkDeltaToolCalls(chunk: Chunk)
      modifies this`streamingToolCalls
      ensures streamingToolCalls == MergeToolCalls(old(streamingToolCalls), chunk)
    {
      if |chunk.toolCalls| > 0 {
        var toolCall := chunk.toolCalls[0];
        var currentCall := if toolCall.index < |streamingToolCalls| then streamingToolCalls[toolCall.index] else None;
        if currentCall.None? {
          streamingToolCalls := SetAt(streamingToolCalls, toolCall.index, Seed(toolCall));
        } else {
          var call := currentCall.value;
          if Truthy(toolCall.id) {
            call := call.(id := toolCall.id);
          }
          if Truthy(toolCall.name) {
            call := call.(name := toolCall.name.value);
          }
          if Truthy(toolCall.arguments) {
            call := call.(arguments := call.arguments + toolCall.arguments.value);
          }
          streamingToolCalls := streamingToolCalls[toolCall.index := Some(call)];
        }
      }
    }

    method HandleChunkUsage(chunk: Chunk)
      modifies this`completionUsage
      ensures completionUsage == MergeUsage(old(completionUsage), chunk)
    {
      if chunk.usage.Some? {
        completionUsage := chunk.usage;
      }
    }

    /** The chunk handler registered by `doConversation`: the three buffer
        handlers, then the chunk is observed. */
    method OnChunk(chunk: Chunk)
      modifies this`streamingContent, this`streamingToolCalls, this`completionUsage, this`events
      ensures Turn(streamingContent, streamingToolCalls, completionUsage)
           == ApplyChunk(old(Turn(streamingContent, streamingToolCalls, completionUsage)), chunk)
      ensures events == old(events) + [ChunkReceived(chunk)]
    {
      HandleChunkDeltaContent(chunk);
      HandleChunkDeltaToolCalls(chunk);
      HandleChunkUsage(chunk);
      events := events + [ChunkReceived(chunk)];
    }

    /** One exchange: every chunk goes through the chunk handler; the exchange
        ends with done (`stop` false) or error (`stop` true). */
    method DoConversation(ex: Exchange) returns (stop: bool)
      modifies this`streamingContent, this`streamingToolCalls, this`completionUsage, this`events
      ensures Turn(streamingContent, streamingToolCalls, completionUsage)
           == Aggregate(old(Turn(streamingContent, streamingToolCalls, completionUsage)), ex.chunks)
      ensures events == old(events) + ExchangeEvents(ex)
      ensures stop == ex.ending.Failed?
    {
      ghost var t0 := Turn(streamingContent, streamingToolCalls, completionUsage);
      ghost var e0 := events;
      var k := 0;
      while k < |ex.chunks|
        invariant 0 <= k <= |ex.chunks|
        invariant Turn(streamingContent, streamingToolCalls, completionUsage) == Aggregate(t0, ex.chunks[..k])
        invariant events == e0 + ChunkEvents(ex.chunks[..k])
      {
        OnChunk(ex.chunks[k]);
        AggregatePrefix(t0, ex.chunks, k);
        ChunkEventsPrefix(ex.chunks, k);
        k := k + 1;
      }
      assert ex.chunks[..k] == ex.chunks;
      stop := OnEnd(ex.ending);
      ConcatAssoc(e0, ChunkEvents(ex.chunks), [EndEvent(ex.ending)]);
    }

    /** The `onDone` and `onError` handlers registered by `doConversation`:
        an error ends the loop. */
    method OnEnd(ending: Ending) returns (stop: bool)
      modifies this`events
      ensures events == old(events) + [EndEvent(ending)]
      ensures stop == ending.Failed?
    {
      match ending
      case Completed =>
        events := events + [Done];
        stop := false;
      case Failed(msg) =>
        events := events + [Error(ReceiveChunkError, OrElse(msg, DefaultStreamError))];
        stop := true;
    }

    method HandleToolCalls(toolCalls: ToolCallList, tools: ToolEnv) returns (r: ToolCallResult)
      modifies this`events
      ensures r == Dispatch(toolCalls, tools)
      ensures events == old(events) + DispatchEvents(toolCalls, tools)
    {
      r := Dispatch(toolCalls, tools);
      if ArgumentsParse(toolCalls, tools) && Response(toolCalls, tools).Raised? {
        events := events + [Error(ToolCall, ToolFailureMessage(Response(toolCalls, tools).error))];
      }
    }

    /** `makeChatData`: a blank credential pops a trailing user message and gives no request. */
    method MakeChatData(tab: ChatStorage, llm: LlmConfig, id: string) returns (r: Option<ChatData>)
      modifies tab`messages
      ensures r == BuildRequest(tab.settings, old(tab.messages), llm, id)
      ensures r.Some? ==> tab.messages == old(tab.messages)
      ensures r.None? ==> tab.messages == PopTrailingUser(old(tab.messages))
    {
      var apiKey := OrElse(llm.userToken, "");
      if IsBlank(apiKey) {
        if |tab.messages| > 0 && tab.messages[|tab.messages| - 1].role == User {
          tab.messages := tab.messages[..|tab.messages| - 1];
        }
        return None;
      }
      var userMessages := if tab.settings.systemPrompt != "" then [SystemMessage(tab.settings.systemPrompt)] else [];
      var loadMessages := SliceFromEnd(tab.messages, tab.settings.contextLength);
      userMessages := userMessages + loadMessages;
      r := Some(ChatData(id, llm.baseUrl, apiKey, llm.userModel, userMessages));
    }

    /** `abort`: post a cancellation for the current request and clear the
        text and tool-call buffers (the usage snapshot stays). */
    method Abort()
      modifies this`events, this`streamingContent, this`streamingToolCalls
      ensures events == old(events) + [AbortSent(currentChatId)]
      ensures streamingContent == "" && streamingToolCalls == []
    {
      events := events + [AbortSent(currentChatId)];
      streamingContent := "";
      streamingToolCalls := [];
    }

    method SetMaxEpochs(n: int)
      modifies this`maxEpochs
      ensures maxEpochs == n
    {
      maxEpochs := n;
    }

    /** The branch of `start` on the accumulated turn after an exchange: tool
        calls are dispatched, a plain answer is recorded. `halt` says whether
        the loop breaks (a stream error is passed in as `stop`). */
    method ConcludeExchange(tab: ChatStorage, stop: bool, retries: nat, ghost exchanges: nat,
                            server: string, tools: ToolEnv, ghost cfg: Config)
      returns (halt: bool, retries': nat)
      requires cfg.tools == tools && cfg.maxRetry == maxJsonParseRetry && server == ServerName(cfg.llm)
      modifies tab`messages, this`events
      ensures var s := Conclude(old(LoopState(tab.messages, Turn(streamingContent, streamingToolCalls, completionUsage),
                                              currentChatId, events, retries, exchanges)), stop, cfg);
        && LoopState(tab.messages, Turn(streamingContent, streamingToolCalls, completionUsage),
                     currentChatId, events, retries', exchanges) == s.state
        && halt == s.halt
    {
      retries' := retries;
      halt := true;
      if |streamingToolCalls| > 0 {
        var turn := Turn(streamingContent, streamingToolCalls, completionUsage);
        tab.messages := tab.messages + [ToolCallRequest(turn, server)];
        var toolCallResult := HandleToolCalls(streamingToolCalls, tools);
        if toolCallResult.state == ParseJsonError {
          tab.messages := tab.messages[..|tab.messages| - 1];
          retries' := retries' + 1;
          if retries' >= maxJsonParseRetry {
            tab.messages := tab.messages + [RetryExhaustedMessage(maxJsonParseRetry, server)];
            return;
          }
        } else if toolCallResult.state == Success {
          var toolCall := streamingToolCalls[0].value;
          tab.messages := tab.messages + [ToolResultMessage(toolCall, toolCallResult, completionUsage, server)];
        } else if toolCallResult.state == ToolCall {
          var toolCall := streamingToolCalls[0].value;
          tab.messages := tab.messages + [ToolResultMessage(toolCall, toolCallResult, completionUsage, server)];
        }
      } else if streamingContent != "" {
        var turn := Turn(streamingContent, streamingToolCalls, completionUsage);
        tab.messages := tab.messages + [FinalAnswer(turn, server)];
        return;
      } else {
        return;
      }
      halt := stop;
    }

    /** The start of an epoch: the epoch is announced, the turn buffers are
        reset and the request is built. */
    method BeginEpoch(tab: ChatStorage, llm: LlmConfig, id: string) returns (chatData: Option<ChatData>)
      modifies this`streamingContent, this`streamingToolCalls, this`completionUsage, this`events
      modifies tab`messages
      ensures chatData == BuildRequest(tab.settings, old(tab.messages), llm, id)
      ensures Turn(streamingContent, streamingToolCalls, completionUsage) == EmptyTurn
      ensures events == old(events) + [EpochStarted]
      ensures chatData.Some? ==> tab.messages == old(tab.messages)
      ensures chatData.None? ==> tab.messages == PopTrailingUser(old(tab.messages))
    {
      events := events + [EpochStarted];
      streamingContent := "";
      streamingToolCalls := [];
      completionUsage := None;
      chatData := MakeChatData(tab, llm, id);
    }

    /** One iteration of the epoch loop of `start`. */
    method RunEpoch(tab: ChatStorage, llm: LlmConfig, backend: (nat, ChatData) -> Exchange, tools: ToolEnv,
                    ids: nat -> string, i: nat, retries: nat, ghost exchanges: nat, ghost cfg: Config)
      returns (halt: bool, retries': nat, ghost exchanges': nat)
      requires cfg == Config(llm, tab.settings, backend, tools, ids, maxJsonParseRetry)
      modifies this`streamingContent, this`streamingToolCalls, this`completionUsage, this`currentChatId, this`events
      modifies tab`messages
      ensures var s := EpochStep(old(LoopState(tab.messages, Turn(streamingContent, streamingToolCalls, completionUsage),
                                               currentChatId, events, retries, exchanges)), i, cfg);
        && LoopState(tab.messages, Turn(streamingContent, streamingToolCalls, completionUsage),
                     currentChatId, events, retries', exchanges') == s.state
        && halt == s.halt
    {
      ghost var st := LoopState(tab.messages, Turn(streamingContent, streamingToolCalls, completionUsage),
                                currentChatId, events, retries, exchanges);
      var chatData := BeginEpoch(tab, llm, ids(i));
      if chatData.None? {
        events := events + [Done];
        halt, retries', exchanges' := true, retries, exchanges;
        EpochWithoutRequest(st, i, cfg);
        return;
      }
      var ex := backend(i, chatData.value);
      EpochAfterReset(st, LoopState(tab.messages, Turn(streamingContent, streamingToolCalls, completionUsage),
                                    currentChatId, events, retries, exchanges),
                      i, cfg, chatData.value, ex);
      halt, retries' := Converse(tab, ex, chatData.value.id, retries, exchanges, OrElse(llm.id, "unknown"), tools, cfg);
      exchanges' := exchanges + 1;
    }

    /** The exchange of an epoch whose request is built: the chunks are
        accumulated from an empty turn, then the branch on the turn runs. */
    method Converse(tab: ChatStorage, ex: Exchange, chatId: string, retries: nat, ghost exchanges: nat,
                    server: string, tools: ToolEnv, ghost cfg: Config)
      returns (halt: bool, retries': nat)
      requires cfg.tools == tools && cfg.maxRetry == maxJsonParseRetry && server == ServerName(cfg.llm)
      requires Turn(streamingContent, streamingToolCalls, completionUsage) == EmptyTurn
      modifies this`streamingContent, this`streamingToolCalls, this`completionUsage, this`currentChatId, this`events
      modifies tab`messages
      ensures var st := old(LoopState(tab.messages, Turn(streamingContent, streamingToolCalls, completionUsage),
                                      currentChatId, events, retries, exchanges));
        var s := Conclude(st.(turn := TurnOf(ex), chatId := chatId, events := st.events + ExchangeEvents(ex),
                              exchanges := st.exchanges + 1), ex.ending.Failed?, cfg);
        && LoopState(tab.messages, Turn(streamingContent, streamingToolCalls, completionUsage),
                     currentChatId, events, retries', exchanges + 1) == s.state
        && halt == s.halt
    {
      ghost var st := LoopState(tab.messages, Turn(streamingContent, streamingToolCalls, completionUsage),
                                currentChatId, events, retries, exchanges);
      currentChatId := chatId;
      var stop := DoConversation(ex);
      ghost var st1 := st.(turn := TurnOf(ex), chatId := chatId, events := st.events + ExchangeEvents(ex),
                           exchanges := exchanges + 1);
      assert LoopState(tab.messages, Turn(streamingContent, streamingToolCalls, completionUsage),
                       currentChatId, events, retries, exchanges + 1) == st1;
      halt, retries' := ConcludeExchange(tab, stop, retries, exchanges + 1, server, tools, cfg);
    }

    /** `start`: append the user message, then run up to `maxEpochs` epochs.
        The ghost result counts the exchanges made with the backend. */
    method Start(tab: ChatStorage, userMessage: string, llm: LlmConfig,
                 backend: (nat, ChatData) -> Exchange, tools: ToolEnv, ids: nat -> string)
      returns (ghost exchanges: nat)
      modifies this`streamingContent, this`streamingToolCalls, this`completionUsage, this`currentChatId, this`events
      modifies tab`messages
      ensures
        var cfg := Config(llm, tab.settings, backend, tools, ids, maxJsonParseRetry);
        var init := Initial(old(tab.messages), userMessage, old(Turn(streamingContent, streamingToolCalls, completionUsage)),
                            old(currentChatId), old(events), llm);
        var final := RunFrom(init, 0, maxEpochs, cfg);
        && tab.messages == final.messages && Turn(streamingContent, streamingToolCalls, completionUsage) == final.turn
        && currentChatId == final.chatId && events == final.events && exchanges == final.exchanges
    {
      ghost var cfg := Config(llm, tab.settings, backend, tools, ids, maxJsonParseRetry);
      ghost var init := Initial(tab.messages, userMessage, Turn(streamingContent, streamingToolCalls, completionUsage),
                                currentChatId, events, llm);
      tab.messages := tab.messages + [UserMessage(userMessage, OrElse(llm.id, "unknown"))];
      assert LoopState(tab.messages, Turn(streamingContent, streamingToolCalls, completionUsage),
                       currentChatId, events, 0, 0) == init;
      ghost var final := RunFrom(init, 0, maxEpochs, cfg);
      var retries: nat := 0;
      exchanges := 0;
      var i: nat := 0;
      while i < maxEpochs
        invariant tab.settings == cfg.settings
        invariant RunFrom(LoopState(tab.messages, Turn(streamingContent, streamingToolCalls, completionUsage),
                                    currentChatId, events, retries, exchanges), i, maxEpochs, cfg) == final
      {
        ghost var before := LoopState(tab.messages, Turn(streamingContent, streamingToolCalls, completionUsage),
                                      currentChatId, events, retries, exchanges);
        var halt;
        halt, retries, exchanges := RunEpoch(tab, llm, backend, tools, ids, i, retries, exchanges, cfg);
        ghost var after := LoopState(tab.messages, Turn(streamingContent, streamingToolCalls, completionUsage),
                                     currentChatId, events, retries, exchanges);
        assert EpochStep(before, i, cfg) == Step(after, halt);
        if halt {
          assert after == final;
          break;
        }
        i := i + 1;
      }
      assert LoopState(tab.messages, Turn(streamingContent, streamingToolCalls, completionUsage),
                       currentChatId, events, retries, exchanges) == final;
    }
  }
}
