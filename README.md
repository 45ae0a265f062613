# OpenMCP client core in Dafny

This project models the core of the OpenMCP client, a VS Code extension with a
web renderer for talking to MCP servers. The model covers four parts:

- **The conversation task loop** (`TaskLoop` in the renderer). Each epoch
  builds a request from the chat transcript, folds the streamed response
  chunks into a text buffer, a tool-call buffer and a usage snapshot,
  dispatches the first tool call, and appends to or pops from the transcript.
  It stops on a final answer, on empty output, on a stream error, on a blank
  credential, when the JSON retry budget runs out, or when the epoch budget is
  spent.
- **The connection configuration of the extension host** (`src/global.ts`).
  The workspace file stores paths under the `{workspace}` placeholder. Paths
  are expanded on load and collapsed on save. Items are looked up by file
  path. Each update is an upsert at the front of the list. The command scan
  finds the first token that names an existing path.
- **The connection panel** (`connection.ts`). It builds the environment
  record, merges the six preset variables into the environment list or
  filters them out, splits the stdio command line, and records whether the
  connection succeeded.
- **The webview service** (`webview.service.ts`). It builds the launch
  signature a panel reports, picks the default signature for a server file,
  keeps the registry of open panels, and routes a connection update to the
  installed or the workspace configuration.

Files:

- `common.dfy` (`Common`): `Option` and the JavaScript string primitives the
  program relies on: `trim`, `\s`, `split(' ')`, `split(/\s+/)`, `join`,
  `indexOf`, `replace`, `replace(/\\/g, '/')`.
- `chat_types.dfy` (`ChatTypes`): messages, chunks, tool-call deltas, message
  states, loop events.
- `stream_aggregator.dfy` (`StreamAggregator`): the three chunk handlers as
  functions, and what a whole stream folds into.
- `tool_dispatch.dfy` (`ToolDispatch`): `handleToolCalls` and `parseErrorObject`.
- `task_loop.dfy` (`TaskLoop`): the request builder and the epoch loop as
  functions, and the class `TaskLoop`. Its methods update the buffers and the
  transcript in place and are proved to follow those functions. The file also
  holds the loop's guarantees.
- `connection_config.dfy` (`ConnectionConfig`): `src/global.ts`, covering
  placeholder expansion and collapse, lookups, upserts, the command scan, and
  the two cached lists as a class.
- `connection_env.dfy` (`ConnectionEnv`): `connection.ts`, covering `makeEnv`,
  `handleEnvSwitch`, the command split and the connection result.
- `webview_service.dfy` (`WebviewService`): `webview.service.ts`, covering
  launch signatures, the panel registry and update routing.

The class methods are written as the source writes them, with loops and
in-place updates. Each method's `ensures` ties its result or its new state to
a function of its inputs or of the old state. The lemmas state what those
functions promise: the round trips, the bounds, the idempotence and the
merge behaviour.

Collaborators the model cannot see enter as parameters:

- the backend is a function from (epoch, request) to an exchange, which is a
  chunk list plus an ending (done, or error with an optional message);
- the tool executor is a function from (tool name, arguments text) to a
  diagnostic string, a result record or a thrown value;
- `JSON.parse` is a predicate saying whether a text parses, plus the value it
  throws when it does not;
- request ids are a function of the epoch;
- `fspath.isAbsolute`, `fspath.join` and `fs.existsSync` are a path oracle;
- `fspath.relative` is done by the caller (`DefaultLaunchSignature` takes the
  relative path);
- the first workspace folder is an optional string.

Reading the code as written:

- The collapse on save tests the slash-normalised path but replaces in the
  raw one. So a path written with backslashes (`C:\w\a`) is saved absolute
  as `C:/w/a`, not with the placeholder (`CollapseKeepsBackslashPathAbsolute`).
- A stdio item without arguments reports `command + ' '`, and the renderer's
  split turns that into one empty argument (`LaunchSignatureNoArgs`).
- The command scan splits on single spaces. A double space therefore gives an
  empty token, which the scan joins to `cwd`.
- The workspace path is the replacement text of the load's `replace`, so a
  `$&`, `` $` ``, `$'` or `$$` in it is expanded as JavaScript does. In a
  workspace at `$&` a saved path comes back as `{workspace}`
  (`DollarWorkspaceBreaksRoundTrip`).
- With a blank credential and a `maxEpochs` of 0 or less, no epoch runs, so
  the user message `start` appended stays in the transcript.

## Model

| member | source | states |
|---|---|---|
| `Common.OrElse` | renderer/src/components/main-panel/chat/core/task-loop.ts:129 | `a \|\| b` on an optional string is the string when it is present and non-empty, else the fallback |
| `Common.IsBlankAllWhitespace` | renderer/src/components/main-panel/chat/core/task-loop.ts:233 | a credential is blank (`trim() === ''`) exactly when every character is JavaScript whitespace |
| `Common.NormaliseSlashes` | src/global.ts:124 | `replace(/\\/g, '/')` keeps the length and turns every backslash into a slash, leaving every other character in place |
| `Common.NormaliseSlashesIdempotent` | src/global.ts:320 | a normalised path has no backslash, and normalising again changes nothing |
| `Common.IndexOf` | src/global.ts:170 | `indexOf` gives the first position where the pattern occurs, and nothing exactly when it occurs nowhere |
| `Common.ReplaceFirstAtStart` | src/global.ts:124 | `replace` of a pattern the string starts with puts the substitution text of the replacement in front of the rest, and a replacement without `$` is put in as it is |
| `Common.SubstitutionLiteral` | src/global.ts:124 | a replacement without `$` is inserted as it is |
| `Common.SubstitutionOfMatch` | src/global.ts:124 | `$&` in a replacement stands for the matched text |
| `Common.ReplaceFirstAbsent` | src/global.ts:170 | `replace` of a pattern that occurs nowhere leaves the string as it is |
| `Common.JoinSplitOn` | src/global.ts:363 | `split(' ')` loses nothing: joining its pieces with the separator gives the command back |
| `Common.SplitOnPiecesFree` | src/global.ts:363 | no piece of `split(' ')` contains the separator |
| `Common.SplitWhitespace` | renderer/src/views/connect/connection.ts:121 | the pieces of `split(/\s+/g)` hold no whitespace, there is at least one, and only the first and last can be empty |
| `Common.SplitWhitespaceJoin` | src/webview/webview.service.ts:74 | splitting on whitespace undoes a join with single spaces when every token is non-empty and free of whitespace |
| `Common.SplitWhitespaceTrailingSpace` | src/webview/webview.service.ts:74 | a word followed by one space splits into the word and an empty piece |
| `Common.IntToString` | renderer/src/components/main-panel/chat/core/task-loop.ts:378 | the text is a `-` exactly for a negative number, followed by digits only, and those digits read back as the number's magnitude |
| `Common.NatToStringValue` | renderer/src/components/main-panel/chat/core/task-loop.ts:378 | the decimal text of a natural number reads back as that number |
| `Common.IntToStringInjective` | renderer/src/components/main-panel/chat/core/task-loop.ts:378 | different numbers print differently |
| `Common.FirstIndex` | src/global.ts:332-337 | the position found satisfies the test and no earlier one does; nothing is found only when no item satisfies it |
| `StreamAggregator.AppendDelta` | renderer/src/components/main-panel/chat/core/task-loop.ts:128-133 | the text buffer after a chunk is the old buffer followed by the chunk's delta text (nothing for an empty or absent delta) |
| `StreamAggregator.SetAt` | renderer/src/components/main-panel/chat/core/task-loop.ts:143 | assigning past the end of the tool-call array grows it to the index, with holes in between, and changes no other position |
| `StreamAggregator.AggregateContent` | renderer/src/components/main-panel/chat/core/task-loop.ts:128-133 | after a stream the text buffer is its start followed by every chunk's text, in order |
| `StreamAggregator.AggregateUsage` | renderer/src/components/main-panel/chat/core/task-loop.ts:170-175 | the usage snapshot is that of the last chunk carrying usage, and unchanged when none does |
| `StreamAggregator.AggregateToolCallsFrom` | renderer/src/components/main-panel/chat/core/task-loop.ts:135-168 | the tool-call buffer after a stream depends on the starting state only through its tool-call buffer |
| `StreamAggregator.AbortMidStream` | renderer/src/components/main-panel/chat/core/task-loop.ts:274-283 | after an abort in the middle of a stream, the text is only the later chunks' text and the tool calls are those the later chunks assemble; an abort after the last chunk leaves an empty turn |
| `StreamAggregator.AggregatePrefix` | renderer/src/components/main-panel/chat/core/task-loop.ts:180-190 | delivering one more chunk applies the three handlers to the state so far |
| `StreamAggregator.AggregateAppend` | renderer/src/components/main-panel/chat/core/task-loop.ts:180-190 | delivering a stream in two parts gives the same state as delivering it at once |
| `StreamAggregator.AggregateToolCalls` | renderer/src/components/main-panel/chat/core/task-loop.ts:135-168 | position `i` of the buffer holds a call exactly when some chunk's first delta addressed `i`. That call's arguments are the in-order concatenation of its fragments. Its name is the last non-empty one. Its id is the last non-empty one after the first fragment, or the first fragment's own id. Holes never end the buffer |
| `StreamAggregator.AssembledUnique` | renderer/src/components/main-panel/chat/core/task-loop.ts:135-168 | two buffers built from fragments that assemble alike are equal |
| `StreamAggregator.SplitFragmentInvisible` | renderer/src/components/main-panel/chat/core/task-loop.ts:161-163 | splitting one fragment's arguments over two chunks gives the same tool-call buffer |
| `ToolDispatch.Dispatch` | renderer/src/components/main-panel/chat/core/task-loop.ts:47-116 | the state is `ParseJsonError` exactly when entry 0 is missing or its arguments do not parse. It is `Success` exactly when the executor returns a result with `isError` false, and `ToolCall` for every other response. A result's content is passed through. Every other outcome yields one error block, whose text is `parseErrorObject` of what the missing entry or `JSON.parse` threw, the executor's diagnostic string, or `parseErrorObject` of what the executor threw. `ReceiveChunkError` never appears |
| `ToolDispatch.DispatchEvents` | renderer/src/components/main-panel/chat/core/task-loop.ts:101-105 | one error event, carrying the thrown message, is reported exactly when the executor throws |
| `ToolDispatch.ParseFailureNeverCallsTool` | renderer/src/components/main-panel/chat/core/task-loop.ts:58-69 | when the arguments do not parse, the outcome does not depend on the executor, and nothing is reported |
| `ToolDispatch.OnlyFirstCallDispatched` | renderer/src/components/main-panel/chat/core/task-loop.ts:50 | the outcome depends on the first tool call only |
| `TaskLoop.SliceFromEnd` | renderer/src/components/main-panel/chat/core/task-loop.ts:255 | `slice(-contextLength)` is a suffix of the transcript. It is the whole transcript for 0 or for a length at least the transcript's, exactly `contextLength` messages otherwise, and `length + contextLength` (at least 0) messages for a negative length |
| `TaskLoop.PopTrailingUser` | renderer/src/components/main-panel/chat/core/task-loop.ts:235-236 | the last message goes exactly when it is a user message, and the rest stays |
| `TaskLoop.RequestMessages` | renderer/src/components/main-panel/chat/core/task-loop.ts:246-256 | the request starts with the system prompt when one is set, and the rest is the transcript window |
| `TaskLoop.BuildRequest` | renderer/src/components/main-panel/chat/core/task-loop.ts:229-272 | no request exactly for a blank credential. Otherwise the request carries the epoch's id, the credential, the model and the request messages |
| `TaskLoop.Conclude` | renderer/src/components/main-panel/chat/core/task-loop.ts:347-439 | after an exchange the transcript keeps its old contents as a prefix and grows by at most two. The retry counter grows by at most one |
| `TaskLoop.EpochStep` | renderer/src/components/main-panel/chat/core/task-loop.ts:322-440 | an epoch makes at most one exchange and raises the retry counter by at most one. With a usable credential the transcript only grows, by at most two. With a blank one the loop halts without an exchange |
| `TaskLoop.ExchangesBounded` | renderer/src/components/main-panel/chat/core/task-loop.ts:322 | the loop makes at most one exchange per remaining epoch |
| `TaskLoop.BlankKeyRollback` | renderer/src/components/main-panel/chat/core/task-loop.ts:332-337 | a blank credential ends the loop in its first epoch: a trailing user message is taken back, the buffers are reset, and the epoch and done events are reported |
| `TaskLoop.StartWithBlankKeyRestoresTranscript` | renderer/src/components/main-panel/chat/core/task-loop.ts:310-337 | `start` with a blank credential (and at least one epoch) leaves the transcript as it found it, after zero exchanges |
| `TaskLoop.TranscriptAppendOnly` | renderer/src/components/main-panel/chat/core/task-loop.ts:348-433 | with a usable credential the transcript before the loop is a prefix of the transcript after it |
| `TaskLoop.WellFormedEpoch` | renderer/src/components/main-panel/chat/core/task-loop.ts:348-416 | an epoch whose tool call parses continues, makes one exchange, leaves the counter alone and appends two messages |
| `TaskLoop.BudgetTermination` | renderer/src/components/main-panel/chat/core/task-loop.ts:322-416 | when every turn calls a tool that parses, only the epoch budget stops the loop. It then makes exactly one exchange and appends exactly two messages per remaining epoch |
| `TaskLoop.ConcludeMalformed` | renderer/src/components/main-panel/chat/core/task-loop.ts:367-387 | a tool call that does not parse raises the counter by one and leaves the transcript as before the epoch. It halts exactly on a stream error or a spent budget, and only a spent budget appends the one terminal message |
| `TaskLoop.ConcludeWellFormed` | renderer/src/components/main-panel/chat/core/task-loop.ts:348-416 | a tool call that parses appends the assistant message with the calls and then the tool message, and halts exactly on a stream error |
| `TaskLoop.ConcludeAnswer` | renderer/src/components/main-panel/chat/core/task-loop.ts:418-429 | text without tool calls appends one assistant answer and halts |
| `TaskLoop.ConcludeIdle` | renderer/src/components/main-panel/chat/core/task-loop.ts:431-434 | neither text nor tool calls changes nothing and halts |
| `TaskLoop.EpochWithRequest` | renderer/src/components/main-panel/chat/core/task-loop.ts:332-342 | an epoch with a request concludes from the exchange the backend answers that request with |
| `TaskLoop.EpochAfterReset` | renderer/src/components/main-panel/chat/core/task-loop.ts:324-342 | the same epoch, seen from the state after the epoch event and the buffer reset |
| `TaskLoop.EpochWithoutRequest` | renderer/src/components/main-panel/chat/core/task-loop.ts:332-337 | an epoch without a request pops a trailing user message, resets the buffers, reports done and halts |
| `TaskLoop.ExchangeOf` | renderer/src/components/main-panel/chat/core/task-loop.ts:332-342 | with a usable credential an epoch makes one exchange, keeps the transcript and counter until the branch on the turn, and concludes from the accumulated turn |
| `TaskLoop.MalformedEpoch` | renderer/src/components/main-panel/chat/core/task-loop.ts:367-387 | an epoch whose tool call does not parse makes one exchange and raises the counter by one. Reaching the budget appends the terminal message and halts; otherwise the transcript stays as it was |
| `TaskLoop.BoundedRetry` | renderer/src/components/main-panel/chat/core/task-loop.ts:320-387 | with failures in a row, after `max(maxRetry - retries, 1)` epochs the loop appends exactly one terminal message and stops. If the epoch budget runs out first, the transcript is unchanged |
| `TaskLoop.ChatStorage.constructor` | renderer/src/components/main-panel/chat/core/task-loop.ts:308 | a chat tab holds its transcript and settings |
| `TaskLoop.TaskLoop.constructor` | renderer/src/components/main-panel/chat/core/task-loop.ts:35-45 | a new loop has empty buffers, no request id and the given budgets |
| `TaskLoop.TaskLoop.Default` | renderer/src/components/main-panel/chat/core/task-loop.ts:42 | the default budgets are 20 epochs and 3 JSON retries |
| `TaskLoop.TaskLoop.HandleChunkDeltaContent` | renderer/src/components/main-panel/chat/core/task-loop.ts:128-133 | the text buffer becomes `AppendDelta` of the old buffer |
| `TaskLoop.TaskLoop.HandleChunkDeltaToolCalls` | renderer/src/components/main-panel/chat/core/task-loop.ts:135-168 | the in-place merge leaves the buffer as `MergeToolCalls` of the old buffer, whose stream behaviour `AggregateToolCalls` states |
| `TaskLoop.TaskLoop.HandleChunkUsage` | renderer/src/components/main-panel/chat/core/task-loop.ts:170-175 | a chunk with usage replaces the snapshot, and any other chunk leaves it |
| `TaskLoop.TaskLoop.OnChunk` | renderer/src/components/main-panel/chat/core/task-loop.ts:180-190 | the chunk listener applies the three handlers in order and then reports the chunk |
| `TaskLoop.TaskLoop.DoConversation` | renderer/src/components/main-panel/chat/core/task-loop.ts:177-227 | after an exchange the buffers hold the fold of its chunks. Each chunk is reported, then done or the error (with the default message when none came). `stop` is set exactly on an error |
| `TaskLoop.TaskLoop.OnEnd` | renderer/src/components/main-panel/chat/core/task-loop.ts:192-220 | the done and error listeners report the end and set `stop` exactly on an error |
| `TaskLoop.TaskLoop.HandleToolCalls` | renderer/src/components/main-panel/chat/core/task-loop.ts:47-116 | the result is `Dispatch`, and the error event goes out exactly when the executor throws |
| `TaskLoop.TaskLoop.MakeChatData` | renderer/src/components/main-panel/chat/core/task-loop.ts:229-272 | the result is `BuildRequest` of the old transcript. The transcript is untouched when there is a request, and loses a trailing user message when there is not |
| `TaskLoop.TaskLoop.Abort` | renderer/src/components/main-panel/chat/core/task-loop.ts:274-283 | a cancellation for the current request id is posted, and the text and tool-call buffers are emptied |
| `TaskLoop.TaskLoop.SetMaxEpochs` | renderer/src/components/main-panel/chat/core/task-loop.ts:301-303 | the epoch budget becomes the given number |
| `TaskLoop.TaskLoop.BeginEpoch` | renderer/src/components/main-panel/chat/core/task-loop.ts:324-332 | an epoch is announced, the three buffers are reset, and the request is built from the transcript as it was |
| `TaskLoop.TaskLoop.ConcludeExchange` | renderer/src/components/main-panel/chat/core/task-loop.ts:347-439 | the branch on the accumulated turn leaves the transcript, events and counter that `Conclude` gives, and halts when it does |
| `TaskLoop.TaskLoop.Converse` | renderer/src/components/main-panel/chat/core/task-loop.ts:339-439 | an exchange from an empty turn records its id, folds its chunks and concludes as `Conclude` on the accumulated turn |
| `TaskLoop.TaskLoop.RunEpoch` | renderer/src/components/main-panel/chat/core/task-loop.ts:322-440 | one loop iteration changes the transcript, buffers, request id, events, counter and exchange count exactly as `EpochStep`, and breaks when it halts |
| `TaskLoop.TaskLoop.Start` | renderer/src/components/main-panel/chat/core/task-loop.ts:308-441 | `start` appends the user message and then leaves the state that `RunFrom` gives over at most `maxEpochs` epochs, so every lemma about `RunFrom` holds of it |
| `ConnectionConfig.WorkspacePath` | src/global.ts:318-321 | the workspace path has no backslash and is as long as the folder path, or empty without a folder |
| `ConnectionConfig.ExpandPath` | src/global.ts:123-128 | a path that starts with the placeholder gets the substitution text of the workspace path in its place (the workspace path itself when it has no `$`), slashes normalised; any other path is left as it is |
| `ConnectionConfig.CollapsePath` | src/global.ts:169-174 | a path is rewritten only when its normalised form starts with the workspace path. A backslash-free path under a backslash-free workspace becomes the placeholder followed by the rest |
| `ConnectionConfig.ExpandItem` | src/global.ts:122-129 | loading rewrites only `filePath` and an stdio item's `cwd`; name, version, env, command, args, url and oauth are kept |
| `ConnectionConfig.CollapseItem` | src/global.ts:168-175 | saving rewrites only `filePath` and an stdio item's `cwd`, each by `CollapsePath` |
| `ConnectionConfig.ExpandAll` | src/global.ts:122-129 | the loaded list has one expanded item per stored item, in order |
| `ConnectionConfig.CollapseAll` | src/global.ts:168-175 | the saved list has one collapsed item per cached item, in order |
| `ConnectionConfig.ExpandOne` | src/global.ts:123-128 | one pass of the load loop gives `ExpandItem` |
| `ConnectionConfig.CollapseOne` | src/global.ts:169-174 | one pass of the save loop gives `CollapseItem` |
| `ConnectionConfig.ExpandItems` | src/global.ts:121-129 | the load loop gives `ExpandAll` of the list as read |
| `ConnectionConfig.CollapseItems` | src/global.ts:162-175 | the save loop, run on a copy, gives `CollapseAll` of the cached list |
| `ConnectionConfig.PathRoundTrip` | src/global.ts:122-175 | for a backslash-free workspace, a path that is absent, or backslash-free and either under a workspace path without `$` or not starting with the placeholder, comes back from a save and a load unchanged |
| `ConnectionConfig.ItemRoundTrip` | src/global.ts:122-175 | the same for an item's `filePath` and an stdio item's `cwd` |
| `ConnectionConfig.SaveLoadRoundTrip` | src/global.ts:122-175 | a list whose paths all survive gives itself back from a save and a load |
| `ConnectionConfig.CollapseMissesBackslashPath` | src/global.ts:169-170 | a path without forward slashes whose normalised form is under a workspace that has a forward slash is saved normalised but absolute: the placeholder never goes in |
| `ConnectionConfig.CollapseKeepsBackslashPathAbsolute` | src/global.ts:169-170 | `C:\w\a` in workspace `C:/w` is saved as `C:/w/a` |
| `ConnectionConfig.ExpandBarePlaceholder` | src/global.ts:123-125 | the placeholder alone loads as the substitution text of the workspace path, slashes normalised |
| `ConnectionConfig.DollarWorkspaceBreaksRoundTrip` | src/global.ts:122-175 | in a workspace at `$&`, the path `$&` is saved as `{workspace}` and loaded back as `{workspace}`, not as itself |
| `ConnectionConfig.NormaliseConnectionFilePath` | src/global.ts:306-316 | nothing exactly when the item has no file path. A leading placeholder is replaced by the substitution text of the workspace path (the workspace path itself when it has no `$`); in every case the slashes are normalised |
| `ConnectionConfig.NewItem` | src/global.ts:214-243 | the recorded item has the normalised path and the server's name and version. An stdio item keeps the command and arguments, has its `cwd` normalised and keeps the env. An sse item keeps url and oauth and has no env |
| `ConnectionConfig.Upsert` | src/global.ts:199-251 | the new item comes first. Without a match the list grows by one; with one it keeps its length and only the first match is taken out |
| `ConnectionConfig.UpsertThenFind` | src/global.ts:203-230 | the next lookup for the same path finds the new item, at the front |
| `ConnectionConfig.UpsertTwice` | src/global.ts:199-251 | two updates for one path are one update with the later item |
| `ConnectionConfig.UpsertKeepsOthers` | src/global.ts:206-212 | an item that does not match survives an update, after the new item |
| `ConnectionConfig.IndexOfFoundItem` | src/global.ts:207-211 | `indexOf` of the item a lookup returned finds the lookup's own position |
| `ConnectionConfig.NewItemMatches` | src/global.ts:327-358 | both lookups for a non-empty path that does not start with the placeholder find the item recorded under it |
| `ConnectionConfig.FirstValidFrom` | src/global.ts:366-383 | the first token from a position on that is not an option and whose candidate path exists; no earlier token qualifies, and nothing is found only when none qualifies |
| `ConnectionConfig.GetFirstValidPathFromCommand` | src/global.ts:361-386 | the scan returns the candidate path of `FirstValidFrom` over the space-split tokens from 1 on, or nothing |
| `ConnectionConfig.FirstValidPathSkips` | src/global.ts:366-370 | the program name and options are never the answer |
| `ConnectionConfig.ConnectionStore.constructor` | src/global.ts:98-133 | the installed list is cached as read. The workspace list is cached with its placeholders expanded against the normalised workspace path |
| `ConnectionConfig.ConnectionStore.GetWorkspaceConnectionConfigItemByPath` | src/global.ts:327-340 | the first workspace item whose normalised path is the normalised `absPath`, or nothing |
| `ConnectionConfig.ConnectionStore.GetInstalledConnectionConfigItemByPath` | src/global.ts:346-358 | the first installed item whose file path (or `''`), normalised, is the normalised `absPath`, or nothing |
| `ConnectionConfig.ConnectionStore.SaveWorkspaceConnectionConfig` | src/global.ts:156-177 | the file gets the collapsed copy and the cache is not touched. When every path survives, loading the file gives the cache back |
| `ConnectionConfig.ConnectionStore.SaveConnectionConfig` | src/global.ts:146-154 | the installed file gets the cached list as it is |
| `ConnectionConfig.ConnectionStore.Splice` | src/global.ts:208-211 | `splice(index, 1)` takes out that position, and a missing index takes nothing |
| `ConnectionConfig.ConnectionStore.UpdateWorkspaceConnectionConfig` | src/global.ts:199-251 | the cached workspace list becomes the upsert of the new item. The file gets its collapsed copy and the workspace refresh command is issued |
| `ConnectionConfig.ConnectionStore.UpdateInstalledConnectionConfig` | src/global.ts:253-303 | the cached installed list becomes the upsert of the new item. The file gets it as it is and the installed refresh command is issued |
| `ConnectionEnv.EnvOf` | renderer/src/views/connect/connection.ts:49-55 | the record binds exactly the keys of the list |
| `ConnectionEnv.EnvOfLastWins` | renderer/src/views/connect/connection.ts:49-55 | a key is bound to the value of its last occurrence |
| `ConnectionEnv.Missing` | renderer/src/views/connect/connection.ts:339-343 | the rows pushed by the first rounds number at most the rounds, and each carries a preset key |
| `ConnectionEnv.Enabled` | renderer/src/views/connect/connection.ts:332-344 | after the first rounds the old rows keep their keys in place and the pushed rows follow them |
| `ConnectionEnv.Disable` | renderer/src/views/connect/connection.ts:348-349 | the result holds exactly the old rows whose key is not a preset key |
| `ConnectionEnv.EnableMerges` | renderer/src/views/connect/connection.ts:332-344 | every preset key's first row holds its looked-up value. A key the list had keeps its first row's position, and a missing key gets a row after the old rows. Every other row is unchanged |
| `ConnectionEnv.EnableIdempotent` | renderer/src/views/connect/connection.ts:332-344 | enabling twice with the same values is enabling once |
| `ConnectionEnv.DisableIdempotent` | renderer/src/views/connect/connection.ts:346-350 | disabling twice is disabling once |
| `ConnectionEnv.DisableAppend` | renderer/src/views/connect/connection.ts:348 | the filter keeps order: filtering a concatenation filters each part |
| `ConnectionEnv.DisableAfterEnable` | renderer/src/views/connect/connection.ts:323-350 | switching off after switching on gives what switching off alone gives |
| `ConnectionEnv.SplitCommand` | renderer/src/views/connect/connection.ts:121-123 | the command followed by the arguments are the whitespace-split pieces. No piece holds whitespace, no argument but the last is empty, and a command string that starts with a non-space gives a non-empty command |
| `ConnectionEnv.ConnectionEnvState.constructor` | renderer/src/views/connect/connection.ts:43-47 | the environment list starts empty |
| `ConnectionEnv.ConnectionEnvState.MakeEnv` | renderer/src/views/connect/connection.ts:49-55 | the `forEach` builds `EnvOf` of the list |
| `ConnectionEnv.ConnectionEnvState.HandleEnvSwitch` | renderer/src/views/connect/connection.ts:323-351 | switching on merges the looked-up values as `Enable`, and a failed lookup changes nothing. Switching off leaves `Disable` of the list |
| `ConnectionEnv.ConnectionEnvState.MergePresets` | renderer/src/views/connect/connection.ts:332-344 | the loop over the preset keys leaves `Enable` of the list |
| `ConnectionEnv.ConnectionEnvState.SetFirstRow` | renderer/src/views/connect/connection.ts:333-343 | one round sets the first row with the key, or pushes a row |
| `ConnectionEnv.ConnectionResult.constructor` | renderer/src/views/connect/connection.ts:249-263 | the result starts unsuccessful with an empty log |
| `ConnectionEnv.ConnectionResult.RecordConnectReply` | renderer/src/views/connect/connection.ts:135-143 | success is set exactly when the code is 200, and the reply's message is logged as info then, as an error otherwise |
| `WebviewService.LaunchSignatureOf` | src/webview/webview.service.ts:71-81 | an stdio item gives an stdio signature whose command string is the command, a space and the arguments joined by single spaces, with `cwd` defaulting to `''`. An sse item gives its url, with `oauth` defaulting to `''` |
| `WebviewService.LaunchSignatureRoundTrip` | src/webview/webview.service.ts:71-76 | the renderer's split gives back the command and arguments when there is at least one argument and no token is empty or holds whitespace |
| `WebviewService.LaunchSignatureNoArgs` | src/webview/webview.service.ts:74 | without arguments the renderer gets one empty argument back |
| `WebviewService.LaunchSignatureSplitShape` | src/webview/webview.service.ts:74 | the renderer always gets at least one argument, no token with whitespace and no empty argument but the last, so no other command line survives the trip |
| `WebviewService.DefaultOptionRoundTrip` | src/webview/webview.service.ts:31-36 | the default item `mcp run main.py` survives the trip |
| `WebviewService.DefaultLaunchSignature` | src/webview/webview.service.ts:121-135 | a signature exists exactly for a `.py` or `.js` path. `.py` runs under `mcp run`, a `.js` path under `node`, and the path is the last argument |
| `WebviewService.DefaultLaunchSignatureRoundTrip` | src/webview/webview.service.ts:121-135 | a default signature for a non-empty path without whitespace reaches the renderer intact |
| `WebviewService.Panel.constructor` | src/webview/webview.service.ts:44-55 | a panel keeps the key, type and item its handlers captured |
| `WebviewService.PanelRegistry.constructor` | src/global.ts:7 | the registry starts empty |
| `WebviewService.PanelRegistry.Reveal` | src/webview/webview.service.ts:38-55 | a key with a panel gets that panel back and the map is unchanged. Otherwise a new panel for the type and item is registered under the key and nothing else changes. Every panel stays under its own key |
| `WebviewService.PanelRegistry.Dispose` | src/webview/webview.service.ts:110-113 | disposing removes the panel's key and keeps every other |
| `WebviewService.RouteConnectionUpdate` | src/webview/webview.service.ts:95-101 | an installed panel updates the installed list for its key. Any other panel updates the workspace list. The other list and its file are left alone |

## Left out

- Timestamps (`Date.now`) in `extraInfo`, `temperature` and the tool schemas are not modelled. They are passed through without being read.
- The message bridge (listener registration and removal, `postMessage`, `commandRequest`) is not modelled. An exchange is the chunk list and ending the backend answers with; events the hooks receive and the abort notice are recorded in the `events` field.
- `TaskLoop.TaskLoop.Start`: the model runs each exchange in one step, so nothing else can run while `start` waits on it. Two interleavings are not captured. The first is an `abort()` during the wait, which empties the text and tool-call buffers while later chunks keep arriving (`AbortMidStream` states what the buffers then hold). The second is a `setMaxEpochs` during the wait: the loop re-reads the budget on every round, but the model fixes it when `start` begins.
- `TaskLoop.TaskLoop.DoConversation`: the promise and the listener plumbing are not modelled. Exactly one of done or error ends each exchange, after all its chunks.
- The `register*` hook setters are not modelled separately. Every hook call is recorded as an event, whatever the handler does.
- `callTool`, `JSON.parse`, `JSON.stringify` and `crypto.randomUUID` are parameters, so `parseErrorObject`'s object text is whatever the thrown value carries. `console`, `pinkLog`, `redLog` and `ElMessage` are not modelled.
- The end-to-end runs of concrete scripts are not stated as lemmas. The per-epoch outcome lemmas (`ConcludeMalformed`, `ConcludeWellFormed`, `ConcludeAnswer`, `ConcludeIdle`, `EpochWithoutRequest`) and the whole-loop lemmas cover those paths.
- File reading and writing, JSON parsing of the config files, `os.homedir` and the vscode API in `src/global.ts` are not modelled. The cached lists are loaded once, in the `ConnectionStore` constructor, rather than lazily on first use. The files are the lists last written. `executeCommand` is a list of issued commands.
- `ConnectionConfig.ConnectionStore.UpdateWorkspaceConnectionConfig`: `indexOf` compares by reference, which the model reads as value equality. `IndexOfFoundItem` shows both find the lookup's own position.
- `ConnectionConfig.ConnectionStore.constructor`: the workspace path is fixed for the store's lifetime. The source reads the workspace folder again on every call.
- `fspath.isAbsolute`, `fspath.join`, `fs.existsSync` and `fspath.relative` are oracles or done by the caller.
- `doConnect`, `launchStdio` and `launchSSE` are covered only by the command split, the environment record and the success flag. Other effects are not modelled: posting the connection request, `getServerVersion` with `serverInfo`, and the update message sent back.
- `getLaunchSignature` and `lookupEnvVar` are bridge requests and are not modelled. The looked-up values are a parameter, and their log lines are not modelled.
- `ConnectionEnv.ConnectionEnvState.HandleEnvSwitch` requires one looked-up value per preset key. The source reads `values[i]` whatever the answer's length.
- `ConnectionEnv.EnvOf`: JavaScript object-key quirks such as `__proto__` and integer-like keys reordering are not modelled. The record is a map.
- `getWebviewContent` (regex HTML rewrite), the panel's icon and options, the call to `panel.reveal`, and `OpenMCPService.routeMessage` for other commands are not modelled.
- `getLaunchCWD` and `getInstalledConnectionConfigPath`/`getWorkspaceConnectionConfigPath` are not modelled. They are path joins over foreign APIs.
