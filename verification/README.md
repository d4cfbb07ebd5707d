# Verified models of the agent, the triage daemon and its executor

This project models the parts of the repository whose guarantees span several functions, and proves
those guarantees for all inputs, all runs and all reachable states. `dafny verify dfyconfig.toml`
checks everything.

Most components come in three layers. A *specification* gives the effect of each atomic stretch of
code (what runs between two awaits, two system calls or two loop iterations) as a function on values:
`Apply` for one event, `Run` for a sequence of events. A *class* or a *method with a loop* updates the
fields, maps and lists as the program does, and is proved to agree with the specification. *Lemmas*
then state what the program promises about every run. An event that cannot happen in a state leaves
the state unchanged, so a statement about `Run` covers every feasible interleaving. The daemon's retry
round is cut finer than its awaits, so that some of its runs interleave more than the code does;
`Scout.Possible` leaves those out, and the runs given as witnesses meet it.

| files | component |
|---|---|
| `Consolidation`, `ConsolidationSteps`, `ConsolidationLoop`, `ConsolidationRuns` | memory consolidation: background archiving across an await, `/new`, the guard set, the lock, restarts |
| `Messages`, `Conversation`, `Transcript`, `SessionTurns` | the agent loop, the saved turn, the windowed history: what their messages say, and the tool-call linkage through all of them |
| `Providers`, `ProviderContents`, `CodexItems`, `Delivery` | content cleaning, id shortening, Codex conversion: what is sent, and the linkage end to end |
| `Mover`, `MoveOutcomes`, `Executor`, `ExecutorSafety`, `ExecutorServer` | copy, verify and delete under faults; calls that run side by side, one system call at a time |
| `Scout`, `ScoutOutcomes`, `ScoutContents`, `ScoutRetries`, `ScoutDaemon` | the file life cycle with approvals and retries, over those calls |
| `Cron`, `CronTimes`, `CronService` | the scheduler with its store file, timer, crashes and restarts |
| `Debounce`, `WatcherRules`, `Mochat`, `MochatArrivals`, `MochatChannel` | the watcher's debouncing; the dedup window, delayed batches and cursors |
| `SchemaTool`, `SchemaFacts`, `CodexStream`, `CodexAnswers`, `Planner`, `MessageSplit`, `Rules`, `CardSplit` | sequential algorithms with declarative specifications |
| `Prelude`, `Text` | slices, concatenation, stripping, searching |

## Where the code does less than it promises

Each of these is kept as the code has it, with a concrete input or run where the promise fails, and
with the exact condition under which it holds, or the exact bound on how far it is missed.

- Not every message below `last_consolidated` has been archived: the slice is fixed before the await,
  the offset is computed from the length after it (`Consolidation.GapWitness`, exact account in
  `Consolidation.AccountOfEveryRun`).
- The guard set does not keep a second background task from queueing once `/new` has cleared it
  any number of times (`ConsolidationRuns.EveryPileIsReached`); the lock still serialises the bodies,
  and `ConsolidationRuns.TasksArePiledUpByNewOnly` bounds the pile by exactly that.
- A history without a user message in its window can open with an orphaned tool result
  (`SessionTurns.OrphanedHistoryWitness`, `Conversation.HistoryIsLinked`).
- Stripping the runtime context recovers the user's text exactly when the context has no blank line
  (`SessionTurns.BlankLineInChatIdWitness`, `SessionTurns.RuntimeContextIsStripped`).
- Content cleaning wraps a bare block without looking into it, so one pass can leave an empty text
  (`Providers.BareEmptyBlockWitness`, `Providers.CleaningLeavesNoEmptyText`).
- LiteLLM sanitising leaves an empty result id alone but hashes the call's (`Providers.EmptyIdWitness`,
  `Providers.Hashing.SanitizingKeepsLinks`); Codex conversion loses the link of an id that starts with
  a bar (`Providers.LeadingBarWitness`, `Providers.ConversionKeepsLinks`), and an emitted id does not
  split back when the call id has a bar (`CodexStream.BarInCallIdWitness`,
  `CodexStream.EmittedIdSplitsBack`).
- Event framing differs from the standard on bare `data` lines and padded values
  (`CodexStream.BareDataWitness`, `CodexStream.FramingFollowsStandardIff`).
- One move is safe under every other failure exactly when its destination check tells the truth
  (`Mover.LyingCheckWitness`, `Mover.SafeIffCheckIsTruthful`).
- Two calls side by side can lose a file although every check tells the truth and nothing fails: the
  daemon's retry loop and its event handler can send two moves to one target
  (`ScoutContents.SharedTargetLosesContent`). Past their checks two calls are safe exactly when they
  do not share a destination (`ExecutorSafety.SafeIffNoSharedDestination`, and
  `ExecutorSafety.SafeOnceCheckedIff` in terms of the requests); before that, a move from where
  another one moves to is as dangerous (`ExecutorSafety.ChainLosesContent`). Two requests are safe
  from their arrival exactly when neither is the case (`ExecutorSafety.GuardIsExact`), and as long as
  that holds of all unfinished calls, no run loses anything (`ScoutContents.NoContentIsLost`).
- A retry round does not recheck its snapshot, so an event on a waiting path can lead to an action
  that was never approved (`ScoutContents.DisturbedRoundActsUnapproved`), or that was denied
  (`ScoutContents.DeniedFileIsActedOn`); the exact recheck that is missing is `Scout.MayRetry`
  (`Scout.RetryKeepsInvIff`, over runs `Scout.RunKeepsInv`).
- The prompt cap of 50 can drop paths exactly when the usable context reaches 25500
  (`Planner.DroppedPathWitness`, `Planner.CapIsHarmlessIff`).

## Model

| member | source | states |
|---|---|---|
| `Consolidation.StepKeepsInv` | antbot/agent/loop.py:667-718 | every step of the protocol (turns, background tasks, `/new`, cancellation, restart) keeps: offset in range, archived spans and gaps tile the prefix, what a task awaiting the model captured is still where it captured it, one holder of the consolidation lock |
| `Consolidation.RunKeepsInv` | antbot/agent/loop.py:667-718 | the same over every run from the initial state |
| `Consolidation.AccountOfEveryRun` | antbot/agent/memory.py:82-154 | in every reachable state 0 <= last_consolidated <= len(messages); every archived slice is the messages at its positions; archived messages plus gaps add up to the offset; what was archived is exactly the prefix if and only if no turn saved a message during a successful call (the plain promise that everything below the offset is archived is false) |
| `Consolidation.PositionHasOneSpan` | antbot/agent/memory.py:82-154 | a position lies below the offset if and only if it lies in an archived slice or its gap, and then in exactly one |
| `Consolidation.ArchivedLength` | antbot/agent/memory.py:82-154 | the archived length is the offset less the lengths of the gaps, each gap being as long as the number of messages saved while that call was awaited |
| `Consolidation.GapWitness` | antbot/agent/memory.py:92-152 | a run of two turns and one consolidation in which messages 2 and 3 fall below the offset without ever having been handed to the model |
| `Consolidation.OneBodyAtATime` | antbot/agent/loop.py:702-718 | at most one consolidation body runs per session, never beside the archiving of `/new` |
| `Consolidation.FinishMovesOffset` | antbot/agent/memory.py:146-154 | a successful background consolidation strictly advances the offset, leaves exactly memory_window // 2 messages unconsolidated and touches no message; a failed one changes nothing |
| `Consolidation.NewArchivesTheRestOrNothing` | antbot/agent/loop.py:667-697 | with a consolidation in flight or queued or not: a successful `/new` archived exactly messages[last_consolidated:] and leaves the session empty in memory and on disk; a failed one changes neither messages nor offset |
| `Consolidation.SessionsOnlyGrow` | antbot/session/manager.py:22-31 | outside a clear and a restart messages are only appended, the offset never goes back and no archived span is revised |
| `Consolidation.StoreOutcome` | antbot/agent/memory.py:123-157 | HISTORY.md gains at most this reply's entry, MEMORY.md becomes at most its update, success means that both wanted writes happened, and which failures leave which partial write |
| `ConsolidationSteps.TurnQueuesIff` | antbot/agent/loop.py:663-718 | a turn queues a background task, and sets the guard, if and only if the messages behind the offset reach the window and the guard is clear |
| `ConsolidationSteps.SystemTurnQueuesNothing` | antbot/agent/loop.py:640-650 | a system message starts a turn and never a task |
| `ConsolidationSteps.TurnEnds` | antbot/agent/loop.py:807-843 | a saved turn appends its messages in memory and on disk; an unsaved one leaves everything |
| `ConsolidationSteps.TaskStarts` | antbot/agent/memory.py:82-114 | a task ends at once if no more than half the window is left or nothing is new; otherwise it captures exactly the messages from the offset up to the last half window, the memory text and the lock |
| `ConsolidationSteps.TaskEnds` | antbot/agent/memory.py:122-157 | lock and guard are given up in any case; a success moves the offset to the length at that time less half the window |
| `ConsolidationSteps.NewWaits` | antbot/agent/loop.py:667-671 | `/new` sets the guard; it can be cancelled if the lock is held or somebody queues for it |
| `ConsolidationSteps.NewStarts` | antbot/agent/loop.py:671-680 | with nothing unconsolidated it clears at once, otherwise it hands on a copy of what is |
| `ConsolidationSteps.NewEnds` | antbot/agent/loop.py:674-693 | it clears exactly after a success |
| `ConsolidationSteps.NewStops` | antbot/agent/loop.py:671-690 | what a cancelled `/new`, and a restart, leave |
| `ConsolidationSteps.StoreWrites` | antbot/agent/memory.py:123-157 | which writes a reply makes, and when they count as a success |
| `ConsolidationRuns.TasksArePiledUpByNewOnly` | antbot/agent/loop.py:702-718 | the guard set admits one live background task, plus at most one for each `/new`; without `/new`, a clear guard means that no task is alive |
| `ConsolidationRuns.EveryPileIsReached` | antbot/agent/loop.py:667-705 | the bound is reached for every number of `/new`: while a task awaits the model, each `/new` that is cancelled in the queue for the lock clears the guard, and the next turn queues one task more |
| `ConsolidationRuns.RestartLosesNoMessage` | antbot/session/manager.py:116-180 | over every run, a restart at any point finds all messages of the live session; the offset on disk may lag behind, never lead |
| `ConsolidationLoop.PromptLines` | antbot/agent/memory.py:97-102 | line i of the prompt is about the i-th message that has content, and there are no other lines |
| `ConsolidationLoop.WithContentIsExact` | antbot/agent/memory.py:97-102 | a message with content is told as often as it occurs, one without never |
| `ConsolidationLoop.WithContentJoins` | antbot/agent/memory.py:97-102 | the order of the lines is that of the messages |
| `ConsolidationLoop.AgentLoop.constructor` | antbot/agent/loop.py:61-147 | a fresh loop is the initial state, which satisfies the invariant |
| `ConsolidationLoop.AgentLoop.GetOrCreateSession` | antbot/session/manager.py:96-114 | the cached session object, or a new one loaded from the file |
| `ConsolidationLoop.AgentLoop.BeginTurn` | antbot/agent/loop.py:663-718 | fetching the session and perhaps queueing a task is the model's step and keeps the invariant |
| `ConsolidationLoop.AgentLoop.BeginSystemTurn` | antbot/agent/loop.py:640-650 | a system message starts a turn that triggers no consolidation |
| `ConsolidationLoop.AgentLoop.SaveTurn` | antbot/agent/loop.py:807-843 | appending the turn's messages one by one and saving the session is the model's step and keeps the invariant |
| `ConsolidationLoop.AgentLoop.ChooseSlice` | antbot/agent/memory.py:82-95 | the three early returns and the slice, as one choice |
| `ConsolidationLoop.AgentLoop.GrabLock` | antbot/agent/memory.py:82-114 | a task up to its await: what it captures, or its end when there is nothing to do |
| `ConsolidationLoop.AgentLoop.StoreReply` | antbot/agent/memory.py:123-151 | the writes of a reply, in order, and whether they count as success |
| `ConsolidationLoop.AgentLoop.FinishTask` | antbot/agent/memory.py:122-157 | a task after its await, with the offset computed from the length at that time |
| `ConsolidationLoop.AgentLoop.ClearSession` | antbot/agent/loop.py:691-693 | clear, save, invalidate |
| `ConsolidationLoop.AgentLoop.BeginNew` | antbot/agent/loop.py:667-671 | `/new` up to the lock |
| `ConsolidationLoop.AgentLoop.GrabLockForNew` | antbot/agent/loop.py:671-680 | `/new` under the lock: an empty remainder clears at once |
| `ConsolidationLoop.AgentLoop.FinishNew` | antbot/agent/loop.py:674-693 | `/new` after its await: clear on success, nothing on failure |
| `ConsolidationLoop.AgentLoop.AbortNew` | antbot/agent/loop.py:671-690 | a `/new` cancelled in the queue for the lock or while archiving releases the lock it holds and the guard and changes nothing else |
| `Messages.BlockedIsLinked` | antbot/agent/loop.py:333-365 | results directly behind their assistant message, in call order, imply that every result is preceded by the assistant message that carries its id |
| `Messages.SettledAnswersEveryCall` | antbot/agent/loop.py:333-365 | and if none is left pending, the result of call k of message j is message j + 1 + k |
| `Messages.BlockedJoin` | antbot/session/manager.py:46-64 | a list may be cut, or two joined, at a message that is not a tool result, exactly when nothing is pending before it |
| `Conversation.ExecuteCalls` | antbot/agent/loop.py:327-365 | the branch for a reply with tool calls appends the assistant message and one result per call, in order, in both tool modes |
| `Conversation.RunAgentLoop` | antbot/agent/loop.py:263-384 | the loop appends what its rounds add until the first reply without calls or the limit; each model call sees the initial list and the complete rounds before it |
| `Transcript.LoopTells` | antbot/agent/loop.py:320-385 | the messages that the loop adds, from the replies alone: each reply with its text or null and its calls, behind it for each call in order a tool message with the result, id and name, in ReAct mode an observation of at most 2000 characters; and at the end the final text without think blocks, or nothing after a failure or the limit |
| `Transcript.RequestTells` | antbot/agent/loop.py:296-312 | the same of the message list of every model call, behind the list the loop started from |
| `Transcript.TurnOpensWith` | antbot/agent/context.py:116-142 | a turn starts from the system prompt, the history as it is and the user message |
| `Transcript.TurnSaves` | antbot/agent/loop.py:807-843 | a run of turns saves, turn by turn, the user message and what the loop added, or the merged answer of a chunked run |
| `Conversation.LastRound` | antbot/agent/loop.py:290-376 | the loop ends at the first reply without tool calls, or at the limit |
| `Conversation.ResultsFollowCalls` | antbot/agent/loop.py:333-365 | after k results of a round exactly the ids of its calls from k on are pending |
| `Conversation.RoundsAreSettled` | antbot/agent/loop.py:290-365 | for any number of rounds and any provider, every call has its result |
| `Conversation.AddedIsSettled` | antbot/agent/loop.py:290-376 | however the loop ends (answer, provider error, iteration limit), every call of what it added has its result |
| `Conversation.StoredAllIsBlocked` | antbot/agent/loop.py:807-843 | saving keeps the call and result blocks and what is pending, whatever it drops and truncates |
| `Conversation.StoredAllJoins` | antbot/agent/loop.py:807-843 | what is saved of a list is what is saved of its parts, in order |
| `Conversation.StoredKeepsIdentity` | antbot/agent/loop.py:812-842 | a saved message keeps role, calls, ids and other keys; what is dropped is an assistant message without content and calls or a user message; a saved tool result starts with the result's first 500 characters; a saved assistant text has no think block |
| `Transcript.StoringTells` | antbot/agent/loop.py:810-819 | which assistant messages and tool results are stored, with think blocks removed and at most 500 characters of a result |
| `Transcript.UserTextIsStored` | antbot/agent/loop.py:820-827 | a text that opens with the runtime context is stored from behind its first blank line, and not at all if nothing but whitespace is there |
| `Transcript.UserBlocksAreStored` | antbot/agent/loop.py:828-840 | a list is stored without what is dropped, and not at all if nothing is left |
| `Transcript.BlockIsStored` | antbot/agent/loop.py:830-837 | a runtime-context block goes, an inline image becomes a placeholder, any other block stays |
| `Conversation.StoredBlocksAreClean` | antbot/agent/loop.py:827-841 | no runtime context and no inline image is saved, and every other block is |
| `Conversation.StoredBlocksJoin` | antbot/agent/loop.py:827-841 | blocks are filtered one by one and keep their order |
| `Conversation.StoredBlocksSnoc` | antbot/agent/loop.py:829-838 | a runtime context block is dropped, an inline image becomes the placeholder, any other block stays |
| `Conversation.UserStart` | antbot/session/manager.py:51-55 | the alignment stops at the first user message; without one nothing is dropped |
| `Conversation.HistoryStretch` | antbot/session/manager.py:46-64 | the history is a contiguous stretch of the unconsolidated messages that ends at the newest one and is at most max_messages long |
| `Transcript.HistoryTells` | antbot/session/manager.py:52-64 | a history entry carries role, content, calls, id and name of the stored message it stands for, an empty text where there is no content |
| `Conversation.HistoryIsLinked` | antbot/session/manager.py:46-64 | for every offset and size the history is linked, and then complete, if and only if its window has a user message, or is empty, or does not open with a tool result (without a user message in the window the promised linkage can fail) |
| `Conversation.HistoryOpensWithUser` | antbot/session/manager.py:46-64 | a window with a user message gives a non-empty history that opens with a user message, is linked, and has the result of every call |
| `SessionTurns.SavingKeepsSettled` | antbot/agent/loop.py:794-843 | saving a turn behind settled messages leaves them settled, also when the user message itself is dropped |
| `SessionTurns.EveryRunIsSettled` | antbot/agent/loop.py:633-843 | for every run of direct and chunked turns the session holds every call together with its result |
| `SessionTurns.EveryHistoryIsLinked` | antbot/session/manager.py:46-64 | for every run of turns, every offset and every window that holds a user message: the history opens with a user message, is linked and is complete |
| `SessionTurns.RequestIsLinked` | antbot/agent/context.py:115-139 | the list built from a settled history stays settled and linked through any number of rounds |
| `SessionTurns.OrphanedHistoryWitness` | antbot/session/manager.py:46-64 | for every window size there is a one-turn session whose history is all tool results: one reply with as many tool calls as the window is large |
| `SessionTurns.RequestsOfTurn` | antbot/agent/loop.py:290-376 | all requests of a turn are linked if and only if the window of its history has a user message, or is empty, or does not open with a tool result |
| `SessionTurns.BlankLineInChatIdWitness` | antbot/agent/context.py:82-90 | a chat id with a blank line, as the "to" field of a scheduled job can hold, makes the saved message differ from what the user typed |
| `SessionTurns.RuntimeContextIsStripped` | antbot/agent/loop.py:821-826 | the user's text behind the runtime context is recovered if and only if the context has no blank line of its own |
| `SessionTurns.Session.constructor` | antbot/session/manager.py:16-33 | a new session is empty with offset 0 |
| `SessionTurns.Session.AlignToUser` | antbot/session/manager.py:51-55 | the loop that drops leading messages |
| `SessionTurns.Session.GetHistory` | antbot/session/manager.py:46-64 | both slices, the alignment and the copied fields, as the history about which the lemmas speak |
| `SessionTurns.Session.FilterBlocks` | antbot/agent/loop.py:827-839 | the loop over the blocks of a user message |
| `SessionTurns.Session.StoreOne` | antbot/agent/loop.py:812-840 | one message of a turn: stored or skipped |
| `SessionTurns.Session.SaveTurn` | antbot/agent/loop.py:807-843 | the session grows by exactly what is saved of the new part |
| `SessionTurns.Session.Converse` | antbot/agent/loop.py:775-794 | the new part is the user message and what the loop added; all requests are linked if and only if the window opens safely |
| `SessionTurns.Session.RunTurn` | antbot/agent/loop.py:775-796 | a whole direct turn keeps the session settled, appends exactly what is saved of it, and sends only linked requests if and only if the window opens safely |
| `Providers.NonEmptyFacts` | antbot/providers/base.py:61-69 | filtering leaves no empty text block and shortens exactly the lists that have one |
| `Providers.NonEmptyKeepsTheRest` | antbot/providers/base.py:61-69 | every other block is kept as often as it occurs |
| `Providers.NonEmptyJoins` | antbot/providers/base.py:61-69 | and in its place among the others |
| `Providers.FilterEmpty` | antbot/providers/base.py:61-69 | the loop over the blocks |
| `Providers.CleanMessage` | antbot/providers/base.py:49-87 | one message: empty text, emptied list, bare block, or unchanged |
| `ProviderContents.CleaningTells` | antbot/providers/base.py:49-87 | what each content becomes: an empty text is replaced by null or a mark, a list loses its blocks without text, a bare block becomes a list, anything else stays |
| `Providers.SanitizeEmptyContent` | antbot/providers/base.py:45-88 | one cleaned message for each message, in order |
| `Providers.CleaningLeavesNoEmptyText` | antbot/providers/base.py:45-88 | cleaning leaves no empty text if and only if no content is a bare empty text block (the code wraps such a block without looking into it) |
| `Providers.CleaningIsIdempotentIff` | antbot/providers/base.py:45-88 | cleaning twice is cleaning once under exactly the same condition |
| `Providers.BareEmptyBlockWitness` | antbot/providers/base.py:81-85 | a message that the first pass turns into a list with an empty text, and the second into the placeholder |
| `Providers.CleaningKeepsLinks` | antbot/providers/base.py:45-88 | nothing but contents changes, so the linkage is the same before and after |
| `Providers.Hashing.MapId` | antbot/providers/litellm_provider.py:186-189 | the shared id map gives every id its normal form, whatever was mapped before |
| `Providers.Hashing.MapCalls` | antbot/providers/litellm_provider.py:193-203 | the ids of all calls of a message are mapped |
| `Providers.Hashing.SanitizeMessages` | antbot/providers/litellm_provider.py:180-207 | one sanitised message for each message, in order |
| `ProviderContents.SanitizingTells` | antbot/providers/litellm_provider.py:171-207 | ids of nine letters and digits stay, others become their digest; an assistant message without content gets null; only allowed keys are kept |
| `Providers.Hashing.SanitizingIsIdempotent` | antbot/providers/litellm_provider.py:171-207 | sanitising keeps roles, length and order, and a second pass changes nothing |
| `Providers.Hashing.SanitizingKeepsLinks` | antbot/providers/litellm_provider.py:171-207 | a linked conversation stays linked if and only if no tool result has the empty id (which the code leaves alone while it hashes the call's) |
| `Providers.EmptyCallPart` | antbot/providers/openai_codex_provider.py:215-221 | the call part of an id is empty if and only if the id starts with a bar |
| `Providers.ConvertAssistant` | antbot/providers/openai_codex_provider.py:152-179 | text first, then one function call per tool call |
| `Providers.ConvertMessages` | antbot/providers/openai_codex_provider.py:136-193 | the last system message and the items of all messages in order |
| `CodexItems.ItemsTellTheMessages` | antbot/providers/openai_codex_provider.py:136-213 | the items are those of the messages in order: what a user said as it is (texts, non-empty image addresses, one empty text only where there is neither), an assistant text, each call with its name, arguments and the parts of its id, each result with its text |
| `CodexItems.PromptIsTheLastSystemText` | antbot/providers/openai_codex_provider.py:136-151 | the instructions are the text of the last system message |
| `Providers.ConversionKeepsLinks` | antbot/providers/openai_codex_provider.py:136-221 | every function_call_output is preceded by a function_call with its call_id if and only if every tool result's id has a call part |
| `Providers.ConversionKeepsResults` | antbot/providers/openai_codex_provider.py:136-193 | every tool result becomes exactly one output, in order, and the calls are as many as before |
| `Providers.EmptyIdWitness` | antbot/providers/litellm_provider.py:193-206 | a call and its result under the empty id are linked before sanitising and not after |
| `Providers.LeadingBarWitness` | antbot/providers/openai_codex_provider.py:164-191 | a call and its result under an id that starts with a bar are linked before conversion and not after |
| `Delivery.EveryRequestIsDeliveredLinked` | antbot/providers/litellm_provider.py:180-207 | end to end: after any run of turns, for any offset and any window with a user message, every model call is linked as built; as cleaned and sanitised for LiteLLM exactly when no result id is empty; as Codex items exactly when every result id has a call part |
| `Mover.MovePreserves` | antbot-exec/internal/mover/mover.go:14-64 | whatever fails except the destination check: no other file is altered, a source that is gone has its verified bytes at a destination that did not exist, and success is reported exactly when the source was removed |
| `Mover.CopyPreserves` | antbot-exec/internal/mover/mover.go:68-107 | copying alters no existing file, and success means that a new destination holds the source's bytes |
| `Mover.MoveKeepsTree` | antbot-exec/internal/mover/mover.go:14-107 | files and directories stay a tree whatever fails |
| `Mover.SafeIffCheckIsTruthful` | antbot-exec/internal/mover/mover.go:24-28 | one call preserves all contents for every choice of the other failures if and only if its destination check does not fail on an existing file |
| `Mover.LyingCheckWitness` | antbot-exec/internal/mover/mover.go:24-44 | a move whose check fails on an existing destination, and whose copy then fails, destroys that destination |
| `Mover.MoveAgainChangesNothing` | antbot-exec/internal/mover/mover.go:14-64 | a move issued again after it was done, or after it left anything at the destination, fails and changes nothing |
| `MoveOutcomes.RefusalAnswers` | antbot-exec/internal/mover/mover.go:14-28 | which error each failing check answers, changing nothing |
| `MoveOutcomes.OverwritingIsRefused` | antbot-exec/internal/server/server.go:96-104 | a request to overwrite is refused |
| `MoveOutcomes.DryRunAnswers` | antbot-exec/internal/mover/mover.go:30-32 | a dry run answers the size and changes nothing |
| `MoveOutcomes.CopyAnswers` | antbot-exec/internal/mover/mover.go:68-108 | a copy answers the first system call that fails; with none failing the bytes are at the destination and their digest is answered |
| `MoveOutcomes.MoveAnswers` | antbot-exec/internal/mover/mover.go:14-64 | and a move then removes the source, or says that it could not |
| `Mover.Disk.constructor` | antbot-exec/internal/mover/mover.go:14-20 | a disk with given files and directories |
| `Mover.Disk.CopyContents` | antbot-exec/internal/mover/mover.go:111-139 | open, create, copy with the digest of what was read; a stopped copy leaves a partial destination |
| `Mover.Disk.CopyAndVerify` | antbot-exec/internal/mover/mover.go:15-58 | the checks, the copy, the verification and the clean-ups in order |
| `Mover.Disk.MoveFile` | antbot-exec/internal/server/server.go:96-123 | the server's move: refuses overwriting, then moves |
| `Mover.Disk.CopyFileTo` | antbot-exec/internal/server/server.go:125-152 | the server's copy: refuses overwriting, then copies |
| `Executor.UndisturbedIsSequential` | antbot-exec/internal/mover/mover.go:14-154 | a call whose system calls nothing interrupts does exactly what the sequential move and copy do, under any faults |
| `Executor.EveryCallEnds` | antbot-exec/internal/mover/mover.go:14-154 | every system call brings a call nearer to its answer |
| `ExecutorSafety.StepKeepsInv` | antbot-exec/internal/server/server.go:96-152 | while no two unfinished calls clash, no system call of any of them touches the verified copy that another one is about to rely on |
| `ExecutorSafety.StepKeepsFile` | antbot-exec/internal/mover/mover.go:36-64 | a file that no call may overwrite stays, or it is a source just removed whose verified copy is such a file |
| `ExecutorSafety.SafeIffNoSharedDestination` | antbot-exec/internal/mover/mover.go:24-64 | once two calls have passed their checks, every schedule and every choice of the remaining faults keeps all contents if and only if they do not share a destination, or remove nothing, or cannot create the destination |
| `ExecutorSafety.SafeOnceCheckedIff` | antbot-exec/internal/mover/mover.go:24-64 | the same from the arrival of two requests and in terms of them alone: over all trees and truthful schedules in which both checks pass before either writes, all contents survive if and only if the requests do not share a destination with a move among them and no path in the way of another |
| `ExecutorSafety.ChainLosesContent` | antbot-exec/internal/server/server.go:96-123 | different destinations are not enough earlier on: for any two moves of which one takes the other's half-made destination for its source, the content is lost with every check truthful and nothing failing |
| `ExecutorSafety.GuardIsExact` | antbot-exec/internal/server/server.go:96-123 | over all trees and truthful schedules from the arrival of two requests, all contents survive if and only if the requests do not clash: neither is a move to the other's destination, and neither is a move from where the other one moves to |
| `ExecutorServer.Server.constructor` | antbot-exec/internal/server/server.go:36-44 | a server over a disk, with no call in progress |
| `ExecutorServer.Server.Receive` | antbot-exec/internal/server/server.go:96-103 | a request joins those in progress |
| `ExecutorServer.Server.WriteFile` | antbot-exec/internal/mover/mover.go:122-127 | writing from the start of an open file; a write to an unlinked file is lost |
| `ExecutorServer.Server.CopyStream` | antbot-exec/internal/mover/mover.go:122-130 | copying the open source into the open destination, whole or broken off |
| `ExecutorServer.Server.CheckCopy` | antbot-exec/internal/mover/mover.go:47-56 | hashing the destination and comparing |
| `ExecutorServer.Server.SystemCall` | antbot-exec/internal/mover/mover.go:14-64 | the next system call of a request, in place |
| `ExecutorServer.Server.StepCall` | antbot-exec/internal/mover/mover.go:14-64 | one request gets on by one system call and the others stay |
| `ExecutorServer.Server.FinishCall` | antbot-exec/internal/mover/mover.go:14-64 | a request comes to its answer when nothing else happens |
| `Scout.StepKeepsInv` | antbot/scout/daemon.py:97-203 | the invariant (attempts within ten, states match who is at work, two tasks never act on one path, every issued action was cleared since the file's last event, under the only rule approved since then) is kept by every step of the event handler and the executor, and by a step of the retry loop if and only if the recheck that the code lacks would have passed |
| `Scout.RetryKeepsInvIff` | antbot/scout/daemon.py:104-115 | the missing recheck, for every object of the snapshot: the path is not EXECUTING or AWAITING_APPROVAL by then; and if the tracker dropped the object and a try is left, the path is tracked again, under the same rule where that asks for confirmation |
| `Scout.RunKeepsInv` | antbot/scout/daemon.py:97-203 | a run keeps the invariant throughout if and only if each of its retry steps would have passed the recheck |
| `Scout.EveryRunIsOrderly` | antbot/scout/daemon.py:97-203 | in such runs, between steps every tracked file is FAILED or QUEUED, and with a confirm callback every action issued for a confirm rule, retries included, was approved for that path and rule since the last event handled for the path |
| `ScoutOutcomes.AnswerDecides` | antbot/scout/daemon.py:174-196 | a file whose action succeeded is forgotten; one whose action failed keeps the error text and is QUEUED if and only if that text in lower case contains "mount", "no such file" or "permission", and FAILED otherwise |
| `ScoutOutcomes.RetryAnswerDecides` | antbot/scout/daemon.py:174-196 | the same for a retry |
| `ScoutOutcomes.DeniedIsQueued` | antbot/scout/daemon.py:186-188 | an error that says "Permission denied" queues |
| `ScoutOutcomes.MismatchFails` | antbot/scout/daemon.py:189-190 | a checksum mismatch fails |
| `ScoutOutcomes.OtherEndings` | antbot/scout/daemon.py:163-203 | no connection or a lost answer queues, an unknown action fails |
| `ScoutOutcomes.SendingSends` | antbot/scout/daemon.py:163-168 | one call per action, for a move or a copy, with the file, its target and the dry-run flag |
| `ScoutOutcomes.ArrivalTracks` | antbot/scout/daemon.py:117-156 | what an arrival makes of a file: ignored, forgotten, asked about or acted on, with the size, error and attempts it had |
| `ScoutOutcomes.AnswerStartsOrForgets` | antbot/scout/daemon.py:146-156 | a yes starts the action, a no forgets the file |
| `ScoutOutcomes.RetryTries` | antbot/scout/daemon.py:104-115 | ten attempts, then FAILED |
| `ScoutRetries.UndisturbedRunsAreFresh` | antbot/scout/daemon.py:97-115 | runs without events on the paths of the running round always meet that condition |
| `ScoutContents.DisturbedRoundActsUnapproved` | antbot/scout/daemon.py:97-156 | a run the code can perform, in which an event comes for a waiting file while the call for another one is awaited: the round acts on a file that awaits approval, under a rule that was never approved for it |
| `ScoutContents.DeniedFileIsActedOn` | antbot/scout/daemon.py:97-156 | the same run with the answer no: the tracker drops the file, and the round, which holds the rewritten object, acts on it all the same |
| `ScoutContents.NoContentIsLost` | antbot/scout/daemon.py:158-203 | over every run of events, retries and interleaved system calls, with lost replies whose calls go on and any failure but that of the destination check: if calls are sent only while they clash with no unfinished one, every content present at the start is still at some path, and a file changes only if an action was issued on its own path |
| `ScoutContents.SharedTargetLosesContent` | antbot/scout/daemon.py:97-203 | without that condition the daemon itself loses a file: a retry and a new event with one target, both checks before both copies |
| `ScoutContents.EveryCallIsLogged` | antbot/scout/daemon.py:158-172 | every call on the executor, and every action about to be sent, was issued and logged on its source path |
| `ScoutContents.StepKeepsContent` | antbot/scout/daemon.py:158-203 | one step keeps the calls apart and a file, or the verified copy that replaced it |
| `ScoutRetries.StillQueuedMeansTriedEachRound` | antbot/scout/daemon.py:97-115 | with no new events, a file still queued between rounds was queued all along and tried once in every round, whatever the executor did meanwhile |
| `ScoutRetries.QueueEmptiesAfterElevenRounds` | antbot/scout/daemon.py:97-115 | with no new events the queue is empty after eleven rounds, however the calls end |
| `ScoutRetries.TriedTenTimesThenFailed` | antbot/scout/daemon.py:97-115 | while the executor is not reached, a queued file is tried once a round up to its tenth attempt, keeps its rule and target, and is FAILED with no action more in the round after |
| `ScoutLoop.ScoutDaemon.constructor` | antbot/scout/daemon.py:25-41 | a daemon with an empty tracker satisfies the invariant |
| `ScoutLoop.ScoutDaemon.Transition` | antbot/scout/state.py:73-79 | a tracked file changes state; an unknown path is ignored |
| `ScoutLoop.ScoutDaemon.RemoveTracked` | antbot/scout/state.py:81-84 | the path is forgotten, while a running round keeps the object with its last fields |
| `ScoutLoop.ScoutDaemon.StartAction` | antbot/scout/daemon.py:155-156 | EXECUTING before the call |
| `ScoutLoop.ScoutDaemon.TakeUpFile` | antbot/scout/daemon.py:124-156 | a matched file is tracked with the attempts it has, and confirmed or acted on |
| `ScoutLoop.ScoutDaemon.HandleEvent` | antbot/scout/daemon.py:117-156 | any event up to its confirmation or its connection is the model's step |
| `ScoutLoop.ScoutDaemon.HandleAnswer` | antbot/scout/daemon.py:144-156 | approval acts, denial forgets the file |
| `ScoutLoop.ScoutDaemon.Send` | antbot/scout/daemon.py:165-168 | the request carries the file, its target, the action and the dry-run flag |
| `ScoutLoop.ScoutDaemon.SendAction` | antbot/scout/daemon.py:163-168 | the handler's call goes out once connected |
| `ScoutLoop.ScoutDaemon.Conclude` | antbot/scout/daemon.py:169-203 | what the tracker learns: success, transient error, other error, exception, unknown action |
| `ScoutLoop.ScoutDaemon.ActionReturns` | antbot/scout/daemon.py:156-203 | the end of the handler's wait is the model's step |
| `ScoutLoop.ScoutDaemon.GetQueued` | antbot/scout/state.py:86-91 | exactly the queued paths, each once |
| `ScoutLoop.ScoutDaemon.BeginRound` | antbot/scout/daemon.py:97-103 | the snapshot of a round, up to its first file |
| `ScoutLoop.ScoutDaemon.RetryOne` | antbot/scout/daemon.py:104-115 | one object of a round, in whatever state it is by now: given up after ten attempts, otherwise tried again |
| `ScoutLoop.ScoutDaemon.SendRetry` | antbot/scout/daemon.py:115-168 | the retry's call goes out once connected |
| `ScoutLoop.ScoutDaemon.RetryReturns` | antbot/scout/daemon.py:115-203 | the end of the retry's wait, and on to the next file |
| `ScoutLoop.ScoutDaemon.RetryQueued` | antbot/scout/daemon.py:97-115 | a whole round with nothing else going on is one round of the model, keeps the invariant and ends quiet |
| `Cron.StepKeepsInv` | antbot/cron/service.py:175-376 | every step (start, stop, add, remove, enable, manual run, tick, crash inside a tick, crash) keeps: unique ids, waits that respect all earlier fires, the armed wake, spaced fires |
| `Cron.RunKeepsInv` | antbot/cron/service.py:175-376 | the same over every run |
| `Cron.FiresOfEveryRun` | antbot/cron/service.py:227-276 | over every run with restarts and crashes at any point of a tick: the timer starts an `at` job at most once and not before its time, successive starts of an `every` job are at least every_ms apart, those of a cron job strictly later |
| `Cron.RecomputeRespectsFire` | antbot/cron/service.py:20-46 | a recompute after a fire gives nothing for an `at` job, a full period for an `every` job, a later time for a cron job |
| `CronTimes.StartSetsTimes` | antbot/cron/service.py:175-198 | after a start each enabled job waits for what its schedule says: at_ms if that is ahead, the reading plus every_ms, or what the cron expression yields; the others are untouched |
| `CronTimes.AddSetsTime` | antbot/cron/service.py:286-324 | a new job waits so from its reading and has never run; exactly the wrong time zones are refused |
| `CronTimes.EnableSetsTime` | antbot/cron/service.py:340-354 | enabling reckons anew, disabling takes the time away, an unknown id changes nothing |
| `CronTimes.StopDisarms` | antbot/cron/service.py:184-189 | a stopped service waits for nothing |
| `CronTimes.RemoveForgets` | antbot/cron/service.py:326-338 | exactly the jobs with other ids are left |
| `CronTimes.RunNowExecutes` | antbot/cron/service.py:356-367 | a manual run executes the job if it is enabled or forced: outcome, error, times, one-shot jobs disabled or deleted, the others waiting from the end of the callback |
| `CronTimes.TickStartsExactly` | antbot/cron/service.py:227-243 | a tick starts exactly the enabled jobs whose time has come, none before its reading |
| `CronTimes.TickExecutesExactly` | antbot/cron/service.py:227-278 | it executes those and leaves the others as they are |
| `CronTimes.FirstTickStartsTheJob` | antbot/cron/service.py:208-243 | no waiting job is forgotten: whatever else the running service does, the timer is armed for no later than its time and the first tick at or after it starts the job |
| `CronTimes.CrashInTickLosesMemory` | antbot/cron/service.py:227-243 | a crash in a tick keeps the fires of the jobs it had come to and loses what they left in memory |
| `Cron.TickRunsTheDueJobs` | antbot/cron/service.py:227-243 | a tick starts every due job once in store order; afterwards nothing is due at its time, other jobs are untouched, store and file agree, the wake is re-armed |
| `Cron.ExecuteAllMembers` | antbot/cron/service.py:236-276 | executing the due jobs one by one gives each its own outcome and leaves or deletes exactly the right ones |
| `Cron.ExecuteInMembers` | antbot/cron/service.py:245-276 | executing one job replaces or deletes it and no other |
| `Cron.DueJobsMembers` | antbot/cron/service.py:232-235 | the due jobs are exactly the enabled ones whose next run has come |
| `Cron.WithoutMembers` | antbot/cron/service.py:326-338 | removal leaves exactly the jobs with other ids |
| `Cron.NextWakeIsEarliest` | antbot/cron/service.py:200-206 | the wake is the least next run of the enabled jobs, and there is one if and only if one of them has a next run |
| `Cron.ArmedForTheEarliest` | antbot/cron/service.py:200-225 | in every reachable state a running service is armed for the earliest next run of its enabled jobs, and a stopped one is not armed |
| `CronStoreFile.JobRoundTrip` | antbot/cron/service.py:89-117 | reading a written job gives back every field |
| `CronStoreFile.StoreRoundTrip` | antbot/cron/service.py:78-173 | loading a saved store gives back all jobs |
| `CronStoreFile.MissingKeysReadAsDefaults` | antbot/cron/service.py:89-117 | the defaults of the optional keys |
| `CronStoreFile.UnreadableJobs` | antbot/cron/service.py:89-117 | a job without id, name, payload or a known schedule cannot be read |
| `CronStoreFile.StoreIsWritten` | antbot/cron/service.py:130-173 | version 1 and the jobs in store order |
| `CronRuntime.CronService.constructor` | antbot/cron/service.py:66-76 | a new service is the initial state |
| `CronRuntime.CronService.LoadStore` | antbot/cron/service.py:78-128 | the store of this process, or what the file holds |
| `CronRuntime.CronService.SaveStore` | antbot/cron/service.py:130-173 | what is saved reads back as the store |
| `CronRuntime.CronService.GetNextWake` | antbot/cron/service.py:200-206 | the loop computes the earliest wake |
| `CronRuntime.CronService.ArmTimer` | antbot/cron/service.py:208-225 | armed exactly when running and something waits |
| `CronRuntime.CronService.RecomputeNextRuns` | antbot/cron/service.py:191-198 | every enabled job gets its recomputed next run |
| `CronRuntime.CronService.Start` | antbot/cron/service.py:175-182 | load, recompute, save, arm is the model's step |
| `CronRuntime.CronService.Stop` | antbot/cron/service.py:184-189 | stopping disarms |
| `CronRuntime.CronService.AddJob` | antbot/cron/service.py:286-324 | validation, and a new enabled job at the end of the store |
| `CronRuntime.CronService.RemoveJob` | antbot/cron/service.py:326-338 | removal is the model's step; whether anything was removed |
| `CronRuntime.CronService.EnableJob` | antbot/cron/service.py:340-354 | enabling recomputes, disabling clears the next run |
| `CronRuntime.CronService.ExecuteJob` | antbot/cron/service.py:245-276 | the outcome is recorded; a one-shot job is deleted or disabled, any other rescheduled |
| `CronRuntime.CronService.RunJob` | antbot/cron/service.py:356-367 | a manual run is the model's step; a disabled job needs force |
| `CronRuntime.CronService.CollectDue` | antbot/cron/service.py:232-235 | the due jobs in store order |
| `CronRuntime.CronService.ExecuteDue` | antbot/cron/service.py:237-238 | one execution after the other |
| `CronRuntime.CronService.OnTimer` | antbot/cron/service.py:227-243 | a whole tick is the model's step |
| `Debounce.BurstsAreMaximal` | antbot-exec/internal/watcher/watcher.go:126-156 | cutting the events of a path wherever the interval has run out yields maximal bursts |
| `Debounce.MaximalBurstsAreUnique` | antbot-exec/internal/watcher/watcher.go:126-156 | there is only one partition into maximal bursts |
| `Debounce.DebouncerRefinesBursts` | antbot-exec/internal/watcher/watcher.go:91-156 | over every run and for every path: one report per maximal burst, in order, with its first operation, exactly one interval after its last event; only a burst whose timer still runs is missing; removals and renames pass at once |
| `Debounce.InputsOfTrace` | antbot-exec/internal/watcher/watcher.go:91-124 | the events reported on are a function of the trace alone: those of non-ignored paths with a known operation, with their times |
| `Debounce.QuietPathIsFullyReported` | antbot-exec/internal/watcher/watcher.go:91-156 | no burst is lost: a path quiet for longer than the interval has had exactly one report for each of its maximal bursts |
| `WatcherRules.EventIsReportedAs` | antbot-exec/internal/watcher/watcher.go:91-156 | an ignored name or a change of mode leaves no trace; removals and renames are reported at once; creates and writes start the timer afresh and keep the first operation; the flags decide in the order create, write, remove, rename |
| `WatcherRules.BaseIsTheName` | antbot-exec/internal/watcher/watcher.go:91-110 | the name that is matched is the last part of the path |
| `WatcherRules.TimerReports` | antbot-exec/internal/watcher/watcher.go:141-155 | a timer reports the first operation and is over |
| `Debounce.StepKeepsInv` | antbot-exec/internal/watcher/watcher.go:91-156 | every step keeps the correspondence between timers, reports and bursts |
| `Debounce.Watcher.constructor` | antbot-exec/internal/watcher/watcher.go:32-44 | a new watcher has nothing pending |
| `Debounce.Watcher.HandleFsEvent` | antbot-exec/internal/watcher/watcher.go:91-124 | ignore patterns, operation, delay or pass: the model's step |
| `Debounce.Watcher.DebounceEvent` | antbot-exec/internal/watcher/watcher.go:126-156 | a pending path keeps its first operation and has its timer reset |
| `Debounce.Watcher.TimerExpires` | antbot-exec/internal/watcher/watcher.go:141-155 | expiry reports the pending event and forgets it |
| `Mochat.StepKeepsInv` | antbot/channels/mochat.py:663-746 | every arrival, mention and timer keeps the dedup and buffer invariants of every target |
| `Mochat.RunKeepsInv` | antbot/channels/mochat.py:663-746 | the same over every run |
| `Mochat.DispatchedThenBufferedIsAccepted` | antbot/channels/mochat.py:663-746 | under every interleaving the dispatched entries followed by the buffered ones are the accepted ones, once each and in arrival order; a buffer is non-empty if and only if a timer is alive, and at most one is |
| `Mochat.DuplicateIffAmongTheLast` | antbot/channels/mochat.py:711-720 | an id counts as seen if and only if it is among the last 2000 distinct ids that the target accepted; the set equals the queue |
| `MochatArrivals.DroppedArrivals` | antbot/channels/mochat.py:663-691 | a message that is not heard, repeats one of its target's last 2000 ids or lacks its mention changes nothing that was handed on or waits |
| `MochatArrivals.AcceptedArrivals` | antbot/channels/mochat.py:663-707 | any other is accepted once and goes out alone, with the collected batch, or into it, starting the timer afresh |
| `MochatArrivals.TimerSends` | antbot/channels/mochat.py:730-746 | a timer sends out what was collected and ends |
| `MochatArrivals.HandedOnIsTaken` | antbot/channels/mochat.py:663-746 | over every run: what was sent out and what is still collected are exactly the messages that the arrivals alone say are to be handed on, in order |
| `MochatArrivals.RepeatsAreFarApart` | antbot/channels/mochat.py:711-722 | two messages of one target with one id are both handed on only with at least 2000 other, distinct ids between them |
| `Mochat.CursorsNeverDecrease` | antbot/channels/mochat.py:633-661 | a watch response never moves a cursor back, touches only its own session's, and takes it to the maximum of the old cursor, the response's and the events' (a cold session's events are skipped) |
| `Mochat.MarkSeqsIsMax` | antbot/channels/mochat.py:651-659 | marking events one by one gives the maximum of their sequence numbers and the old cursor |
| `MochatRuntime.MochatChannel.constructor` | antbot/channels/mochat.py:220-249 | a new channel has empty tables |
| `MochatRuntime.MochatChannel.RememberMessageId` | antbot/channels/mochat.py:711-720 | the id is remembered, the oldest beyond 2000 are forgotten, and whether it was a duplicate |
| `MochatRuntime.MochatChannel.Evict` | antbot/channels/mochat.py:718-719 | the loop leaves the newest 2000 and the set equal to the queue |
| `MochatRuntime.MochatChannel.EnqueueDelayedEntry` | antbot/channels/mochat.py:722-728 | the entry joins the batch and the timer starts afresh |
| `MochatRuntime.MochatChannel.FlushDelayedEntries` | antbot/channels/mochat.py:734-746 | the whole batch is dispatched once, another task's timer is cancelled |
| `MochatRuntime.MochatChannel.DispatchEntries` | antbot/channels/mochat.py:748-763 | an empty batch is not dispatched |
| `MochatRuntime.MochatChannel.DeliverEntry` | antbot/channels/mochat.py:698-707 | buffer, flush or dispatch at once |
| `MochatRuntime.MochatChannel.ProcessInboundEvent` | antbot/channels/mochat.py:663-707 | the filters, the dedup and the delivery of one event are the model's step |
| `MochatRuntime.MochatChannel.TimerRuns` | antbot/channels/mochat.py:730-746 | a timer flushes its target and is over |
| `MochatRuntime.MochatChannel.MarkSessionCursor` | antbot/channels/mochat.py:822-827 | a cursor moves only forward |
| `MochatRuntime.MochatChannel.HandleWatchCursors` | antbot/channels/mochat.py:633-661 | the cursors after a watch response; the session's cold phase ends with its first list of events |
| `SchemaTool.NoErrorsIffConforms` | antbot/agent/tools/base.py:138-175 | for every JSON value, schema and path: no errors if and only if the value conforms (type, enum, minimum, maximum, minLength, maxLength, required, properties, items; JSON Schema Validation 2020-12 sections 6.1.1, 6.1.2, 6.2.2, 6.2.4, 6.3.1, 6.3.2 and 6.5.3, but stricter on integers such as 1.0, and with `enum` by Python's equality, in which true is 1) |
| `SchemaFacts.TypesAdmit` | antbot/agent/tools/base.py:138-146 | which values each type admits |
| `SchemaFacts.BoundsAreInclusive` | antbot/agent/tools/base.py:149-159 | which errors a number and a text get from their bounds |
| `SchemaFacts.ChoicesAreChecked` | antbot/agent/tools/base.py:147-148 | a value equal to no choice is reported |
| `SchemaFacts.EqualityOfScalars` | antbot/agent/tools/base.py:147-148 | which numbers, booleans and texts count as equal to a choice |
| `SchemaFacts.MissingIsReported` | antbot/agent/tools/base.py:160-164 | a missing key is reported at its path |
| `SchemaFacts.MemberIsReported` | antbot/agent/tools/base.py:165-169 | a member with a schema is reported at its key |
| `SchemaFacts.ItemIsReported` | antbot/agent/tools/base.py:170-174 | an item is reported at its index |
| `SchemaTool.CastKeepsConforming` | antbot/agent/tools/base.py:60-127 | casting leaves a conforming value unchanged |
| `SchemaTool.CastIsIdempotent` | antbot/agent/tools/base.py:60-127 | casting twice is casting once, for every value and schema |
| `SchemaFacts.TextIsCast` | antbot/agent/tools/base.py:98-120 | "true", "1", "yes" give true, "false", "0", "no" false, a number that reads as one that number, any other text stays |
| `SchemaFacts.OthersAreCast` | antbot/agent/tools/base.py:68-127 | where a text is asked for any value but null becomes one; members and items with a schema are cast; everything else stays |
| `SchemaTool.ValidateValue` | antbot/agent/tools/base.py:138-175 | the recursive validation gives the errors about which the lemmas speak |
| `SchemaTool.MissingKeys` | antbot/agent/tools/base.py:164-166 | one error for every required key that is absent, in order |
| `SchemaTool.ValidatePairs` | antbot/agent/tools/base.py:167-169 | the errors of the members that have a property schema |
| `SchemaTool.ValidateItems` | antbot/agent/tools/base.py:170-174 | the errors of the items with their indices |
| `SchemaTool.CastObject` | antbot/agent/tools/base.py:68-82 | only members with a property schema are cast |
| `SchemaTool.CastParams` | antbot/agent/tools/base.py:60-66 | a schema of another type passes the parameters through |
| `SchemaTool.ValidateParams` | antbot/agent/tools/base.py:129-136 | parameters that are not an object, a schema that is not one, and the validation |
| `CodexStream.ReadPayloads` | antbot/providers/openai_codex_provider.py:229-246 | the loop over lines yields the JSON texts of the stream |
| `CodexAnswers.EmptyPayloads` | antbot/providers/openai_codex_provider.py:229-246 | blank data and the end mark yield nothing |
| `CodexAnswers.DataTells` | antbot/providers/openai_codex_provider.py:229-246 | the data of a block are its `data:` lines, stripped and joined by line breaks |
| `CodexAnswers.BlocksTell` | antbot/providers/openai_codex_provider.py:229-246 | a blank line closes a block of the lines before it, in order |
| `CodexAnswers.EventsTell` | antbot/providers/openai_codex_provider.py:229-246 | blocks with a payload and texts that decode, in order |
| `CodexStream.FramesJoin` | antbot/providers/openai_codex_provider.py:229-246 | a stream cut at a blank line is framed like its parts |
| `CodexStream.EncodingRoundTrip` | antbot/providers/openai_codex_provider.py:229-246 | reading back written texts gives the texts, for all texts that survive stripping |
| `CodexStream.FramingFollowsStandardIff` | antbot/providers/openai_codex_provider.py:234-238 | data lines are collected as section 9.2.6 of the WHATWG HTML standard collects data fields if and only if no line is a bare `data` and no value has whitespace at either end |
| `CodexStream.PayloadFollowsStandardIff` | antbot/providers/openai_codex_provider.py:234-243 | the text taken from a block is the data that the standard dispatches if and only if, besides, that data is not blank, not the end mark, and has no whitespace at its ends |
| `CodexStream.BareDataWitness` | antbot/providers/openai_codex_provider.py:234-238 | a block with a bare `data` line, which the standard reads as an empty line and the code skips |
| `CodexStream.BuffersStayOk` | antbot/providers/openai_codex_provider.py:257-277 | an event of one call leaves the buffers of all other calls as their own events built them |
| `CodexStream.BufferEvent` | antbot/providers/openai_codex_provider.py:257-277 | the branches that touch the shared buffers |
| `CodexStream.ConsumeEvents` | antbot/providers/openai_codex_provider.py:249-306 | for any interleaving: the content is the concatenated text deltas, one request per completed item from its own call's events, and the finish reason; a failure event is an error |
| `CodexAnswers.ContentTells` | antbot/providers/openai_codex_provider.py:249-303 | the text is that of the deltas in order |
| `CodexAnswers.FinishTells` | antbot/providers/openai_codex_provider.py:296-310 | the last status decides: incomplete gives "length", failed and cancelled "error", anything else and none "stop" |
| `CodexAnswers.RequestTells` | antbot/providers/openai_codex_provider.py:278-296 | each completed item with a call id adds one request: what was announced for its call, else the item's own, else the defaults |
| `CodexAnswers.BufferTells` | antbot/providers/openai_codex_provider.py:257-277 | what an announcement, a delta and a final text announce |
| `CodexStream.CompletedItemGetsItsOwnArguments` | antbot/providers/openai_codex_provider.py:257-296 | the request of a completed item carries its own call's `done` text, else its initial text plus its deltas |
| `CodexStream.OneRequestPerCompletedItem` | antbot/providers/openai_codex_provider.py:278-296 | requests and completed items correspond one to one, in completion order |
| `CodexStream.EmittedIdSplitsBack` | antbot/providers/openai_codex_provider.py:215-221 | an emitted id splits back into call id and item id if and only if the call id has no bar |
| `CodexStream.BarInCallIdWitness` | antbot/providers/openai_codex_provider.py:215-221 | an emitted id whose call id holds a bar comes back cut short |
| `CodexStream.ConsumeSse` | antbot/providers/openai_codex_provider.py:229-306 | framing, decoding and reassembly together |
| `Planner.UsableContext` | antbot/agent/planner.py:159-159 | the usable context is the floor of three fifths of the window |
| `Planner.CreatePlan` | antbot/agent/planner.py:147-226 | when a plan is simple, how many batches it has, and the items of its batch steps in order |
| `Planner.AddBatches` | antbot/agent/planner.py:190-209 | the loop that appends the batch steps |
| `Planner.ReadStepsTell` | antbot/agent/planner.py:188-210 | the steps between the listings and the merge: each batch is read and then summarised, in order |
| `Planner.BatchSizes` | antbot/agent/planner.py:190-194 | no batch exceeds files_per_batch |
| `Planner.BatchesConcatenate` | antbot/agent/planner.py:190-194 | the batches in order are disjoint and concatenate to a prefix of the paths |
| `Planner.BatchesCoverPaths` | antbot/agent/planner.py:176-194 | the batches number ceil(file_count / files_per_batch) and cover all referenced paths if and only if these are at most batches times files_per_batch |
| `Planner.BatchFitsContext` | antbot/agent/planner.py:174-176 | files_per_batch * (avg + 500) is within the usable context unless it is 1 |
| `Planner.EveryPathIsPromptedIff` | antbot/agent/orchestrator.py:120-141 | the prompts of a chunked run list every referenced path once and in order if and only if the batches cover the paths and either no batch can exceed 50 or there are at most 50 paths |
| `Planner.CapIsHarmlessIff` | antbot/agent/orchestrator.py:133-141 | no chunked measurement loses a path to the cap if and only if the usable context is below 25500 |
| `Planner.DroppedPathWitness` | antbot/agent/orchestrator.py:133-141 | from 25500 on, 51 paths among very many small files: the prompts list fewer |
| `Planner.ExecuteChunked` | antbot/agent/orchestrator.py:116-160 | every batch is run also after a failure, prompted with its first 50 items, and leaves one partial result unless its answer is empty |
| `Planner.PartialsTell` | antbot/agent/orchestrator.py:146-157 | a batch leaves its result under its number unless it is empty, or its error |
| `Planner.BatchSteps` | antbot/agent/orchestrator.py:120-120 | the batch steps of a plan in order |
| `MessageSplit.SplitMessage` | antbot/utils/helpers.py:39-68 | the loop ends and its chunks are those about which the lemmas speak |
| `MessageSplit.FindCut` | antbot/utils/helpers.py:59-65 | the cut is within the window and never at its start |
| `MessageSplit.ChunksCoverContent` | antbot/utils/helpers.py:39-68 | the content is the chunks in order with the removed gaps between them |
| `MessageSplit.GapsAreSpace` | antbot/utils/helpers.py:66-67 | only whitespace is removed |
| `MessageSplit.ChunksFit` | antbot/utils/helpers.py:39-68 | every chunk is non-empty and at most max_len long |
| `MessageSplit.CutPrefersBreaks` | antbot/utils/helpers.py:59-65 | a cut is at the last newline of the window at index > 0, else at the last such space, else at max_len |
| `Rules.SortedIsStable` | antbot/scout/rules.py:111-120 | the sort is descending by priority and keeps the order of rules of one priority |
| `Rules.StableSortIsUnique` | antbot/scout/rules.py:111-120 | there is only one such list |
| `Rules.ResortIsOneSort` | antbot/scout/rules.py:118-120 | sorting again after each insertion equals one sort of the whole insertion sequence |
| `Rules.MatchIsEarliestOfHighest` | antbot/scout/rules.py:122-127 | the match is the earliest-inserted rule among the matching ones of highest priority, and absent if and only if none matches |
| `Rules.RuleMatchesIff` | antbot/scout/rules.py:29-75 | a rule matches if and only if it is enabled, for this kind of entry, does not exclude the name, bounds the size, and one of its extensions and patterns fits, where it has any |
| `Rules.RuleEngine.constructor` | antbot/scout/rules.py:111-113 | the list is one stable sort of the given rules |
| `Rules.RuleEngine.AddRule` | antbot/scout/rules.py:118-120 | the list stays one stable sort of everything inserted |
| `Rules.RuleEngine.Match` | antbot/scout/rules.py:122-127 | the loop returns the first match of that list |
| `CardSplit.FillGroups` | antbot/channels/feishu.py:438-456 | finished groups hold exactly the limit, and the one being filled at most it |
| `CardSplit.SplitByTableLimit` | antbot/channels/feishu.py:431-457 | the groups concatenate back, each within the limit and none empty, and there are exactly max(1, ceil(tables / max_tables)) |
| `CardSplit.NoSplitIsSmaller` | antbot/channels/feishu.py:431-457 | no contiguous split within the limit has fewer groups |
| `CardSplit.GroupCount` | antbot/channels/feishu.py:438-456 | full groups and a last one number exactly the cards needed |

## Left out

Contracts that are weaker than the behaviour, by member:

- ConsolidationLoop.PromptLines: does not model the timestamp, the upper-cased role and the list of tools in a line.
- ConsolidationLoop.AgentLoop.StoreReply: does not model a partial write of a file; an append or a write happens or fails as a whole.
- Conversation.RunAgentLoop: takes each reply with the results of its calls as given, and does not model the parsing of ReAct text or the loop's final text.
- Conversation.StoredKeepsIdentity: takes the removal of think blocks as a given function.
- Providers.CleaningKeepsLinks: does not model the set of keys that other providers strip.
- Mover.SafeIffCheckIsTruthful: is about one call; calls side by side are `ExecutorSafety`.
- ExecutorSafety.GuardIsExact: takes two requests of which no path lies inside another, none leads to itself and the two do not swap; for tangled ones only the safe half is proved, in `ExecutorSafety.NothingIsLost` and `ScoutContents.NoContentIsLost`.
- ExecutorServer.Server.CopyStream: copies in one step, where the code copies in chunks; a file that is unlinked and made again while open is taken for the same file.
- ScoutOutcomes.AnswerDecides: lower-cases the letters A to Z, where `str.lower` follows Unicode, and takes the operating system's part of a message and the digests of a mismatch as given.
- ScoutLoop.ScoutDaemon.RetryQueued: runs a round with nothing else in between; rounds interleaved with events and executor steps are sequences of the other methods.
- ScoutLoop.ScoutDaemon.GetQueued: does not fix the order, which is the dictionary's in the code.
- Cron.FiresOfEveryRun: assumes a clock that never goes back, ids that are not reused, no service call during a callback and no edit of the store file by others.
- CronStoreFile.StoreRoundTrip: is about the JSON tree, not its text.
- Debounce.DebouncerRefinesBursts: lets a timer run exactly at its deadline, before any later event on its path; a reset that races with a timer that has already fired is not a step.
- Mochat.DispatchedThenBufferedIsAccepted: ends where the channel is stopped, and counts an entry as dispatched when its batch is handed on.
- MochatArrivals.AcceptedArrivals: takes the text and the mention of a message as given, and leaves out the sender's names.
- Mochat.CursorsNeverDecrease: starts from cursors that are not negative.
- SchemaTool.NoErrorsIffConforms: takes floats as reals (no NaN, no infinity) and a `type` as a string. `enum` is Python's `in`, as in the code, and so looser than section 6.1.2 of JSON Schema Validation where a boolean meets a number: `true` is accepted by `{"type": "boolean", "enum": [0, 1]}`.
- SchemaTool.CastIsIdempotent: takes Python's `int`, `float`, `str` and `lower` as given functions.
- Planner.UsableContext: computes three fifths over the reals, where the code rounds a float product.
- Rules.MatchIsEarliestOfHighest: takes `fnmatch` as a given predicate and the file's name parts as given.

What the repository does and the model does not:

- Several sessions sharing one MEMORY.md and HISTORY.md, and direct processing that bypasses the processing lock.
- The order in which waiters get the consolidation lock: the model allows any.
- Session objects as heap objects: they are entries of a table, so aliasing is by index.
- Failing reads and saves of session files, the migration of old session paths, and timestamps of messages.
- Message keys of unexpected types. Distinct ids that collide once shortened are allowed; the linkage is proved all the same.
- Symbolic and hard links, a source that someone else changes while it is moved, file modes, directories that `MkdirAll` created before it failed, and an `os.Remove` that removes an empty directory at the destination.
- SHA-256 is taken as injective, and hashing as reading what the disk holds.
- A daemon that crashes with a persisted tracker, the event log, the executor's queue of undelivered events, and its start-up drain.
- Evaluation of cron expressions and time zones: an oracle that returns a later time or nothing.
- Size, MIME type and timestamp of watcher events, recursive watching and path expansion.
- The text built from a batch, the locks per watch target, the socket and polling of the Mochat channel.
- The merge prompt, the temporary files and the progress messages of a chunked run, and measuring a task.
- Tool execution, model calls, regular-expression parsers, channels, command line, configuration and prompts.
