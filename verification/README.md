# A verified model of the Gamchi turn ledger and its adapters

Gamchi runs coding-agent turns for several front ends at once. CLI, MCP and app-server processes share
one home directory of small JSON records (threads, turns, generations), guarded by file locks. Each turn
is driven by an adapter that launches an agent child process, feeds its updates into the turn record and
answers its permission requests; an app server turns the records into a notification stream on a
WebSocket.

This project models that machinery in Dafny and proves what it promises over every input, every
interleaving and every history. It has three layers.

**The ledger.** `Disk.dfy` states the atomic record operations and the invariant they keep. `Protocol.dfy`
is the same ledger one step lower: any number of processes, each taking one lock, doing one read, one
look of a probe, one write or one unlock at a time. The locks are the admit, thread, generation and `.live`
file locks and the mutexes of a process (its set of live files, the table of a `Ledger` value, the mutex of a
waiter). Errors may end an operation at any step, a process may crash between any two steps, a `Ledger` value
may be dropped in a living process, children die at any time, the thread pointer and client index may be
stale, wrong or unwritten. Writes store values computed from what was read earlier, so lost updates are possible a
priori. `ProtocolInvariant.dfy` and `ProtocolLocks.dfy` carry the invariant through every step, and
`ProtocolTheorems.dfy` states what follows for whole runs, `ProtocolAdmissions.dfy` where the records on disk come
from and why an admission is refused; `DroppedLedger.dfy` is one run in full. `Ledger.dfy` is the sequential
object: a class over maps of records whose methods follow the source operation by operation.

**The processes around it.** `Teardown.dfy` (parent exit against spawning), `Launch.dfy` and `LaunchRuns.dfy` (cancel
against launch), `Mapper.dfy` (agent updates to items to ledger), `Watcher.dfy` (polled records to notifications),
`SocketApprovals.dfy` (server requests and client replies), `Permissions.dfy` (decisions to permission
options) and `Sessions.dfy` (which agent session a prompt runs in).

**Codecs and resolution.** `Frames.dfy` (sections 5.2 and 5.3 of RFC 6455), `Confine.dfy` (lexical path
confinement), `Defaults.dfy` (model and effort), `Ids.dfy` (ids and client-key file names), `Records.dfy`
(the records themselves).

Runs are pairs of a state sequence and an action sequence (`Traces.dfy`); a theorem about runs speaks about every
position of every such pair. Identifiers are fresh when minted, a rename is one atomic write, time is an
arbitrary epoch parameter, and the outcome of every operating-system call is an unconstrained choice.

Where the code does not keep a property in general, the model keeps the code and states exactly when the
property holds:

* tool ids that equal `user-message`, `agent-message` or `plan`: `LedgerEqualsMapperIff`,
  `ReservedToolIdDiverges`;
* a client key sent with a request on an existing thread: `SessionInstructionsIff`, `PromptSessionIff`,
  `KeyOnReuseMixesInstructions`;
* a cancel whose read of the generation fails: `CancelLeavesNoChild`, `FailedLookSparesTheChild`;
* `worker_gone` for a turn whose owner process is alive and whose child never died: the `Ledger` value that kept
  the live file was dropped with the turn still in progress (`DeadVerdictIsHonest`, `FileTestIsExact`,
  `DroppedLedgerLooksDead`);
* `worker_gone` after the runner's own teardown or end-of-file mark: the runner publishes first except when the
  prompt fails, publishing fails, the recheck after the launch fails, giving up fails, or shutdown has begun
  (`OwnEndNeedsAFault`), and each of these alone is enough (`EachCauseSuffices`);
* a thread whose `in_progress_turn_id` is a live turn of another thread: `LiveTurnOnThreadLocked`; no run produces one.

The comment on `cancel_turn` says that teardown runs only when this call publishes `interrupted`; the code
also tears down for a turn it finds already interrupted, and the model follows the code.

## Model

| member | source | states |
|---|---|---|
| `Records.ParsePrintDecision` | crates/core/src/source_wire.rs:228-237 | parsing inverts printing for the four approval decisions, and nothing but a printed decision parses |
| `Records.DecisionWords` | crates/core/src/source_wire.rs:228-237 | the four words are `accept`, `acceptForSession`, `decline` and `cancel` |
| `Disk.RewriteFacts` | crates/core/src/ledger.rs:327-558 | no turn operation changes what identifies a turn, and on a terminal record only the two pending fields can still change |
| `Disk.RewriteWords` | crates/core/src/ledger.rs:327-558 | for each turn operation, when it writes at all and the whole record it writes, in literal words: `worker_gone` without a stop reason, `interrupted` with `cancelled`, the minted request, the printed decision, the published reasons |
| `Disk.FreshRecordCarries` | crates/core/src/ledger.rs:274-288 | a new turn has the thread, input, model, effort and client key of its request, each in its own field, and is otherwise blank and in progress |
| `Disk.PendingMeansUnanswered` | crates/core/src/ledger.rs:377-434 | a request is pending exactly while its turn is live, names a request, and no answer to it was recorded |
| `Disk.ApplyKeepsInv` | crates/core/src/ledger.rs:228-587 | every atomic operation keeps: links between records, one live turn per thread, one live turn per client key, pointers to own turns, holds with their owners, approvals in step with the recorded answers |
| `Disk.ApplyGrows` | crates/core/src/ledger.rs:228-587 | every atomic operation only extends history: records never vanish, terminal turns freeze, recorded answers stay |
| `ProtocolInvariant.StepFaithful` | crates/core/src/ledger.rs:243-300 | the value an actor writes, computed from its earlier reads, equals a legal atomic operation applied to the record as it is on disk at the write |
| `ProtocolLocks.NextKeepsInv` | crates/core/src/ledger.rs:243-558 | every step, error exit, crash, dropped ledger value and child death keeps the disk invariant, the lock table, every actor's knowledge and the live holds |
| `ProtocolTheorems.EveryStepIsAtomic` | crates/core/src/ledger.rs:320-558 | in every interleaving with crashes each step changes the disk as one legal atomic operation on the immediately preceding values, with the right lock held: no lost updates |
| `ProtocolTheorems.HistoryGrows` | crates/core/src/ledger.rs:228-587 | between any two moments of a run, records only evolve into later versions of themselves |
| `ProtocolTheorems.LiveTurnsAreUnique` | crates/core/src/ledger.rs:243-300 | at every moment a thread has at most one non-terminal turn and so has a non-empty client key |
| `ProtocolTheorems.PointerIsOnlyAHint` | crates/core/src/ledger.rs:694-717 | whatever the pointer holds, an admission creates only when every turn of the thread is terminal, and reports as busy exactly the one live turn |
| `ProtocolTheorems.IndexIsOnlyAHint` | crates/core/src/ledger.rs:671-692 | whatever the index file holds, an admission past its key check has found every turn with that key terminal |
| `ProtocolTheorems.DeduplicatedTurnIsLive` | crates/core/src/ledger.rs:243-252 | a deduplicating admission hands out a turn that is live on disk at that step and carries the key |
| `ProtocolTheorems.FirstTerminalWins` | crates/core/src/ledger.rs:487-558 | once terminal, a turn record stays as it is for the rest of the run, except that its pending fields may be cleared |
| `ProtocolTheorems.RespondAtMostOnce` | crates/core/src/ledger.rs:402-434 | over a whole run a request id receives at most one successful respond |
| `ProtocolTheorems.AnswerHasSource` | crates/core/src/ledger.rs:402-434 | a recorded answer was put there by one earlier respond for that request with that decision |
| `ProtocolTheorems.WaiterSeesRecordedDecision` | crates/core/src/ledger.rs:437-461 | a decision an observing waiter sees for a request is the one some respond recorded for that request |
| `ProtocolTheorems.DeadVerdictIsHonest` | crates/core/src/ledger.rs:748-770 | a probe finds a generation dead only if its owner crashed, the ledger value that kept its live file was dropped, end of file is marked, its recorded child is dead, or its live lock was never taken and the prober is another process; a freshly admitted turn has no window |
| `ProtocolTheorems.FileTestIsExact` | crates/core/src/ledger.rs:169-194 | under the thread lock the test of the live file is exact: it finds the file free if and only if the owner crashed, the keeping ledger value was dropped, or the file was never locked |
| `DroppedLedger.DroppedLedgerLooksDead` | crates/core/src/ledger.rs:39-50 | a run in which the owner lives, no child was recorded, no end of file is marked and the live lock had been taken, and the turn is still failed as `worker_gone` because its ledger value was dropped |
| `ProtocolTheorems.VerdictHasCase` | crates/core/src/ledger.rs:320-337 | every verdict has its case: a read of the generation record from disk, a deciding look at that very record, the thread lock held from the read to the verdict, and a verdict of dead if and only if that look saw end of file, a dead recorded child, a live file that no ledger keeps locked, or, when the file test erred, a crashed owner |
| `ProtocolTheorems.LookMeaning` | crates/core/src/ledger.rs:748-770 | in every state of every run what a look concludes is exactly this: dead at the file test when no ledger keeps the file locked or the test erred and the owner crashed, dead at the child when end of file is marked or the recorded child is gone; and it takes the owner for alive exactly on a hold of its own process, a locked hold of another, or, when the test erred, an owner that has not crashed |
| `ProtocolTheorems.ProbeBegan` | crates/core/src/ledger.rs:327-337 | the generation record a probe looks at was read from disk by that same actor, which has been probing it ever since |
| `ProtocolTheorems.ConvergenceIsJustified` | crates/core/src/ledger.rs:327-337 | every `worker_gone` in every run goes back to such a case whose deciding look saw one of those facts, and was justified in that |
| `ProtocolTheorems.CancelOfDeadIsNotInterrupted` | crates/core/src/ledger.rs:357-366 | a cancel converges the turn if and only if its own probe saw end of file, a dead child or a vanished owner, and interrupts it if and only if at its last look end of file was not marked and no recorded child was gone, after an earlier look had seen the owner hold the file or live |
| `ProtocolTheorems.LocksRise` | crates/core/src/ledger.rs:155-194 | file locks and mutexes are requested in strictly rising rank (admit, thread, generation, live, table, process set, waiter) and no two of one rank are held together |
| `ProtocolTheorems.OpeningNeverBlocks` | crates/core/src/ledger.rs:730-741 | the blocking request for the live file of a new turn never blocks |
| `ProtocolTheorems.NoWaitCycle` | crates/core/src/ledger.rs:772-814 | no chain of actors, of any length, in which each waits for a lock the next one holds ever repeats an actor |
| `ProtocolTheorems.NoDeadlock` | crates/core/src/ledger.rs:243-300 | in every reachable state, from any actor the chain of who waits for whom ends in an actor that can step |
| `ProtocolAdmissions.TurnsCarryTheirRequest` | crates/core/src/ledger.rs:243-288 | at every moment of every run, every turn on disk has the thread, input, model, effort and client key of an admission that some actor began before |
| `ProtocolAdmissions.GenerationsCarryTheirOwner` | crates/core/src/ledger.rs:257-273 | at every moment of every run, every generation on disk names the process of the actor that first wrote it and the time of that write |
| `ProtocolAdmissions.RefusalHasAReason` | crates/core/src/ledger.rs:243-300 | in every run an admission ends without naming a turn only because its thread does not exist or one of its own accesses to the disk failed, whatever pointer and index hold |
| `LedgerObject.ReplaceOrPush` | crates/core/src/ledger.rs:551-555 | the search loop of an item upsert replaces the first item of that id in place, else appends |
| `LedgerObject.VerdictMeaning` | crates/core/src/ledger.rs:748-770 | a live turn becomes failed with `worker_gone`, under observation and under cancel alike, if and only if its owner is gone, end of file is marked or its recorded child is gone; otherwise observing leaves it and cancelling makes it interrupted |
| `LedgerObject.ObserveConverges` | crates/core/src/ledger.rs:327-337 | observing changes nothing but a dead live turn, which converges, and leaves the liveness of every other turn as it was |
| `LedgerObject.ObserveAllConverges` | crates/core/src/ledger.rs:624-651 | so does observing any list of turns in any order |
| `LedgerObject.StoppedAtLive` | crates/core/src/ledger.rs:694-717 | a scan that stops at a live turn has found a turn that was live, unchanged, before the scan |
| `LedgerObject.PublishedMeaning` | crates/core/src/ledger.rs:512-536 | publishing replaces one turn, empties the pointer of its thread only where it names that turn, takes away only this ledger's own hold, and leaves every other record as it was |
| `LedgerObject.CreatedMeaning` | crates/core/src/ledger.rs:257-298 | an admission adds one generation and one turn with the fields of the request, points the thread at it if the write works, opens the live file, and changes nothing else |
| `LedgerObject.CreatedKeepsInv` | crates/core/src/ledger.rs:262-298 | the writes of an admission keep the invariant when thread and key are idle, with or without the pointer write |
| `LedgerObject.Ledger.PublishTerminalLocked` | crates/core/src/ledger.rs:512-536 | writes the terminal record, clears the pointer only if it names this turn, and releases this ledger's own hold |
| `LedgerObject.Ledger.ObserveLocked` | crates/core/src/ledger.rs:320-337 | returns terminal records unchanged; a live one is failed with `worker_gone` exactly when its owner is gone, end of file is marked or its recorded child is gone, and unchanged otherwise |
| `LedgerObject.Ledger.Cancel` | crates/core/src/ledger.rs:357-366 | exactly when the owner is gone, end of file is marked or the recorded child is gone, the turn ends failed with `worker_gone`; any other live turn ends interrupted; a terminal record is returned unchanged; all error cases |
| `LedgerObject.Ledger.PublishTerminal` | crates/core/src/ledger.rs:487-510 | succeeds exactly for a terminal status on a live turn, writes that status with the stop reason and the failure reason in their own fields, else changes nothing |
| `LedgerObject.Ledger.ParkApproval` | crates/core/src/ledger.rs:377-400 | succeeds exactly on a live turn without an undecided request, and leaves it pending |
| `LedgerObject.Ledger.ClearPending` | crates/core/src/ledger.rs:464-476 | clears only the named request, on terminal turns too |
| `LedgerObject.Ledger.Respond` | crates/core/src/ledger.rs:402-434 | succeeds exactly when some live turn has this request parked and undecided after convergence |
| `LedgerObject.Ledger.UpsertItemOn` | crates/core/src/ledger.rs:538-558 | succeeds exactly for a valid item id on a live turn, and upserts that item |
| `LedgerObject.Ledger.CreateThread` | crates/core/src/ledger.rs:228-241 | adds exactly one thread record, with no live turn |
| `LedgerObject.Ledger.SetAcpSessionId` | crates/core/src/ledger.rs:340-351 | changes only the session id of that thread |
| `LedgerObject.Ledger.SetChildPid` | crates/core/src/ledger.rs:560-573 | records the child and resets the end-of-file mark of that generation only |
| `LedgerObject.Ledger.MarkChildEof` | crates/core/src/ledger.rs:575-587 | sets the end-of-file mark of that generation only |
| `LedgerObject.Ledger.LiveTurnOnThreadLocked` | crates/core/src/ledger.rs:694-717 | for every thread record, missing pointers included, gives the answer of a full scan of the thread's turns, unless its `in_progress_turn_id` is a live turn of another thread, which is then returned |
| `LedgerObject.Ledger.InFlightByClient` | crates/core/src/ledger.rs:671-692 | returns a turn exactly when a live turn carries the key, despite stale, missing or colliding index files |
| `LedgerObject.Ledger.AdmitTurn` | crates/core/src/ledger.rs:243-300 | deduplicates, refuses or creates exactly as a full scan of the starting state decides; a created turn has each field of the request in its own place, and nothing but the new records is written |
| `Ids.SanitizeId` | crates/adapter-grok/src/map.rs:232-250 | every raw id becomes a valid ledger id and valid ids are left alone; in the others each character that is not a letter, digit, `-` or `_` becomes `_`, the rest stays in place, what exceeds 128 is cut, and an empty id becomes `id` |
| `Ids.BuildClientFilename` | crates/core/src/ledger.rs:927-941 | the two loops compute the hexadecimal name, or the hashed one when that is longer than 200 digits |
| `Ids.ClientFilenameMeaning` | crates/core/src/ledger.rs:927-941 | keys up to 100 bytes are written out in hexadecimal, longer ones become `h` and sixteen digits that read back as the hash |
| `Ids.HexMeaning` | crates/core/src/ledger.rs:928-931 | digits 2i and 2i+1 of the name are the value of byte i, high half first |
| `Ids.FnvStepMeaning` | crates/core/src/ledger.rs:935-939 | each byte is combined by exclusive or into the lowest byte of the hash, and the result is multiplied by the prime modulo 2 to the 64 |
| `Ids.ClientFilenameSeparates` | crates/core/src/ledger.rs:927-941 | names are injective on keys up to 100 bytes and never clash with hashed names |
| `Teardown.CounterCounts` | crates/adapter-grok/src/teardown.rs:68-79 | the gate counter is the number of spawners inside the gate, at every step |
| `Teardown.EveryChildAccounted` | crates/adapter-grok/src/teardown.rs:56-96 | every child ever created is torn down, in a slot, in its spawner's hands, or being killed, through the table-full and drop paths |
| `Teardown.CleanExit` | crates/adapter-grok/src/teardown.rs:105-119 | if exit leaves its loop having read the counter as 0, all slots are empty and every child ever created has been torn down |
| `Teardown.NoSpawnAfterCleanExit` | crates/adapter-grok/src/turn.rs:277-292 | and no child is created afterwards, however the spawners run on |
| `Teardown.UncleanExitIsOverdue` | crates/adapter-grok/src/teardown.rs:105-119 | in every run an exit that leaves with spawners still inside the gate came after the hard deadline |
| `Teardown.GateLetsThrough` | crates/adapter-grok/src/turn.rs:277-292 | an arriving spawner creates its child unless shutdown has begun, and then leaves the state as it found it |
| `Teardown.LiveTable.RegisterChildPid` | crates/adapter-grok/src/teardown.rs:156-169 | takes the first free slot and fails exactly when there is none |
| `Teardown.LiveTable.UnregisterChildPid` | crates/adapter-grok/src/teardown.rs:171-178 | clears exactly the slots that hold the pid |
| `Teardown.LiveTable.TeardownRegisteredChildren` | crates/adapter-grok/src/teardown.rs:180-187 | empties the table and tears down each pid it held, in slot order |
| `Launch.NextKeepsInv` | crates/adapter-grok/src/turn.rs:211-302 | every step of runner, cancellers, observers, child and owner keeps the launch invariant |
| `Launch.CancelLeavesNoChild` | crates/gamchi/src/ops.rs:131-144 | after a cancel that made or found the turn interrupted, a live child belongs to a runner that has not decided to keep it; a runner that talks to its child or has finished has none |
| `Launch.UndecidedRunnerReaps` | crates/adapter-grok/src/turn.rs:285-302 | such a runner tears its child down within a bounded number of its own steps, none of which waits for the child |
| `Launch.InterruptedStays` | crates/core/src/ledger.rs:357-366 | once terminal, the status never changes in any interleaving of launch, cancel and observation |
| `Launch.WorkerGoneHasACause` | crates/adapter-grok/src/turn.rs:285-441 | `worker_gone` is preceded by a child death, owner death, shutdown, prompt failure, or a failed ledger access while publishing, rechecking or giving up |
| `Launch.OwnEndNeedsAFault` | crates/adapter-grok/src/turn.rs:413-441 | the runner tears down the recorded child, marks end of file or lets its ledger value go with the turn still in progress only after the prompt, publishing, the recheck or giving up failed, or shutdown began |
| `Launch.NothingIsSpawned` | crates/adapter-grok/src/turn.rs:234-292 | in every run, a turn that is terminal when the runner first looks, or a shutdown that has begun when it stands at the gate, means that no child is ever created |
| `Launch.NothingIsPrompted` | crates/adapter-grok/src/turn.rs:293-302 | a runner that does not yet talk to its child when the turn ends or shutdown begins never does, whatever child it has created meanwhile |
| `Launch.EofIsLasting` | crates/adapter-grok/src/turn.rs:423-425 | once the runner has marked the end of file the mark stays for the rest of the run |
| `Launch.OnlyCancellersKill` | crates/gamchi/src/ops.rs:131-144 | whoever goes after the child in a run began as a cancel |
| `Launch.CancellerKills` | crates/gamchi/src/ops.rs:131-144 | a cancel that interrupts the turn or finds it interrupted leaves a recorded child dead by its own next steps |
| `Launch.RunnerPublishes` | crates/adapter-grok/src/turn.rs:413-441 | the runner publishes the mapped stop reason after the prompt and at the end and a failure when it gives up, on a live turn only, and touches the record at no other step |
| `LaunchRuns.EachCauseSuffices` | crates/adapter-grok/src/turn.rs:423-441 | each single cause is enough for `worker_gone` from every fresh turn; in particular a failed prompt, where teardown and the end-of-file mark come before publishing |
| `LaunchRuns.DeadAsTheLedgerSees` | crates/core/src/ledger.rs:748-770 | a generation is dead in the launch protocol exactly when the ledger of another process would find its owner gone, end of file marked, or its recorded child gone |
| `LaunchRuns.FailedLookSparesTheChild` | crates/gamchi/src/ops.rs:136-142 | when the read of the generation fails, a driven child of an interrupted turn can live on |
| `MapperModel.MapKind` | crates/adapter-grok/src/map.rs:194-205 | a mapped tool kind is never an excluded-fatal type, nor the type of a message or plan |
| `MapperModel.MapKindMeaning` | crates/adapter-grok/src/map.rs:194-205 | edits are file changes, executions and shell-like others are commands, fetches and searches about the web are web searches, and nothing else is an item |
| `MapperModel.ShellMeaning` | crates/adapter-grok/src/map.rs:207-213 | a tool is shell-like exactly when `shell`, `bash` or `zsh` stands in its title in whatever case or its raw input has a command |
| `MapperModel.WebMeaning` | crates/adapter-grok/src/map.rs:215-219 | a tool is about the web exactly when `http://`, `https://` or `www.` stands in its title and raw input put together |
| `MapperModel.ToolCallMeaning` | crates/adapter-grok/src/map.rs:119-133 | after a tool call its item has the call's id, title and type and is completed on done, failed on broken and in progress on every other status; a call of an unmapped kind changes nothing |
| `MapperModel.KnownToolMeaning` | crates/adapter-grok/src/map.rs:135-152 | an update of a known tool changes its item only: done completes it, broken fails it, every other status puts it in progress, and what it omits stays |
| `MapperModel.UnknownToolMeaning` | crates/adapter-grok/src/map.rs:153-166 | an update of an unknown tool appends an item, with an empty title and in progress where the update is silent |
| `MapperModel.Mapper.constructor` | crates/adapter-grok/src/map.rs:42-52 | a new mapper holds the completed user message only |
| `MapperModel.Mapper.Apply` | crates/adapter-grok/src/map.rs:60-78 | never reports an excluded-fatal type; changes at most one item and returns exactly that one |
| `MapperModel.Mapper.FinishAgentMessage` | crates/adapter-grok/src/map.rs:81-85 | completes the first agent message and returns it, or does nothing |
| `MapperModel.Mapper.ApplyToolUpdate` | crates/adapter-grok/src/map.rs:135-166 | updates a known tool in place, else stores a new tool item |
| `MapperModel.Mapper.StoreToolItem` | crates/adapter-grok/src/map.rs:168-177 | overwrites the indexed item of that id or appends and indexes it |
| `MapperModel.EffectSound` | crates/adapter-grok/src/map.rs:60-177 | every call of every mapper is a no-op, an in-place overwrite under the same id, or an append of a valid id |
| `MapperModel.PositionsAreStable` | crates/adapter-grok/src/map.rs:60-177 | ids keep their positions over every update sequence |
| `MapperModel.LedgerEqualsMapperIff` | crates/adapter-grok/src/turn.rs:555-570 | the upserted ledger items equal the mapper's, and ids are distinct, exactly when no call appended a tool under an id already taken |
| `MapperModel.AgentTextIsConcat` | crates/adapter-grok/src/map.rs:87-98 | the agent message is the ordered concatenation of its chunks, and exists exactly when there was one |
| `MapperModel.PlanTextIsLast` | crates/adapter-grok/src/map.rs:100-117 | the plan item shows the entries of the last plan received, one per line, and exists exactly when there was one |
| `MapperModel.JoinLinesMeaning` | crates/adapter-grok/src/map.rs:100-117 | joining two lists of plan entries is joining each and putting a line break between |
| `MapperModel.AgentItemIsSaid` | crates/adapter-grok/src/map.rs:81-98 | over every sequence of events the agent item is word for word what they said: started by the first chunk, lengthened by later ones, completed by the end of the prompt |
| `MapperModel.UserItemStays` | crates/adapter-grok/src/map.rs:42-52 | over every such sequence the first item is the completed user message |
| `MapperModel.IdsTellTypes` | crates/adapter-grok/src/map.rs:41-177 | over every such sequence ids and types match: `user-message`, `agent-message` and `plan` have their own types and tools have one of the three tool types |
| `MapperModel.ToolFinishesOnlyWhenTold` | crates/adapter-grok/src/map.rs:119-166 | a tool item becomes completed or failed only by an event on that tool that says exactly this; that each such event does it is the content of the three lemmas on tool events |
| `MapperModel.AvoidingReservedIsEnough` | crates/adapter-grok/src/map.rs:41-250 | when sanitised tool ids avoid the reserved ones: distinct valid ids, `tools` indexes exactly the tool items, types fit ids, ledger equals mapper, the user item is first and unchanged, the agent item is what the events said, plan text is the last plan |
| `MapperModel.ReservedToolIdDiverges` | crates/adapter-grok/src/map.rs:168-177 | a tool call named like the user message makes ledger and mapper differ |
| `MapperModel.LedgerFollowsMapper` | crates/adapter-grok/src/turn.rs:246-251 | interleaved with observations, cancels, publishes and approvals, a live record with nothing left to send equals the mapper's items |
| `Watcher.FinishedMeaning` | crates/gamchi/src/app_server.rs:505 | an item is finished exactly when its status is `completed` or `failed`, so for a tool exactly when the agent said done or broken |
| `Watcher.EmitItemNotifications` | crates/gamchi/src/app_server.rs:483-521 | the loop emits, per item, a start when its id is new and a completion when it is newly finished |
| `Watcher.EmitAllSound` | crates/gamchi/src/app_server.rs:483-521 | on any record: no id started or completed twice, completions follow starts, and the two sets remember exactly what was sent |
| `Watcher.EmitAllCovers` | crates/gamchi/src/app_server.rs:483-521 | afterwards every item of the record was started and every finished one completed |
| `Watcher.EmitAllAnnounces` | crates/gamchi/src/app_server.rs:483-521 | when the announced ids are the first ids of the record, afterwards they are all of its ids in its order |
| `Watcher.WatchTurn` | crates/gamchi/src/app_server.rs:419-481 | for every sequence of polls: started and completed at most once and in order, turn/completed once and last with the first terminal record, all of its items covered, every notification carries an item some poll returned |
| `Watcher.LedgerRecordsAreStable` | crates/core/src/ledger.rs:538-558 | in every run of the ledger the records of a turn never repeat an item id and later records begin with the ids of earlier ones, so clients learn of the items in the record's order |
| `SocketApprovals.NextKeepsInv` | crates/gamchi/src/app_server.rs:419-564 | every step of any number of watchers, the reader and the ledger keeps the correlation invariant |
| `SocketApprovals.RepliesReachTheirRequest` | crates/gamchi/src/app_server.rs:351-364 | a client reply reaches the ledger at most once, only for the request its number was issued for, with the decision it carried |
| `SocketApprovals.RequestsAreAskedOnce` | crates/gamchi/src/app_server.rs:473-478 | no number is used twice and no watcher asks twice about one ledger request |
| `SocketApprovals.NeverDisconnected` | crates/gamchi/src/app_server.rs:465-470 | an outstanding request is always registered or answered, so its channel is never found disconnected |
| `SocketApprovals.NumbersAreConsecutive` | crates/gamchi/src/app_server.rs:535 | the request numbers of a connection are 1000, 1001 and so on without a gap |
| `SocketApprovals.ReplyIsPassedOn` | crates/gamchi/src/app_server.rs:451-472 | a reply to an outstanding number ends the wait at the watcher's next look and reaches the ledger with its decision exactly when that is one of the four words |
| `SocketApprovals.StrangersAreIgnored` | crates/gamchi/src/app_server.rs:351-364 | a message that names no outstanding number changes nothing |
| `SocketApprovals.ParkedRequestIsAsked` | crates/gamchi/src/app_server.rs:473-478 | a watcher with nothing outstanding asks for a parked request it has not asked for, in its next round, under the next number |
| `Permissions.WaitPendingDecision` | crates/core/src/ledger.rs:437-461 | the first conclusive observation decides, and a decision is the one stored under this very request on a live turn |
| `Permissions.DecisionOptionMeaning` | crates/adapter-grok/src/turn.rs:616-641 | the option chosen for each decision, by kinds alone, and exactly when there is none |
| `Permissions.AutoAllow` | crates/adapter-grok/src/turn.rs:594-614 | selects an offered allow option, and cancels exactly when none is offered |
| `Permissions.AllowIffAccepted` | crates/adapter-grok/src/turn.rs:572-592 | a gated request selects an allow option exactly when the decision accepts and one is offered |
| `Permissions.RespondMeaning` | crates/adapter-grok/src/turn.rs:360-404 | over all five inputs of the handler: it allows if and only if the request is not replayed history, an allow option is offered, and the policy never asks or the request was parked and decided with accept or acceptForSession; it rejects if and only if it was parked and declined |
| `Permissions.AllowNeedsRecordedAccept` | crates/adapter-grok/src/turn.rs:360-404 | over every run, for replayed or live requests, parked or not, the handler of a policy that asks selects an allow option only for a parked live request for which accept or acceptForSession was recorded before |
| `Sessions.NextKeepsInv` | crates/adapter-grok/src/turn.rs:160-193 | every step of any number of runners keeps stored sessions tied to the thread and the request that created them |
| `Sessions.SessionInstructionsIff` | crates/adapter-grok/src/turn.rs:517-541 | a stored session carries its thread's instructions exactly when the creating request's thread has the same ones |
| `Sessions.PromptSessionIff` | crates/adapter-grok/src/turn.rs:474-548 | a prompt's session was stored on its turn's thread beforehand exactly when it is new or was loaded for that same thread |
| `Sessions.PromptFollowsItsRequest` | crates/adapter-grok/src/turn.rs:160-193 | in every run the prompt of a follow-up runs in the session that its thread had stored when the request was read, and that of any other request in one that was not loaded |
| `Sessions.PromptsRunInTheirSession` | crates/adapter-grok/src/turn.rs:474-548 | when client keys come only with first-turn requests, every prompt runs in a session stored on its thread before and created with exactly that thread's instructions |
| `Sessions.KeyOnReuseMixesInstructions` | crates/adapter-grok/src/turn.rs:211-228 | otherwise deduplication can put one thread's instructions into a session of another |
| `Frames.BigEndianRoundTrip` | crates/gamchi/src/app_server.rs:986-995 | big-endian lengths decode to what was encoded |
| `Frames.Unmask` | crates/gamchi/src/app_server.rs:1003-1007 | the in-place loop leaves in bit k of octet i exactly whether payload and mask octet `i % 4` differed there |
| `Frames.MaskedTwice` | crates/gamchi/src/app_server.rs:1003-1007 | masking twice is the identity |
| `Frames.MaskedBits` | crates/gamchi/src/app_server.rs:1003-1007 | a masked octet has a bit set exactly where the payload octet and mask octet `i % 4` differ |
| `Frames.HeaderBits` | crates/gamchi/src/app_server.rs:974-983 | final bit, three reserved bits, opcode, mask bit and marker stand at their places in section 5.2 of RFC 6455 |
| `Frames.LengthLayout` | crates/gamchi/src/app_server.rs:984-996 | the length is the marker itself, or 126 and two octets, or 127 and eight octets, high ones first |
| `Frames.ClientLayout` | crates/gamchi/src/app_server.rs:967-1009 | in a client frame the two header octets, the length, the mask and the masked payload follow one another, and every sent bit is determined by payload and mask |
| `Frames.ServerLayout` | crates/gamchi/src/app_server.rs:1011-1026 | a written frame is final and unmasked with the length in its shortest form, octet by octet |
| `Frames.ParseRefuses` | crates/gamchi/src/app_server.rs:968-999 | the reader reports the end before the second octet, then reserved bits, a missing mask bit, and a length above 16 MiB, in this order |
| `Frames.CutShort` | crates/gamchi/src/app_server.rs:967-1009 | every proper beginning of a client frame is the end of the stream or truncated, never a frame |
| `Frames.ParseEncoded` | crates/gamchi/src/app_server.rs:967-1009 | any masked frame up to 16 MiB in any length form, followed by anything, is read back exactly |
| `Frames.ParseAcceptsOnlyEncodings` | crates/gamchi/src/app_server.rs:967-1009 | whatever is accepted is the encoding of a valid masked frame |
| `Frames.StreamRoundTrip` | crates/gamchi/src/app_server.rs:967-1009 | any concatenation of masked frames decodes to exactly the list of final bit, opcode and payload |
| `Frames.ParseServerEncoded` | crates/gamchi/src/app_server.rs:1011-1026 | an independent client decoder reads each written frame back, whatever follows |
| `Frames.ServerStreamUnique` | crates/gamchi/src/app_server.rs:1011-1026 | the concatenated output of the writer decodes in one way only |
| `Frames.ShortestIsShortest` | crates/gamchi/src/app_server.rs:1013-1022 | the writer uses the unique shortest length form |
| `Frames.Connection.ReadFrame` | crates/gamchi/src/app_server.rs:967-1009 | the reader consumes exactly one parsed frame, or reports end, reserved bits, missing mask, excess length or truncation |
| `Frames.Connection.WriteFrame` | crates/gamchi/src/app_server.rs:1011-1026 | appends exactly one encoded frame |
| `Frames.Connection.ReadText` | crates/gamchi/src/app_server.rs:948-961 | returns the next final text payload and answers the pings before it, in order |
| `Frames.TextAfterControls` | crates/gamchi/src/app_server.rs:948-961 | control frames before a text frame are consumed, each ping is echoed once, the rest stays unread |
| `Frames.ReadingMeaning` | crates/gamchi/src/app_server.rs:948-961 | what each opcode does on any stream: final text is returned, pings are echoed, pongs skipped, and everything else, the end included, closes |
| `Confine.ConfinedPath` | crates/adapter-grok/src/turn.rs:643-669 | the stack loop succeeds exactly when the right-to-left reading of the joined path lies inside the root; the result is that reading, dot-free, with the root as prefix |
| `Confine.WalkIsResolve` | crates/adapter-grok/src/turn.rs:650-661 | the stack loop and the right-to-left reading agree on every component sequence |
| `Confine.WalkMeaning` | crates/adapter-grok/src/turn.rs:650-661 | after any components a dot changes nothing, a name and two dots cancel, and a root starts over |
| `Confine.RelativeNamesGoUnderRoot` | crates/adapter-grok/src/turn.rs:644-669 | a relative path of plain names is accepted and is the root followed by those names |
| `Confine.ConfinedIsFixedPoint` | crates/adapter-grok/src/turn.rs:643-669 | asking again for a confined path changes nothing |
| `Confine.EveryInsidePathIsReached` | crates/adapter-grok/src/turn.rs:662-668 | an absolute path of plain names is accepted exactly when it has the root as prefix |
| `Confine.ClimbingIsRefused` | crates/adapter-grok/src/turn.rs:655-657 | any positive number of parent steps from a non-empty root is refused |
| `Defaults.WhitespaceMeaning` | crates/adapter-grok/src/defaults.rs:125-128 | white space is exactly the white-space code points |
| `Defaults.TrimCuts` | crates/adapter-grok/src/defaults.rs:125-128 | trimming cuts white space off both ends and nothing else |
| `Defaults.NormalizeMeaning` | crates/adapter-grok/src/defaults.rs:125-137 | normalising yields non-blank trimmed values other than the alias, leaves exactly those alone, and fails exactly on blank input |
| `Defaults.NormalizeIdempotent` | crates/adapter-grok/src/defaults.rs:125-137 | normalising twice is normalising once |
| `Defaults.FirstTurnNormal` | crates/adapter-grok/src/defaults.rs:154-170 | a resolved first turn has a normal model and effort |
| `Defaults.FirstTurnMeaning` | crates/adapter-grok/src/defaults.rs:139-170 | a first turn uses the given model and effort, else the configured ones, else `grok-4.6` and `high`, with the alias written out, and is refused exactly when a deciding value is blank |
| `Defaults.FollowUpMeaning` | crates/adapter-grok/src/defaults.rs:173-198 | a follow-up keeps the frozen model, reuses the previous effort when it is omitted, and is refused exactly for another model or a blank value |
| `Defaults.FollowUpWords` | crates/adapter-grok/src/defaults.rs:173-198 | a follow-up runs the frozen model with the given effort, else the previous one, else the configured one, else `high`; another model is a mismatch that names both, a blank one is invalid |
| `Defaults.PreviousTurnEffort` | crates/adapter-grok/src/turn.rs:741-757 | the scan returns the effort of the turn greatest by start epoch and id, in whatever order the records are listed |
| `Defaults.LatestMeaning` | crates/adapter-grok/src/turn.rs:741-757 | that turn started no earlier than any other of the thread, and among those of its time has the greatest id |
| `Defaults.StringLessMeaning` | crates/adapter-grok/src/turn.rs:741-757 | ids are compared at the first character where they differ, a proper beginning being less |
| `Defaults.LatestIsUnique` | crates/adapter-grok/src/turn.rs:741-757 | that turn is unique when ids are distinct |
| `Defaults.ModelsStayFrozen` | crates/adapter-grok/src/turn.rs:158-220 | over every history each turn's model is its thread's frozen model and no stored effort is blank |

## Left out

- The file locks, process probes, signals and renames themselves: they are abstract steps with arbitrary outcomes; process ids are not reused within a run.
- Directory listings in the protocol are one atomic read of the set of turn files.
- A failing read or write ends the operation at that step through its error path; partly written files do not exist, because records are renamed into place.
- The contents of the waiter table, condition variables and time-outs: which waiters there are is an arbitrary choice of each step, and a waiter is a sequence of registering, observing and sleeping, between which it holds nothing.
- A dropped `Ledger` value gives up its holds in one step, when none of its operations is running.
- Start-epoch comparison against the system clock in `process_alive`: liveness of a recorded child is a fact of the state.
- The signal handler of the teardown module, which kills and exits without returning to any loop.
- Launch: the two late exits for a child without stdin or stdout, which publish and tear down like the earlier ones, and the upsert of the user message before the spawn.
- Teardown: two different children never get the same pid, and teardown of a process group ends it.
- Watcher.WatchTurn: assumes that socket writes succeed; a failed write of a start is not repeated by the code, so its completion could come without it.
- SocketApprovals.RequestsAreAskedOnce: counts requests that were written to the socket; after a failed write the code asks again under a new number, and the numbers are unbounded.
- MapperModel.LedgerFollowsMapper: assumes that the upserts of a live turn are written, and that no second runner, started by a deduplicated request, upserts items of its own; the code ignores upsert errors and does not exclude such a runner.
- Pongs go out without the writer mutex; the frame model has a single writer.
- Confine.ConfinedPath: is lexical, as the code is; Windows path prefixes and symbolic links below the root are not modelled.
- The parser of the home configuration, the launch command line, JSON encoding, the CLI and MCP surfaces, the HTTP upgrade and the git helpers: plumbing whose members would be easy.
