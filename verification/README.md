# Verification of the wish-core engine

Dafny models of the parts of wish-core where a wrong step loses or invents data, with proofs over
every input, every run and every interleaving. `dafny verify dfyconfig.toml` checks the whole project.

**Streams.** One reply of a model is assembled from up to 33 physical attempts. `StreamModel` says what
a reply means: a decoder, the records it is fed, and a caller that saves at a checkpoint and restores at
a rewind. `Recovering` is the recovery as a transition system against an adversarial network;
`EventStreams` is the object with its loop, proved to take exactly those steps. At every point before an
error the caller holds what one fresh decoder makes of the committed records and the current tail, and
from a service whose tokens mean what they say, any pattern of attempts that break, are refused or end
early ends in the output of the uninterrupted reply. `RecoveryRuns` says exactly which breaks are recovered,
and of a service that breaks only in such ways, that its reply is read to the end if and only if there was
room for every hop; `EarlyEnd` is an input on which half a reply passes for a whole one. `Usages` shows that saturating usage sums still form a monoid, which the running
totals need.

**Sessions.** `Persistence` interleaves an owner that caches its record with any number of senders, down
to the single assignments around each transaction, with failures, crashes and reopenings, and proves
that it is the serial form. `Sessions` gives the session's transactions as functions of the stored
session, `SessionTransactions` the same as the loops that compute them. `SessionLists` (input is
conserved, history is numbered), `SessionQueue` (what is consumed stays consumed, and where an edit puts an
input) and `SessionMachine` (phases, turns, outcomes) are the invariants of every operation; `SessionActions`
says what the executor is told to do after each of them, and with which context; `SessionPairs` (every request pairs its
tools) is one exactly for the operations that obey, and `Fragments` shows that what an interrupted reply
leaves behind does. `SessionRuns` puts the two halves together: over every interleaving the stored session
is the one the committed operations make, one whole after another, and so has those invariants, pairing if
and only if all that committed obeyed. `Observing` and `ToolRuns` are the executor's delivery of events and its
execution of a batch of tools.

**Background tools.** `BackgroundTools` is the hand-off of a running tool: a worker and a waiter race
through a gate, with a durable log, dropped callers whose writes go on without them, crashes and recovery.
A job starts once at most, its outcome is never both returned and queued, and where it is delivered it is
the tool's own. `BackgroundHandOff` says which jobs are handed over and that an undisturbed one is delivered;
`BackgroundRecovery` says exactly in which runs a job finishes once, and what recovery
settles.

**Images.** `Json` is the serializer with a reader that inverts it; `ImagePayload` and `ImageBinding` are
the splicing writer and the binding of images to tokens: the bytes sent are those of plain serialization.

**Smaller cores.** `Drafts` (upload quota), `Instructions` (replayed instruction log), `ConfigTree`,
`ConfigFile`, `ConfigRestore` and `ConfigSecrets` (redaction and its inverse), `Input` (splitting text at placeholders),
`Percent` (exact decimal scaling).

## Where the code does less than it promises

- **The draft quota can be exceeded.** An upload given up between the moment another admission checks the
  rescan mark and the moment it sums up (`src/application/draft_uploads.rs:131-154`) is in neither sum.
  `Drafts.QuotaExceeded` is a run that ends with 5 GiB on disk under a limit of 4 GiB.
  `Drafts.RunsKeepLoadIff` says exactly which runs stay within the limit with every upload taken at its
  worst, which `Drafts.LoadIsReached` shows the disk can come to; `Drafts.RunsKeepQuota` says that runs
  without such a disturbance are among them. The limit of 128 drafts holds without condition.
- **A background job can finish twice.** A request that opens a session may be dropped while recovery writes a
  job's finish; the write goes on (`src/utils/blocking.rs:33-38`) and checks nothing when it lands. If the
  session is opened again before that, the job is still unfinished and gets another. From every point at which
  a started job is unfinished and the session down, `BackgroundRecovery.FinishesTwice` is such a run, and
  `BackgroundRecovery.TwiceIsReached` begins it at nothing. `BackgroundRecovery.RunsFinishOnceIff` says exactly
  which runs finish every job once at most, `BackgroundRecovery.ClaimsAreReached` that nothing less will do.
- **Recovery can leave a started job without a finish.** A foreground dropped while it hands its tool over leaves
  the started event in flight, and neither unloading (`src/application/session.rs:197-204`) nor the next opening
  sees it. `BackgroundRecovery.UnsettledIsReached` has it land after the next opening's scan;
  `BackgroundRecovery.RecoveredIsSettledIff` says exactly when recovery leaves every start with one finish.
- **The published queue length can be stale.** A sender kept from an earlier opening of the session
  publishes to that opening's counter. `Persistence.StaleSenderUnpublished` is such a run;
  `Persistence.NextKeepsFresh` says exactly which steps keep the length right.
- **Redaction does not always come back unchanged.** Indexing for update creates a section that is
  missing, as null. `ConfigFile.RestoreUndoesRedact` says that the round trip is exact if and only if no
  section is missing, and what it gives otherwise; `ConfigFile.MissingSectionReturnsNull` is the smallest
  such configuration.
- **Ending a run directly while a batch of tools runs leaves calls without results**, and so does failing a
  side call then: `SessionPairs.CutOffIsUnpaired` is such a run. The session refuses neither.
  `SessionPairs.ApplyKeepsPairsIff` says exactly which operations keep the pairing: these two only between
  batches, an interruption only with a paired replay, and all others always. The executor does neither of
  the two during a batch (`src/executor/run.rs:112-222`), and `Fragments.ReplayIsPaired` shows that every
  replay is paired.
- **The end of a body is taken for the end of the reply** unless a token is held and the protocol's last
  record has not come. `Recovering.EndTakenIff` says so, and that the caller then gets the output of a reply
  that was no longer; a service is honest only if its bodies end early nowhere else. In
  `EarlyEnd.EarlyEndIsTaken` half a reply passes for a whole one.
- **A configuration whose section is not an object makes redaction and restoring panic**, because they index it
  for update (`src/application/config_file.rs:257-262`); the model's `NotAnObject` stands for that, and
  `ConfigFile.RedactsIff` and `ConfigRestore.RestoresIff` say when it does not happen.

## Model

| member | source | states |
|---|---|---|
| `Usages.SumUsageMonoid` | src/protocol/model_use/recovery.rs:76-92 | usage sums are associative with the unreported usage as identity, although each field saturates at 64 bits |
| `Usages.TotalUsageAppend` | src/protocol/model_use/recovery.rs:76-92 | a total may be taken over any grouping of the hops |
| `StreamModel.ReadThroughPrefix` | src/client/stream.rs:88-148 | an uninterrupted reading passes through every replayed prefix that has not stopped |
| `StreamModel.AccumulateStamp` | src/protocol/model_use/stream.rs:292-385 | a caller that takes a hop's events holds the hop's output after what it had, and the running total of usage |
| `StreamModel.TakeRewind` | src/protocol/model_use/stream.rs:302-313 | a scheduled recovery takes the caller back to exactly what it saved, with the usage as of the checkpoint |
| `StreamModel.RewindForgets` | src/protocol/model_use/stream.rs:297-313 | whatever comes between a checkpoint and a rewind to it leaves no trace |
| `Recovering.StepKeepsExact` | src/client/stream.rs:65-152 | every turn of the loop keeps: the caller's output and the live decoder are those of one fresh decoder fed the committed records and the tail; saved state and saved decoder are the committed records'; usage is the running total over the hops; hops and failures within budget, and as many rewinds as hops |
| `Recovering.ScheduleKeepsExact` | src/client/stream.rs:154-187 | scheduling a recovery keeps all of that, with the tail given up |
| `Recovering.ReopenKeepsExact` | src/client/stream.rs:189-225 | reopening keeps all of that, with the hop's committed usage moved into the total |
| `Recovering.StepStaysOnTrack` | src/client/stream.rs:65-152 | against an honest service, whose bodies may break anywhere and end early wherever another attempt follows, what was read and what is left continue the one reply from where the token points |
| `Recovering.DoneIsUninterrupted` | src/client/stream.rs:65-152 | a finished stream of an honest service has handed over exactly the output of the reply read in one attempt |
| `Recovering.EndTakenIff` | src/client/stream.rs:140-148 | a clean end of a body ends the stream exactly when no token is held or the last record was seen, with the output of the records read as a whole reply; otherwise it leads to another attempt |
| `EarlyEnd.EarlyEndIsTaken` | src/client/stream.rs:140-148 | of a reply of two records a body brings one and ends: with or without a recovery protocol the stream is over without an error, and the output is not the reply's |
| `Recovering.StepEnds` | src/client/stream.rs:107-132 | every turn lowers a lexicographic measure: reopenings left, a due reopening, records left |
| `Recovering.OpenIsExact` | src/client/stream.rs:30-48 | a new stream starts exact and on track |
| `Recovering.RecoveredRunIsExact` | src/client/stream.rs:65-225 | after any number of turns against any pattern of attempts that break, are refused or end early: output exact, and at the end that of the uninterrupted reply |
| `RecoveryRuns.BreakRecoversIff` | src/client/stream.rs:154-187 | a body broken by an error is recovered if and only if a token and a decoder are held, fewer than 32 reopenings and, with this one, fewer failures than attempts were made, and the protocol permits the error; otherwise that error ends the stream; and what the recovery leaves, field by field |
| `RecoveryRuns.RefusedRecordRecoversIff` | src/client/stream.rs:98-104 | so is a record the decoder refuses |
| `RecoveryRuns.RefusedReopeningRecoversIff` | src/client/stream.rs:189-225 | so is a refused reopening; a call that cannot be rebuilt ends the stream |
| `RecoveryRuns.EndRecoversIff` | src/client/stream.rs:83-86 | a continuation, or a clean end before the last record, needs room and no permission, and a continuation costs no failure and no delay |
| `RecoveryRuns.RecordTaken` | src/client/stream.rs:88-139 | what a record leaves: its mark's token, a copy of the decoder, no failures, the usage so far; without a mark everything saved stays |
| `RecoveryRuns.RunTellsSizeOnce` | src/client/stream.rs:107-126 | over every run the caller is told the prompt's size once at most, the first one reported, and no rewind has it told again |
| `RecoveryRuns.RunSucceedsIff` | src/client/stream.rs:65-225 | against an honest service that breaks and refuses only in permitted ways once a token is held, a run fails if and only if a hop was due without room |
| `RecoveryRuns.ReplyIsReadIff` | src/client/stream.rs:65-225 | such a reply is read to the end if and only if there was room for every hop, and then the caller holds the uninterrupted output |
| `EventStreams.EventStream.constructor` | src/client/stream_recovery.rs:27-49 | the fields of a new stream are those of the opened flow, and the stream is valid |
| `EventStreams.EventStream.ScheduleRecovery` | src/client/stream.rs:154-187 | succeeds exactly when the budget allows, and then takes the scheduling step; otherwise nothing changes but the failure |
| `EventStreams.EventStream.ReopenAttempt` | src/client/stream.rs:189-225 | takes the reopening step |
| `EventStreams.EventStream.Meter` | src/client/stream.rs:107-123 | the loop over a record's events stamps usage with the hops before, keeps the last, and finds the first prompt size |
| `EventStreams.EventStream.DecodeRecord` | src/client/stream.rs:88-139 | takes the decoding step: events, checkpoint, usage, terminal mark, stop |
| `EventStreams.EventStream.Next` | src/client/stream.rs:65-152 | returns for every network; hands over one event or ends; stays exact up to the first error; leads nearer to the end |
| `EventStreams.EventStream.ReadAhead` | src/client/stream.rs:229-234 | puts the first event back: nothing has been handed over |
| `EventStreams.ReadReply` | src/executor/model/execute.rs:147-177 | a caller that reads to the end or to an error never refuses an event, holds exactly what it was handed and what one decoder makes of it, and from an honest service ends with the uninterrupted output |
| `Persistence.RunsAreSerial` | src/session/persistence.rs:70-138 | in every interleaving the store is that of the committed transactions applied one after another, and the cached record is the stored one whenever the owner is not inside a transaction |
| `Persistence.NextKeepsFresh` | src/session/queue.rs:228-241 | a step keeps the published length exact if and only if it is not an earlier opening's sender changing the length |
| `Persistence.PublishedIsCommitted` | src/session/queue.rs:25-29 | while only the current opening's senders send, the published length is the committed one |
| `Persistence.UpdateInFour` | src/session/persistence.rs:70-106 | the owner's update with nobody in between: stored, cached and published, or all as it was, and the lock free |
| `Persistence.SendInThree` | src/session/persistence.rs:108-138 | so a sender's, refused if it leaves another record |
| `Persistence.StaleSenderUnpublished` | src/session/lifecycle.rs:98-117 | a run in which an earlier opening's sender defeats it |
| `Persistence.OpenSession.Update` | src/session/persistence.rs:70-93 | the owner's call is the serial transaction, kept in the cache and published, or nothing |
| `Persistence.OpenSession.Transact` | src/session/persistence.rs:113-138 | a sender's call is the serial transaction; it succeeds exactly when it succeeds and leaves the record as it is |
| `Persistence.OpenSession.Read` | src/session/persistence.rs:96-106 | reading sees the session as committed and changes nothing |
| `SessionLists.AppendInputKeepsLists` | src/session/queue.rs:200-208 | queueing keeps every invariant of the lists |
| `SessionLists.MoveKeepsLists` | src/session/queue.rs:74-111 | a move permutes the pending part and leaves the consumed part alone |
| `SessionLists.CancelKeepsLists` | src/session/queue.rs:114-125 | a cancellation takes one entry out of the pending part and leaves the consumed part alone |
| `SessionLists.ConsumeKeepsLists` | src/session/queue.rs:211-225 | consuming moves the pending part, in order, into context and history |
| `SessionLists.JoinInputsJoins` | src/session/queue.rs:211-225 | the input among the context and among the history is what was consumed, in queue order, once each |
| `SessionLists.RecordEventKeepsLists` | src/session/history.rs:72-93 | sequence numbers are positions, and the history holds every event once and in order |
| `SessionLists.AppendMessageKeepsLists` | src/session/history.rs:102-124 | entry ids are positions, and a message joins context and history |
| `SessionLists.ImportKeepsLists` | src/session/lifecycle.rs:146-164 | context-only messages join the context but no history, and compaction begins after the last of them |
| `SessionLists.InputsConserved` | src/session/queue.rs:31-125 | every entry ever queued is in exactly one of consumed, pending and cancelled, and nothing else is in any |
| `SessionQueue.ConsumedStays` | src/session/queue.rs:31-225 | over every run the consumed part of the queue is never altered, moved, taken out or made pending again |
| `SessionQueue.CancelTakesOne` | src/session/queue.rs:114-125 | a cancellation takes out the one pending input of that name, the others keep their order; what is not pending is refused |
| `SessionQueue.MovePlaces` | src/session/queue.rs:79-110 | a move puts the input directly before the one named or last, every two others keep their order, and one that changes no order changes nothing; what is not pending is refused |
| `SessionMachine.FinishRunFits` | src/session/machine.rs:225-238 | ending a run closes the open turn and leaves the session idle, or suspended on the event that holds its outcome |
| `SessionMachine.StartTurnFits` | src/session/machine.rs:146-163 | a started turn is the next one, with its input consumed and its call running |
| `SessionMachine.SettleResponseFits` | src/session/machine.rs:164-196 | a response is taken, rejected or ends the run, within the invariants |
| `SessionMachine.CompleteToolsFits` | src/session/machine.rs:208-222 | a drained batch ends its turn; an unknown outcome suspends the session |
| `SessionMachine.SettleFits` | src/session/machine.rs:257-282 | from every reachable unstable state settling succeeds and ends suspended |
| `SessionMachine.ApplyFits` | src/session/machine.rs:26-290 | every transaction keeps record and event log in agreement on phase, turn, consumed input and outcome |
| `SessionMachine.BoundaryClosesOneTurn` | src/session/machine.rs:219-222 | a boundary closes the one turn under way, so a turn has at most one |
| `SessionMachine.TurnsFollow` | src/session/machine.rs:146-163 | between two turns comes the boundary or a finish; the next turn is one more, or one and then a run has begun in between |
| `SessionMachine.RunsFit` | src/session/machine.rs:283-289 | over all runs: state changes form a connected path to the current phase, compaction wraps a stable state, a suspended state names its outcome, the lists are in order |
| `SessionMachine.NeverCorrupt` | src/session/machine.rs:126-143 | advancing fails only in the phases something else must end, and never as corrupt |
| `SessionActions.ReadyActs` | src/session/machine.rs:146-163 | from ready the model is called, with all pending input behind the context and as a running call, if a reply is owed or input is pending; otherwise the run is completed |
| `SessionActions.ResumeActs` | src/session/machine.rs:99-107 | a resume succeeds in a stable state only, and then the model is called for turn one |
| `SessionActions.CollectActs` | src/session/queue.rs:175-198 | an idle session with pending input calls the model; nothing else is changed by collecting |
| `SessionActions.ResponseActs` | src/session/machine.rs:164-196 | a reply that stopped otherwise or is unacceptable ends the run with that outcome and joins nothing; an accepted one joins the context, its calls are executed in its order, and without calls the model is called again only for pending input |
| `SessionActions.ToolsAct` | src/session/machine.rs:208-222 | a batch completes if and only if every call has an outcome; results in call order and then inputs join the context; the model is called with them unless an outcome is unknown, which ends the run |
| `SessionActions.InterruptionActs` | src/session/machine.rs:197-207 | what an interruption replays joins the context, and the run is told interrupted |
| `SessionActions.SettleActs` | src/session/machine.rs:257-282 | after a crash the run is told interrupted, or unknown where a started tool has no outcome, or what had suspended it before a compaction; a batch's results join the context |
| `SessionActions.FinishTells` | src/session/machine.rs:225-256 | after the end of a run the executor is told its outcome; a call still running is recorded as failed or interrupted |
| `SessionActions.CompactionReturns` | src/session/machine.rs:108-124 | the end of a compaction puts back the state it found |
| `SessionActions.CallIsRecorded` | src/session/machine.rs:28-72 | the end of a conversation call is in its record as completed, interrupted or failed |
| `SessionActions.PendingCallsJoin` | src/session/machine/tool_batch.rs:8-32 | the calls still to execute are those without an outcome, in order |
| `SessionActions.ToolCallsJoin` | src/session/machine.rs:292-322 | the calls of a reply are its tool uses, in order |
| `SessionActions.BatchInputsJoin` | src/session/machine/tool_batch.rs:90-126 | the inputs of a batch are those its outcomes carry, in order |
| `SessionActions.AcceptableIff` | src/session/machine.rs:308-322 | a reply is accepted if and only if it stopped for tools exactly when it makes calls, makes at most 64 well-formed ones under ids of their own, and holds only what a model writes |
| `SessionActions.ResultHasUse` | src/session/context/validation.rs:27-46 | in what the validator takes every result is of an earlier use of its id and name, with no input in between |
| `SessionActions.UseHasResult` | src/session/context/validation.rs:15-53 | in what it accepts every use has its result, before any input |
| `SessionActions.ToolIsRecorded` | src/session/machine/tool_batch.rs:33-66 | a tool's start and its outcome are marked on its call in the batch and told by an event; what is not in the batch is refused |
| `SessionPairs.ResponseOpensBatch` | src/session/machine.rs:292-322 | the calls of an accepted response are exactly those its messages leave open |
| `SessionPairs.ResultsCloseAll` | src/session/machine/tool_batch.rs:90-126 | the results of a batch close exactly its calls |
| `SessionPairs.FinishKeepsPairsIff` | src/session/machine.rs:225-238 | ending a run directly keeps the pairing if and only if no batch is running; otherwise the validator refuses the context |
| `SessionPairs.ApplyKeepsPairsIff` | src/session/context/validation.rs:15-53 | a transaction keeps every call of the context paired with its result if and only if it obeys |
| `SessionPairs.RunKeepsPairsIff` | src/session/context/validation.rs:15-53 | a run keeps the pairing at every point if and only if every transaction taken obeyed |
| `SessionPairs.RunsArePaired` | src/session/context/validation.rs:15-53 | over all runs, whenever no batch is running the validator accepts the context |
| `SessionPairs.CutOffIsUnpaired` | src/session/machine.rs:48-89 | runs that end directly, or fail a side call, while a tool is asked for leave a context the validator refuses |
| `Fragments.ReplayIsPaired` | src/protocol/model_use/stream/partial.rs:170-207 | whatever a reply was cut off in, what the session appends for it has a result for every call |
| `Fragments.PartsCallsApart` | src/protocol/model_use/stream/partial.rs:293-337 | the calls that go back name themselves and their tool, pass an object, and no two have one id |
| `Fragments.CallReturnsIff` | src/protocol/model_use/stream/partial.rs:293-337 | a tool call goes back if and only if it was streamed to its confirmed end, is named, passes an object and is the first of its id |
| `Fragments.TextReturns` | src/protocol/model_use/stream/partial.rs:293-308 | streamed text and whole items always go back |
| `Fragments.SealKeepsItsPart` | src/protocol/model_use/stream/partial.rs:338-358 | a signature that goes back has the part it seals right behind it in the fragment |
| `Fragments.SealsWithholdIff` | src/protocol/model_use/stream/partial.rs:338-358 | a part is withheld if and only if it is a bare signature with no text or call that goes back right behind it |
| `Fragments.GradeBlocks` | src/protocol/model_use/stream/partial.rs:251-273 | the loop over blocks and items computes the graded parts |
| `Fragments.CheckSeals` | src/protocol/model_use/stream/partial.rs:341-358 | marking one part after the other marks exactly the signatures without their part |
| `Fragments.BuildFragment` | src/protocol/model_use/stream/partial.rs:170-207 | the loop computes what is kept, then a result for each call |
| `Fragments.Interrupt` | src/protocol/model_use/stream/partial.rs:237-291 | closing an interrupted reply computes a paired replay |
| `SessionTransactions.SessionTransaction.Import` | src/session/lifecycle.rs:146-164 | the importing loop computes the import, cursor included |
| `SessionTransactions.SessionTransaction.MoveInput` | src/session/queue.rs:79-110 | the in-place move computes the moved queue, errors included |
| `SessionTransactions.SessionTransaction.CancelInput` | src/session/queue.rs:114-125 | the removal by position computes the cancelled queue |
| `SessionTransactions.SessionTransaction.TakeInputs` | src/session/queue.rs:211-225 | the consuming loop computes the consumption |
| `SessionTransactions.SessionTransaction.NextAction` | src/session/machine.rs:126-163 | computes the advanced session and the action, errors included |
| `SessionTransactions.SessionTransaction.TakeResponse` | src/session/machine.rs:164-196 | computes the settled response |
| `SessionTransactions.SessionTransaction.CancelRest` | src/session/machine/tool_batch.rs:70-86 | a started call without an outcome becomes unknown, one that never started cancelled |
| `SessionTransactions.SessionTransaction.Drain` | src/session/machine/tool_batch.rs:90-126 | results in call order, then the input they carry; says whether an outcome is unknown |
| `SessionTransactions.SessionTransaction.Settle` | src/session/machine.rs:257-282 | computes the settled session, errors included |
| `SessionRuns.InterleavingsAreRuns` | src/session/persistence.rs:70-138 | over every interleaving of owner and senders the stored session is the one the committed operations make of the new one, in their order, whole and each with success |
| `SessionRuns.InterleavingsFit` | src/session/lifecycle.rs:22-85 | from creation on, over every interleaving: all invariants of machine and lists, input conserved, the owner on the stored record |
| `SessionRuns.ConsumedStaysStored` | src/session/queue.rs:31-125 | between any two points of any interleaving the consumed input stays consumed, in the same places |
| `SessionRuns.InterleavingsPair` | src/session/context/validation.rs:15-53 | over every interleaving the stored calls are paired at every point if and only if every committed operation obeyed |
| `SessionRuns.PublishedQueueLength` | src/session/queue.rs:228-241 | the published length is the stored queue's |
| `Observing.ApplyExtends` | src/session/history.rs:69-93 | no transaction takes anything back from events or history |
| `Observing.DeliveredIsHeard` | src/executor/observe.rs:9-29 | delivering a stretch of history hands over the events recorded in it, once each and in order, without those of streams |
| `Observing.Watch.DeliverPage` | src/executor/observe.rs:15-27 | a page's events are handed over; an event it names is never missing |
| `Observing.Watch.DeliverNewEvents` | src/executor/observe.rs:9-29 | everything committed when the last page is read has been delivered, although others commit between pages |
| `Observing.RecordAndDeliver` | src/executor/observe.rs:31-40 | what is recorded is delivered with everything before it |
| `Observing.ObserverHearsAll` | src/executor/observe.rs:6-8 | after a delivery the observer has heard exactly the events since its run began |
| `ToolRuns.OrderlyBatch` | src/executor/tool.rs:9-85 | at most one outcome and one execution a call, execution only after its recorded start with its own result recorded, the limit in flight at every point, nothing started or run after a seen cancellation or, serially, after an unknown outcome or a yield |
| `ToolRuns.UnrunIsExcused` | src/executor/tool.rs:24-45 | a call settled without running was cancelled because a check saw the run cancelled or, serially, an earlier outcome is unknown; or failed because its tool is unknown; or, serially, deferred because a tool yielded; any other ran and has its own outcome |
| `ToolRuns.ExecuteSerial` | src/executor/tool.rs:19-51 | every call is settled, in order, within the serial rules |
| `ToolRuns.ExecuteParallel` | src/executor/tool.rs:52-82 | every call is settled, at most eight in flight, for every scheduler |
| `ToolRuns.ExecutedBatchCompletes` | src/session/machine/tool_batch.rs:33-66 | the session takes every start and outcome of the batch, and the batch can then be drained |
| `ToolRuns.CrashIsHonest` | src/session/machine/tool_batch.rs:67-86 | after a crash a tool whose body ran is never called cancelled, and one that never started is called just that |
| `BackgroundTools.ExactlyOnce` | src/application/background_tools.rs:94-202 | over every interleaving, dropped callers and abandoned writes included: an outcome returned in the foreground is never started or finished in the log; one start a job at most, and no finish without it; the body runs once at most; queued completions are the log's finishes; at most 32 workers |
| `BackgroundTools.DeliversWhatReturned` | src/application/background_tools.rs:133-166 | what is delivered, either way, is what the tool body returned, or recovery's unknown |
| `BackgroundHandOff.GivenUpStaysForeground` | src/application/background_tools.rs:163-198 | a job cancelled before its started event is begun to be written, or whose input could not be listened for, or whose started event was refused, never gets one and is never answered as going on, over every run |
| `BackgroundHandOff.HandsOverIff` | src/application/background_tools.rs:171-191 | a foreground with the gate hands over if and only if the job is neither cancelled nor through |
| `BackgroundHandOff.UndisturbedIsDelivered` | src/application/background_tools.rs:133-166 | unless its worker is killed or a write of its finish fails, a job's outcome waits for the foreground, is in the log if it was handed over, and is never told lost |
| `BackgroundHandOff.EveryJobCanEnd` | src/application/background_tools.rs:133-198 | from every point of every run a job in memory can come to its end by steps of its own, in which nothing fails |
| `BackgroundHandOff.ClosedStartsNothing` | src/application/background_tools.rs:83-93 | after a shutdown no tool body starts until the session is opened again |
| `BackgroundRecovery.RunsFinishOnceIff` | src/application/background_tools.rs:245-292 | over every run each job has at most one finish, those in flight and those a recovery has taken up included, at every point, if and only if no recovery takes up a job whose abandoned finish is still under way |
| `BackgroundRecovery.ClaimsAreReached` | src/application/background_tools.rs:228-242 | from every point the session can come to as many finishes of a job as it has, has in flight and has taken up |
| `BackgroundRecovery.FinishesTwice` | src/application/background_tools.rs:287-292 | from every down session with an unfinished job: an opener dropped while writing, and the next one, give it two finishes and two completions |
| `BackgroundRecovery.TwiceIsReached` | src/application/background_tools.rs:287-292 | such a run from nothing |
| `BackgroundRecovery.RecoveredIsSettledIff` | src/application/background_tools.rs:243-292 | from the scan to the end of recovery no body runs and nothing is answered, every start the scan saw has a finish, and a job has as many finishes as starts if and only if it had no more before and no abandoned write of it lands in between; after a crash none can |
| `BackgroundRecovery.RecoveryRunsNothing` | src/application/background_tools.rs:243-292 | while the session is down or being opened, however often that is cut off, no body runs, nothing is answered, and every finish written is an unknown one |
| `BackgroundRecovery.UnsettledIsReached` | src/application/background_tools.rs:171-191 | a run in which a dropped foreground's start lands after the scan and stays unfinished |
| `BackgroundTools.FinishFollowsStart` | src/application/background_tools.rs:228-242 | every finish in the log follows the one start of its job, and an only finish is the first |
| `BackgroundTools.ScanUnfinished` | src/application/background_tools.rs:248-277 | the scan of the log finds the unfinished jobs |
| `BackgroundTools.LedgerCounts` | src/application/background_tools.rs:248-277 | those are exactly the ones that started and did not finish |
| `BackgroundTools.Journal.Finish` | src/application/background_tools.rs:228-242 | finish and completion are written together |
| `BackgroundTools.Journal.Recover` | src/application/background_tools.rs:245-292 | recovery adds unknown finishes of unfinished jobs, each once, and if no write fails leaves none unfinished |
| `Json.EscapeConcat` | src/client/image_payload.rs:110-121 | a string may be escaped segment by segment |
| `Json.EscapeClean` | src/client/image_payload.rs:114-119 | escaping is the identity exactly on the fast path's strings |
| `Json.ValueReadsBack` | src/client/image_payload.rs:98-152 | every serialized tree reads back as itself, whatever bytes its strings hold |
| `ImagePayload.Output.WriteSegment` | src/client/image_payload.rs:113-120 | both paths append the escaped segment |
| `ImagePayload.Output.Write` | src/client/image_payload.rs:98-152 | appends exactly the plain serialization of the tree with its tokens replaced by data |
| `ImagePayload.Serialize` | src/client/image_payload.rs:90-97 | the bytes are the plain serialization of the substituted tree |
| `ImagePayload.ExpandsTheOne` | src/client/image_payload.rs:101-124 | a string carries at most one token, so the order of bindings does not matter |
| `ImagePayload.ExpandsIff` | src/client/image_payload.rs:101-124 | a string is sent as it is exactly where no token ends it alone or behind `data:…;base64,`; otherwise the first such token is replaced by its image's data and the head before it stays |
| `ImagePayload.SentAsRendered` | src/client/image_payload.rs:90-152 | what is sent is the request rendered with its images in place, and a receiver reads that tree |
| `ImageBinding.BindConversation` | src/client/image_payload.rs:30-89 | fails exactly when the images together exceed 24 MiB; otherwise every image, in order, has a token in its place and nothing else changed |
| `ImageBinding.PicturesAreBound` | src/client/image_payload.rs:30-89 | the bound images are the conversation's pictures, in order and each once, whoever speaks them: in the place of each stands the token its data is kept under, and no role, type or other block is changed |
| `ImageBinding.SizeIsLength` | src/client/image_payload.rs:46-56 | the size held against the limit is the length of all the data end to end |
| `ImageBinding.BindingRestores` | src/client/image_payload.rs:30-89 | putting the data back gives the conversation |
| `ImageBinding.SentWhole` | src/client/image_payload.rs:13-97 | binding, rendering and writing sends what rendering and plain serialization would |
| `Drafts.NextKeepsSound` | src/application/draft_uploads.rs:63-189 | every step keeps what the inventory knows of each directory |
| `Drafts.RunsKeepCount` | src/application/draft_uploads.rs:146-159 | over every interleaving at most 128 drafts |
| `Drafts.AdmissionKeepsLoadIff` | src/application/draft_uploads.rs:147-168 | an admission keeps the limit of bytes if and only if it counted all of the load or there is room for any upload |
| `Drafts.GrantedIff` | src/application/draft_uploads.rs:146-170 | an upload is admitted if and only if fewer than 128 other ids are listed and what is counted leaves room for its descriptor; what it may bring; a refusal changes nothing |
| `Drafts.EndsCount` | src/application/draft_uploads.rs:53-62 | what a completed, a given-up and a withdrawn upload count afterwards |
| `Drafts.RescanMeasures` | src/application/draft_uploads.rs:63-118 | a rescan measures every directory in which nothing runs, removes the expired ones and forgets what was given up |
| `Drafts.CountsAll` | src/application/draft_uploads.rs:131-154 | an admission with no upload given up since its check counts all of the load |
| `Drafts.RunsKeepQuota` | src/application/draft_uploads.rs:119-189 | over every interleaving without a disturbed admission at most 4 GiB on disk |
| `Drafts.RunsKeepLoadIff` | src/application/draft_uploads.rs:119-189 | over every interleaving the load stays within 4 GiB at every point if and only if every admission that reserved counted all of it or had room for any upload |
| `Drafts.LoadIsReached` | src/application/draft_uploads.rs:172-189 | the uploads under way can bring the whole load onto the disk |
| `Drafts.QuotaExceeded` | src/application/draft_uploads.rs:131-154 | a disturbed admission that ends with 5 GiB on disk |
| `Drafts.Inventory.Inspect` | src/application/draft_uploads.rs:63-118 | the scanning loop computes the rescanned inventory |
| `Drafts.Inventory.CountUp` | src/application/draft_uploads.rs:146-154 | the summing loops compute the count beside the id and the saturated bytes |
| `Drafts.Inventory.Finish` | src/application/draft_uploads.rs:146-170 | refuses exactly what is not admissible; otherwise reserves an allowance within the upload limit |
| `Instructions.IncrementalIsWhole` | src/application/model_observation.rs:144-188 | replaying on from the cursor is replaying from the beginning |
| `Instructions.CurrentIsUsable` | src/application/model_observation.rs:93-112 | notes that are what the log says stay good with any cursor behind, so applying own writes again does no harm |
| `Instructions.InstructionState.Refresh` | src/application/model_observation.rs:144-188 | the paged replay gives what the whole log says |
| `Instructions.InstructionState.Record` | src/application/model_observation.rs:73-113 | whatever fails, the kept notes are the log's; unless a commit failed they match the request key by key, and something was appended exactly when they did not before |
| `Instructions.MergedSlot` | src/application/model_observation.rs:81-92 | a slot of a request holds the first note that fills it and the content of each later one unless it says exactly what is there |
| `Instructions.SlotNamed` | src/application/model_observation.rs:130-142 | a note about an image fills the slot its text names up to the first closing bracket, any other the slot of its title |
| `Instructions.RecordTwice` | src/application/model_observation.rs:73-113 | the same request again appends nothing |
| `ConfigTree.HideLooks` | src/application/config_file.rs:219-224 | hiding changes what is at the named places and nothing else |
| `ConfigTree.RevealLooks` | src/application/config_file.rs:236-249 | revealing puts the stored value where there is a redacted one and changes nothing else |
| `ConfigTree.RevealOkIff` | src/application/config_file.rs:240-247 | it fails exactly when something redacted has nothing stored |
| `ConfigFile.Redact` | src/application/config_file.rs:215-228 | the nested loops compute the redacted tree |
| `ConfigFile.Restore` | src/application/config_file.rs:230-254 | the nested loops compute the restored tree |
| `ConfigFile.RedactMasks` | src/application/config_file.rs:215-228 | redacting hides exactly the secrets of the opened configuration |
| `ConfigFile.RestoreUndoesRedact` | src/application/config_file.rs:113-254 | restoring gives back the configuration with its sections opened, and the configuration itself if and only if no section is missing |
| `ConfigRestore.RestoresIff` | src/application/config_file.rs:230-254 | whatever is sent and stored, restoring succeeds if and only if every section can be opened and everything redacted has a stored value; then the stored values are at the redacted places and all else is as sent |
| `ConfigSecrets.SecretsAreMarked` | src/application/config_file.rs:112-229 | with every secret's place spelled out: the page is shown a mark for each secret, unless there is none or it is the empty proxy password, and elsewhere what is there |
| `ConfigSecrets.MarksAreFilled` | src/application/config_file.rs:112-254 | a save succeeds exactly where the sections open and each mark sent back has a stored secret that is not null; the secret then stands for the mark and everything else is as sent |
| `ConfigFile.RedactedShowsNoSecret` | src/application/config_file.rs:215-228 | a secret place shows null, an empty string where allowed, or the mark; every other place is as it was |
| `ConfigFile.RedactsIff` | src/application/config_file.rs:257-266 | redaction fails exactly where a section runs through something that is neither object, null nor missing |
| `ConfigFile.MissingSectionReturnsNull` | src/application/config_file.rs:257-261 | the empty configuration does not come back as it was |
| `Input.OccurrencesApart` | src/application/input.rs:56-58 | occurrences of placeholders never overlap |
| `Input.MatchIndices` | src/application/input.rs:56-58 | finds every occurrence, in order |
| `Input.Sorts` | src/application/input.rs:61-61 | sorting orders by start and permutes |
| `Input.AcceptedIff` | src/application/input.rs:43-55 | an input is accepted exactly where each placeholder is `<image-id>` or `<file-id>` of its own attachment, the id 64 hexadecimal digits, and no two are the same |
| `Input.OrderedParts` | src/application/input.rs:43-81 | refuses exactly invalid or repeated placeholders; otherwise the parts join to the text, no text part holds a placeholder, text is not cut without need, and attachments without a placeholder follow in order |
| `Input.OneSplit` | src/application/input.rs:43-81 | that leaves one result: any two such splits are equal |
| `Percent.ConvertRatioToPercent` | src/protocol/json_read.rs:48-80 | succeeds exactly on signed decimals with a digit; the result is exactly a hundred times as large, with no redundant zero |
| `Percent.MovePoint` | src/protocol/json_read.rs:63-78 | padding, splitting and trimming multiply by a hundred |
| `Percent.PointMoves` | src/protocol/json_read.rs:63-78 | the moved digits have the value of the old ones times a hundred |

## Assumptions

- A transaction of the store is atomic and its lists are sequences; random ids are fresh; the decoder is
  deterministic and its snapshot is its state.
- `StreamModel.Disciplined` is the stream contract of `src/protocol/model_use/stream.rs`: nothing follows
  the stop event, and a wire with a recovery protocol makes its stop event at the end of the body, without
  usage in it (`src/protocol/model_use/stream/google_generate_content.rs:103`).
- Only results that speak of the uninterrupted reply assume `Recovering.Honest`, that a resumed body
  continues where its token points, breaks anywhere, and ends early only where that leads to another
  attempt; the others hold for every network.
- A token of an image is non-empty, no two are equal, and no other string of the tree carries one; the
  renderer puts an image's data where it would put any other.
- An upload writes at most what it reserved; releasing a reservation, two stores in the code, is one step.
- That tool arguments parse as an object, and which reasoning a protocol takes back, are arbitrary functions
  in `Fragments`.

## Left out

- HTTP server, web assets, login, command line, MCP transport, provider clients, extension packages: input and output around libraries.
- Wire decoders and renderers: an arbitrary decoder and an arbitrary renderer stand for them.
- The text of retries, waits and messages of errors: delays are a function of the attempt, errors carry no more than the code branches on.
- After `next` has returned an error the stream is not used again in the model; the code's second call may panic (`src/client/stream.rs:81`).
- Compaction itself (summaries, standby generations, trimming) and history pruning: only its bracket, its side calls and its cursor are modelled.
- Generations: the context is the active one's entries; instruction updates remembered for the next generation are not modelled.
- The model call an entry or event belongs to, and times: stored beside what is modelled.
- No claim that a stable state has no running call: settling a compaction that kept a suspended state does not clear it (`src/session/machine.rs:272-279`).
- Shell executions recovered beside tools (`src/application/background_tools.rs:278-286`): their completions follow the same pattern.
- ConfigFile.Restore: the message for a missing secret, and which of several missing ones is named, are not modelled.
- Input.OrderedParts: positions count characters instead of bytes of UTF-8, which changes no slice because placeholders are ASCII.
- Files, sizes and materialized images of an input's attachments: only the order of its parts is modelled.
- The notes a request makes (`src/application/model_observation.rs:36-69`): the diff takes any notes.
- Migrations, settings, capability tables, presets: single-branch facts.
