/** The durable session: its record, its lists, and what one transaction does to them.

    Models `src/session/machine.rs`, `src/session/machine/tool_batch.rs`, `src/session/queue.rs`,
    `src/session/history.rs` and the parts of `src/session/statistics/calls.rs` they use. A transaction
    is a function of the session as stored; one that fails leaves it as it was. The interleaving of
    transactions is the subject of `Persistence`. */
module Sessions {
  import opened Prelude

  type EntryId = nat

  datatype Message =
    | User(text: string) | System(text: string) | Developer(text: string)
    | Assistant(text: string) | Reasoning(text: string)
    | ToolUse(call: ToolCall, argumentsAreObject: bool)
    | ToolResult(call: ToolCall)
    | UpstreamCompaction(content: string)

  datatype ToolCall = ToolCall(id: string, name: string)

  datatype ToolOutcome =
    | Success | SuccessWithInput(input: string) | Report(yielded: bool) | Failure | Cancelled | Unknown

  datatype Origin = Imported | FromInput | FromModel | FromTool | FromInterruption | FromContext | FromSummary

  datatype Entry = Entry(id: EntryId, origin: Origin, message: Message)

  datatype RunOutcome = Completed | Interrupted | ModelStopped | Failed | StreamFailed | ToolOutcomeUnknown

  datatype Phase = IdlePhase | ReadyPhase | CallingPhase | ExecutingPhase | SuspendedPhase | CompactingPhase

  datatype SessionState =
    | Idle
    | Ready(completed: nat, needsModel: bool)
    | CallingModel(turn: nat)
    | ExecutingTools(turn: nat, batch: nat)
    | Suspended(outcome: nat)
    | Compacting(resume: SessionState)

  datatype Event =
    | Created
    | MessageQueued(entry: EntryId)
    | InputMoved(entry: EntryId, before: Option<EntryId>)
    | InputCancelled(entry: EntryId)
    | InputsConsumed(from: nat, to: nat)
    | StateChanged(source: Phase, target: Phase)
    | TurnStarted(turn: nat)
    | StableBoundary(turn: nat)
    | Finished(outcome: RunOutcome)
    | ResponseAccepted(turn: nat, entryStart: nat, entryEnd: nat)
    | ResponseRejected
    | ResponseInterrupted
    | ToolStarted(call: ToolCall)
    | ToolFinished(call: ToolCall, result: ToolOutcome)
    | Application(note: string)
    | ModelStream(chunk: string)

  datatype HistoryItem = MessageItem(entry: EntryId) | EventItem(event: nat)
  datatype HistoryRecord = HistoryRecord(sequence: nat, item: HistoryItem)

  datatype ToolExecution = ToolExecution(call: ToolCall, started: bool, outcome: Option<ToolOutcome>)

  datatype CallStatus = Running | CallCompleted | CallInterrupted | CallFailed

  /** The session as stored: the record's fields first, then its lists. `context` is the active
      generation's entries, and `cursor` the position in it after which compaction begins. */
  datatype Db = Db(
    state: SessionState,
    head: nat,
    nextList: nat,
    activeCall: Option<nat>,
    entries: seq<Entry>,
    events: seq<Event>,
    history: seq<HistoryRecord>,
    context: seq<EntryId>,
    cursor: nat,
    queue: seq<EntryId>,
    calls: seq<CallStatus>,
    batches: map<nat, seq<ToolExecution>>)

  datatype SessionError =
    | Busy | UnexpectedPhase | InvalidInput | InvalidEntry(entry: EntryId) | UnpairedTools | Corrupt(what: string)

  type Step = Result<Db, SessionError>

  function PhaseOf(s: SessionState): Phase {
    match s
    case Idle => IdlePhase
    case Ready(_, _) => ReadyPhase
    case CallingModel(_) => CallingPhase
    case ExecutingTools(_, _) => ExecutingPhase
    case Suspended(_) => SuspendedPhase
    case Compacting(_) => CompactingPhase
  }

  predicate IsStable(s: SessionState) {
    s.Idle? || s.Ready? || s.Suspended?
  }

  predicate IsInput(m: Message) {
    m.User? || m.System? || m.Developer?
  }

  // ----- history.rs -----

  function RecordHistory(d: Db, item: HistoryItem): Db {
    d.(history := d.history + [HistoryRecord(|d.history|, item)])
  }

  function RecordEvent(d: Db, e: Event): Db {
    RecordHistory(d.(events := d.events + [e]), EventItem(|d.events|))
  }

  function CreateEntry(d: Db, m: Message, origin: Origin): Db {
    d.(entries := d.entries + [Entry(|d.entries|, origin, m)])
  }

  function AppendMessage(d: Db, m: Message, origin: Origin): Db {
    var id := |d.entries|;
    RecordHistory(CreateEntry(d, m, origin).(context := d.context + [id]), MessageItem(id))
  }

  function AppendMessages(d: Db, ms: seq<Message>, origin: Origin): Db {
    if ms == [] then d else AppendMessage(AppendMessages(d, Front(ms), origin), Last(ms), origin)
  }

  // ----- queue.rs -----

  function AppendInput(d: Db, m: Message): Db {
    RecordEvent(CreateEntry(d, m, FromInput).(queue := d.queue + [|d.entries|]), MessageQueued(|d.entries|))
  }

  function Position(ids: seq<EntryId>, id: EntryId): (r: Option<nat>)
    ensures r.Some? ==> r.value < |ids| && ids[r.value] == id && id !in ids[..r.value]
    ensures r.None? <==> id !in ids
  {
    if ids == [] then None
    else if ids[0] == id then Some(0)
    else
      var rest := Position(ids[1..], id);
      assert ids == [ids[0]] + ids[1..];
      if rest.None? then None
      else
        assert ids[..rest.value + 1] == [ids[0]] + ids[1..][..rest.value];
        Some(rest.value + 1)
  }

  function RemoveAt(ids: seq<EntryId>, k: nat): seq<EntryId>
    requires k < |ids|
  {
    ids[..k] + ids[k + 1..]
  }

  /** `pending` with `entry` taken out and put before `before`, or at the end. */
  function Moved(pending: seq<EntryId>, entry: EntryId, before: Option<EntryId>): seq<EntryId>
    requires entry in pending
  {
    var rest := RemoveAt(pending, Position(pending, entry).value);
    var target := if before.Some? then Position(rest, before.value) else None;
    var at := target.GetOr(|rest|);
    rest[..at] + [entry] + rest[at..]
  }

  function MoveQueuedInput(d: Db, entry: EntryId, before: Option<EntryId>): Step
    requires d.head <= |d.queue|
  {
    var pending := d.queue[d.head..];
    if entry !in pending then Err(InvalidEntry(entry))
    else if before.Some? && before.value !in pending then Err(InvalidEntry(before.value))
    else if before == Some(entry) || Moved(pending, entry, before) == pending then Ok(d)
    else Ok(RecordEvent(d.(queue := d.queue[..d.head] + Moved(pending, entry, before)), InputMoved(entry, before)))
  }

  function CancelQueuedInput(d: Db, entry: EntryId): Step
    requires d.head <= |d.queue|
  {
    var pending := d.queue[d.head..];
    if entry !in pending then Err(InvalidEntry(entry))
    else
      Ok(RecordEvent(d.(queue := RemoveAt(d.queue, d.head + Position(pending, entry).value)), InputCancelled(entry)))
  }

  /** `ids` join the context and the history, in order. */
  function JoinInputs(d: Db, ids: seq<EntryId>): Db {
    if ids == [] then d
    else
      var before := JoinInputs(d, Front(ids));
      RecordHistory(before.(context := before.context + [Last(ids)]), MessageItem(Last(ids)))
  }

  function ConsumeInputs(d: Db): Db
    requires d.head <= |d.queue|
  {
    var joined := JoinInputs(d, d.queue[d.head..]).(head := |d.queue|);
    if d.head != |d.queue| then RecordEvent(joined, InputsConsumed(d.head, |d.queue|)) else joined
  }

  function CollectInputs(d: Db): Db {
    if d.state.Idle? && d.head < |d.queue| then TransitionTo(d, Ready(0, true)) else d
  }

  // ----- machine.rs -----

  function TransitionTo(d: Db, next: SessionState): Db {
    RecordEvent(d.(state := next), StateChanged(PhaseOf(d.state), PhaseOf(next)))
  }

  /** Ends the running call, if its record is still running. */
  function AbandonRunningCall(d: Db, outcome: RunOutcome): Db {
    if d.activeCall.None? then d
    else
      var id := d.activeCall.value;
      var status := if outcome.Interrupted? then CallInterrupted else CallFailed;
      if id < |d.calls| && d.calls[id].Running? then d.(activeCall := None, calls := d.calls[id := status])
      else d.(activeCall := None)
  }

  function FinishRun(d: Db, outcome: RunOutcome): Db {
    var quiet := AbandonRunningCall(d, outcome);
    if outcome.Completed? then RecordEvent(TransitionTo(quiet, Idle), Finished(outcome))
    else
      var changed := RecordEvent(quiet, StateChanged(PhaseOf(d.state), SuspendedPhase));
      RecordEvent(changed, Finished(outcome)).(state := Suspended(|changed.events|))
  }

  function StartModelCall(d: Db): Db {
    d.(calls := d.calls + [Running], activeCall := Some(|d.calls|))
  }

  function CompleteModelCall(d: Db, status: CallStatus): Step {
    if d.activeCall.None? then Err(Corrupt("missing active model call"))
    else if d.activeCall.value >= |d.calls| then Err(Corrupt("missing model call record"))
    else Ok(d.(calls := d.calls[d.activeCall.value := status]))
  }

  datatype Action = Done(outcome: RunOutcome) | CallModel | ExecuteTools(calls: seq<ToolCall>)
  datatype Advanced = Advanced(db: Db, action: Action)

  function StartTurn(d: Db, completed: nat, needsModel: bool): Advanced
    requires d.head <= |d.queue|
  {
    if !needsModel && d.head == |d.queue| then Advanced(FinishRun(d, Completed), Done(Completed))
    else
      var calling := TransitionTo(StartModelCall(ConsumeInputs(d)), CallingModel(completed + 1));
      Advanced(RecordEvent(calling, TurnStarted(completed + 1)), CallModel)
  }

  function Advance(d: Db): Result<Advanced, SessionError>
    requires d.head <= |d.queue|
  {
    match d.state
    case Idle => Ok(Advanced(d, Done(Completed)))
    case Suspended(o) =>
      if o < |d.events| && d.events[o].Finished? then Ok(Advanced(d, Done(d.events[o].outcome)))
      else Err(Corrupt("invalid run outcome reference"))
    case Ready(completed, needsModel) => Ok(StartTurn(d, completed, needsModel))
    case ExecutingTools(_, batch) =>
      if batch in d.batches then Ok(Advanced(d, ExecuteTools(PendingCalls(d.batches[batch]))))
      else Err(Corrupt("missing batch"))
    case _ => Err(UnexpectedPhase)
  }

  datatype StopReason = StopNormal | StopForTools | StopOther
  datatype Response = Response(messages: seq<Message>, stop: StopReason)

  function ToolCalls(ms: seq<Message>): seq<Message> {
    if ms == [] then []
    else ToolCalls(Front(ms)) + if Last(ms).ToolUse? then [Last(ms)] else []
  }

  function CallsOf(uses: seq<Message>): seq<ToolCall>
    requires forall i :: 0 <= i < |uses| ==> uses[i].ToolUse?
  {
    seq(|uses|, i requires 0 <= i < |uses| => uses[i].call)
  }

  lemma {:induction false} ToolCallsAreUses(ms: seq<Message>)
    ensures forall i :: 0 <= i < |ToolCalls(ms)| ==> ToolCalls(ms)[i].ToolUse?
    decreases |ms|
  {
    if ms != [] { ToolCallsAreUses(Front(ms)); }
  }

  predicate ValidToolUse(m: Message) {
    m.ToolUse? && m.call.id != "" && m.call.name != "" && m.argumentsAreObject
  }

  predicate IsAcceptable(r: Response) {
    var uses := ToolCalls(r.messages);
    && |uses| <= 64
    && (r.stop.StopForTools? != (uses == []))
    && (forall i :: 0 <= i < |uses| ==> ValidToolUse(uses[i]))
    && (forall i, j :: 0 <= i < j < |uses| && uses[i].ToolUse? && uses[j].ToolUse? ==>
          uses[i].call.id != uses[j].call.id)
    && (forall i :: 0 <= i < |r.messages| ==> !IsInput(r.messages[i]) && !r.messages[i].ToolResult?)
  }

  function CompleteTurn(d: Db, turn: nat, needsModel: bool): Db {
    TransitionTo(RecordEvent(d, StableBoundary(turn)), Ready(turn, needsModel))
  }

  function StartToolBatch(d: Db, turn: nat, calls: seq<ToolCall>): Db {
    var batch := seq(|calls|, i requires 0 <= i < |calls| => ToolExecution(calls[i], false, None));
    TransitionTo(d.(nextList := d.nextList + 1, batches := d.batches[d.nextList := batch]),
                 ExecutingTools(turn, d.nextList))
  }

  function SettleResponse(d: Db, r: Response): Step {
    if !d.state.CallingModel? then Err(UnexpectedPhase)
    else if r.stop.StopOther? then Ok(FinishRun(d, ModelStopped))
    else if !IsAcceptable(r) then Ok(FinishRun(RecordEvent(d, ResponseRejected), Failed))
    else
      var turn := d.state.turn;
      var joined := AppendMessages(d, r.messages, FromModel);
      var accepted := RecordEvent(joined, ResponseAccepted(turn, |d.entries|, |joined.entries|));
      ToolCallsAreUses(r.messages);
      var calls := CallsOf(ToolCalls(r.messages));
      if calls == [] then Ok(CompleteTurn(accepted, turn, false)) else Ok(StartToolBatch(accepted, turn, calls))
  }

  function SettleInterruption(d: Db, replay: seq<Message>): Step {
    if !d.state.CallingModel? then Err(UnexpectedPhase)
    else
      var joined := AppendMessages(d, replay, FromInterruption);
      Ok(FinishRun(RecordEvent(RecordEvent(joined, ResponseInterrupted), StableBoundary(d.state.turn)), Interrupted))
  }

  /** Ends the running conversation call, then takes what it produced. */
  function EndModelCall(d: Db, status: CallStatus, settle: Db -> Step): Step {
    match CompleteModelCall(d, status)
    case Err(e) => Err(e)
    case Ok(completed) =>
      match settle(completed)
      case Err(e) => Err(e)
      case Ok(settled) => Ok(settled.(activeCall := None))
  }

  function AcceptResponse(d: Db, r: Response): Step {
    EndModelCall(d, CallCompleted, (c: Db) => SettleResponse(c, r))
  }

  function AcceptInterruption(d: Db, replay: seq<Message>): Step {
    EndModelCall(d, CallInterrupted, (c: Db) => SettleInterruption(c, replay))
  }

  function FailModelCall(d: Db, outcome: RunOutcome): Step {
    EndModelCall(d, CallFailed, (c: Db) => Ok(FinishRun(c, outcome)))
  }

  function Resume(d: Db): Step {
    if IsStable(d.state) then Ok(TransitionTo(d, Ready(0, true))) else Err(Busy)
  }

  function BeginCompaction(d: Db): Step {
    if IsStable(d.state) then Ok(TransitionTo(d, Compacting(d.state))) else Err(Busy)
  }

  function EndCompaction(d: Db): Step {
    if d.state.Compacting? then Ok(TransitionTo(d.(activeCall := None), d.state.resume)) else Err(UnexpectedPhase)
  }

  // ----- tool_batch.rs -----

  function PendingCalls(batch: seq<ToolExecution>): seq<ToolCall> {
    if batch == [] then []
    else PendingCalls(Front(batch)) + if Last(batch).outcome.None? then [Last(batch).call] else []
  }

  function FindCall(batch: seq<ToolExecution>, id: string): (r: Option<nat>)
    ensures r.Some? ==> r.value < |batch| && batch[r.value].call.id == id
    ensures r.None? ==> forall i :: 0 <= i < |batch| ==> batch[i].call.id != id
  {
    if batch == [] then None
    else if batch[0].call.id == id then Some(0)
    else
      var rest := FindCall(batch[1..], id);
      assert forall i :: 1 <= i < |batch| ==> batch[i] == batch[1..][i - 1];
      if rest.Some? then Some(rest.value + 1) else None
  }

  function UpdateExecution(d: Db, call: ToolCall, update: ToolExecution -> ToolExecution, e: Event): Step {
    if !d.state.ExecutingTools? then Err(UnexpectedPhase)
    else if d.state.batch !in d.batches then Err(Corrupt("missing batch"))
    else
      var batch := d.batches[d.state.batch];
      var at := FindCall(batch, call.id);
      if at.None? then Err(Corrupt("tool missing from active batch"))
      else
        Ok(RecordEvent(d.(batches := d.batches[d.state.batch := batch[at.value := update(batch[at.value])]]), e))
  }

  function MarkToolStarted(d: Db, call: ToolCall): Step {
    UpdateExecution(d, call, (x: ToolExecution) => x.(started := true), ToolStarted(call))
  }

  function RecordToolOutcome(d: Db, call: ToolCall, outcome: ToolOutcome): Step {
    UpdateExecution(d, call, (x: ToolExecution) => x.(outcome := Some(outcome)), ToolFinished(call, outcome))
  }

  /** A started call that has no outcome may have had effects; one that never started had none. */
  function CancelUnfinished(batch: seq<ToolExecution>): seq<ToolExecution> {
    seq(|batch|, i requires 0 <= i < |batch| =>
      if batch[i].outcome.Some? then batch[i]
      else batch[i].(outcome := Some(if batch[i].started then Unknown else Cancelled)))
  }

  predicate Settled(batch: seq<ToolExecution>) {
    forall i :: 0 <= i < |batch| ==> batch[i].outcome.Some?
  }

  predicate AnyUnknown(batch: seq<ToolExecution>) {
    exists i :: 0 <= i < |batch| && batch[i].outcome == Some(Unknown)
  }

  function ResultsOf(batch: seq<ToolExecution>): seq<Message> {
    seq(|batch|, i requires 0 <= i < |batch| => ToolResult(batch[i].call))
  }

  function InputsOf(batch: seq<ToolExecution>): seq<Message> {
    if batch == [] then []
    else
      InputsOf(Front(batch))
      + (if Last(batch).outcome.Some? && Last(batch).outcome.value.SuccessWithInput?
         then [User(Last(batch).outcome.value.input)] else [])
  }

  /** The batch's results in call order, then the input some of them carry; the batch is deleted. */
  function DrainBatch(d: Db, id: nat): Step {
    if id !in d.batches then Err(Corrupt("missing batch"))
    else if !Settled(d.batches[id]) then Err(Corrupt("unsettled tool batch"))
    else
      var results := AppendMessages(d, ResultsOf(d.batches[id]), FromTool);
      Ok(AppendMessages(results.(batches := d.batches - {id}), InputsOf(d.batches[id]), FromTool))
  }

  function CompleteTools(d: Db): Step {
    if !d.state.ExecutingTools? then Err(UnexpectedPhase)
    else
      match DrainBatch(d, d.state.batch)
      case Err(e) => Err(e)
      case Ok(drained) =>
        if AnyUnknown(d.batches[d.state.batch]) then
          Ok(FinishRun(RecordEvent(drained, StableBoundary(d.state.turn)), ToolOutcomeUnknown))
        else Ok(CompleteTurn(drained, d.state.turn, true))
  }

  function SettleInterrupted(d: Db): Step
    decreases d.state
  {
    match d.state
    case CallingModel(turn) => Ok(FinishRun(RecordEvent(d, StableBoundary(turn)), Interrupted))
    case ExecutingTools(_, batch) =>
      if batch !in d.batches then Err(Corrupt("missing batch"))
      else
        (match CompleteTools(d.(batches := d.batches[batch := CancelUnfinished(d.batches[batch])]))
         case Err(e) => Err(e)
         case Ok(done) => if done.state.Suspended? then Ok(done) else Ok(FinishRun(done, Interrupted)))
    case Compacting(resume) =>
      var resumed := TransitionTo(d, resume);
      if !IsStable(resume) then SettleInterrupted(resumed)
      else if resume.Suspended? then Ok(resumed)
      else Ok(FinishRun(resumed, Interrupted))
    case _ => Ok(d)
  }

  // ----- lifecycle.rs -----

  const EMPTY := Db(Idle, 0, 0, None, [], [], [], [], 0, [], [], map[])

  /** A message of another conversation, with the origin it had there. */
  datatype Past = Past(message: Message, origin: Origin)

  function MessagesIn(past: seq<Past>): seq<Message> {
    seq(|past|, i requires 0 <= i < |past| => past[i].message)
  }

  /** Entries that are in a context but in no history: summaries and other context-only text. */
  predicate IsContextOnly(origin: Origin) {
    origin.FromSummary? || origin.FromContext?
  }

  function ImportOne(d: Db, p: Past): Db {
    if IsContextOnly(p.origin) then CreateEntry(d, p.message, p.origin).(context := d.context + [|d.entries|])
    else AppendMessage(d, p.message, Imported)
  }

  function ImportAll(d: Db, past: seq<Past>): Db {
    if past == [] then d else ImportOne(ImportAll(d, Front(past)), Last(past))
  }

  /** The position after the last context-only message of `past`, imported from position `start` on. */
  function CursorIn(start: nat, past: seq<Past>): Option<nat> {
    if past == [] then None
    else if IsContextOnly(Last(past).origin) then Some(start + |past|)
    else CursorIn(start, Front(past))
  }

  function ImportMessages(d: Db, past: seq<Past>): Db {
    var cursor := CursorIn(|d.context|, past).GetOr(0);
    ImportAll(d, past).(cursor := if d.cursor < cursor then cursor else d.cursor)
  }

  /** A new session: its creation event, its imported conversation and its first input. */
  function Create(history: seq<Past>, firstInput: Option<Message>): Step {
    if !Paired(MessagesIn(history)) then Err(UnpairedTools)
    else if firstInput.Some? && !IsInput(firstInput.value) then Err(InvalidInput)
    else
      var created := RecordEvent(EMPTY, Created);
      var imported := ImportMessages(created, history);
      Ok(if firstInput.Some? then AppendInput(imported, firstInput.value) else imported)
  }

  function ImportHistory(d: Db, past: seq<Past>): Step {
    if !IsStable(d.state) then Err(Busy)
    else if !Paired(MessagesIn(past)) then Err(UnpairedTools)
    else Ok(ImportMessages(d, past))
  }

  /** The tool calls `ms` leave without a result, by id; nothing where a result has no call, a call
      comes twice, or input comes between a call and its result. */
  function OpenCalls(ms: seq<Message>): Option<map<string, string>> {
    if ms == [] then Some(map[])
    else
      var before := OpenCalls(Front(ms));
      if before.None? then None else PairStep(before.value, Last(ms))
  }

  function PairStep(open: map<string, string>, m: Message): Option<map<string, string>> {
    if m.ToolUse? then
      if ValidToolUse(m) && m.call.id !in open then Some(open[m.call.id := m.call.name]) else None
    else if m.ToolResult? then
      if m.call.id in open && open[m.call.id] == m.call.name then Some(open - {m.call.id}) else None
    else if IsInput(m) && open != map[] then None
    else Some(open)
  }

  predicate Paired(ms: seq<Message>) {
    OpenCalls(ms) == Some(map[])
  }

  // ----- every transaction of a session -----

  datatype Op =
    | Enqueue(message: Message)
    | AppEvent(note: string)
    | AppInput(note: string, message: Message)
    | MoveInput(entry: EntryId, before: Option<EntryId>)
    | CancelInput(entry: EntryId)
    | Collect
    | AdvanceRun
    | TakeResponse(response: Response)
    | TakeInterruption(replay: seq<Message>)
    | FailCall(outcome: RunOutcome)
    | StartTool(call: ToolCall)
    | TakeToolOutcome(call: ToolCall, result: ToolOutcome)
    | FinishTools
    | Finish(outcome: RunOutcome)
    | Settle
    | ResumeRun
    | Compact
    | EndCompact
    | StartSideCall
    | EndSideCall(status: CallStatus)
    | Stream(chunk: string)
    | Import(past: seq<Past>)

  function Apply(d: Db, op: Op): Step
    requires d.head <= |d.queue|
  {
    match op
    case Enqueue(m) => if IsInput(m) then Ok(AppendInput(d, m)) else Err(InvalidInput)
    case AppEvent(note) => Ok(RecordEvent(d, Application(note)))
    case AppInput(note, m) =>
      if IsInput(m) then Ok(AppendInput(RecordEvent(d, Application(note)), m)) else Err(InvalidInput)
    case MoveInput(entry, before) => MoveQueuedInput(d, entry, before)
    case CancelInput(entry) => CancelQueuedInput(d, entry)
    case Collect => Ok(CollectInputs(d))
    case AdvanceRun => (match Advance(d) case Err(e) => Err(e) case Ok(a) => Ok(a.db))
    case TakeResponse(r) => AcceptResponse(d, r)
    case TakeInterruption(replay) => AcceptInterruption(d, replay)
    case FailCall(outcome) => FailModelCall(d, outcome)
    case StartTool(call) => MarkToolStarted(d, call)
    case TakeToolOutcome(call, outcome) => RecordToolOutcome(d, call, outcome)
    case FinishTools => CompleteTools(d)
    case Finish(outcome) => Ok(FinishRun(d, outcome))
    case Settle => if IsStable(d.state) then Ok(d) else SettleInterrupted(d)
    case ResumeRun => Resume(d)
    case Compact => BeginCompaction(d)
    case EndCompact => EndCompaction(d)
    case StartSideCall => Ok(StartModelCall(d))
    case EndSideCall(status) => CompleteModelCall(d, status)
    case Stream(chunk) => Ok(RecordEvent(d, ModelStream(chunk)))
    case Import(past) => ImportHistory(d, past)
  }
}
