/** What the event log of a session says about its runs and turns, and that the record always agrees
    with it: invariants of `src/session/machine.rs` over every sequence of transactions. */
module SessionMachine {
  import opened Prelude
  import opened Sessions
  import opened SessionLists

  /** What reading the events in order knows: the phase, the phase a compaction keeps, the turn under
      way, the turns completed since the run began, and how much of the queue was consumed. */
  datatype Track = Track(phase: Phase, beneath: Phase, open: Option<nat>, completed: nat, consumed: nat)

  const START := Track(IdlePhase, IdlePhase, None, 0, 0)

  predicate Resting(p: Phase) {
    p.IdlePhase? || p.ReadyPhase? || p.SuspendedPhase?
  }

  /** The phases that may follow: a call only from ready, tools only from a call, a compaction only from
      rest and back to what it kept, ready only when no turn is open, and the end of a run from anywhere. */
  predicate MayFollow(t: Track, target: Phase) {
    match target
    case IdlePhase => true
    case SuspendedPhase => true
    case ReadyPhase => t.open.None? && (t.phase.CompactingPhase? ==> t.beneath.ReadyPhase?)
    case CallingPhase => t.phase.ReadyPhase?
    case ExecutingPhase => t.phase.CallingPhase?
    case CompactingPhase => Resting(t.phase) && t.open.None?
  }

  /** A run begins: fresh input, or a resumed or restarted session. */
  predicate Renews(source: Phase, target: Phase) {
    target.ReadyPhase? && Resting(source)
  }

  function Changed(t: Track, target: Phase): Track {
    t.(phase := target, beneath := if target.CompactingPhase? then t.phase else t.beneath,
       completed := if Renews(t.phase, target) then 0 else t.completed)
  }

  /** One event read; nothing where it does not follow: a change from another phase or to one that may
      not follow, a turn that is not the next one or starts inside another, a boundary of a turn that is
      not under way, a finish in a phase that goes on, or consumed input that does not adjoin what was
      consumed before. */
  function ReadEvent(t: Track, e: Event): Option<Track> {
    match e
    case StateChanged(source, target) =>
      if source == t.phase && MayFollow(t, target) then Some(Changed(t, target)) else None
    case TurnStarted(n) =>
      if t.open.None? && n == t.completed + 1 && t.phase.CallingPhase? then Some(t.(open := Some(n))) else None
    case StableBoundary(n) => if t.open == Some(n) then Some(t.(open := None, completed := n)) else None
    case Finished(_) => if t.phase.IdlePhase? || t.phase.SuspendedPhase? then Some(t.(open := None)) else None
    case InputsConsumed(a, b) => if a == t.consumed && a < b then Some(t.(consumed := b)) else None
    case _ => Some(t)
  }

  function ReadEvents(es: seq<Event>): Option<Track> {
    if es == [] then Some(START)
    else
      var before := ReadEvents(Front(es));
      if before.None? then None else ReadEvent(before.value, Last(es))
  }

  lemma ReadOne(d: Db, e: Event)
    ensures ReadEvents(RecordEvent(d, e).events)
            == if ReadEvents(d.events).None? then None else ReadEvent(ReadEvents(d.events).value, e)
    ensures ListsOk(ListsOf(d)) && Plain(e) ==> ListsOk(ListsOf(RecordEvent(d, e)))
  {
    hide ListsOk;
    assert Front(d.events + [e]) == d.events;
    if ListsOk(ListsOf(d)) && Plain(e) { RecordEventKeepsLists(d, e); }
  }

  /** The lists are in order, and the record's phase, consumed input and model call are those of the
      log, whatever turn is open. */
  ghost predicate Traced(d: Db) {
    && ListsOk(ListsOf(d))
    && ReadEvents(d.events).Some?
    && ReadEvents(d.events).value.phase == PhaseOf(d.state)
    && ReadEvents(d.events).value.consumed == d.head
    && d.head <= |d.queue|
    && (d.activeCall.Some? ==> d.activeCall.value < |d.calls|)
  }

  predicate OutcomeNamed(events: seq<Event>, s: SessionState) {
    s.Suspended? ==> s.outcome < |events| && events[s.outcome].Finished? && !events[s.outcome].outcome.Completed?
  }

  /** The turn the state is in, or the turns it has completed, are those of the log; a suspended state,
      also one kept by a compaction, names the outcome that suspended it; a compaction keeps only a
      stable state; and a call or batch under way exists. */
  predicate StateFits(d: Db) {
    ReadEvents(d.events).Some? &&
    var t := ReadEvents(d.events).value;
    match d.state
    case Idle => t.open.None?
    case Ready(completed, _) => t.open.None? && t.completed == completed
    case CallingModel(turn) => t.open == Some(turn) && d.activeCall.Some?
    case ExecutingTools(turn, batch) => t.open == Some(turn) && batch in d.batches
    case Suspended(_) => t.open.None? && OutcomeNamed(d.events, d.state)
    case Compacting(resume) =>
      && t.open.None? && IsStable(resume) && OutcomeNamed(d.events, resume)
      && t.beneath == PhaseOf(resume) && (resume.Ready? ==> t.completed == resume.completed)
  }

  ghost predicate MachineOk(d: Db) {
    Traced(d) && StateFits(d) && (forall b :: b in d.batches ==> b < d.nextList)
  }

  // ----- frames: appended messages and joined input touch neither the events nor the record -----

  lemma {:induction false} AppendMessagesFrame(d: Db, ms: seq<Message>, origin: Origin)
    ensures var r := AppendMessages(d, ms, origin);
            r == d.(entries := r.entries, history := r.history, context := r.context)
    ensures ListsOk(ListsOf(d)) && IsSpoken(origin) ==> ListsOk(ListsOf(AppendMessages(d, ms, origin)))
    decreases |ms|
  {
    hide ListsOk;
    if ms != [] { AppendMessagesFrame(d, Front(ms), origin); }
    if ListsOk(ListsOf(d)) && IsSpoken(origin) { AppendMessagesKeepsLists(d, ms, origin); }
  }

  lemma {:induction false} ImportAllFrame(d: Db, past: seq<Past>)
    ensures var r := ImportAll(d, past);
            r == d.(entries := r.entries, history := r.history, context := r.context)
    decreases |past|
  {
    if past != [] { ImportAllFrame(d, Front(past)); }
  }

  lemma ImportFrame(d: Db, past: seq<Past>)
    ensures var r := ImportMessages(d, past);
            r == d.(entries := r.entries, history := r.history, context := r.context, cursor := r.cursor)
    ensures ListsOk(ListsOf(d)) ==> ListsOk(ListsOf(ImportMessages(d, past)))
  {
    hide ListsOk, ImportAll;
    ImportAllFrame(d, past);
    if ListsOk(ListsOf(d)) { ImportKeepsLists(d, past); }
  }

  lemma {:induction false} JoinInputsFrame(d: Db, ids: seq<EntryId>)
    ensures var r := JoinInputs(d, ids);
            r == d.(history := r.history, context := r.context)
    decreases |ids|
  {
    if ids != [] { JoinInputsFrame(d, Front(ids)); }
  }

  // ----- steps -----

  predicate BatchesOk(d: Db) {
    forall b :: b in d.batches ==> b < d.nextList
  }

  lemma SuspendReads(d: Db, outcome: RunOutcome)
    requires Traced(d) && BatchesOk(d) && !outcome.Completed?
    ensures var changed := RecordEvent(d, StateChanged(PhaseOf(d.state), SuspendedPhase));
            MachineOk(RecordEvent(changed, Finished(outcome)).(state := Suspended(|changed.events|)))
  {
    hide ListsOk;
    ReadOne(d, StateChanged(PhaseOf(d.state), SuspendedPhase));
    ReadOne(RecordEvent(d, StateChanged(PhaseOf(d.state), SuspendedPhase)), Finished(outcome));
  }

  /** Whatever was open, finishing closes it and leaves the session idle or suspended on its outcome. */
  lemma FinishRunFits(d: Db, outcome: RunOutcome)
    requires Traced(d) && BatchesOk(d)
    ensures MachineOk(FinishRun(d, outcome))
    ensures FinishRun(d, outcome).state == if outcome.Completed? then Idle else Suspended(|d.events| + 1)
  {
    hide ListsOk;
    var quiet := AbandonRunningCall(d, outcome);
    assert Traced(quiet) && BatchesOk(quiet) && quiet.events == d.events && quiet.state == d.state;
    if outcome.Completed? {
      IdleReads(quiet);
    } else {
      SuspendReads(quiet, outcome);
    }
  }

  lemma IdleReads(d: Db)
    requires Traced(d) && BatchesOk(d)
    ensures MachineOk(RecordEvent(TransitionTo(d, Idle), Finished(Completed)))
  {
    hide ListsOk;
    TransitionReads(d, Idle);
    ReadOne(TransitionTo(d, Idle), Finished(Completed));
  }

  lemma TransitionReads(d: Db, next: SessionState)
    requires Traced(d) && MayFollow(ReadEvents(d.events).value, PhaseOf(next))
    ensures Traced(TransitionTo(d, next))
    ensures ReadEvents(TransitionTo(d, next).events) == Some(Changed(ReadEvents(d.events).value, PhaseOf(next)))
  {
    hide ListsOk;
    ReadOne(d.(state := next), StateChanged(PhaseOf(d.state), PhaseOf(next)));
  }

  /** Events that say nothing about runs, turns or consumed input. */
  predicate Aside(e: Event) {
    !e.StateChanged? && !e.TurnStarted? && !e.StableBoundary? && !e.Finished? && !e.InputsConsumed? && Plain(e)
  }

  lemma AsideKeeps(d: Db, e: Event)
    requires Aside(e)
    ensures ReadEvents(RecordEvent(d, e).events) == ReadEvents(d.events)
    ensures Traced(d) ==> Traced(RecordEvent(d, e))
    ensures MachineOk(d) ==> MachineOk(RecordEvent(d, e))
  {
    hide ListsOk;
    ReadOne(d, e);
  }

  lemma BoundaryReads(d: Db, turn: nat)
    requires Traced(d) && ReadEvents(d.events).value.open == Some(turn)
    ensures Traced(RecordEvent(d, StableBoundary(turn)))
    ensures ReadEvents(RecordEvent(d, StableBoundary(turn)).events)
            == Some(ReadEvents(d.events).value.(open := None, completed := turn))
  {
    hide ListsOk;
    ReadOne(d, StableBoundary(turn));
  }

  lemma CompleteTurnFits(d: Db, turn: nat, needsModel: bool)
    requires Traced(d) && BatchesOk(d) && ReadEvents(d.events).value.open == Some(turn)
    requires d.state.CallingModel? || d.state.ExecutingTools?
    ensures MachineOk(CompleteTurn(d, turn, needsModel)) && CompleteTurn(d, turn, needsModel).state.Ready?
  {
    hide ListsOk;
    BoundaryReads(d, turn);
    TransitionReads(RecordEvent(d, StableBoundary(turn)), Ready(turn, needsModel));
  }

  lemma ConsumeReads(d: Db)
    requires Traced(d)
    ensures Traced(ConsumeInputs(d))
    ensures var r := ConsumeInputs(d);
            && r == d.(head := |d.queue|, events := r.events, history := r.history, context := r.context)
            && ReadEvents(r.events) == Some(ReadEvents(d.events).value.(consumed := |d.queue|))
  {
    hide ListsOk;
    ConsumeKeepsLists(d);
    var joined := JoinInputs(d, d.queue[d.head..]).(head := |d.queue|);
    JoinInputsFrame(d, d.queue[d.head..]);
    ReadOne(joined, InputsConsumed(d.head, |d.queue|));
  }

  lemma CallStartFits(d: Db, turn: nat)
    requires Traced(d) && BatchesOk(d) && d.state.Ready? && d.activeCall.Some?
    requires ReadEvents(d.events).value.open.None? && ReadEvents(d.events).value.completed + 1 == turn
    ensures MachineOk(RecordEvent(TransitionTo(d, CallingModel(turn)), TurnStarted(turn)))
  {
    hide ListsOk, ReadEvents;
    TransitionReads(d, CallingModel(turn));
    ReadOne(TransitionTo(d, CallingModel(turn)), TurnStarted(turn));
  }

  lemma StartTurnFits(d: Db, completed: nat, needsModel: bool)
    requires MachineOk(d) && d.state == Ready(completed, needsModel)
    ensures MachineOk(StartTurn(d, completed, needsModel).db)
  {
    hide ListsOk, ReadEvents, ConsumeInputs, FinishRun;
    if !needsModel && d.head == |d.queue| {
      FinishRunFits(d, Completed);
    } else {
      ConsumeReads(d);
      CallStartFits(StartModelCall(ConsumeInputs(d)), completed + 1);
    }
  }

  lemma BatchStartFits(d: Db, turn: nat, calls: seq<ToolCall>)
    requires Traced(d) && BatchesOk(d) && d.state.CallingModel? && ReadEvents(d.events).value.open == Some(turn)
    ensures MachineOk(StartToolBatch(d, turn, calls)) && StartToolBatch(d, turn, calls).state.ExecutingTools?
  {
    hide ListsOk, ReadEvents;
    var batch := seq(|calls|, i requires 0 <= i < |calls| => ToolExecution(calls[i], false, None));
    TransitionReads(d.(nextList := d.nextList + 1, batches := d.batches[d.nextList := batch]),
                    ExecutingTools(turn, d.nextList));
  }

  lemma SettleResponseFits(d: Db, r: Response)
    requires MachineOk(d) && d.state.CallingModel? && SettleResponse(d, r).Ok?
    ensures MachineOk(SettleResponse(d, r).value) && !SettleResponse(d, r).value.state.CallingModel?
  {
    hide ListsOk, ReadEvents, FinishRun, AppendMessages, CompleteTurn, StartToolBatch, IsAcceptable;
    if r.stop.StopOther? {
      FinishRunFits(d, ModelStopped);
    } else if !IsAcceptable(r) {
      AsideKeeps(d, ResponseRejected);
      FinishRunFits(RecordEvent(d, ResponseRejected), Failed);
    } else {
      var joined := AppendMessages(d, r.messages, FromModel);
      AppendMessagesFrame(d, r.messages, FromModel);
      var e := ResponseAccepted(d.state.turn, |d.entries|, |joined.entries|);
      AsideKeeps(joined, e);
      ToolCallsAreUses(r.messages);
      CompleteTurnFits(RecordEvent(joined, e), d.state.turn, false);
      BatchStartFits(RecordEvent(joined, e), d.state.turn, CallsOf(ToolCalls(r.messages)));
    }
  }

  lemma SettleInterruptionFits(d: Db, replay: seq<Message>)
    requires MachineOk(d) && d.state.CallingModel?
    ensures SettleInterruption(d, replay).Ok? && MachineOk(SettleInterruption(d, replay).value)
    ensures SettleInterruption(d, replay).value.state.Suspended?
  {
    hide ListsOk;
    var joined := AppendMessages(d, replay, FromInterruption);
    AppendMessagesFrame(d, replay, FromInterruption);
    AsideKeeps(joined, ResponseInterrupted);
    BoundaryReads(RecordEvent(joined, ResponseInterrupted), d.state.turn);
    FinishRunFits(RecordEvent(RecordEvent(joined, ResponseInterrupted), StableBoundary(d.state.turn)), Interrupted);
  }

  lemma CompleteToolsFits(d: Db)
    requires MachineOk(d) && CompleteTools(d).Ok?
    ensures MachineOk(CompleteTools(d).value)
    ensures CompleteTools(d).value.state.Ready? || CompleteTools(d).value.state.Suspended?
    ensures AnyUnknown(d.batches[d.state.batch]) ==> CompleteTools(d).value.state.Suspended?
  {
    hide ListsOk;
    var id, turn := d.state.batch, d.state.turn;
    var results := AppendMessages(d, ResultsOf(d.batches[id]), FromTool);
    AppendMessagesFrame(d, ResultsOf(d.batches[id]), FromTool);
    AppendMessagesFrame(results.(batches := d.batches - {id}), InputsOf(d.batches[id]), FromTool);
    var drained := DrainBatch(d, id).value;
    assert Traced(drained);
    if AnyUnknown(d.batches[id]) {
      BoundaryReads(drained, turn);
      FinishRunFits(RecordEvent(drained, StableBoundary(turn)), ToolOutcomeUnknown);
    } else {
      CompleteTurnFits(drained, turn, true);
    }
  }

  /** From every reachable unstable state, settling after a crash succeeds and leaves the session
      suspended. */
  lemma SettleFits(d: Db)
    requires MachineOk(d) && !IsStable(d.state)
    ensures SettleInterrupted(d).Ok? && MachineOk(SettleInterrupted(d).value)
    ensures SettleInterrupted(d).value.state.Suspended?
  {
    hide ListsOk;
    match d.state
    case CallingModel(turn) =>
      BoundaryReads(d, turn);
      FinishRunFits(RecordEvent(d, StableBoundary(turn)), Interrupted);
    case ExecutingTools(_, batch) =>
      var settled := d.(batches := d.batches[batch := CancelUnfinished(d.batches[batch])]);
      assert Settled(settled.batches[batch]);
      assert MachineOk(settled);
      CompleteToolsFits(settled);
      var done := CompleteTools(settled).value;
      if !done.state.Suspended? { FinishRunFits(done, Interrupted); }
    case Compacting(resume) =>
      TransitionReads(d, resume);
      var resumed := TransitionTo(d, resume);
      if !resume.Suspended? { FinishRunFits(resumed, Interrupted); }
  }

  lemma SenderOpFits(d: Db, op: Op)
    requires MachineOk(d) && Apply(d, op).Ok?
    requires op.Enqueue? || op.AppEvent? || op.AppInput? || op.MoveInput? || op.CancelInput?
    ensures MachineOk(Apply(d, op).value)
  {
    hide ListsOk;
    match op
    case Enqueue(m) => InputFits(d, m);
    case AppEvent(note) => AsideKeeps(d, Application(note));
    case AppInput(note, m) =>
      AsideKeeps(d, Application(note));
      InputFits(RecordEvent(d, Application(note)), m);
    case MoveInput(entry, before) =>
      MoveKeepsLists(d, entry, before);
      QueueEditFits(d, Apply(d, op).value, InputMoved(entry, before));
    case CancelInput(entry) =>
      CancelKeepsLists(d, entry);
      QueueEditFits(d, Apply(d, op).value, InputCancelled(entry));
  }

  lemma InputFits(d: Db, m: Message)
    requires MachineOk(d)
    ensures MachineOk(AppendInput(d, m))
  {
    hide ListsOk;
    AppendInputKeepsLists(d, m);
    ReadOne(CreateEntry(d, m, FromInput).(queue := d.queue + [|d.entries|]), MessageQueued(|d.entries|));
  }

  /** A queue edit with its event, or none, keeps what the log says of runs and turns. */
  lemma QueueEditFits(d: Db, r: Db, e: Event)
    requires MachineOk(d) && ListsOk(ListsOf(r)) && (e.InputMoved? || e.InputCancelled?)
    requires r == d || (d.head <= |r.queue| && r == RecordEvent(d.(queue := r.queue), e))
    ensures MachineOk(r)
  {
    hide ListsOk;
    ReadOne(d.(queue := r.queue), e);
  }

  lemma NoCallFits(d: Db)
    requires MachineOk(d) && !d.state.CallingModel?
    ensures MachineOk(d.(activeCall := None))
  {
    hide ListsOk;
  }

  lemma CompleteCallFits(d: Db, status: CallStatus)
    requires MachineOk(d) && CompleteModelCall(d, status).Ok?
    ensures MachineOk(CompleteModelCall(d, status).value) && CompleteModelCall(d, status).value.state == d.state
  {
    hide ListsOk;
  }

  lemma CallOpFits(d: Db, op: Op)
    requires MachineOk(d) && Apply(d, op).Ok?
    requires op.TakeResponse? || op.TakeInterruption? || op.FailCall?
    ensures MachineOk(Apply(d, op).value)
  {
    hide ListsOk, MachineOk, SettleResponse, SettleInterruption, FinishRun;
    match op
    case TakeResponse(r) =>
      CompleteCallFits(d, CallCompleted);
      var completed := CompleteModelCall(d, CallCompleted).value;
      ResponseNeedsCall(completed, r);
      SettleResponseFits(completed, r);
      NoCallFits(SettleResponse(completed, r).value);
    case TakeInterruption(replay) =>
      CompleteCallFits(d, CallInterrupted);
      var completed := CompleteModelCall(d, CallInterrupted).value;
      InterruptionNeedsCall(completed, replay);
      SettleInterruptionFits(completed, replay);
      NoCallFits(SettleInterruption(completed, replay).value);
    case FailCall(outcome) =>
      CompleteCallFits(d, CallFailed);
      var completed := CompleteModelCall(d, CallFailed).value;
      UnpackMachine(completed);
      FinishRunFits(completed, outcome);
      NoCallFits(FinishRun(completed, outcome));
  }

  lemma UnpackMachine(d: Db)
    requires MachineOk(d)
    ensures Traced(d) && BatchesOk(d)
  {
    hide ListsOk;
  }

  lemma ResponseNeedsCall(d: Db, r: Response)
    ensures SettleResponse(d, r).Ok? <==> d.state.CallingModel?
  {
  }

  lemma InterruptionNeedsCall(d: Db, replay: seq<Message>)
    ensures SettleInterruption(d, replay).Ok? <==> d.state.CallingModel?
  {
  }

  lemma CollectFits(d: Db)
    requires MachineOk(d)
    ensures MachineOk(CollectInputs(d))
  {
    hide ListsOk;
    if d.state.Idle? { TransitionReads(d, Ready(0, true)); }
  }

  lemma AdvanceFits(d: Db)
    requires MachineOk(d) && Advance(d).Ok?
    ensures MachineOk(Advance(d).value.db)
  {
    hide ListsOk, StartTurn, ReadEvents;
    if d.state.Ready? { StartTurnFits(d, d.state.completed, d.state.needsModel); }
  }

  lemma ResumeFits(d: Db)
    requires MachineOk(d) && Resume(d).Ok?
    ensures MachineOk(Resume(d).value)
  {
    hide ListsOk;
    TransitionReads(d, Ready(0, true));
  }

  lemma BeginCompactionFits(d: Db)
    requires MachineOk(d) && BeginCompaction(d).Ok?
    ensures MachineOk(BeginCompaction(d).value)
  {
    hide ListsOk;
    TransitionReads(d, Compacting(d.state));
  }

  lemma EndCompactionFits(d: Db)
    requires MachineOk(d) && EndCompaction(d).Ok?
    ensures MachineOk(EndCompaction(d).value)
  {
    hide ListsOk;
    TransitionReads(d.(activeCall := None), d.state.resume);
  }

  lemma PhaseOpFits(d: Db, op: Op)
    requires MachineOk(d) && Apply(d, op).Ok?
    requires op.Collect? || op.AdvanceRun? || op.Finish? || op.Settle? || op.ResumeRun? || op.Compact? || op.EndCompact?
    ensures MachineOk(Apply(d, op).value)
  {
    hide MachineOk, CollectInputs, Advance, FinishRun, SettleInterrupted, Resume, BeginCompaction, EndCompaction;
    match op
    case Collect => CollectFits(d);
    case AdvanceRun => AdvanceFits(d);
    case Finish(outcome) =>
      UnpackMachine(d);
      FinishRunFits(d, outcome);
    case Settle => if !IsStable(d.state) { SettleFits(d); }
    case ResumeRun => ResumeFits(d);
    case Compact => BeginCompactionFits(d);
    case EndCompact => EndCompactionFits(d);
  }

  /** A call of the batch under way changes, and an event says so. */
  lemma ExecutionFits(d: Db, call: ToolCall, update: ToolExecution -> ToolExecution, e: Event)
    requires MachineOk(d) && Aside(e) && UpdateExecution(d, call, update, e).Ok?
    ensures MachineOk(UpdateExecution(d, call, update, e).value)
  {
    hide ListsOk;
    AsideKeeps(d.(batches := UpdateExecution(d, call, update, e).value.batches), e);
  }

  lemma SideCallFits(d: Db)
    requires MachineOk(d)
    ensures MachineOk(StartModelCall(d))
  {
    hide ListsOk;
  }

  lemma ImportFits(d: Db, past: seq<Past>)
    requires MachineOk(d)
    ensures MachineOk(ImportMessages(d, past))
  {
    hide ListsOk, ImportMessages;
    ImportFrame(d, past);
  }

  lemma ToolOpFits(d: Db, op: Op)
    requires MachineOk(d) && Apply(d, op).Ok?
    requires op.StartTool? || op.TakeToolOutcome? || op.FinishTools? || op.StartSideCall? || op.EndSideCall?
             || op.Stream? || op.Import?
    ensures MachineOk(Apply(d, op).value)
  {
    hide MachineOk, CompleteTools, StartModelCall, CompleteModelCall, ImportMessages, UpdateExecution;
    match op
    case StartTool(call) => ExecutionFits(d, call, (x: ToolExecution) => x.(started := true), ToolStarted(call));
    case TakeToolOutcome(call, outcome) =>
      ExecutionFits(d, call, (x: ToolExecution) => x.(outcome := Some(outcome)), ToolFinished(call, outcome));
    case FinishTools => CompleteToolsFits(d);
    case StartSideCall => SideCallFits(d);
    case EndSideCall(status) => CompleteCallFits(d, status);
    case Stream(chunk) => AsideKeeps(d, ModelStream(chunk));
    case Import(past) => ImportFits(d, past);
  }

  lemma ApplyFits(d: Db, op: Op)
    requires MachineOk(d) && Apply(d, op).Ok?
    ensures MachineOk(Apply(d, op).value)
  {
    hide ListsOk;
    if op.Enqueue? || op.AppEvent? || op.AppInput? || op.MoveInput? || op.CancelInput? {
      SenderOpFits(d, op);
    } else if op.TakeResponse? || op.TakeInterruption? || op.FailCall? {
      CallOpFits(d, op);
    } else if op.StartTool? || op.TakeToolOutcome? || op.FinishTools? || op.StartSideCall? || op.EndSideCall?
              || op.Stream? || op.Import? {
      ToolOpFits(d, op);
    } else {
      PhaseOpFits(d, op);
    }
  }

  // ----- what an orderly log says of turns -----

  lemma {:induction false} PrefixReads(es: seq<Event>, k: nat)
    requires ReadEvents(es).Some? && k <= |es|
    ensures ReadEvents(es[..k]).Some?
    ensures k < |es| ==> ReadEvent(ReadEvents(es[..k]).value, es[k]).Some?
                         && ReadEvents(es[..k + 1]) == ReadEvent(ReadEvents(es[..k]).value, es[k])
    decreases |es|
  {
    if k == |es| {
      assert es[..k] == es;
    } else if k == |es| - 1 {
      assert es[..k] == Front(es) && es[..k + 1] == es;
    } else {
      PrefixReads(Front(es), k);
      assert Front(es)[..k] == es[..k] && Front(es)[..k + 1] == es[..k + 1];
    }
  }

  /** The turn `n`, started at `i`, is still open at `k`: nothing since has started, bounded or finished. */
  ghost predicate OpenSince(es: seq<Event>, i: nat, k: nat, n: nat) {
    && i < k <= |es| && es[i] == TurnStarted(n)
    && forall j :: i < j < k ==> !es[j].TurnStarted? && !es[j].StableBoundary? && !es[j].Finished?
  }

  /** A boundary closes the one turn under way, so a turn has at most one. */
  lemma {:induction false} OpenTurnStarted(es: seq<Event>, k: nat)
    requires ReadEvents(es).Some? && k <= |es|
    ensures ReadEvents(es[..k]).Some?
    ensures ReadEvents(es[..k]).value.open.Some? ==>
              exists i :: OpenSince(es, i, k, ReadEvents(es[..k]).value.open.value)
  {
    PrefixReads(es, k);
    if k > 0 && ReadEvents(es[..k]).value.open.Some? {
      PrefixReads(es, k - 1);
      var n := ReadEvents(es[..k]).value.open.value;
      if es[k - 1].TurnStarted? {
        assert OpenSince(es, k - 1, k, n);
      } else {
        OpenTurnStarted(es, k - 1);
        var i :| OpenSince(es, i, k - 1, n);
        assert OpenSince(es, i, k, n);
      }
    }
  }

  lemma BoundaryClosesOneTurn(es: seq<Event>, k: nat)
    requires ReadEvents(es).Some? && k < |es| && es[k].StableBoundary?
    ensures exists i :: OpenSince(es, i, k, es[k].turn)
  {
    PrefixReads(es, k);
    OpenTurnStarted(es, k);
  }

  /** A run has begun between `i` and `k`. */
  ghost predicate RenewedBetween(es: seq<Event>, i: nat, k: nat)
    requires k <= |es|
  {
    exists j :: i < j < k && es[j].StateChanged? && Renews(es[j].source, es[j].target)
  }

  /** After turn `n`, before another starts: it is open, or it was bounded or the run finished; and the
      turns completed are `n`, or none because a run has begun since, unless the run is over and the next
      one will begin anew. */
  ghost predicate SinceTurn(es: seq<Event>, i: nat, k: nat, n: nat, t: Track)
    requires k <= |es|
  {
    if t.open.Some? then t.open == Some(n)
    else
      && (exists j :: i < j < k && (es[j] == StableBoundary(n) || es[j].Finished?))
      && (t.completed == n || (t.completed == 0 && RenewedBetween(es, i, k))
          || Over(t.phase) || (t.phase.CompactingPhase? && Over(t.beneath)))
  }

  predicate Over(p: Phase) {
    p.IdlePhase? || p.SuspendedPhase?
  }

  lemma {:induction false} TurnFollows(es: seq<Event>, i: nat, k: nat)
    requires ReadEvents(es).Some? && i < k <= |es| && es[i].TurnStarted?
    requires forall j :: i < j < k ==> !es[j].TurnStarted?
    ensures ReadEvents(es[..k]).Some? && SinceTurn(es, i, k, es[i].turn, ReadEvents(es[..k]).value)
    decreases k
  {
    PrefixReads(es, k - 1);
    if k > i + 1 {
      TurnFollows(es, i, k - 1);
      var before := ReadEvents(es[..k - 1]).value;
      var after := ReadEvents(es[..k]).value;
      if before.open.None? {
        var j :| i < j < k - 1 && (es[j] == StableBoundary(es[i].turn) || es[j].Finished?);
        assert i < j < k;
        var e := es[k - 1];
        assert RenewedBetween(es, i, k - 1) ==> RenewedBetween(es, i, k);
        if e.StateChanged? && Renews(e.source, e.target) { assert RenewedBetween(es, i, k); }
      } else if after.open.None? {
        assert i < k - 1 < k && (es[k - 1] == StableBoundary(es[i].turn) || es[k - 1].Finished?);
      }
    }
  }

  /** Between one turn and the next comes the turn's boundary or the run's finish; and the next turn is
      numbered one more, or one when a run has begun in between. */
  lemma TurnsFollow(es: seq<Event>, i: nat, k: nat)
    requires ReadEvents(es).Some? && i < k < |es| && es[i].TurnStarted? && es[k].TurnStarted?
    requires forall j :: i < j < k ==> !es[j].TurnStarted?
    ensures exists j :: i < j < k && (es[j] == StableBoundary(es[i].turn) || es[j].Finished?)
    ensures es[k].turn == es[i].turn + 1 || (es[k].turn == 1 && RenewedBetween(es, i, k))
  {
    PrefixReads(es, k);
    TurnFollows(es, i, k);
  }

  // ----- every run of a session -----

  lemma EmptyFits()
    ensures MachineOk(EMPTY)
  {
    assert Upto(0) == [];
  }

  lemma CreateFits(history: seq<Past>, firstInput: Option<Message>)
    requires Create(history, firstInput).Ok?
    ensures MachineOk(Create(history, firstInput).value)
  {
    hide ListsOk, ImportMessages, AppendInput, RecordEvent, ReadEvents, Paired;
    EmptyFits();
    AsideKeeps(EMPTY, Created);
    var created := RecordEvent(EMPTY, Created);
    ImportFrame(created, history);
    var imported := ImportMessages(created, history);
    if firstInput.Some? { InputFits(imported, firstInput.value); }
  }

  /** The session after any sequence of the owner's and the senders' transactions; a failed one changes
      nothing, and a crash between two of them is no step at all. */
  function Run(start: Db, ops: seq<Op>): Db
    requires MachineOk(start)
    ensures MachineOk(Run(start, ops))
    decreases |ops|
  {
    if ops == [] then start
    else
      var d := Run(start, Front(ops));
      var r := Apply(d, Last(ops));
      if r.Ok? then ApplyFits(d, Last(ops)); r.value else d
  }

  ghost function NewSession(history: seq<Past>, firstInput: Option<Message>): (d: Db)
    requires Create(history, firstInput).Ok?
    ensures MachineOk(d)
  {
    CreateFits(history, firstInput);
    Create(history, firstInput).value
  }

  /** What every run keeps: the log of state changes is a connected path to the current phase, the log
      and the record agree on turns and consumed input, and a suspended session names its outcome. */
  lemma RunsFit(history: seq<Past>, firstInput: Option<Message>, ops: seq<Op>)
    requires Create(history, firstInput).Ok?
    ensures var d := Run(NewSession(history, firstInput), ops);
            && ReadEvents(d.events).Some? && ReadEvents(d.events).value.phase == PhaseOf(d.state)
            && ReadEvents(d.events).value.consumed == d.head
            && (d.state.Compacting? ==> IsStable(d.state.resume))
            && OutcomeNamed(d.events, if d.state.Compacting? then d.state.resume else d.state)
            && ListsOk(ListsOf(d))
  {
    hide ListsOk, ReadEvents;
    var d := Run(NewSession(history, firstInput), ops);
    assert MachineOk(d);
  }

  /** Reading on never finds the session corrupt: advancing fails only in the phases that something else
      must end, and the end of a running call is always taken. */
  lemma NeverCorrupt(d: Db, r: Response)
    requires MachineOk(d)
    ensures Advance(d).Err? <==> d.state.CallingModel? || d.state.Compacting?
    ensures Advance(d).Err? ==> Advance(d).error == UnexpectedPhase
    ensures d.state.CallingModel? ==> AcceptResponse(d, r).Ok? && AcceptInterruption(d, r.messages).Ok?
  {
    hide ListsOk;
  }
}
