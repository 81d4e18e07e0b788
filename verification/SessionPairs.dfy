/** Every request a session makes pairs its tools: each call in the context is followed by its result
    before any other input. Invariant of `src/session/machine.rs`, `src/session/machine/tool_batch.rs`
    and `src/session/queue.rs` together, against the validator of `src/session/context/validation.rs`. */
module SessionPairs {
  import opened Prelude
  import opened Sessions
  import opened SessionLists
  import opened SessionMachine

  function MessagesOf(ids: seq<EntryId>, entries: seq<Entry>): seq<Message>
    requires Below(ids, |entries|)
  {
    seq(|ids|, i requires 0 <= i < |ids| => entries[ids[i]].message)
  }

  /** The calls `ms` leave open after `open`. */
  function OpenFrom(open: map<string, string>, ms: seq<Message>): Option<map<string, string>> {
    if ms == [] then Some(open)
    else
      var before := OpenFrom(open, Front(ms));
      if before.None? then None else PairStep(before.value, Last(ms))
  }

  lemma {:induction false} OpenSplits(xs: seq<Message>, ys: seq<Message>)
    requires OpenCalls(xs).Some?
    ensures OpenCalls(xs + ys) == OpenFrom(OpenCalls(xs).value, ys)
    decreases |ys|
  {
    if ys == [] {
      assert xs + ys == xs;
    } else {
      assert Front(xs + ys) == xs + Front(ys) && Last(xs + ys) == Last(ys);
      OpenSplits(xs, Front(ys));
    }
  }

  lemma {:induction false} OpenFromNothing(ms: seq<Message>)
    ensures OpenFrom(map[], ms) == OpenCalls(ms)
    decreases |ms|
  {
    if ms != [] { OpenFromNothing(Front(ms)); }
  }

  lemma {:induction false} InputsLeaveNothingOpen(ms: seq<Message>)
    requires forall i :: 0 <= i < |ms| ==> IsInput(ms[i])
    ensures OpenFrom(map[], ms) == Some(map[])
    decreases |ms|
  {
    if ms != [] { InputsLeaveNothingOpen(Front(ms)); }
  }

  // ----- a batch's calls -----

  function BatchOpen(batch: seq<ToolExecution>): map<string, string> {
    if batch == [] then map[] else BatchOpen(Front(batch))[Last(batch).call.id := Last(batch).call.name]
  }

  ghost predicate DistinctCalls(batch: seq<ToolExecution>) {
    forall i, j :: 0 <= i < j < |batch| ==> batch[i].call.id != batch[j].call.id
  }

  ghost predicate SameCalls(xs: seq<ToolExecution>, ys: seq<ToolExecution>) {
    |xs| == |ys| && forall i :: 0 <= i < |xs| ==> xs[i].call == ys[i].call
  }

  lemma {:induction false} SameCallsOpenSame(xs: seq<ToolExecution>, ys: seq<ToolExecution>)
    requires SameCalls(xs, ys)
    ensures BatchOpen(xs) == BatchOpen(ys)
    decreases |xs|
  {
    if xs != [] { SameCallsOpenSame(Front(xs), Front(ys)); }
  }

  lemma {:induction false} BatchOpenHolds(batch: seq<ToolExecution>)
    requires DistinctCalls(batch)
    ensures forall i :: 0 <= i < |batch| ==>
              batch[i].call.id in BatchOpen(batch) && BatchOpen(batch)[batch[i].call.id] == batch[i].call.name
    ensures forall id :: id in BatchOpen(batch) ==> exists i :: 0 <= i < |batch| && batch[i].call.id == id
    decreases |batch|
  {
    if batch != [] {
      BatchOpenHolds(Front(batch));
      forall id | id in BatchOpen(batch)
        ensures exists i :: 0 <= i < |batch| && batch[i].call.id == id
      {
        if id == Last(batch).call.id {
          assert batch[|batch| - 1].call.id == id;
        } else {
          var i :| 0 <= i < |Front(batch)| && Front(batch)[i].call.id == id;
          assert batch[i].call.id == id;
        }
      }
    }
  }

  /** The calls an accepted response makes are the ones its messages leave open. */
  lemma {:induction false} ResponseOpensBatch(ms: seq<Message>, batch: seq<ToolExecution>)
    requires forall i :: 0 <= i < |ms| ==> !IsInput(ms[i]) && !ms[i].ToolResult?
    requires |batch| == |ToolCalls(ms)| && DistinctCalls(batch)
    requires forall i :: 0 <= i < |batch| ==> ValidToolUse(ToolCalls(ms)[i]) && ToolCalls(ms)[i].call == batch[i].call
    ensures OpenFrom(map[], ms) == Some(BatchOpen(batch))
    decreases |ms|
  {
    if ms != [] {
      var before := Front(ms);
      if Last(ms).ToolUse? {
        assert ToolCalls(ms) == ToolCalls(before) + [Last(ms)];
        assert forall i :: 0 <= i < |batch| - 1 ==> ToolCalls(before)[i] == ToolCalls(ms)[i];
        ResponseOpensBatch(before, Front(batch));
        BatchOpenHolds(Front(batch));
        assert ToolCalls(ms)[|batch| - 1] == Last(ms);
      } else {
        assert ToolCalls(ms) == ToolCalls(before);
        ResponseOpensBatch(before, batch);
      }
    }
  }

  function FirstIds(batch: seq<ToolExecution>, k: nat): set<string>
    requires k <= |batch|
  {
    set x <- batch[..k] :: x.call.id
  }

  /** A batch's first results close its first calls. */
  lemma {:induction false} ResultsClose(batch: seq<ToolExecution>, k: nat)
    requires DistinctCalls(batch) && k <= |batch|
    ensures OpenFrom(BatchOpen(batch), ResultsOf(batch)[..k]) == Some(BatchOpen(batch) - FirstIds(batch, k))
  {
    if k == 0 {
      assert ResultsOf(batch)[..0] == [];
      assert BatchOpen(batch) - FirstIds(batch, 0) == BatchOpen(batch);
    } else {
      ResultsClose(batch, k - 1);
      NextToClose(batch, k - 1);
      hide BatchOpen, PairStep, FirstIds, ResultsOf;
      assert Front(ResultsOf(batch)[..k]) == ResultsOf(batch)[..k - 1];
      ResultCloses(BatchOpen(batch), FirstIds(batch, k - 1), batch[k - 1].call);
    }
  }

  lemma NextToClose(batch: seq<ToolExecution>, k: nat)
    requires DistinctCalls(batch) && k < |batch|
    ensures batch[k].call.id in BatchOpen(batch) && BatchOpen(batch)[batch[k].call.id] == batch[k].call.name
    ensures batch[k].call.id !in FirstIds(batch, k) && FirstIds(batch, k + 1) == FirstIds(batch, k) + {batch[k].call.id}
    ensures |ResultsOf(batch)| == |batch| && ResultsOf(batch)[k] == ToolResult(batch[k].call)
  {
    BatchOpenHolds(batch);
    hide BatchOpen;
    assert batch[..k + 1] == batch[..k] + [batch[k]];
  }

  lemma ResultCloses(open: map<string, string>, closed: set<string>, call: ToolCall)
    requires call.id in open && call.id !in closed && open[call.id] == call.name
    ensures PairStep(open - closed, ToolResult(call)) == Some(open - (closed + {call.id}))
  {
    assert open - closed - {call.id} == open - (closed + {call.id});
  }

  lemma ResultsCloseAll(batch: seq<ToolExecution>)
    requires DistinctCalls(batch)
    ensures OpenFrom(BatchOpen(batch), ResultsOf(batch)) == Some(map[])
  {
    ResultsClose(batch, |batch|);
    BatchOpenHolds(batch);
    assert ResultsOf(batch)[..|batch|] == ResultsOf(batch);
    assert forall id :: id in BatchOpen(batch) ==> id in FirstIds(batch, |batch|);
    assert BatchOpen(batch) - FirstIds(batch, |batch|) == map[];
  }

  // ----- the invariant -----

  ghost predicate InputEntriesOk(entries: seq<Entry>) {
    forall i :: 0 <= i < |entries| && entries[i].origin.FromInput? ==> IsInput(entries[i].message)
  }

  /** The calls the context leaves open. */
  ghost function Talk(d: Db): Option<map<string, string>>
    requires Below(d.context, |d.entries|)
  {
    OpenCalls(MessagesOf(d.context, d.entries))
  }

  /** Nothing is open but, while a batch runs, exactly its calls. */
  ghost predicate PairsOk(d: Db) {
    && Below(d.context, |d.entries|) && InputEntriesOk(d.entries)
    && (d.state.ExecutingTools? ==>
          d.state.batch in d.batches && d.batches[d.state.batch] != [] && DistinctCalls(d.batches[d.state.batch]))
    && Talk(d) == Some(if d.state.ExecutingTools? then BatchOpen(d.batches[d.state.batch]) else map[])
  }

  /** Appended messages continue what the context leaves open. */
  lemma {:induction false} TalkAppends(d: Db, ms: seq<Message>, origin: Origin)
    requires Below(d.context, |d.entries|) && Talk(d).Some? && InputEntriesOk(d.entries) && !origin.FromInput?
    ensures var r := AppendMessages(d, ms, origin);
            && Below(r.context, |r.entries|) && InputEntriesOk(r.entries)
            && MessagesOf(r.context, r.entries) == MessagesOf(d.context, d.entries) + ms
            && Talk(r) == OpenFrom(Talk(d).value, ms)
    decreases |ms|
  {
    hide OpenCalls, OpenFrom;
    var r := AppendMessages(d, ms, origin);
    if ms == [] {
      assert MessagesOf(d.context, d.entries) + ms == MessagesOf(d.context, d.entries);
    } else {
      TalkAppends(d, Front(ms), origin);
      var before := AppendMessages(d, Front(ms), origin);
      assert Front(ms) + [Last(ms)] == ms;
      assert MessagesOf(r.context, r.entries) == MessagesOf(before.context, before.entries) + [Last(ms)];
    }
    OpenSplits(MessagesOf(d.context, d.entries), ms);
  }

  /** So do imported ones, those that join no history included. */
  lemma {:induction false} TalkImports(d: Db, past: seq<Past>)
    requires Below(d.context, |d.entries|) && InputEntriesOk(d.entries)
    ensures var r := ImportAll(d, past);
            && Below(r.context, |r.entries|) && InputEntriesOk(r.entries)
            && MessagesOf(r.context, r.entries) == MessagesOf(d.context, d.entries) + MessagesIn(past)
    decreases |past|
  {
    var r := ImportAll(d, past);
    if past == [] {
      assert MessagesOf(d.context, d.entries) + MessagesIn(past) == MessagesOf(d.context, d.entries);
    } else {
      TalkImports(d, Front(past));
      var before := ImportAll(d, Front(past));
      assert MessagesIn(Front(past)) + [Last(past).message] == MessagesIn(past);
      assert MessagesOf(r.context, r.entries) == MessagesOf(before.context, before.entries) + [Last(past).message];
    }
  }

  lemma ImportKeepsPairs(d: Db, past: seq<Past>)
    requires PairsOk(d) && !d.state.ExecutingTools? && Paired(MessagesIn(past))
    ensures PairsOk(ImportMessages(d, past))
  {
    hide OpenCalls, OpenFrom, ImportAll;
    TalkImports(d, past);
    ImportAllFrame(d, past);
    OpenSplits(MessagesOf(d.context, d.entries), MessagesIn(past));
    OpenFromNothing(MessagesIn(past));
  }

  /** Consumed input joins a context with nothing open, and leaves nothing open. */
  lemma {:induction false} TalkJoins(d: Db, ids: seq<EntryId>)
    requires Below(d.context, |d.entries|) && InputEntriesOk(d.entries) && Talk(d) == Some(map[])
    requires forall i :: 0 <= i < |ids| ==> IsQueued(d.entries, ids[i])
    ensures var r := JoinInputs(d, ids);
            r.entries == d.entries && Below(r.context, |r.entries|) && Talk(r) == Some(map[])
    decreases |ids|
  {
    if ids != [] {
      TalkJoins(d, Front(ids));
      var before := JoinInputs(d, Front(ids));
      var r := JoinInputs(d, ids);
      var m := d.entries[Last(ids)].message;
      assert IsInput(m);
      assert MessagesOf(r.context, r.entries) == MessagesOf(before.context, before.entries) + [m];
      assert Front(MessagesOf(before.context, before.entries) + [m]) == MessagesOf(before.context, before.entries);
    }
  }

  /** A session that differs only in what pairing does not look at. */
  lemma PairsStand(d: Db, r: Db)
    requires PairsOk(d) && r.context == d.context && r.entries == d.entries && !d.state.ExecutingTools?
    requires !r.state.ExecutingTools?
    ensures PairsOk(r)
  {
  }

  /** A new entry outside the context leaves the context's messages alone. */
  lemma EntryLeavesTalk(d: Db, r: Db)
    requires PairsOk(d) && r.context == d.context && r.state == d.state && r.batches == d.batches
    requires |r.entries| == |d.entries| + 1 && r.entries[..|d.entries|] == d.entries && InputEntriesOk(r.entries)
    ensures PairsOk(r)
  {
    assert MessagesOf(r.context, r.entries) == MessagesOf(d.context, d.entries) by {
      assert forall i :: 0 <= i < |d.context| ==> r.entries[d.context[i]] == r.entries[..|d.entries|][d.context[i]];
    }
  }

  lemma SenderKeepsPairs(d: Db, op: Op)
    requires MachineOk(d) && PairsOk(d) && Apply(d, op).Ok?
    requires op.Enqueue? || op.AppEvent? || op.AppInput? || op.MoveInput? || op.CancelInput? || op.Stream?
    ensures PairsOk(Apply(d, op).value)
  {
    hide ListsOk, OpenCalls, Moved;
    var r := Apply(d, op).value;
    if op.Enqueue? || op.AppInput? {
      assert r.entries == d.entries + [Entry(|d.entries|, FromInput, op.message)];
      EntryLeavesTalk(d, r);
    }
  }

  lemma StartTurnKeepsPairs(d: Db)
    requires MachineOk(d) && PairsOk(d) && d.state.Ready?
    ensures PairsOk(StartTurn(d, d.state.completed, d.state.needsModel).db)
  {
    hide OpenCalls, JoinInputs, EventItems, MessageItems, InputsAmong, Queued, CancelledIds;
    var pending := d.queue[d.head..];
    TalkJoins(d, pending);
    JoinInputsFrame(d, pending);
  }

  lemma ResponseKeepsPairs(d: Db, r: Response)
    requires PairsOk(d) && d.state.CallingModel?
    ensures SettleResponse(d, r).Ok? && PairsOk(SettleResponse(d, r).value)
  {
    hide OpenCalls, OpenFrom, BatchOpen, AppendMessages, ToolCalls;
    if !r.stop.StopOther? && IsAcceptable(r) {
      TalkAppends(d, r.messages, FromModel);
      AppendMessagesFrame(d, r.messages, FromModel);
      ToolCallsAreUses(r.messages);
      var calls := CallsOf(ToolCalls(r.messages));
      var batch := seq(|calls|, i requires 0 <= i < |calls| => ToolExecution(calls[i], false, None));
      assert DistinctCalls(batch);
      ResponseOpensBatch(r.messages, batch);
      if calls == [] { EmptyBatchOpens(batch); }
    }
  }

  lemma EmptyBatchOpens(batch: seq<ToolExecution>)
    requires batch == []
    ensures BatchOpen(batch) == map[]
  {
  }

  lemma {:induction false} BatchInputsAreInputs(batch: seq<ToolExecution>)
    ensures forall i :: 0 <= i < |InputsOf(batch)| ==> IsInput(InputsOf(batch)[i])
    decreases |batch|
  {
    if batch != [] { BatchInputsAreInputs(Front(batch)); }
  }

  lemma CompleteToolsKeepsPairs(d: Db)
    requires PairsOk(d) && CompleteTools(d).Ok?
    ensures PairsOk(CompleteTools(d).value)
  {
    hide OpenCalls, OpenFrom, BatchOpen, AppendMessages;
    var id := d.state.batch;
    var batch := d.batches[id];
    TalkAppends(d, ResultsOf(batch), FromTool);
    ResultsCloseAll(batch);
    AppendMessagesFrame(d, ResultsOf(batch), FromTool);
    var results := AppendMessages(d, ResultsOf(batch), FromTool).(batches := d.batches - {id});
    TalkAppends(results, InputsOf(batch), FromTool);
    BatchInputsAreInputs(batch);
    InputsLeaveNothingOpen(InputsOf(batch));
    AppendMessagesFrame(results, InputsOf(batch), FromTool);
  }

  lemma SameBatchKeepsPairs(d: Db, r: Db, batch: seq<ToolExecution>)
    requires PairsOk(d) && d.state.ExecutingTools? && SameCalls(d.batches[d.state.batch], batch)
    requires r.context == d.context && r.entries == d.entries && r.state == d.state
    requires r.batches == d.batches[d.state.batch := batch]
    ensures PairsOk(r)
  {
    hide OpenCalls;
    SameCallsOpenSame(d.batches[d.state.batch], batch);
  }

  lemma SettleBatchKeepsPairs(d: Db)
    requires MachineOk(d) && PairsOk(d) && d.state.ExecutingTools? && SettleInterrupted(d).Ok?
    ensures PairsOk(SettleInterrupted(d).value)
  {
    hide ListsOk, OpenCalls, BatchOpen, CompleteTools;
    var id := d.state.batch;
    var batch := CancelUnfinished(d.batches[id]);
    var settled := d.(batches := d.batches[id := batch]);
    SameBatchKeepsPairs(d, settled, batch);
    CompleteToolsKeepsPairs(settled);
    assert MachineOk(settled);
    CompleteToolsFits(settled);
    var done := CompleteTools(settled).value;
    if !done.state.Suspended? { PairsStand(done, FinishRun(done, Interrupted)); }
  }

  lemma SettleKeepsPairs(d: Db)
    requires MachineOk(d) && PairsOk(d) && !IsStable(d.state) && SettleInterrupted(d).Ok?
    ensures PairsOk(SettleInterrupted(d).value)
  {
    hide ListsOk, OpenCalls, BatchOpen, CompleteTools;
    match d.state
    case CallingModel(_) =>
    case ExecutingTools(_, _) => SettleBatchKeepsPairs(d);
    case Compacting(resume) =>
      var resumed := TransitionTo(d, resume);
      PairsStand(d, resumed);
      if !resume.Suspended? { PairsStand(resumed, FinishRun(resumed, Interrupted)); }
  }

  /** Ending a run directly keeps the pairing if and only if no batch is running: a batch cut off that
      way leaves its calls without results, in a context the validator refuses. */
  lemma FinishKeepsPairsIff(d: Db, outcome: RunOutcome)
    requires PairsOk(d)
    ensures PairsOk(FinishRun(d, outcome)) <==> !d.state.ExecutingTools?
    ensures var r := FinishRun(d, outcome);
            && Below(r.context, |r.entries|)
            && (d.state.ExecutingTools? <==> !Paired(MessagesOf(r.context, r.entries)))
  {
    hide OpenCalls;
    if d.state.ExecutingTools? {
      BatchOpenHolds(d.batches[d.state.batch]);
      assert d.batches[d.state.batch][0].call.id in BatchOpen(d.batches[d.state.batch]);
    }
  }

  /** What keeps the pairing: a run is ended directly, or its call given up, only between batches; and an
      interrupted reply replays a paired fragment. */
  predicate Obeys(d: Db, op: Op) {
    && (op.Finish? || op.FailCall? ==> !d.state.ExecutingTools?)
    && (op.TakeInterruption? ==> Paired(op.replay))
  }

  lemma TakeResponseKeepsPairs(d: Db, r: Response)
    requires PairsOk(d) && AcceptResponse(d, r).Ok?
    ensures PairsOk(AcceptResponse(d, r).value)
  {
    hide OpenCalls, OpenFrom, BatchOpen, SettleResponse;
    var completed := CompleteModelCall(d, CallCompleted).value;
    ResponseNeedsCall(completed, r);
    ResponseKeepsPairs(completed, r);
    assert Talk(AcceptResponse(d, r).value) == Talk(SettleResponse(completed, r).value);
  }

  lemma InterruptionKeepsPairsIff(d: Db, replay: seq<Message>)
    requires PairsOk(d) && AcceptInterruption(d, replay).Ok?
    ensures PairsOk(AcceptInterruption(d, replay).value) <==> Paired(replay)
  {
    hide OpenCalls, OpenFrom, BatchOpen, AppendMessages;
    var completed := CompleteModelCall(d, CallInterrupted).value;
    TalkAppends(completed, replay, FromInterruption);
    OpenFromNothing(replay);
    AppendMessagesFrame(completed, replay, FromInterruption);
  }

  lemma FailKeepsPairsIff(d: Db, outcome: RunOutcome)
    requires PairsOk(d) && FailModelCall(d, outcome).Ok?
    ensures PairsOk(FailModelCall(d, outcome).value) <==> !d.state.ExecutingTools?
  {
    hide OpenCalls, BatchOpen, FinishRun;
    var completed := CompleteModelCall(d, CallFailed).value;
    FinishKeepsPairsIff(completed, outcome);
    assert PairsOk(FailModelCall(d, outcome).value) <==> PairsOk(FinishRun(completed, outcome));
  }

  lemma CallEndKeepsPairs(d: Db, op: Op)
    requires PairsOk(d) && Apply.requires(d, op) && Apply(d, op).Ok?
    requires op.TakeResponse? || op.TakeInterruption? || op.FailCall?
    ensures PairsOk(Apply(d, op).value) <==> Obeys(d, op)
  {
    hide PairsOk, AcceptResponse, AcceptInterruption, FailModelCall;
    match op
    case TakeResponse(r) => TakeResponseKeepsPairs(d, r);
    case TakeInterruption(replay) => InterruptionKeepsPairsIff(d, replay);
    case FailCall(outcome) => FailKeepsPairsIff(d, outcome);
  }

  lemma ExecutionKeepsPairs(d: Db, op: Op)
    requires PairsOk(d) && Apply.requires(d, op) && Apply(d, op).Ok? && (op.StartTool? || op.TakeToolOutcome?)
    ensures PairsOk(Apply(d, op).value)
  {
    hide OpenCalls, BatchOpen;
    var r := Apply(d, op).value;
    SameBatchKeepsPairs(d, r, r.batches[d.state.batch]);
  }

  lemma OwnerKeepsPairs(d: Db, op: Op)
    requires MachineOk(d) && PairsOk(d) && Apply(d, op).Ok?
    requires op.Collect? || op.AdvanceRun? || op.Finish? || op.ResumeRun? || op.Compact? || op.EndCompact?
             || op.StartSideCall? || op.EndSideCall? || op.Import?
    ensures PairsOk(Apply(d, op).value) <==> Obeys(d, op)
  {
    hide ListsOk, OpenCalls, OpenFrom, BatchOpen, ImportMessages, StartTurn;
    var r := Apply(d, op).value;
    match op
    case AdvanceRun => if d.state.Ready? { StartTurnKeepsPairs(d); }
    case Finish(outcome) => FinishKeepsPairsIff(d, outcome);
    case Import(past) => ImportKeepsPairs(d, past);
    case Collect => if r != d { PairsStand(d, r); }
    case ResumeRun => PairsStand(d, r);
    case Compact => PairsStand(d, r);
    case EndCompact => PairsStand(d, r);
    case StartSideCall =>
    case EndSideCall(_) =>
  }

  /** A transaction keeps every call of the context paired with its result if and only if it obeys. */
  lemma ApplyKeepsPairsIff(d: Db, op: Op)
    requires MachineOk(d) && PairsOk(d) && Apply(d, op).Ok?
    ensures PairsOk(Apply(d, op).value) <==> Obeys(d, op)
  {
    assert d.head <= |d.queue| by { UnpackMachine(d); }
    hide ListsOk, MachineOk, PairsOk, Apply;
    if op.Enqueue? || op.AppEvent? || op.AppInput? || op.MoveInput? || op.CancelInput? || op.Stream? {
      SenderKeepsPairs(d, op);
    } else if op.TakeResponse? || op.TakeInterruption? || op.FailCall? {
      CallEndKeepsPairs(d, op);
    } else if op.StartTool? || op.TakeToolOutcome? {
      ExecutionKeepsPairs(d, op);
    } else if op.FinishTools? {
      FinishToolsKeepsPairs(d);
    } else if op.Settle? {
      SettleOpKeepsPairs(d);
    } else {
      OwnerKeepsPairs(d, op);
    }
  }

  lemma FinishToolsKeepsPairs(d: Db)
    requires MachineOk(d) && PairsOk(d) && Apply(d, FinishTools).Ok?
    ensures PairsOk(Apply(d, FinishTools).value)
  {
    hide ListsOk, PairsOk;
    CompleteToolsKeepsPairs(d);
  }

  lemma SettleOpKeepsPairs(d: Db)
    requires MachineOk(d) && PairsOk(d) && Apply(d, Settle).Ok?
    ensures PairsOk(Apply(d, Settle).value)
  {
    hide ListsOk, PairsOk;
    if !IsStable(d.state) { SettleKeepsPairs(d); }
  }

  /** The context a started call sends is one the validator accepts. */
  lemma RequestsArePaired(d: Db)
    requires PairsOk(d) && !d.state.ExecutingTools?
    ensures Below(d.context, |d.entries|) && Paired(MessagesOf(d.context, d.entries))
  {
  }

  // ----- every run -----

  lemma EventKeepsPairs(d: Db, e: Event)
    requires PairsOk(d)
    ensures PairsOk(RecordEvent(d, e))
  {
  }

  lemma CreateKeepsPairs(history: seq<Past>, firstInput: Option<Message>)
    requires Create(history, firstInput).Ok?
    ensures PairsOk(Create(history, firstInput).value)
  {
    hide ImportMessages, Paired;
    assert MessagesOf([], []) == [];
    assert PairsOk(EMPTY);
    hide OpenCalls, PairsOk, RecordEvent;
    EventKeepsPairs(EMPTY, Created);
    var created := RecordEvent(EMPTY, Created);
    assert created.state.Idle? && created.batches == map[] by { FrameOfEvent(EMPTY, Created); }
    ImportKeepsPairs(created, history);
    if firstInput.Some? { InputKeepsPairs(ImportMessages(created, history), firstInput.value); }
  }

  lemma FrameOfEvent(d: Db, e: Event)
    ensures RecordEvent(d, e) == d.(events := RecordEvent(d, e).events, history := RecordEvent(d, e).history)
  {
  }

  lemma InputKeepsPairs(d: Db, m: Message)
    requires PairsOk(d) && IsInput(m)
    ensures PairsOk(AppendInput(d, m))
  {
    hide OpenCalls;
    assert AppendInput(d, m).entries == d.entries + [Entry(|d.entries|, FromInput, m)];
    EntryLeavesTalk(d, AppendInput(d, m));
  }

  /** Every transaction of the run that was taken obeyed, in the session it found. */
  ghost predicate AllObey(start: Db, ops: seq<Op>)
    requires MachineOk(start)
    decreases |ops|
  {
    ops == [] ||
    var before := Run(start, Front(ops));
    AllObey(start, Front(ops)) && (Apply(before, Last(ops)).Ok? ==> Obeys(before, Last(ops)))
  }

  ghost predicate AlwaysPaired(start: Db, ops: seq<Op>)
    requires MachineOk(start)
  {
    forall k :: 0 <= k <= |ops| ==> PairsOk(Run(start, ops[..k]))
  }

  lemma LastPaired(start: Db, ops: seq<Op>)
    requires MachineOk(start) && ops != []
    ensures AlwaysPaired(start, ops) <==> AlwaysPaired(start, Front(ops)) && PairsOk(Run(start, ops))
  {
    hide MachineOk, PairsOk, Run;
    assert ops[..|ops|] == ops;
    assert forall k :: 0 <= k < |ops| ==> Front(ops)[..k] == ops[..k];
  }

  /** A run keeps the context paired at every point if and only if all it did obeyed. */
  lemma {:induction false} RunKeepsPairsIff(start: Db, ops: seq<Op>)
    requires MachineOk(start) && PairsOk(start)
    ensures AlwaysPaired(start, ops) <==> AllObey(start, ops)
    ensures AlwaysPaired(start, ops) ==> PairsOk(Run(start, ops))
    decreases |ops|
  {
    hide MachineOk, PairsOk, Apply, Obeys, AlwaysPaired;
    if ops == [] {
      assert AlwaysPaired(start, []) by { NeverUnpaired(start); }
    } else {
      RunKeepsPairsIff(start, Front(ops));
      LastPaired(start, ops);
      var before := Run(start, Front(ops));
      assert before.head <= |before.queue| by { UnpackMachine(before); }
      if PairsOk(before) && Apply(before, Last(ops)).Ok? { ApplyKeepsPairsIff(before, Last(ops)); }
    }
  }

  lemma NeverUnpaired(start: Db)
    requires MachineOk(start) && PairsOk(start)
    ensures AlwaysPaired(start, [])
  {
    hide MachineOk, PairsOk;
  }

  /** Over every run from a session's creation on: whenever no batch is running, the context is one the
      validator accepts, so every request sent pairs its tools. */
  lemma RunsArePaired(history: seq<Past>, firstInput: Option<Message>, ops: seq<Op>)
    requires Create(history, firstInput).Ok? && AllObey(NewSession(history, firstInput), ops)
    ensures var d := Run(NewSession(history, firstInput), ops);
            !d.state.ExecutingTools? ==> Below(d.context, |d.entries|) && Paired(MessagesOf(d.context, d.entries))
  {
    hide MachineOk, PairsOk, Run, AllObey, Create;
    CreateKeepsPairs(history, firstInput);
    var start := NewSession(history, firstInput);
    RunKeepsPairsIff(start, ops);
    var d := Run(start, ops);
    if !d.state.ExecutingTools? { RequestsArePaired(d); }
  }

  // ----- the ways to lose the pairing -----

  const ASKS := Response([ToolUse(ToolCall("c", "t"), true)], StopForTools)

  /** An idle session with input pending. */
  ghost predicate Waiting(d: Db) {
    MachineOk(d) && PairsOk(d) && d.state.Idle? && d.head < |d.queue|
  }

  lemma NewSessionWaits(m: Message)
    requires IsInput(m)
    ensures Create([], Some(m)).Ok? && Waiting(Create([], Some(m)).value)
  {
    assert MessagesIn([]) == [];
    assert ImportMessages(RecordEvent(EMPTY, Created), []) == RecordEvent(EMPTY, Created);
    CreateFits([], Some(m));
    CreateKeepsPairs([], Some(m));
    hide MachineOk, PairsOk;
  }

  lemma CollectsFirst(d: Db)
    requires Waiting(d)
    ensures MachineOk(d) && CollectInputs(d).state == Ready(0, true)
  {
    hide ListsOk, PairsOk;
  }

  /** A transaction more, which succeeds and obeys. */
  lemma RunMore(start: Db, ops: seq<Op>, op: Op)
    requires MachineOk(start)
    ensures var before := Run(start, ops);
            && before.head <= |before.queue|
            && (Apply(before, op).Ok? ==> Run(start, ops + [op]) == Apply(before, op).value)
            && (AllObey(start, ops) && Obeys(before, op) ==> AllObey(start, ops + [op]))
  {
    hide Apply, Obeys;
    UnpackMachine(Run(start, ops));
    assert Front(ops + [op]) == ops;
  }

  lemma CallsNext(d: Db)
    requires d.head <= |d.queue| && d.state == Ready(0, true)
    ensures Advance(d).Ok? && Advance(d).value.db.state.CallingModel?
  {
    hide ConsumeInputs;
  }

  lemma AsksTools(d: Db)
    requires MachineOk(d) && d.state.CallingModel?
    ensures AcceptResponse(d, ASKS).Ok? && AcceptResponse(d, ASKS).value.state.ExecutingTools?
  {
    hide ListsOk, ReadEvents;
    assert ToolCalls(Front(ASKS.messages)) == [];
    assert IsAcceptable(ASKS);
  }

  lemma OpsApplied(d: Db, r: Response, outcome: RunOutcome)
    requires d.head <= |d.queue|
    ensures Apply(d, Collect) == Ok(CollectInputs(d))
    ensures Advance(d).Ok? ==> Apply(d, AdvanceRun) == Ok(Advance(d).value.db)
    ensures Apply(d, TakeResponse(r)) == AcceptResponse(d, r)
    ensures Apply(d, Finish(outcome)) == Ok(FinishRun(d, outcome))
    ensures Apply(d, StartSideCall) == Ok(StartModelCall(d))
    ensures Apply(d, FailCall(outcome)) == FailModelCall(d, outcome)
  {
    hide CollectInputs, Advance, AcceptResponse, FinishRun, StartModelCall, FailModelCall;
  }

  /** A run that asks for one tool and has not executed it yet. */
  predicate ToTools(ops: seq<Op>) {
    |ops| == 3 && ops[0] == Collect && ops[1] == AdvanceRun && ops[2] == TakeResponse(ASKS)
  }

  lemma RunNothing(start: Db, ops: seq<Op>)
    requires MachineOk(start) && ops == []
    ensures Run(start, ops) == start && AllObey(start, ops)
  {
  }

  lemma ReachesCall(start: Db, ops: seq<Op>)
    requires Waiting(start) && |ops| == 2 && ops[0] == Collect && ops[1] == AdvanceRun
    ensures MachineOk(start) && Run(start, ops).state.CallingModel? && AllObey(start, ops)
  {
    hide MachineOk, PairsOk, AllObey, Run, CollectInputs, Advance, Apply;
    var none, one := ops[..0], ops[..1];
    CollectsFirst(start);
    RunNothing(start, none);
    assert none + [ops[0]] == one && one + [ops[1]] == ops;
    RunMore(start, none, ops[0]);
    OpsApplied(start, ASKS, Completed);
    var ready := Run(start, one);
    assert ready == CollectInputs(start);
    RunMore(start, one, ops[1]);
    CallsNext(ready);
    OpsApplied(ready, ASKS, Completed);
  }

  lemma ReachesTools(start: Db, ops: seq<Op>)
    requires Waiting(start) && ToTools(ops)
    ensures MachineOk(start) && Run(start, ops).state.ExecutingTools? && AllObey(start, ops)
  {
    hide MachineOk, PairsOk, AllObey, Run, AcceptResponse, Apply;
    ReachesCall(start, ops[..2]);
    assert ops[..2] + [ops[2]] == ops;
    RunMore(start, ops[..2], ops[2]);
    AsksTools(Run(start, ops[..2]));
    OpsApplied(Run(start, ops[..2]), ASKS, Completed);
  }

  /** From there a session with its pairing, and one that has started a side call. */
  lemma ToolsPending(start: Db, ops: seq<Op>)
    requires Waiting(start) && ToTools(ops)
    ensures MachineOk(start)
    ensures var d := Run(start, ops);
            && PairsOk(d) && d.state.ExecutingTools?
            && Run(start, ops + [StartSideCall]) == StartModelCall(d)
  {
    assert MachineOk(start) && PairsOk(start);
    hide MachineOk, PairsOk, Run, AllObey, Apply;
    ReachesTools(start, ops);
    RunKeepsPairsIff(start, ops);
    RunMore(start, ops, StartSideCall);
    OpsApplied(Run(start, ops), ASKS, Completed);
  }

  ghost predicate ContextPaired(d: Db) {
    Below(d.context, |d.entries|) && Paired(MessagesOf(d.context, d.entries))
  }

  lemma FailCutsOff(d: Db, outcome: RunOutcome)
    requires PairsOk(d) && d.state.ExecutingTools?
    ensures var failed := FailModelCall(StartModelCall(d), outcome);
            failed.Ok? && !ContextPaired(failed.value)
  {
    hide OpenCalls, BatchOpen, FinishRun;
    var side := StartModelCall(d);
    FinishKeepsPairsIff(CompleteModelCall(side, CallFailed).value, outcome);
  }

  /** Ending the run before the tool is executed leaves a context the validator refuses; and so does
      failing a side call then, which the session does not refuse. */
  lemma CutOffIsUnpaired(start: Db, ops: seq<Op>, outcome: RunOutcome)
    requires Waiting(start) && ToTools(ops)
    ensures MachineOk(start)
    ensures !ContextPaired(Run(start, ops + [Finish(outcome)]))
    ensures !ContextPaired(Run(start, ops + [StartSideCall] + [FailCall(outcome)]))
  {
    ToolsPending(start, ops);
    hide MachineOk, Run, PairsOk, FinishRun, FailModelCall, Apply;
    var d := Run(start, ops);
    FinishKeepsPairsIff(d, outcome);
    RunMore(start, ops, Finish(outcome));
    OpsApplied(d, ASKS, outcome);
    FailCutsOff(d, outcome);
    RunMore(start, ops + [StartSideCall], FailCall(outcome));
    OpsApplied(StartModelCall(d), ASKS, outcome);
  }
}
