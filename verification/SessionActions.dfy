/** What the executor is told to do next, and with which context: the action `advance` chooses after every
    transition, and the messages a model call then carries (`src/session/machine.rs:126-290`,
    `src/session/machine/tool_batch.rs`, `src/session/queue.rs`). */
module SessionActions {
  import opened Prelude
  import opened Sessions
  import opened SessionLists
  import opened SessionMachine
  import opened SessionPairs
  import opened SessionQueue

  /** The messages of the context, in order. */
  ghost function Context(d: Db): seq<Message>
    requires Below(d.context, |d.entries|)
  {
    MessagesOf(d.context, d.entries)
  }

  /** The messages of the pending input, in order. */
  ghost function PendingMessages(d: Db): seq<Message>
    requires d.head <= |d.queue| && Below(Pending(d), |d.entries|)
  {
    MessagesOf(Pending(d), d.entries)
  }

  lemma ContextExists(d: Db)
    requires MachineOk(d)
    ensures Below(d.context, |d.entries|) && d.head <= |d.queue| && Below(Pending(d), |d.entries|)
  {
    assert forall i :: 0 <= i < |d.queue| ==> IsQueued(d.entries, d.queue[i]);
  }

  lemma {:induction false} ContextAppends(d: Db, ms: seq<Message>, origin: Origin)
    requires Below(d.context, |d.entries|)
    ensures var r := AppendMessages(d, ms, origin);
            Below(r.context, |r.entries|) && Context(r) == Context(d) + ms
    decreases |ms|
  {
    if ms == [] {
      assert Context(d) + ms == Context(d);
    } else {
      ContextAppends(d, Front(ms), origin);
      var before, r := AppendMessages(d, Front(ms), origin), AppendMessages(d, ms, origin);
      assert Context(r) == Context(before) + [Last(ms)];
      assert Context(d) + Front(ms) + [Last(ms)] == Context(d) + (Front(ms) + [Last(ms)]);
      assert Front(ms) + [Last(ms)] == ms;
    }
  }

  lemma {:induction false} ContextJoins(d: Db, ids: seq<EntryId>)
    requires Below(d.context, |d.entries|) && Below(ids, |d.entries|)
    ensures var r := JoinInputs(d, ids);
            && r.entries == d.entries && Below(r.context, |r.entries|)
            && Context(r) == Context(d) + MessagesOf(ids, d.entries)
    decreases |ids|
  {
    if ids == [] {
      assert Context(d) + MessagesOf(ids, d.entries) == Context(d);
    } else {
      ContextJoins(d, Front(ids));
      var m := d.entries[Last(ids)].message;
      assert Context(JoinInputs(d, ids)) == Context(JoinInputs(d, Front(ids))) + [m];
      assert MessagesOf(ids, d.entries) == MessagesOf(Front(ids), d.entries) + [m];
    }
  }

  // ----- the next action -----

  /** The model is called, with all pending input behind the context. */
  ghost predicate CallsModel(d: Db)
    requires d.head <= |d.queue| && Below(d.context, |d.entries|) && Below(Pending(d), |d.entries|)
  {
    Advance(d).Ok? &&
    var a := Advance(d).value;
    && a.action == CallModel && a.db.state.CallingModel?
    && a.db.head == |a.db.queue| && a.db.queue == d.queue
    && Below(a.db.context, |a.db.entries|) && Context(a.db) == Context(d) + PendingMessages(d)
    && a.db.calls == d.calls + [Running] && a.db.activeCall == Some(|d.calls|)
  }

  predicate Tells(d: Db, action: Action)
    requires d.head <= |d.queue|
  {
    Advance(d).Ok? && Advance(d).value.action == action
  }

  /** From ready, the model is called if it is owed a reply or input is pending; otherwise the run is over. */
  lemma ReadyActs(d: Db)
    requires MachineOk(d) && d.state.Ready?
    ensures d.head <= |d.queue| && Below(d.context, |d.entries|) && Below(Pending(d), |d.entries|)
    ensures d.state.needsModel || Pending(d) != [] ==>
              CallsModel(d) && Advance(d).value.db.state == CallingModel(d.state.completed + 1)
    ensures !d.state.needsModel && Pending(d) == [] ==>
              Tells(d, Done(Completed)) && Advance(d).value.db.state.Idle?
  {
    ContextExists(d);
    hide MachineOk, Context, JoinInputs;
    ContextJoins(d, Pending(d));
    JoinInputsFrame(d, Pending(d));
    SameContext(JoinInputs(d, Pending(d)), Advance(d).value.db);
  }

  lemma SameContext(d: Db, r: Db)
    requires Below(d.context, |d.entries|)
    ensures r.context == d.context && r.entries == d.entries ==>
              Below(r.context, |r.entries|) && Context(r) == Context(d)
  {
  }

  lemma FinishTells(d: Db, outcome: RunOutcome)
    requires d.head <= |d.queue|
    ensures var r := FinishRun(d, outcome);
            && r.head <= |r.queue| && Tells(r, Done(outcome))
            && (r.state.Idle? <==> outcome.Completed?) && (r.state.Suspended? <==> !outcome.Completed?)
            && r.context == d.context && r.entries == d.entries && r.queue == d.queue && r.head == d.head
            && r.activeCall.None?
            && (d.activeCall.Some? && d.activeCall.value < |d.calls| && d.calls[d.activeCall.value].Running? ==>
                  var status := if outcome.Interrupted? then CallInterrupted else CallFailed;
                  r.calls == d.calls[d.activeCall.value := status])
  {
  }

  /** After a resume, and when input is collected by an idle session, the model is called. */
  lemma ResumeActs(d: Db)
    requires MachineOk(d)
    ensures Resume(d).Ok? <==> d.state.Idle? || d.state.Ready? || d.state.Suspended?
    ensures Resume(d).Err? ==> Resume(d) == Err(Busy)
    ensures Resume(d).Ok? ==>
              var r := Resume(d).value;
              MachineOk(r) && ContextKnown(r) && CallsModel(r) && Advance(r).value.db.state == CallingModel(1)
  {
    if Resume(d).Ok? {
      ResumeFits(d);
      hide MachineOk, CallsModel;
      ReadyActs(Resume(d).value);
    }
  }

  ghost predicate ContextKnown(d: Db) {
    d.head <= |d.queue| && Below(d.context, |d.entries|) && Below(Pending(d), |d.entries|)
  }

  lemma CollectActs(d: Db)
    requires MachineOk(d)
    ensures var r := CollectInputs(d);
            && ContextKnown(d) && ContextKnown(r)
            && (!(d.state.Idle? && Pending(d) != []) ==> r == d)
            && (d.state.Idle? && Pending(d) != [] ==> CallsModel(r) && Advance(r).value.db.state == CallingModel(1))
            && (d.state.Idle? && Pending(d) == [] ==> Tells(r, Done(Completed)))
  {
    ContextExists(d);
    CollectFits(d);
    ContextExists(CollectInputs(d));
    hide MachineOk, CallsModel;
    if d.state.Idle? && Pending(d) != [] { ReadyActs(CollectInputs(d)); }
  }

  /** After a reply: one that stopped otherwise or cannot be accepted ends the run and joins nothing; an
      accepted one joins the context; its calls, if it makes any, are what is executed, in its order;
      without calls the model is called again only for input that came meanwhile. */
  lemma ResponseActs(d: Db, r: Response)
    requires MachineOk(d) && d.state.CallingModel?
    ensures ContextKnown(d) && SettleResponse(d, r).Ok? && ContextKnown(SettleResponse(d, r).value)
    ensures var t := SettleResponse(d, r).value;
            && t.queue == d.queue && t.head == d.head
            && (r.stop.StopOther? ==> Tells(t, Done(ModelStopped)) && Context(t) == Context(d))
            && (!r.stop.StopOther? && !IsAcceptable(r) ==> Tells(t, Done(Failed)) && Context(t) == Context(d))
            && (!r.stop.StopOther? && IsAcceptable(r) ==>
                  && Context(t) == Context(d) + r.messages
                  && (ToolCalls(r.messages) != [] ==> ExecutesAll(t, ToolCalls(r.messages)))
                  && (ToolCalls(r.messages) == [] && Pending(d) != [] ==> CallsModel(t))
                  && (ToolCalls(r.messages) == [] && Pending(d) == [] ==> Tells(t, Done(Completed))))
  {
    ContextExists(d);
    SettleResponseFits(d, r);
    var t := SettleResponse(d, r).value;
    ContextExists(t);
    ResponseLeavesQueue(d, r);
    hide MachineOk, CallsModel, FinishRun, AppendMessages, IsAcceptable, Context, ToolCalls;
    if r.stop.StopOther? {
      FinishTells(d, ModelStopped);
      SameContext(d, t);
    } else if !IsAcceptable(r) {
      FinishTells(RecordEvent(d, ResponseRejected), Failed);
      SameContext(d, t);
    } else {
      AcceptedActs(d, r);
    }
  }

  ghost predicate ExecutesAll(t: Db, uses: seq<Message>) {
    && t.head <= |t.queue| && Advance(t).Ok? && Advance(t).value.action.ExecuteTools?
    && Advance(t).value.db == t
    && var calls := Advance(t).value.action.calls;
       |calls| == |uses| && forall i :: 0 <= i < |calls| ==> uses[i].ToolUse? && calls[i] == uses[i].call
  }

  lemma AcceptedActs(d: Db, r: Response)
    requires MachineOk(d) && d.state.CallingModel? && !r.stop.StopOther? && IsAcceptable(r) && ContextKnown(d)
    requires SettleResponse(d, r).Ok?
    requires MachineOk(SettleResponse(d, r).value) && ContextKnown(SettleResponse(d, r).value)
    ensures var t := SettleResponse(d, r).value;
            && Context(t) == Context(d) + r.messages
            && (ToolCalls(r.messages) != [] ==> ExecutesAll(t, ToolCalls(r.messages)))
            && (ToolCalls(r.messages) == [] && Pending(d) != [] ==> CallsModel(t))
            && (ToolCalls(r.messages) == [] && Pending(d) == [] ==> Tells(t, Done(Completed)))
  {
    hide MachineOk, CallsModel, AppendMessages, IsAcceptable, Context, ToolCalls, Advance, PendingCalls, FinishRun;
    var t, uses := SettleResponse(d, r).value, ToolCalls(r.messages);
    ContextAppends(d, r.messages, FromModel);
    AppendMessagesFrame(d, r.messages, FromModel);
    SameContext(AppendMessages(d, r.messages, FromModel), t);
    ToolCallsAreUses(r.messages);
    if uses == [] {
      ReadyActs(t);
    } else {
      var batch := t.batches[t.state.batch];
      NothingDone(batch);
      BatchActs(t);
    }
  }

  /** A batch under way: the calls without an outcome are executed. */
  lemma BatchActs(d: Db)
    requires d.state.ExecutingTools? && d.state.batch in d.batches && d.head <= |d.queue|
    ensures Advance(d) == Ok(Advanced(d, ExecuteTools(PendingCalls(d.batches[d.state.batch]))))
  {
  }

  lemma {:induction false} NothingDone(batch: seq<ToolExecution>)
    requires forall i :: 0 <= i < |batch| ==> batch[i].outcome.None?
    ensures |PendingCalls(batch)| == |batch|
    ensures forall i :: 0 <= i < |batch| ==> PendingCalls(batch)[i] == batch[i].call
    decreases |batch|
  {
    if batch != [] { NothingDone(Front(batch)); }
  }

  /** Pending calls, call by call: a batch's are its parts' in order, and one without an outcome is one. */
  lemma {:induction false} PendingCallsJoin(xs: seq<ToolExecution>, ys: seq<ToolExecution>)
    ensures PendingCalls(xs + ys) == PendingCalls(xs) + PendingCalls(ys)
    ensures |xs| == 1 ==> PendingCalls(xs) == if xs[0].outcome.None? then [xs[0].call] else []
    decreases |ys|
  {
    if |xs| == 1 { assert PendingCalls(Front(xs)) == []; }
    if ys == [] {
      assert xs + ys == xs;
    } else {
      assert Front(xs + ys) == xs + Front(ys) && Last(xs + ys) == Last(ys);
      PendingCallsJoin(xs, Front(ys));
    }
  }

  /** So are the calls a reply makes. */
  lemma {:induction false} ToolCallsJoin(xs: seq<Message>, ys: seq<Message>)
    ensures ToolCalls(xs + ys) == ToolCalls(xs) + ToolCalls(ys)
    ensures |xs| == 1 ==> ToolCalls(xs) == if xs[0].ToolUse? then xs else []
    decreases |ys|
  {
    if |xs| == 1 { assert ToolCalls(Front(xs)) == []; }
    if ys == [] {
      assert xs + ys == xs;
    } else {
      assert Front(xs + ys) == xs + Front(ys) && Last(xs + ys) == Last(ys);
      ToolCallsJoin(xs, Front(ys));
    }
  }

  /** And the inputs a batch's outcomes carry. */
  lemma {:induction false} BatchInputsJoin(xs: seq<ToolExecution>, ys: seq<ToolExecution>)
    ensures InputsOf(xs + ys) == InputsOf(xs) + InputsOf(ys)
    ensures |xs| == 1 ==>
              InputsOf(xs) == match xs[0].outcome
                              case Some(SuccessWithInput(input)) => [User(input)]
                              case _ => []
    decreases |ys|
  {
    if |xs| == 1 { assert InputsOf(Front(xs)) == []; }
    if ys == [] {
      assert xs + ys == xs;
    } else {
      assert Front(xs + ys) == xs + Front(ys) && Last(xs + ys) == Last(ys);
      BatchInputsJoin(xs, Front(ys));
    }
  }

  /** A batch's results, one a call, in call order. */
  ghost predicate AreResults(ms: seq<Message>, batch: seq<ToolExecution>) {
    |ms| == |batch| && forall i :: 0 <= i < |ms| ==> ms[i] == ToolResult(batch[i].call)
  }

  /** The batch's results and then the inputs they carry have joined the context. */
  ghost predicate ResultsJoin(d: Db, t: Db, batch: seq<ToolExecution>)
    requires Below(d.context, |d.entries|) && Below(t.context, |t.entries|)
  {
    exists results :: AreResults(results, batch) && Context(t) == Context(d) + results + InputsOf(batch)
  }

  lemma BatchKnown(d: Db)
    requires MachineOk(d) && d.state.ExecutingTools?
    ensures d.state.batch in d.batches
  {
    hide ListsOk;
  }

  ghost predicate AllDone(batch: seq<ToolExecution>) {
    forall i :: 0 <= i < |batch| ==> batch[i].outcome.Some?
  }

  lemma CompletesIff(d: Db)
    requires d.state.ExecutingTools? && d.state.batch in d.batches
    ensures CompleteTools(d).Ok? <==> AllDone(d.batches[d.state.batch])
  {
    hide AppendMessages, FinishRun, ResultsOf, InputsOf;
  }

  /** After a batch: its results and then the inputs they carry join the context; the model is called with
      them, unless an outcome is unknown, which ends the run. An open outcome refuses. */
  lemma ToolsAct(d: Db)
    requires MachineOk(d) && d.state.ExecutingTools?
    ensures ContextKnown(d) && d.state.batch in d.batches
    ensures CompleteTools(d).Ok? <==> AllDone(d.batches[d.state.batch])
    ensures CompleteTools(d).Ok? ==>
              var batch, t := d.batches[d.state.batch], CompleteTools(d).value;
              && ContextKnown(t) && t.queue == d.queue && t.head == d.head
              && ResultsJoin(d, t, batch)
              && ((exists i :: 0 <= i < |batch| && batch[i].outcome == Some(Unknown)) ==>
                    Tells(t, Done(ToolOutcomeUnknown)))
              && ((forall i :: 0 <= i < |batch| ==> batch[i].outcome != Some(Unknown)) ==>
                    CallsModel(t) && Advance(t).value.db.state == CallingModel(d.state.turn + 1))
  {
    ContextExists(d);
    BatchKnown(d);
    CompletesIff(d);
    hide MachineOk, CallsModel, CompleteTools, Context, InputsOf, AreResults, Advance, AllDone;
    if CompleteTools(d).Ok? {
      CompleteToolsFits(d);
      ContextExists(CompleteTools(d).value);
      ToolsLeaveQueue(d);
      DrainedContext(d);
      if !AnyUnknown(d.batches[d.state.batch]) {
        TurnIsOwed(d);
        ReadyActs(CompleteTools(d).value);
      } else {
        UnknownEnds(d);
      }
    }
  }

  lemma DrainedContext(d: Db)
    requires CompleteTools(d).Ok? && Below(d.context, |d.entries|)
    ensures var t, batch := CompleteTools(d).value, d.batches[d.state.batch];
            && Below(t.context, |t.entries|)
            && AreResults(ResultsOf(batch), batch) && Context(t) == Context(d) + ResultsOf(batch) + InputsOf(batch)
  {
    hide AppendMessages, Context, FinishRun, ResultsOf;
    var batch := d.batches[d.state.batch];
    ResultsAreResults(batch);
    ContextAppends(d, ResultsOf(batch), FromTool);
    var results := AppendMessages(d, ResultsOf(batch), FromTool);
    var left := results.(batches := d.batches - {d.state.batch});
    SameContext(results, left);
    ContextAppends(left, InputsOf(batch), FromTool);
    var drained := DrainBatch(d, d.state.batch).value;
    FinishLeavesContext(RecordEvent(drained, StableBoundary(d.state.turn)), ToolOutcomeUnknown);
    SameContext(drained, CompleteTools(d).value);
  }

  lemma ResultsAreResults(batch: seq<ToolExecution>)
    ensures AreResults(ResultsOf(batch), batch)
  {
  }

  lemma FinishLeavesContext(d: Db, outcome: RunOutcome)
    ensures FinishRun(d, outcome).context == d.context && FinishRun(d, outcome).entries == d.entries
  {
  }

  lemma TurnIsOwed(d: Db)
    requires CompleteTools(d).Ok? && !AnyUnknown(d.batches[d.state.batch])
    ensures CompleteTools(d).value.state == Ready(d.state.turn, true)
  {
    hide AppendMessages;
  }

  lemma UnknownEnds(d: Db)
    requires CompleteTools(d).Ok? && AnyUnknown(d.batches[d.state.batch]) && d.head <= |d.queue|
    ensures var t := CompleteTools(d).value; t.head <= |t.queue| && Tells(t, Done(ToolOutcomeUnknown))
  {
    hide AppendMessages, FinishRun, Advance;
    ToolsLeaveQueue(d);
    var drained := DrainBatch(d, d.state.batch).value;
    DrainLeavesQueue(d);
    FinishTells(RecordEvent(drained, StableBoundary(d.state.turn)), ToolOutcomeUnknown);
  }

  lemma DrainLeavesQueue(d: Db)
    requires d.state.ExecutingTools? && DrainBatch(d, d.state.batch).Ok?
    ensures SameQueue(d, DrainBatch(d, d.state.batch).value)
  {
    hide AppendMessages, ResultsOf, InputsOf;
    var id := d.state.batch;
    AppendMessagesFrame(d, ResultsOf(d.batches[id]), FromTool);
    var results := AppendMessages(d, ResultsOf(d.batches[id]), FromTool).(batches := d.batches - {id});
    AppendMessagesFrame(results, InputsOf(d.batches[id]), FromTool);
  }

  /** A compaction that ends puts back the state it found. */
  lemma CompactionReturns(d: Db)
    ensures BeginCompaction(d).Ok? <==> d.state.Idle? || d.state.Ready? || d.state.Suspended?
    ensures BeginCompaction(d).Ok? ==>
              var t := BeginCompaction(d).value;
              && Advance.requires(t) == (d.head <= |d.queue|)
              && EndCompaction(t).Ok? && EndCompaction(t).value.state == d.state
              && EndCompaction(t).value.activeCall.None?
              && EndCompaction(t).value.context == d.context && SameQueue(d, EndCompaction(t).value)
    ensures EndCompaction(d).Ok? <==> d.state.Compacting?
  {
  }

  /** After an interruption: what is replayed joins the context, and the run is over. */
  lemma InterruptionActs(d: Db, replay: seq<Message>)
    requires d.state.CallingModel? && d.head <= |d.queue| && Below(d.context, |d.entries|)
    ensures SettleInterruption(d, replay).Ok?
    ensures var t := SettleInterruption(d, replay).value;
            && t.head <= |t.queue| && Tells(t, Done(Interrupted)) && SameQueue(d, t)
            && Below(t.context, |t.entries|) && Context(t) == Context(d) + replay
  {
    hide AppendMessages, Context, FinishRun;
    var joined := AppendMessages(d, replay, FromInterruption);
    AppendMessagesFrame(d, replay, FromInterruption);
    ContextAppends(d, replay, FromInterruption);
    var bounded := RecordEvent(RecordEvent(joined, ResponseInterrupted), StableBoundary(d.state.turn));
    FinishTells(bounded, Interrupted);
    SameContext(joined, SettleInterruption(d, replay).value);
  }

  /** What settling after a crash says of the run: interrupted; or, where a started tool has no outcome, that
      one is unknown; or, where a compaction kept a suspended run, what suspended it. */
  lemma SettleActs(d: Db)
    requires MachineOk(d) && !IsStable(d.state)
    ensures SettleInterrupted(d).Ok?
    ensures SettleInterrupted(d).value.head <= |SettleInterrupted(d).value.queue|
    ensures d.state.CallingModel? || (d.state.Compacting? && !d.state.resume.Suspended?) ==>
              var t := SettleInterrupted(d).value;
              Tells(t, Done(Interrupted)) && t.context == d.context && t.entries == d.entries
    ensures d.state.ExecutingTools? ==> BatchSettled(d, SettleInterrupted(d).value)
    ensures d.state.Compacting? && d.state.resume.Suspended? ==>
              var o := d.state.resume.outcome;
              && o < |d.events| && d.events[o].Finished?
              && Tells(SettleInterrupted(d).value, Done(d.events[o].outcome))
  {
    ContextExists(d);
    SettleFits(d);
    match d.state
    case CallingModel(turn) =>
      hide MachineOk, FinishRun, Advance;
      FinishTells(RecordEvent(d, StableBoundary(turn)), Interrupted);
    case ExecutingTools(_, b) => SettledBatchActs(d);
    case Compacting(resume) => SettledCompactionActs(d);
  }

  /** An outcome that is unknown, or will be said to be since none was recorded after the start. */
  predicate LeftUnknown(x: ToolExecution) {
    x.outcome == Some(Unknown) || (x.outcome.None? && x.started)
  }

  /** The batch's results and inputs have joined the context, and the run is over. */
  ghost predicate BatchSettled(d: Db, t: Db)
    requires d.state.ExecutingTools?
  {
    && d.state.batch in d.batches && ContextKnown(d) && ContextKnown(t)
    && var batch := d.batches[d.state.batch];
    && ResultsJoin(d, t, batch)
    && Tells(t, Done(if exists i :: 0 <= i < |batch| && LeftUnknown(batch[i]) then ToolOutcomeUnknown else Interrupted))
  }

  lemma SettledCompactionActs(d: Db)
    requires MachineOk(d) && d.state.Compacting? && d.head <= |d.queue| && SettleInterrupted(d).Ok?
    ensures var t := SettleInterrupted(d).value;
            && t.head <= |t.queue|
            && (d.state.resume.Suspended? ==>
                  var o := d.state.resume.outcome;
                  o < |d.events| && d.events[o].Finished? && Tells(t, Done(d.events[o].outcome)))
            && (!d.state.resume.Suspended? ==>
                  Tells(t, Done(Interrupted)) && t.context == d.context && t.entries == d.entries)
  {
    hide ListsOk, ReadEvents;
    assert IsStable(d.state.resume) && OutcomeNamed(d.events, d.state.resume);
    hide MachineOk;
    var resumed := TransitionTo(d, d.state.resume);
    if !d.state.resume.Suspended? { FinishTells(resumed, Interrupted); }
  }

  lemma CancelledInputs(batch: seq<ToolExecution>)
    ensures InputsOf(CancelUnfinished(batch)) == InputsOf(batch)
    decreases |batch|
  {
    if batch != [] {
      assert Front(CancelUnfinished(batch)) == CancelUnfinished(Front(batch));
      CancelledInputs(Front(batch));
    }
  }

  function WithCancelled(d: Db): Db
    requires d.state.ExecutingTools? && d.state.batch in d.batches
  {
    d.(batches := d.batches[d.state.batch := CancelUnfinished(d.batches[d.state.batch])])
  }

  lemma SettledIs(d: Db)
    requires d.state.ExecutingTools? && d.state.batch in d.batches && SettleInterrupted(d).Ok?
    ensures CompleteTools(WithCancelled(d)).Ok?
    ensures var done := CompleteTools(WithCancelled(d)).value;
            SettleInterrupted(d).value == if done.state.Suspended? then done else FinishRun(done, Interrupted)
  {
    hide CompleteTools, FinishRun;
  }

  lemma SettledBatchActs(d: Db)
    requires MachineOk(d) && d.state.ExecutingTools? && ContextKnown(d) && SettleInterrupted(d).Ok?
    ensures BatchSettled(d, SettleInterrupted(d).value)
  {
    hide MachineOk, CompleteTools, FinishRun, SettleInterrupted, BatchSettled, CancelUnfinished;
    BatchKnown(d);
    BatchChanges(d, WithCancelled(d));
    SettledIs(d);
    CompleteToolsFits(WithCancelled(d));
    var done := CompleteTools(WithCancelled(d)).value;
    hide WithCancelled;
    CancelledActs(d, done);
    if done.state.Suspended? {
      UnknownStays(d, done);
    } else {
      FinishSettles(d, done);
    }
  }

  /** What the completed batch leaves, before the run is ended. */
  ghost predicate BatchJoined(d: Db, done: Db)
    requires d.state.ExecutingTools?
  {
    && d.state.batch in d.batches && ContextKnown(d) && ContextKnown(done)
    && var batch := d.batches[d.state.batch];
    && ResultsJoin(d, done, batch)
    && ((exists i :: 0 <= i < |batch| && LeftUnknown(batch[i])) <==> done.state.Suspended?)
    && (done.state.Suspended? ==> Tells(done, Done(ToolOutcomeUnknown)))
  }

  lemma CancelledActs(d: Db, done: Db)
    requires MachineOk(d) && d.state.ExecutingTools? && ContextKnown(d) && d.state.batch in d.batches
    requires MachineOk(WithCancelled(d)) && CompleteTools(WithCancelled(d)) == Ok(done)
    ensures BatchJoined(d, done)
  {
    var batch := d.batches[d.state.batch];
    CancelledInputs(batch);
    CancelledUnknown(batch);
    hide MachineOk, CancelUnfinished, CompleteTools, CallsModel, Advance, Context, InputsOf, AreResults, ResultsJoin;
    var settled := WithCancelled(d);
    ToolsAct(settled);
    CompleteToolsFits(settled);
    if done.state.Suspended? { SuspendedByUnknown(settled); }
    ResultsJoinSame(d, settled, done, done, batch, CancelUnfinished(batch));
  }

  lemma UnknownStays(d: Db, done: Db)
    requires d.state.ExecutingTools? && BatchJoined(d, done) && done.state.Suspended?
    ensures BatchSettled(d, done)
  {
    hide Advance, ResultsJoin;
  }

  lemma FinishSettles(d: Db, done: Db)
    requires d.state.ExecutingTools? && BatchJoined(d, done) && !done.state.Suspended?
    ensures BatchSettled(d, FinishRun(done, Interrupted))
  {
    var batch := d.batches[d.state.batch];
    hide Advance, ResultsJoin, FinishRun, InputsOf, AreResults;
    FinishTells(done, Interrupted);
    ResultsJoinSame(d, d, done, FinishRun(done, Interrupted), batch, batch);
  }

  lemma ResultsJoinSame(d: Db, d': Db, t: Db, t': Db, batch: seq<ToolExecution>, batch': seq<ToolExecution>)
    requires Below(d.context, |d.entries|) && d'.context == d.context && d'.entries == d.entries
    requires Below(t.context, |t.entries|) && t'.context == t.context && t'.entries == t.entries
    requires ResultsJoin(d', t, batch') && InputsOf(batch') == InputsOf(batch)
    requires forall results :: AreResults(results, batch') ==> AreResults(results, batch)
    ensures ResultsJoin(d, t', batch)
  {
    hide InputsOf, AreResults;
    SameContext(d, d');
    SameContext(t, t');
  }

  lemma SuspendedByUnknown(d: Db)
    requires CompleteTools(d).Ok? && CompleteTools(d).value.state.Suspended?
    ensures AnyUnknown(d.batches[d.state.batch])
  {
    hide AppendMessages;
  }

  lemma BatchChanges(d: Db, r: Db)
    requires MachineOk(d) && d.state.ExecutingTools?
    requires r == d.(batches := r.batches) && r.batches.Keys == d.batches.Keys
    ensures MachineOk(r)
  {
    hide ListsOk;
  }

  lemma CancelledUnknown(batch: seq<ToolExecution>)
    ensures AnyUnknown(CancelUnfinished(batch)) <==> exists i :: 0 <= i < |batch| && LeftUnknown(batch[i])
    ensures forall results :: AreResults(results, CancelUnfinished(batch)) ==> AreResults(results, batch)
    ensures AllDone(CancelUnfinished(batch))
  {
    var c := CancelUnfinished(batch);
    if i :| 0 <= i < |batch| && LeftUnknown(batch[i]) { assert c[i].outcome == Some(Unknown); }
    if i :| 0 <= i < |c| && c[i].outcome == Some(Unknown) { assert LeftUnknown(batch[i]); }
  }

  // ----- the record of the call -----

  /** The end of a conversation call: its record says how it ended, and none is running after. */
  lemma CallIsRecorded(d: Db, r: Response, replay: seq<Message>, outcome: RunOutcome)
    ensures AcceptResponse(d, r).Ok? ==> CallRecorded(d, AcceptResponse(d, r).value, CallCompleted)
    ensures AcceptInterruption(d, replay).Ok? ==> CallRecorded(d, AcceptInterruption(d, replay).value, CallInterrupted)
    ensures FailModelCall(d, outcome).Ok? ==> CallRecorded(d, FailModelCall(d, outcome).value, CallFailed)
  {
    if d.activeCall.Some? && d.activeCall.value < |d.calls| {
      ResponseLeavesCalls(CompleteModelCall(d, CallCompleted).value, r);
      InterruptionLeavesCalls(CompleteModelCall(d, CallInterrupted).value, replay);
      hide SettleResponse, SettleInterruption;
    }
  }

  ghost predicate CallRecorded(d: Db, t: Db, status: CallStatus) {
    && d.activeCall.Some? && d.activeCall.value < |d.calls|
    && t.calls == d.calls[d.activeCall.value := status] && t.activeCall.None?
  }

  predicate NotRunning(d: Db) {
    d.activeCall.Some? && d.activeCall.value < |d.calls| && !d.calls[d.activeCall.value].Running?
  }

  lemma ResponseLeavesCalls(d: Db, r: Response)
    requires NotRunning(d)
    ensures SettleResponse(d, r).Ok? ==> SettleResponse(d, r).value.calls == d.calls
  {
    hide AppendMessages, IsAcceptable;
    AppendMessagesFrame(d, r.messages, FromModel);
  }

  lemma InterruptionLeavesCalls(d: Db, replay: seq<Message>)
    requires NotRunning(d)
    ensures SettleInterruption(d, replay).Ok? ==> SettleInterruption(d, replay).value.calls == d.calls
  {
    hide AppendMessages;
    AppendMessagesFrame(d, replay, FromInterruption);
  }

  // ----- which replies are accepted -----

  ghost predicate OnlyModelWrites(ms: seq<Message>) {
    forall i :: 0 <= i < |ms| ==> !IsInput(ms[i]) && !ms[i].ToolResult?
  }

  /** Every call has an id, a tool's name and an object of arguments, and no two have one id. */
  ghost predicate CallsGood(uses: seq<Message>) {
    && (forall i :: 0 <= i < |uses| ==> WellFormed(uses[i]))
    && forall i, j :: 0 <= i < j < |uses| && uses[i].ToolUse? && uses[j].ToolUse? ==> uses[i].call.id != uses[j].call.id
  }

  predicate WellFormed(m: Message) {
    m.ToolUse? && m.call.id != "" && m.call.name != "" && m.argumentsAreObject
  }

  ghost predicate NamesId(uses: seq<Message>, id: string) {
    exists i :: 0 <= i < |uses| && uses[i].ToolUse? && uses[i].call.id == id
  }

  ghost predicate OpensExactly(open: map<string, string>, uses: seq<Message>) {
    forall id :: id in open <==> NamesId(uses, id)
  }

  lemma OpensMore(open: map<string, string>, uses: seq<Message>, m: Message)
    requires m.ToolUse? && OpensExactly(open, uses)
    ensures OpensExactly(open[m.call.id := m.call.name], uses + [m])
  {
    var more := uses + [m];
    forall id ensures id in open[m.call.id := m.call.name] <==> NamesId(more, id) {
      if i :| 0 <= i < |uses| && uses[i].ToolUse? && uses[i].call.id == id { assert more[i] == uses[i]; }
      if id == m.call.id { assert more[|uses|] == m; }
    }
  }

  lemma GoodMore(uses: seq<Message>, m: Message)
    requires m.ToolUse?
    ensures CallsGood(uses + [m])
            <==> CallsGood(uses) && WellFormed(m)
                 && forall i :: 0 <= i < |uses| && uses[i].ToolUse? ==> uses[i].call.id != m.call.id
  {
    var more := uses + [m];
    assert more[|uses|] == m && forall i :: 0 <= i < |uses| ==> more[i] == uses[i];
    if CallsGood(more) {
      forall i | 0 <= i < |uses| ensures WellFormed(uses[i]) { assert WellFormed(more[i]); }
    }
  }

  /** The validator takes what a model writes if and only if its calls are well formed, each under an id of
      its own; it then leaves exactly those open. */
  lemma {:induction false} ValidatorTakesIff(ms: seq<Message>)
    requires OnlyModelWrites(ms)
    ensures OpenCalls(ms).Some? <==> CallsGood(ToolCalls(ms))
    ensures OpenCalls(ms).Some? ==> OpensExactly(OpenCalls(ms).value, ToolCalls(ms))
    decreases |ms|
  {
    if ms != [] {
      hide CallsGood, OpensExactly;
      var front, m := Front(ms), Last(ms);
      ValidatorTakesIff(front);
      assert ToolCalls(front) + [] == ToolCalls(front);
      if m.ToolUse? {
        GoodMore(ToolCalls(front), m);
        if OpenCalls(front).Some? {
          FreshIff(OpenCalls(front).value, ToolCalls(front), m.call.id);
          OpensMore(OpenCalls(front).value, ToolCalls(front), m);
        }
      }
    } else {
      assert OpenCalls([]) == Some(map[]) && ToolCalls([]) == [];
    }
  }

  lemma FreshIff(open: map<string, string>, uses: seq<Message>, id: string)
    requires OpensExactly(open, uses)
    ensures id !in open <==> forall i :: 0 <= i < |uses| && uses[i].ToolUse? ==> uses[i].call.id != id
  {
  }

  /** A reply is accepted if and only if it stopped for tools exactly when it makes calls, makes at most 64,
      each well formed under an id of its own, and holds only what a model writes; and the validator takes
      just these. */
  lemma AcceptableIff(r: Response)
    ensures IsAcceptable(r)
            <==> && |ToolCalls(r.messages)| <= 64 && (r.stop.StopForTools? <==> ToolCalls(r.messages) != [])
                 && OnlyModelWrites(r.messages) && CallsGood(ToolCalls(r.messages))
    ensures OnlyModelWrites(r.messages) ==> (OpenCalls(r.messages).Some? <==> CallsGood(ToolCalls(r.messages)))
  {
    if OnlyModelWrites(r.messages) { ValidatorTakesIff(r.messages); }
    hide OpenCalls, ToolCalls;
  }

  // ----- what the validator demands -----

  /** The use at `j` is of that call, and since then neither input nor a result under its id has come. */
  ghost predicate OpenSince(ms: seq<Message>, j: int, id: string, name: string) {
    && 0 <= j < |ms| && ms[j].ToolUse? && ms[j].call == ToolCall(id, name)
    && forall i :: j < i < |ms| ==> !IsInput(ms[i]) && !(ms[i].ToolResult? && ms[i].call.id == id)
  }

  lemma SinceLonger(ms: seq<Message>, m: Message, j: int, id: string, name: string)
    requires OpenSince(ms, j, id, name) && !IsInput(m) && !(m.ToolResult? && m.call.id == id)
    ensures OpenSince(ms + [m], j, id, name)
  {
  }

  /** What is open is a use since which neither input nor its result came. */
  lemma {:induction false} OpenIsSince(ms: seq<Message>, id: string)
    requires OpenCalls(ms).Some? && id in OpenCalls(ms).value
    ensures exists j :: OpenSince(ms, j, id, OpenCalls(ms).value[id])
    decreases |ms|
  {
    var front, m := Front(ms), Last(ms);
    assert front + [m] == ms;
    var name := OpenCalls(ms).value[id];
    if m.ToolUse? && m.call.id == id {
      assert OpenSince(ms, |ms| - 1, id, name);
    } else {
      OpenIsSince(front, id);
      var j :| OpenSince(front, j, id, name);
      SinceLonger(front, m, j, id, name);
    }
  }

  lemma {:induction false} OpenPrefix(ms: seq<Message>, k: nat)
    requires OpenCalls(ms).Some? && k <= |ms|
    ensures OpenCalls(ms[..k]).Some?
    ensures k < |ms| ==> OpenCalls(ms[..k + 1]) == PairStep(OpenCalls(ms[..k]).value, ms[k])
    decreases |ms|
  {
    if k == |ms| {
      assert ms[..k] == ms;
    } else if k == |ms| - 1 {
      assert ms[..k] == Front(ms) && ms[..k + 1] == ms;
    } else {
      OpenPrefix(Front(ms), k);
      assert Front(ms)[..k] == ms[..k] && Front(ms)[..k + 1] == ms[..k + 1];
    }
  }

  /** In what the validator takes, every result is of a use before it, of that id and that name, with no input
      and no other result of it in between. */
  lemma ResultHasUse(ms: seq<Message>, k: nat)
    requires OpenCalls(ms).Some? && k < |ms| && ms[k].ToolResult?
    ensures exists j :: OpenSince(ms[..k], j, ms[k].call.id, ms[k].call.name)
  {
    OpenPrefix(ms, k);
    OpenPrefix(ms, k + 1);
    OpenIsSince(ms[..k], ms[k].call.id);
  }

  /** The use at `j` has its result before `n`, and no input came before that; or it is open, and none came. */
  ghost predicate ClosedOrOpen(ms: seq<Message>, j: nat, n: nat)
    requires j < n <= |ms| && ms[j].ToolUse? && OpenCalls(ms[..n]).Some?
  {
    || (exists k :: j < k < n && ms[k] == ToolResult(ms[j].call) && NoInputBetween(ms, j, k))
    || (ms[j].call.id in OpenCalls(ms[..n]).value && OpenCalls(ms[..n]).value[ms[j].call.id] == ms[j].call.name
        && NoInputBetween(ms, j, n))
  }

  ghost predicate NoInputBetween(ms: seq<Message>, j: int, k: int)
    requires 0 <= j && k <= |ms|
  {
    forall i :: j < i < k ==> !IsInput(ms[i])
  }

  lemma UseClosesOne(ms: seq<Message>, j: nat, n: nat, before: map<string, string>, after: map<string, string>)
    requires j + 1 < n <= |ms| && ms[j].ToolUse? && OpenCalls(ms[..n - 1]) == Some(before)
    requires OpenCalls(ms[..n]) == Some(after) == PairStep(before, ms[n - 1]) && ClosedOrOpen(ms, j, n - 1)
    ensures ClosedOrOpen(ms, j, n)
  {
    hide OpenCalls;
    var m, call := ms[n - 1], ms[j].call;
    if k :| j < k < n - 1 && ms[k] == ToolResult(call) && NoInputBetween(ms, j, k) {
      assert j < k < n;
    } else if m.ToolResult? && m.call.id == call.id {
      assert m == ToolResult(call) && NoInputBetween(ms, j, n - 1);
    }
  }

  lemma {:induction false} UseCloses(ms: seq<Message>, j: nat, n: nat)
    requires OpenCalls(ms).Some? && j < n <= |ms| && ms[j].ToolUse?
    ensures OpenCalls(ms[..n]).Some? && ClosedOrOpen(ms, j, n)
    decreases n
  {
    hide OpenCalls;
    OpenPrefix(ms, n - 1);
    OpenPrefix(ms, n);
    if n == j + 1 {
      assert NoInputBetween(ms, j, n);
    } else {
      UseCloses(ms, j, n - 1);
      UseClosesOne(ms, j, n, OpenCalls(ms[..n - 1]).value, OpenCalls(ms[..n]).value);
    }
  }

  /** In a context the validator accepts, every use has its result, before any input. */
  lemma UseHasResult(ms: seq<Message>, j: nat)
    requires Paired(ms) && j < |ms| && ms[j].ToolUse?
    ensures exists k :: j < k < |ms| && ms[k] == ToolResult(ms[j].call) && NoInputBetween(ms, j, k)
  {
    UseCloses(ms, j, |ms|);
    assert ms[..|ms|] == ms;
  }

  // ----- the record of a tool -----

  /** The first execution of that id in the batch, if there is one. */
  ghost predicate FirstOf(batch: seq<ToolExecution>, id: string, k: int) {
    0 <= k < |batch| && batch[k].call.id == id && forall i :: 0 <= i < k ==> batch[i].call.id != id
  }

  lemma {:induction false} FoundIsFirst(batch: seq<ToolExecution>, id: string)
    ensures FindCall(batch, id).Some? ==> FirstOf(batch, id, FindCall(batch, id).value)
    decreases |batch|
  {
    if batch != [] {
      FoundIsFirst(batch[1..], id);
      assert forall i :: 1 <= i < |batch| ==> batch[i] == batch[1..][i - 1];
    }
  }

  /** A tool's start, and its outcome, are marked on its call in the batch and told by an event, both or neither;
      outside a batch they are refused, and so is a call that is not of it. */
  lemma ToolIsRecorded(d: Db, call: ToolCall, outcome: ToolOutcome)
    requires d.state.ExecutingTools? && d.state.batch in d.batches
    ensures var batch := d.batches[d.state.batch];
            && (MarkToolStarted(d, call).Ok? <==> exists k :: 0 <= k < |batch| && batch[k].call.id == call.id)
            && (RecordToolOutcome(d, call, outcome).Ok? <==> MarkToolStarted(d, call).Ok?)
    ensures MarkToolStarted(d, call).Ok? ==>
              exists k :: FirstOf(d.batches[d.state.batch], call.id, k)
                          && var x := d.batches[d.state.batch][k];
                          && Replaced(d, MarkToolStarted(d, call).value, k, x.(started := true), ToolStarted(call))
                          && Replaced(d, RecordToolOutcome(d, call, outcome).value, k, x.(outcome := Some(outcome)),
                                      ToolFinished(call, outcome))
  {
    FoundIsFirst(d.batches[d.state.batch], call.id);
  }

  ghost predicate Replaced(d: Db, r: Db, k: int, x: ToolExecution, e: Event)
    requires d.state.ExecutingTools? && d.state.batch in d.batches && 0 <= k < |d.batches[d.state.batch]|
  {
    && r.events == d.events + [e] && r.state == d.state && r.queue == d.queue && r.context == d.context
    && r.batches == d.batches[d.state.batch := d.batches[d.state.batch][k := x]]
  }

  lemma ToolRefused(d: Db, call: ToolCall, outcome: ToolOutcome)
    ensures !d.state.ExecutingTools? ==> MarkToolStarted(d, call) == Err(UnexpectedPhase)
    ensures !d.state.ExecutingTools? ==> RecordToolOutcome(d, call, outcome) == Err(UnexpectedPhase)
  {
  }
}
