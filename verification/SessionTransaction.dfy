/** One transaction over a session's record and lists, step by step.

    Models `src/session/history.rs`, `src/session/queue.rs`, `src/session/machine.rs` and
    `src/session/machine/tool_batch.rs` as they run: lists grow and change in place, in loops. Each
    operation is proved to compute the function of `Sessions` it stands for, errors included; a
    transaction that ends in an error is dropped, so what it leaves behind is not stated. */
module SessionTransactions {
  import opened Prelude
  import opened Sessions

  type Unit = ()

  /** What a fallible operation did, against what it stands for. */
  ghost predicate Did<T>(r: Result<T, SessionError>, now: Db, expected: Step) {
    match expected
    case Ok(d) => r.Ok? && now == d
    case Err(e) => r == Err(e)
  }

  /** The first position of `id`. */
  method Find(ids: seq<EntryId>, id: EntryId) returns (r: Option<nat>)
    ensures r == Position(ids, id)
  {
    for i := 0 to |ids|
      invariant id !in ids[..i]
    {
      if ids[i] == id { return Some(i); }
      assert ids[..i + 1] == ids[..i] + [ids[i]];
    }
    assert ids[..|ids|] == ids;
    return None;
  }

  /** The position of the call `id` in a batch. */
  method FindExecution(batch: seq<ToolExecution>, id: string) returns (r: Option<nat>)
    ensures r == FindCall(batch, id)
  {
    for i := 0 to |batch|
      invariant forall j :: 0 <= j < i ==> batch[j].call.id != id
    {
      if batch[i].call.id == id {
        FirstCall(batch, id, i);
        return Some(i);
      }
    }
    return None;
  }

  lemma {:induction false} FirstCall(batch: seq<ToolExecution>, id: string, i: nat)
    requires i < |batch| && batch[i].call.id == id && forall j :: 0 <= j < i ==> batch[j].call.id != id
    ensures FindCall(batch, id) == Some(i)
    decreases |batch|
  {
    if i > 0 {
      assert forall j :: 0 <= j < i - 1 ==> batch[1..][j] == batch[j + 1];
      FirstCall(batch[1..], id, i - 1);
    }
  }

  /** Taking an entry out and putting it back elsewhere is moving it. */
  lemma MovedBySteps(original: seq<EntryId>, entry: EntryId, before: Option<EntryId>, source: nat, target: Option<nat>)
    requires Position(original, entry) == Some(source)
    requires target == if before.Some? then Position(RemoveAt(original, source), before.value) else None
    ensures var rest := RemoveAt(original, source);
            var at := target.GetOr(|rest|);
            && |rest| == |original| - 1 && at <= |rest|
            && Moved(original, entry, before) == rest[..at] + [entry] + rest[at..]
  {
  }

  class SessionTransaction {
    var state: SessionState
    var head: nat
    var nextList: nat
    var activeCall: Option<nat>
    var entries: seq<Entry>
    var events: seq<Event>
    var history: seq<HistoryRecord>
    var context: seq<EntryId>
    var cursor: nat
    var queue: seq<EntryId>
    var calls: seq<CallStatus>
    var batches: map<nat, seq<ToolExecution>>

    /** The session as this transaction sees it. */
    ghost function Now(): Db
      reads this
    {
      Db(state, head, nextList, activeCall, entries, events, history, context, cursor, queue, calls, batches)
    }

    constructor (d: Db)
      ensures Now() == d
    {
      state, head, nextList, activeCall := d.state, d.head, d.nextList, d.activeCall;
      entries, events, history, context, cursor := d.entries, d.events, d.history, d.context, d.cursor;
      queue, calls, batches := d.queue, d.calls, d.batches;
    }

    // ----- history.rs -----

    method NoteHistory(item: HistoryItem)
      modifies this
      ensures Now() == RecordHistory(old(Now()), item)
    {
      history := history + [HistoryRecord(|history|, item)];
    }

    method NoteEvent(event: Event) returns (id: nat)
      modifies this
      ensures Now() == RecordEvent(old(Now()), event)
      ensures id == old(|events|)
    {
      id := |events|;
      events := events + [event];
      NoteHistory(EventItem(id));
    }

    method StoreEntry(message: Message, origin: Origin) returns (id: EntryId)
      modifies this
      ensures Now() == CreateEntry(old(Now()), message, origin)
      ensures id == old(|entries|)
    {
      id := |entries|;
      entries := entries + [Entry(id, origin, message)];
    }

    method Append(message: Message, origin: Origin)
      modifies this
      ensures Now() == AppendMessage(old(Now()), message, origin)
    {
      var id := StoreEntry(message, origin);
      context := context + [id];
      NoteHistory(MessageItem(id));
    }

    method AppendAll(messages: seq<Message>, origin: Origin)
      modifies this
      ensures Now() == AppendMessages(old(Now()), messages, origin)
    {
      for i := 0 to |messages|
        invariant Now() == AppendMessages(old(Now()), messages[..i], origin)
      {
        Append(messages[i], origin);
        assert Front(messages[..i + 1]) == messages[..i];
      }
      assert messages[..|messages|] == messages;
    }

    // ----- lifecycle.rs -----

    /** Context-only messages join the context and no history, and compaction begins after the last. */
    method Import(past: seq<Past>)
      modifies this
      ensures Now() == ImportMessages(old(Now()), past)
    {
      var start, last := |context|, None;
      for i := 0 to |past|
        invariant Now() == ImportAll(old(Now()), past[..i]) && last == CursorIn(start, past[..i])
      {
        assert Front(past[..i + 1]) == past[..i];
        if IsContextOnly(past[i].origin) {
          var id := StoreEntry(past[i].message, past[i].origin);
          context := context + [id];
          last := Some(start + i + 1);
        } else {
          Append(past[i].message, Imported);
        }
      }
      assert past[..|past|] == past;
      ImportLeavesCursor(old(Now()), past);
      if last.Some? && cursor < last.value { cursor := last.value; }
    }

    // ----- queue.rs -----

    method QueueInput(message: Message) returns (id: EntryId)
      modifies this
      ensures Now() == AppendInput(old(Now()), message)
      ensures id == old(|entries|)
    {
      id := StoreEntry(message, FromInput);
      queue := queue + [id];
      var _ := NoteEvent(MessageQueued(id));
    }

    /** Writes `pending` over what waits in the queue, touching only the positions that differ. */
    method Rewrite(pending: seq<EntryId>)
      requires head <= |queue| && |pending| == |queue| - head
      modifies this`queue
      ensures queue == old(queue)[..head] + pending
    {
      var original := queue[head..];
      for i := 0 to |pending|
        invariant |queue| == |old(queue)| && queue[..head] == old(queue)[..head]
        invariant forall j :: 0 <= j < i ==> queue[head + j] == pending[j]
        invariant forall j :: i <= j < |original| ==> queue[head + j] == original[j]
      {
        if pending[i] != original[i] { queue := queue[head + i := pending[i]]; }
      }
      assert queue[head..] == pending;
    }

    method MoveInput(entry: EntryId, before: Option<EntryId>) returns (r: Result<Unit, SessionError>)
      requires head <= |queue|
      modifies this
      ensures Did(r, Now(), MoveQueuedInput(old(Now()), entry, before))
    {
      hide Position, Moved, RemoveAt;
      var original := queue[head..];
      var source := Find(original, entry);
      if source.None? { return Err(InvalidEntry(entry)); }
      if before.Some? && before.value !in original { return Err(InvalidEntry(before.value)); }
      if before == Some(entry) { return Ok(()); }
      var pending := RemoveAt(original, source.value);
      var target := None;
      if before.Some? { target := Find(pending, before.value); }
      var destination := target.GetOr(|pending|);
      pending := pending[..destination] + [entry] + pending[destination..];
      MovedBySteps(original, entry, before, source.value, target);
      if pending == original { return Ok(()); }
      Rewrite(pending);
      var _ := NoteEvent(InputMoved(entry, before));
      return Ok(());
    }

    method CancelInput(entry: EntryId) returns (r: Result<Unit, SessionError>)
      requires head <= |queue|
      modifies this
      ensures Did(r, Now(), CancelQueuedInput(old(Now()), entry))
    {
      hide Position;
      var offset := Find(queue[head..], entry);
      if offset.None? { return Err(InvalidEntry(entry)); }
      var position := head + offset.value;
      queue := queue[..position] + queue[position + 1..];
      var _ := NoteEvent(InputCancelled(entry));
      return Ok(());
    }

    method TakeInputs()
      requires head <= |queue|
      modifies this
      ensures Now() == ConsumeInputs(old(Now()))
    {
      var start, end := head, |queue|;
      var waiting := queue[start..];
      for i := 0 to |waiting|
        invariant Now() == JoinInputs(old(Now()), waiting[..i])
      {
        context := context + [waiting[i]];
        NoteHistory(MessageItem(waiting[i]));
        assert Front(waiting[..i + 1]) == waiting[..i];
      }
      assert waiting[..|waiting|] == waiting;
      JoinKeepsQueue(old(Now()), waiting);
      head := end;
      if start != end { var _ := NoteEvent(InputsConsumed(start, end)); }
    }

    method Collect()
      modifies this
      ensures Now() == CollectInputs(old(Now()))
    {
      if state != Idle || |queue| <= head { return; }
      Transition(Ready(0, true));
    }

    // ----- machine.rs -----

    method Transition(next: SessionState)
      modifies this
      ensures Now() == TransitionTo(old(Now()), next)
    {
      var source, target := PhaseOf(state), PhaseOf(next);
      state := next;
      var _ := NoteEvent(StateChanged(source, target));
    }

    method AbandonCall(outcome: RunOutcome)
      modifies this
      ensures Now() == AbandonRunningCall(old(Now()), outcome)
    {
      if activeCall.None? { return; }
      var id := activeCall.value;
      activeCall := None;
      if id < |calls| && calls[id].Running? {
        calls := calls[id := if outcome.Interrupted? then CallInterrupted else CallFailed];
      }
    }

    method Finish(outcome: RunOutcome)
      modifies this
      ensures Now() == FinishRun(old(Now()), outcome)
    {
      AbandonCall(outcome);
      if outcome.Completed? {
        Transition(Idle);
        var _ := NoteEvent(Finished(outcome));
      } else {
        var source := PhaseOf(state);
        var _ := NoteEvent(StateChanged(source, SuspendedPhase));
        var id := NoteEvent(Finished(outcome));
        state := Suspended(id);
      }
    }

    method Begin(completed: nat, needsModel: bool) returns (action: Action)
      requires head <= |queue|
      modifies this
      ensures StartTurn(old(Now()), completed, needsModel) == Advanced(Now(), action)
    {
      if !needsModel && head == |queue| {
        Finish(Completed);
        return Done(Completed);
      }
      var turn := completed + 1;
      TakeInputs();
      activeCall, calls := Some(|calls|), calls + [Running];
      Transition(CallingModel(turn));
      var _ := NoteEvent(TurnStarted(turn));
      return CallModel;
    }

    method NextAction() returns (r: Result<Action, SessionError>)
      requires head <= |queue|
      modifies this
      ensures match Advance(old(Now()))
              case Ok(advanced) => r == Ok(advanced.action) && Now() == advanced.db
              case Err(e) => r == Err(e)
    {
      match state
      case Idle => r := Ok(Done(Completed));
      case Suspended(o) =>
        if o < |events| && events[o].Finished? { r := Ok(Done(events[o].outcome)); }
        else { r := Err(Corrupt("invalid run outcome reference")); }
      case Ready(completed, needsModel) =>
        var action := Begin(completed, needsModel);
        r := Ok(action);
      case ExecutingTools(_, batch) =>
        if batch !in batches { return Err(Corrupt("missing batch")); }
        var pending := Unsettled(batches[batch]);
        r := Ok(ExecuteTools(pending));
      case _ => r := Err(UnexpectedPhase);
    }

    method SettleTurn(turn: nat, needsModel: bool)
      modifies this
      ensures Now() == CompleteTurn(old(Now()), turn, needsModel)
    {
      var _ := NoteEvent(StableBoundary(turn));
      Transition(Ready(turn, needsModel));
    }

    method TakeResponse(response: Response) returns (r: Result<Unit, SessionError>)
      modifies this
      ensures Did(r, Now(), SettleResponse(old(Now()), response))
    {
      if !state.CallingModel? { return Err(UnexpectedPhase); }
      var turn := state.turn;
      if response.stop.StopOther? {
        Finish(ModelStopped);
        return Ok(());
      }
      if !IsAcceptable(response) {
        var _ := NoteEvent(ResponseRejected);
        Finish(Failed);
        return Ok(());
      }
      var first := |entries|;
      AppendAll(response.messages, FromModel);
      var _ := NoteEvent(ResponseAccepted(turn, first, |entries|));
      ToolCallsAreUses(response.messages);
      var asked := CallsOf(ToolCalls(response.messages));
      if asked == [] { SettleTurn(turn, false); } else { OpenBatch(turn, asked); }
      return Ok(());
    }

    method TakeInterruption(replay: seq<Message>) returns (r: Result<Unit, SessionError>)
      modifies this
      ensures Did(r, Now(), SettleInterruption(old(Now()), replay))
    {
      if !state.CallingModel? { return Err(UnexpectedPhase); }
      var turn := state.turn;
      AppendAll(replay, FromInterruption);
      JoinedKeepsState(old(Now()), replay, FromInterruption);
      var _ := NoteEvent(ResponseInterrupted);
      var _ := NoteEvent(StableBoundary(turn));
      Finish(Interrupted);
      return Ok(());
    }

    // ----- tool_batch.rs -----

    method OpenBatch(turn: nat, asked: seq<ToolCall>)
      modifies this
      ensures Now() == StartToolBatch(old(Now()), turn, asked)
    {
      var id, batch := nextList, [];
      nextList := nextList + 1;
      for i := 0 to |asked|
        invariant Now() == old(Now()).(nextList := id + 1)
        invariant |batch| == i && forall j :: 0 <= j < i ==> batch[j] == ToolExecution(asked[j], false, None)
      {
        batch := batch + [ToolExecution(asked[i], false, None)];
      }
      assert batch == seq(|asked|, i requires 0 <= i < |asked| => ToolExecution(asked[i], false, None));
      batches := batches[id := batch];
      Transition(ExecutingTools(turn, id));
    }

    method Update(call: ToolCall, update: ToolExecution -> ToolExecution, event: Event)
      returns (r: Result<Unit, SessionError>)
      modifies this
      ensures Did(r, Now(), UpdateExecution(old(Now()), call, update, event))
    {
      if !state.ExecutingTools? { return Err(UnexpectedPhase); }
      if state.batch !in batches { return Err(Corrupt("missing batch")); }
      var batch := batches[state.batch];
      var position := FindExecution(batch, call.id);
      if position.None? { return Err(Corrupt("tool missing from active batch")); }
      batches := batches[state.batch := batch[position.value := update(batch[position.value])]];
      var _ := NoteEvent(event);
      return Ok(());
    }

    /** Settles what has no outcome: what started may have had effects, what did not had none. */
    method CancelRest(id: nat)
      requires id in batches
      modifies this`batches
      ensures batches == old(batches)[id := CancelUnfinished(old(batches)[id])]
    {
      var batch := batches[id];
      for i := 0 to |batch|
        invariant id in batches && |batches[id]| == |batch| && batches == old(batches)[id := batches[id]]
        invariant forall j :: 0 <= j < i ==> batches[id][j] == CancelUnfinished(batch)[j]
        invariant forall j :: i <= j < |batch| ==> batches[id][j] == batch[j]
      {
        if batch[i].outcome.None? {
          var settled := batch[i].(outcome := Some(if batch[i].started then Unknown else Cancelled));
          batches := batches[id := batches[id][i := settled]];
        }
      }
      assert batches[id] == CancelUnfinished(batch);
    }

    /** Every result in call order, then the input some carry; the batch is deleted. */
    method Drain(id: nat) returns (r: Result<bool, SessionError>)
      modifies this
      ensures Did(r, Now(), DrainBatch(old(Now()), id))
      ensures r.Ok? ==> id in old(batches) && r.value == AnyUnknown(old(batches)[id])
    {
      hide AppendMessage;
      if id !in batches { return Err(Corrupt("missing batch")); }
      var batch := batches[id];
      var unknown, inputs := false, [];
      for i := 0 to |batch|
        invariant forall j :: 0 <= j < i ==> batch[j].outcome.Some?
        invariant unknown <==> exists j :: 0 <= j < i && batch[j].outcome == Some(Unknown)
        invariant inputs == InputsOf(batch[..i])
        invariant Now() == AppendMessages(old(Now()), ResultsOf(batch)[..i], FromTool)
      {
        if batch[i].outcome.None? { return Err(Corrupt("unsettled tool batch")); }
        var outcome := batch[i].outcome.value;
        unknown := unknown || outcome.Unknown?;
        if outcome.SuccessWithInput? { inputs := inputs + [User(outcome.input)]; }
        Append(ToolResult(batch[i].call), FromTool);
        assert Front(ResultsOf(batch)[..i + 1]) == ResultsOf(batch)[..i];
        assert Front(batch[..i + 1]) == batch[..i];
      }
      assert batch[..|batch|] == batch && ResultsOf(batch)[..|batch|] == ResultsOf(batch);
      JoinedKeepsState(old(Now()), ResultsOf(batch), FromTool);
      batches := batches - {id};
      AppendAll(inputs, FromTool);
      return Ok(unknown);
    }

    method FinishTools() returns (r: Result<Unit, SessionError>)
      modifies this
      ensures Did(r, Now(), CompleteTools(old(Now())))
    {
      if !state.ExecutingTools? { return Err(UnexpectedPhase); }
      var turn, id := state.turn, state.batch;
      var drained := Drain(id);
      if drained.Err? { return Err(drained.error); }
      if drained.value {
        var _ := NoteEvent(StableBoundary(turn));
        Finish(ToolOutcomeUnknown);
      } else {
        SettleTurn(turn, true);
      }
      return Ok(());
    }

    method Settle() returns (r: Result<Unit, SessionError>)
      modifies this
      ensures Did(r, Now(), SettleInterrupted(old(Now())))
      decreases state
    {
      match state
      case CallingModel(turn) =>
        var _ := NoteEvent(StableBoundary(turn));
        Finish(Interrupted);
        r := Ok(());
      case ExecutingTools(_, id) =>
        if id !in batches { return Err(Corrupt("missing batch")); }
        CancelRest(id);
        r := FinishTools();
        if r.Ok? && !state.Suspended? { Finish(Interrupted); }
      case Compacting(resume) =>
        Transition(resume);
        if !IsStable(state) {
          r := Settle();
        } else {
          if !state.Suspended? { Finish(Interrupted); }
          r := Ok(());
        }
      case _ => r := Ok(());
    }
  }

  /** The calls of a batch that have no outcome. */
  method Unsettled(batch: seq<ToolExecution>) returns (pending: seq<ToolCall>)
    ensures pending == PendingCalls(batch)
  {
    pending := [];
    for i := 0 to |batch|
      invariant pending == PendingCalls(batch[..i])
    {
      if batch[i].outcome.None? { pending := pending + [batch[i].call]; }
      assert Front(batch[..i + 1]) == batch[..i];
    }
    assert batch[..|batch|] == batch;
  }

  lemma {:induction false} ImportLeavesCursor(d: Db, past: seq<Past>)
    ensures ImportAll(d, past).cursor == d.cursor
    decreases |past|
  {
    if past != [] { ImportLeavesCursor(d, Front(past)); }
  }

  lemma {:induction false} JoinKeepsQueue(d: Db, ids: seq<EntryId>)
    ensures JoinInputs(d, ids).queue == d.queue
    decreases |ids|
  {
    if ids != [] { JoinKeepsQueue(d, Front(ids)); }
  }

  lemma {:induction false} JoinedKeepsState(d: Db, ms: seq<Message>, origin: Origin)
    ensures AppendMessages(d, ms, origin).state == d.state && AppendMessages(d, ms, origin).batches == d.batches
    decreases |ms|
  {
    if ms != [] { JoinedKeepsState(d, Front(ms), origin); }
  }
}
