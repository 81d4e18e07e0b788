/** What two points in time of a session's queue have in common: input once consumed stays consumed, in
    its place. Over `src/session/queue.rs` and everything in `src/session/machine.rs` beside it. */
module SessionQueue {
  import opened Prelude
  import opened Sessions
  import opened SessionLists
  import opened SessionMachine

  /** The consumed part of the queue is still the beginning of it, and still consumed. */
  ghost predicate StillConsumed(d: Db, r: Db) {
    d.head <= |d.queue| && d.head <= r.head <= |r.queue| && r.queue[..d.head] == d.queue[..d.head]
  }

  predicate SameQueue(d: Db, r: Db) {
    r.queue == d.queue && r.head == d.head
  }

  lemma StillConsumedJoins(d: Db, m: Db, r: Db)
    requires StillConsumed(d, m) && StillConsumed(m, r)
    ensures StillConsumed(d, r)
  {
    assert r.queue[..d.head] == r.queue[..m.head][..d.head] == m.queue[..d.head];
  }

  lemma FinishLeavesQueue(d: Db, outcome: RunOutcome)
    ensures SameQueue(d, FinishRun(d, outcome))
  {
  }

  lemma ResponseLeavesQueue(d: Db, r: Response)
    ensures SettleResponse(d, r).Ok? ==> SameQueue(d, SettleResponse(d, r).value)
  {
    hide FinishRun, AppendMessages, IsAcceptable;
    AppendMessagesFrame(d, r.messages, FromModel);
    FinishLeavesQueue(d, ModelStopped);
    FinishLeavesQueue(RecordEvent(d, ResponseRejected), Failed);
  }

  lemma InterruptionLeavesQueue(d: Db, replay: seq<Message>)
    ensures SettleInterruption(d, replay).Ok? ==> SameQueue(d, SettleInterruption(d, replay).value)
  {
    hide AppendMessages;
    AppendMessagesFrame(d, replay, FromInterruption);
  }

  lemma ToolsLeaveQueue(d: Db)
    ensures CompleteTools(d).Ok? ==> SameQueue(d, CompleteTools(d).value)
  {
    hide AppendMessages, ResultsOf, InputsOf;
    if CompleteTools(d).Ok? {
      var id := d.state.batch;
      AppendMessagesFrame(d, ResultsOf(d.batches[id]), FromTool);
      var results := AppendMessages(d, ResultsOf(d.batches[id]), FromTool).(batches := d.batches - {id});
      AppendMessagesFrame(results, InputsOf(d.batches[id]), FromTool);
    }
  }

  lemma {:induction false} SettlingLeavesQueue(d: Db)
    ensures SettleInterrupted(d).Ok? ==> SameQueue(d, SettleInterrupted(d).value)
    decreases d.state
  {
    hide CompleteTools;
    match d.state
    case ExecutingTools(_, batch) =>
      if batch in d.batches {
        ToolsLeaveQueue(d.(batches := d.batches[batch := CancelUnfinished(d.batches[batch])]));
      }
    case Compacting(resume) =>
      if !IsStable(resume) { SettlingLeavesQueue(TransitionTo(d, resume)); }
    case _ =>
  }

  lemma CallEndLeavesQueue(d: Db, op: Op)
    requires d.head <= |d.queue| && Apply(d, op).Ok? && (op.TakeResponse? || op.TakeInterruption? || op.FailCall?)
    ensures SameQueue(d, Apply(d, op).value)
  {
    hide SettleResponse, SettleInterruption, FinishRun;
    match op
    case TakeResponse(r) => ResponseLeavesQueue(CompleteModelCall(d, CallCompleted).value, r);
    case TakeInterruption(replay) => InterruptionLeavesQueue(CompleteModelCall(d, CallInterrupted).value, replay);
    case FailCall(outcome) => FinishLeavesQueue(CompleteModelCall(d, CallFailed).value, outcome);
  }

  lemma AdvanceConsumes(d: Db)
    requires MachineOk(d) && Advance(d).Ok?
    ensures StillConsumed(d, Advance(d).value.db)
  {
    hide ListsOk, ReadEvents, ConsumeInputs, FinishRun;
    FinishLeavesQueue(d, Completed);
    ConsumeReads(d);
  }

  /** The queue is edited by senders, and consumed when a turn starts; nothing else touches it. */
  predicate TouchesQueue(op: Op) {
    op.Enqueue? || op.AppInput? || op.MoveInput? || op.CancelInput? || op.AdvanceRun?
  }

  lemma OthersLeaveQueue(d: Db, op: Op)
    requires d.head <= |d.queue| && Apply(d, op).Ok? && !TouchesQueue(op)
    ensures SameQueue(d, Apply(d, op).value)
  {
    hide CompleteTools, SettleInterrupted, ImportMessages;
    if op.TakeResponse? || op.TakeInterruption? || op.FailCall? {
      CallEndLeavesQueue(d, op);
    } else if op.FinishTools? {
      ToolsLeaveQueue(d);
    } else if op.Settle? {
      SettlingLeavesQueue(d);
    } else if op.Import? {
      ImportFrame(d, op.past);
    }
  }

  lemma ApplyKeepsConsumed(d: Db, op: Op)
    requires MachineOk(d) && Apply(d, op).Ok?
    ensures StillConsumed(d, Apply(d, op).value)
  {
    hide ListsOk, Advance, MoveQueuedInput, CancelQueuedInput;
    if !TouchesQueue(op) {
      OthersLeaveQueue(d, op);
    } else {
      match op
      case MoveInput(entry, before) =>
        MoveKeepsLists(d, entry, before);
        ApplyFits(d, op);
      case CancelInput(entry) => CancelKeepsLists(d, entry);
      case AdvanceRun => AdvanceConsumes(d);
      case _ =>
    }
  }

  /** Over every run from every reachable session: what was consumed is never altered, moved, taken out or
      put back among the pending. */
  lemma {:induction false} ConsumedStays(d: Db, ops: seq<Op>)
    requires MachineOk(d)
    ensures StillConsumed(d, Run(d, ops))
    decreases |ops|
  {
    hide MachineOk, Apply;
    if ops == [] {
      UnpackMachine(d);
    } else {
      ConsumedStays(d, Front(ops));
      var before := Run(d, Front(ops));
      if Apply(before, Last(ops)).Ok? {
        ApplyKeepsConsumed(before, Last(ops));
        StillConsumedJoins(d, before, Run(d, ops));
      }
    }
  }

  // ----- what an edit does to the pending part -----

  function Pending(d: Db): seq<EntryId>
    requires d.head <= |d.queue|
  {
    d.queue[d.head..]
  }

  /** No input is pending twice. */
  lemma PendingDistinct(d: Db)
    requires ListsOk(ListsOf(d))
    ensures d.head <= |d.queue| && Distinct(Pending(d))
  {
    forall i, j | 0 <= i < j < |Pending(d)| ensures Pending(d)[i] != Pending(d)[j] {
      if Pending(d)[i] == Pending(d)[j] {
        InputsConserved(ListsOf(d), Pending(d)[i]);
        TwiceInMultiset(Pending(d), i, j);
        assert false;
      }
    }
  }

  /** `q` is `p` without its one `entry`, the others in their order. */
  ghost predicate TakenOut(p: seq<EntryId>, q: seq<EntryId>, entry: EntryId) {
    exists k :: OnlyAt(p, entry, k) && q == p[..k] + p[k + 1..]
  }

  ghost predicate OnlyAt(p: seq<EntryId>, entry: EntryId, k: int) {
    0 <= k < |p| && p[k] == entry && forall j :: 0 <= j < |p| && p[j] == entry ==> j == k
  }

  lemma RemoveAtBehind(consumed: seq<EntryId>, p: seq<EntryId>, k: nat)
    requires k < |p|
    ensures RemoveAt(consumed + p, |consumed| + k) == consumed + RemoveAt(p, k)
  {
    var whole := consumed + p;
    assert whole[..|consumed| + k] == consumed + p[..k];
    assert whole[|consumed| + k + 1..] == p[k + 1..];
  }

  lemma RemovedOne(p: seq<EntryId>, entry: EntryId)
    requires Distinct(p) && entry in p
    ensures TakenOut(p, RemoveAt(p, Position(p, entry).value), entry)
  {
    assert OnlyAt(p, entry, Position(p, entry).value);
  }

  lemma RemovedBehind(queue: seq<EntryId>, head: nat, entry: EntryId)
    requires head <= |queue| && Distinct(queue[head..]) && entry in queue[head..]
    ensures var r := RemoveAt(queue, head + Position(queue[head..], entry).value);
            && head <= |r| && r[..head] == queue[..head] && TakenOut(queue[head..], r[head..], entry)
  {
    hide RemoveAt, TakenOut, Distinct, Position;
    var consumed, p := queue[..head], queue[head..];
    RemovedOne(p, entry);
    var k := Position(p, entry).value;
    assert consumed + p == queue;
    RemoveAtBehind(consumed, p, k);
    Behind(consumed, RemoveAt(p, k));
  }

  lemma Behind(consumed: seq<EntryId>, p: seq<EntryId>)
    ensures (consumed + p)[..|consumed|] == consumed && (consumed + p)[|consumed|..] == p
  {
  }

  /** A cancellation takes out the one pending input of that name and leaves the others in their order; what
      is not pending is refused. */
  lemma CancelTakesOne(d: Db, entry: EntryId)
    requires ListsOk(ListsOf(d))
    ensures d.head <= |d.queue|
    ensures entry !in Pending(d) ==> CancelQueuedInput(d, entry) == Err(InvalidEntry(entry))
    ensures entry in Pending(d) ==>
              && CancelQueuedInput(d, entry).Ok?
              && var r := CancelQueuedInput(d, entry).value;
              && r == RecordEvent(d.(queue := r.queue), InputCancelled(entry)) && d.head <= |r.queue|
              && r.queue[..d.head] == d.queue[..d.head] && TakenOut(Pending(d), Pending(r), entry)
  {
    hide ListsOk, TakenOut, RemoveAt, Distinct, OnlyAt;
    PendingDistinct(d);
    if entry in Pending(d) { RemovedBehind(d.queue, d.head, entry); }
  }

  /** Every two of `p` other than `entry` come in `q` in the same order. */
  ghost predicate OrderKept(p: seq<EntryId>, q: seq<EntryId>, entry: EntryId) {
    forall i, j :: 0 <= i < j < |p| && p[i] != entry && p[j] != entry ==> Precedes(q, p[i], p[j])
  }

  ghost predicate Precedes(q: seq<EntryId>, a: EntryId, b: EntryId) {
    exists k, l :: 0 <= k < l < |q| && q[k] == a && q[l] == b
  }

  ghost predicate DirectlyBefore(q: seq<EntryId>, a: EntryId, b: EntryId) {
    exists k :: 0 <= k && k + 1 < |q| && q[k] == a && q[k + 1] == b
  }

  lemma TakenOutKeepsOrder(p: seq<EntryId>, k: nat, rest: seq<EntryId>)
    requires k < |p| && rest == p[..k] + p[k + 1..]
    ensures forall i :: 0 <= i < k ==> rest[i] == p[i]
    ensures forall i :: k < i < |p| ==> rest[i - 1] == p[i]
  {
  }

  lemma PutInKeepsOrder(rest: seq<EntryId>, at: nat, entry: EntryId, q: seq<EntryId>)
    requires at <= |rest| && q == rest[..at] + [entry] + rest[at..]
    ensures forall i :: 0 <= i < at ==> q[i] == rest[i]
    ensures forall i :: at <= i < |rest| ==> q[i + 1] == rest[i]
    ensures q[at] == entry
  {
  }

  /** `q` is `p` with the input directly before the one named, or last, and every two others in their
      order. */
  ghost predicate Placed(p: seq<EntryId>, q: seq<EntryId>, entry: EntryId, before: Option<EntryId>) {
    && |q| == |p| && multiset(q) == multiset(p) && OrderKept(p, q, entry)
    && (before.None? && q != [] ==> Last(q) == entry)
    && (before.Some? && before.value != entry ==> DirectlyBefore(q, entry, before.value))
  }

  lemma OthersKeepOrder(p: seq<EntryId>, k: nat, rest: seq<EntryId>, at: nat, q: seq<EntryId>)
    requires k < |p| && rest == p[..k] + p[k + 1..] && at <= |rest| && q == rest[..at] + [p[k]] + rest[at..]
    ensures OrderKept(p, q, p[k])
  {
    TakenOutKeepsOrder(p, k, rest);
    PutInKeepsOrder(rest, at, p[k], q);
    forall i, j | 0 <= i < j < |p| && p[i] != p[k] && p[j] != p[k] ensures Precedes(q, p[i], p[j]) {
      var a, b := if i < k then i else i - 1, if j < k then j else j - 1;
      assert rest[a] == p[i] && rest[b] == p[j] && a < b;
      var c, e := if a < at then a else a + 1, if b < at then b else b + 1;
      assert q[c] == p[i] && q[e] == p[j] && c < e;
    }
  }

  lemma PutBefore(p: seq<EntryId>, k: nat, rest: seq<EntryId>, before: EntryId)
    requires k < |p| && rest == p[..k] + p[k + 1..] && before in p && before != p[k]
    ensures before in rest
  {
    TakenOutKeepsOrder(p, k, rest);
    var i :| 0 <= i < |p| && p[i] == before;
    assert rest[if i < k then i else i - 1] == before;
  }

  lemma PutDirectly(rest: seq<EntryId>, at: nat, entry: EntryId, q: seq<EntryId>)
    requires at <= |rest| && q == rest[..at] + [entry] + rest[at..]
    ensures at < |rest| ==> DirectlyBefore(q, entry, rest[at])
    ensures at == |rest| ==> Last(q) == entry
  {
    PutInKeepsOrder(rest, at, entry, q);
    if at < |rest| { assert q[at] == entry && q[at + 1] == rest[at]; }
  }

  lemma MovedPlaces(p: seq<EntryId>, entry: EntryId, before: Option<EntryId>)
    requires entry in p && (before.Some? ==> before.value in p)
    ensures Placed(p, Moved(p, entry, before), entry, before)
  {
    MovedIsPermutation(p, entry, before);
    var k := Position(p, entry).value;
    var rest := RemoveAt(p, k);
    var at := (if before.Some? then Position(rest, before.value) else None).GetOr(|rest|);
    var q := Moved(p, entry, before);
    assert q == rest[..at] + [entry] + rest[at..];
    hide OrderKept, DirectlyBefore, Moved;
    OthersKeepOrder(p, k, rest, at, q);
    PutDirectly(rest, at, entry, q);
    if before.Some? && before.value != entry { PutBefore(p, k, rest, before.value); }
  }

  lemma MoveTaken(d: Db, entry: EntryId, before: Option<EntryId>)
    requires d.head <= |d.queue| && entry in Pending(d) && (before.Some? ==> before.value in Pending(d))
    ensures MoveQueuedInput(d, entry, before).Ok?
    ensures var r := MoveQueuedInput(d, entry, before).value;
            && r.head == d.head && r.head <= |r.queue| && r.queue[..d.head] == d.queue[..d.head]
            && Placed(Pending(d), Pending(r), entry, before)
            && (Pending(r) == Pending(d) ==> r == d)
            && (r != d ==> r == RecordEvent(d.(queue := r.queue), InputMoved(entry, before)))
  {
    hide Moved, Placed, Distinct;
    var p := Pending(d);
    MovedPlaces(p, entry, before);
    SamePlaced(p, entry);
    Behind(d.queue[..d.head], Moved(p, entry, before));
  }

  /** A move places the input and touches nothing else; one that leaves the order as it is changes nothing at
      all; and what is not pending is refused. */
  lemma MovePlaces(d: Db, entry: EntryId, before: Option<EntryId>)
    requires d.head <= |d.queue|
    ensures entry !in Pending(d) ==> MoveQueuedInput(d, entry, before) == Err(InvalidEntry(entry))
    ensures entry in Pending(d) && before.Some? && before.value !in Pending(d) ==>
              MoveQueuedInput(d, entry, before) == Err(InvalidEntry(before.value))
    ensures entry in Pending(d) && (before.Some? ==> before.value in Pending(d)) ==>
              && MoveQueuedInput(d, entry, before).Ok?
              && var r := MoveQueuedInput(d, entry, before).value;
              && r.head == d.head && r.head <= |r.queue| && r.queue[..d.head] == d.queue[..d.head]
              && Placed(Pending(d), Pending(r), entry, before)
              && (Pending(r) == Pending(d) ==> r == d)
              && (r != d ==> r == RecordEvent(d.(queue := r.queue), InputMoved(entry, before)))
  {
    hide Moved, Placed;
    if entry in Pending(d) && (before.Some? ==> before.value in Pending(d)) { MoveTaken(d, entry, before); }
  }

  lemma SamePlaced(p: seq<EntryId>, entry: EntryId)
    ensures Placed(p, p, entry, Some(entry))
  {
    SameOrder(p, entry);
  }

  lemma SameOrder(p: seq<EntryId>, entry: EntryId)
    ensures OrderKept(p, p, entry)
  {
    forall i, j | 0 <= i < j < |p| ensures Precedes(p, p[i], p[j]) {
    }
  }
}
