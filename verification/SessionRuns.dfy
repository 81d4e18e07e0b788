/** The session machine over the shared store: every interleaving of the owner with its senders, with
    failed transactions, crashes and reopenings, is a run of the session's operations one at a time.

    Joins `Persistence`, where a transaction is any function of record and lists, to `SessionMachine`,
    where the transactions are those of `src/session`. */
module SessionRuns {
  import opened Prelude
  import opened Sessions
  import opened SessionLists
  import opened SessionMachine
  import opened SessionQueue
  import opened SessionPairs
  import Persistence

  /** The record, which the owner caches and saves whole. */
  datatype Header = Header(state: SessionState, head: nat, nextList: nat, activeCall: Option<nat>)

  /** The lists, which senders change too. */
  datatype Body = Body(
    entries: seq<Entry>, events: seq<Event>, history: seq<HistoryRecord>, context: seq<EntryId>, cursor: nat,
    queue: seq<EntryId>, calls: seq<CallStatus>, batches: map<nat, seq<ToolExecution>>)

  type Store = Persistence.Store<Header, Body>
  type Action = Persistence.Action<Header, Body>
  type World = Persistence.World<Header, Body>

  function HeaderOf(d: Db): Header {
    Header(d.state, d.head, d.nextList, d.activeCall)
  }

  function BodyOf(d: Db): Body {
    Body(d.entries, d.events, d.history, d.context, d.cursor, d.queue, d.calls, d.batches)
  }

  function Stored(d: Db): Store {
    Persistence.Store(HeaderOf(d), BodyOf(d))
  }

  function Whole(h: Header, b: Body): Db {
    Db(h.state, h.head, h.nextList, h.activeCall, b.entries, b.events, b.history, b.context, b.cursor, b.queue,
       b.calls, b.batches)
  }

  ghost function StoredSession(w: World): Db {
    Whole(w.store.record, w.store.lists)
  }

  /** An operation as the store's transaction. */
  function WorkOf(op: Op): Persistence.Work<Header, Body> {
    (h: Header, b: Body) =>
      if h.head > |b.queue| then None
      else
        match Apply(Whole(h, b), op)
        case Err(_) => None
        case Ok(d) => Some(Stored(d))
  }

  function QueueLength(b: Body): nat {
    |b.queue|
  }

  predicate Runs(a: Action) {
    a.OwnerRun? || a.SenderRun?
  }

  /** Whoever runs a transaction runs one of the session's operations: `named` has it at the action's
      place. */
  ghost predicate Named(actions: seq<Action>, named: seq<Op>) {
    |named| == |actions| && forall i :: 0 <= i < |actions| && Runs(actions[i]) ==> actions[i].work == WorkOf(named[i])
  }

  /** The operations whose transactions committed, in the order in which they did. */
  ghost function Committed(start: Store, actions: seq<Action>, named: seq<Op>): seq<Op>
    requires |named| == |actions|
    decreases |actions|
  {
    if actions == [] then []
    else
      var w := Persistence.Run(start, Front(actions), QueueLength).world;
      Committed(start, Front(actions), Front(named))
      + (if Persistence.Enabled(w, Last(actions)) && Persistence.Next(w, Last(actions), QueueLength).1.Some?
         then [Last(named)] else [])
  }

  lemma {:induction false} CommittedGrows(start: Store, actions: seq<Action>, named: seq<Op>, k: nat)
    requires |named| == |actions| && k <= |actions|
    ensures Committed(start, actions[..k], named[..k]) <= Committed(start, actions, named)
    decreases |actions|
  {
    hide Persistence.Run, Persistence.Next, Persistence.Enabled;
    if k == |actions| {
      assert actions[..k] == actions && named[..k] == named;
    } else {
      CommittedGrows(start, Front(actions), Front(named), k);
      assert Front(actions)[..k] == actions[..k] && Front(named)[..k] == named[..k];
    }
  }

  /** A committed step did to the stored session what its operation does to it. */
  lemma CommitApplies(w: World, a: Action, op: Op)
    requires Persistence.CacheCoherent(w) && Persistence.Enabled(w, a) && Runs(a) && a.work == WorkOf(op)
    ensures var (w', commit) := Persistence.Next(w, a, QueueLength);
            if commit.None? then w'.store == w.store
            else
              var d := Whole(w.store.record, w.store.lists);
              d.head <= |d.queue| && Apply(d, op).Ok? && w'.store == Stored(Apply(d, op).value)
  {
    hide Apply;
  }

  lemma OtherStepsKeepStore(w: World, a: Action)
    requires Persistence.Enabled(w, a) && !Runs(a)
    ensures Persistence.Next(w, a, QueueLength).0.store == w.store && Persistence.Next(w, a, QueueLength).1.None?
  {
  }

  /** Each of the operations succeeds on what those before it made. */
  ghost predicate AllSucceed(d: Db, ops: seq<Op>)
    requires MachineOk(d)
    decreases |ops|
  {
    ops == [] ||
    var before := Run(d, Front(ops));
    AllSucceed(d, Front(ops)) && before.head <= |before.queue| && Apply(before, Last(ops)).Ok?
  }

  lemma OneMore(d: Db, ops: seq<Op>, op: Op)
    requires MachineOk(d) && AllSucceed(d, ops)
    requires var before := Run(d, ops); before.head <= |before.queue| && Apply(before, op).Ok?
    ensures AllSucceed(d, ops + [op]) && Run(d, ops + [op]) == Apply(Run(d, ops), op).value
  {
    hide Apply, MachineOk;
    assert Front(ops + [op]) == ops;
  }

  /** One step on a stored session that is some run's: it is that run, or one operation more. */
  lemma StepIsRun(d: Db, w: World, a: Action, ops: seq<Op>, op: Op)
    requires MachineOk(d) && AllSucceed(d, ops) && w.store == Stored(Run(d, ops))
    requires Persistence.CacheCoherent(w) && Persistence.Enabled(w, a) && (Runs(a) ==> a.work == WorkOf(op))
    ensures var (w', commit) := Persistence.Next(w, a, QueueLength);
            var more := if commit.Some? then ops + [op] else ops;
            AllSucceed(d, more) && w'.store == Stored(Run(d, more))
  {
    hide MachineOk, Apply, WorkOf, Run, AllSucceed;
    if Runs(a) {
      CommitApplies(w, a, op);
      hide Persistence.Next, Persistence.Enabled, Persistence.CacheCoherent;
      if Persistence.Next(w, a, QueueLength).1.Some? {
        assert StoredSession(w) == Run(d, ops);
        OneMore(d, ops, op);
      }
    } else {
      OtherStepsKeepStore(w, a);
    }
  }

  /** Whatever the interleaving, the stored session is the one the committed operations make of the new
      session, applied whole and one after another, each with success. */
  lemma {:induction false} InterleavingsAreRuns(d: Db, actions: seq<Action>, named: seq<Op>)
    requires MachineOk(d) && Named(actions, named)
    ensures var ops := Committed(Stored(d), actions, named);
            AllSucceed(d, ops) && Persistence.Run(Stored(d), actions, QueueLength).world.store == Stored(Run(d, ops))
    decreases |actions|
  {
    hide MachineOk, WorkOf, Run, AllSucceed, Persistence.Next, Persistence.Enabled;
    if actions == [] {
      NothingCommitted(d);
    } else {
      var front, a := Front(actions), Last(actions);
      InterleavingsAreRuns(d, front, Front(named));
      Persistence.RunsAreSerial(Stored(d), front, QueueLength);
      hide Persistence.CacheCoherent;
      var before := Persistence.Run(Stored(d), front, QueueLength).world;
      var ops := Committed(Stored(d), front, Front(named));
      assert ops + [] == ops;
      assert actions[|actions| - 1] == a && named[|actions| - 1] == Last(named);
      if Persistence.Enabled(before, a) {
        StepIsRun(d, before, a, ops, Last(named));
      }
    }
  }

  lemma NothingCommitted(d: Db)
    requires MachineOk(d)
    ensures Run(d, []) == d && AllSucceed(d, [])
  {
  }

  /** A queued input is in one place: consumed, pending or cancelled; and nothing else is in any. */
  ghost predicate InOnePlace(d: Db, id: EntryId) {
    d.head <= |d.queue| &&
    multiset(d.queue[..d.head])[id] + multiset(d.queue[d.head..])[id] + multiset(CancelledIds(d.events))[id]
    == if id in Queued(d.events) then 1 else 0
  }

  lemma AllInOnePlace(d: Db, id: EntryId)
    requires MachineOk(d)
    ensures InOnePlace(d, id)
  {
    InputsConserved(ListsOf(d), id);
  }

  /** An owner between two transactions works on the stored record. */
  ghost predicate OwnerInStep(w: World) {
    w.owner.Live? ==>
      w.openings != [] && (!Persistence.OwnerBusy(Last(w.openings).lock) ==> w.owner.cache == w.store.record)
  }

  ghost function Reached(history: seq<Past>, firstInput: Option<Message>, actions: seq<Action>): World
    requires Create(history, firstInput).Ok?
  {
    Persistence.Run(Stored(NewSession(history, firstInput)), actions, QueueLength).world
  }

  /** From its creation on, over every interleaving of owner, senders, failures, crashes and reopenings:
      the stored session keeps every invariant of the machine and of its lists, every input ever queued is
      consumed, pending or cancelled exactly once, and the owner works on the stored record. */
  lemma InterleavingsFit(
    history: seq<Past>, firstInput: Option<Message>, actions: seq<Action>, named: seq<Op>, id: EntryId)
    requires Create(history, firstInput).Ok? && Named(actions, named)
    ensures var w := Reached(history, firstInput, actions);
            OwnerInStep(w) && MachineOk(StoredSession(w)) && InOnePlace(StoredSession(w), id)
  {
    hide MachineOk, InOnePlace, Run, Create, Persistence.Run, AllSucceed;
    var start := NewSession(history, firstInput);
    InterleavingsAreRuns(start, actions, named);
    Persistence.RunsAreSerial(Stored(start), actions, QueueLength);
    var ops := Committed(Stored(start), actions, named);
    assert StoredSession(Reached(history, firstInput, actions)) == Run(start, ops);
    AllInOnePlace(Run(start, ops), id);
  }

  lemma {:induction false} RunsJoin(d: Db, ops: seq<Op>, more: seq<Op>)
    requires MachineOk(d)
    ensures Run(d, ops + more) == Run(Run(d, ops), more)
    decreases |more|
  {
    hide MachineOk, Apply;
    if more == [] {
      assert ops + more == ops;
    } else {
      assert Front(ops + more) == ops + Front(more) && Last(ops + more) == Last(more);
      RunsJoin(d, ops, Front(more));
    }
  }

  /** Between any two points of any interleaving, the input consumed at the first is still consumed at the
      second, in the same places of the queue. */
  lemma ConsumedStaysStored(
    history: seq<Past>, firstInput: Option<Message>, actions: seq<Action>, named: seq<Op>, k: nat)
    requires Create(history, firstInput).Ok? && Named(actions, named) && k <= |actions|
    ensures StillConsumed(StoredSession(Reached(history, firstInput, actions[..k])),
                          StoredSession(Reached(history, firstInput, actions)))
  {
    hide MachineOk, Run, Create, Persistence.Run, AllSucceed, Committed, StillConsumed;
    var start := NewSession(history, firstInput);
    InterleavingsAreRuns(start, actions, named);
    InterleavingsAreRuns(start, actions[..k], named[..k]);
    CommittedGrows(Stored(start), actions, named, k);
    var early := Committed(Stored(start), actions[..k], named[..k]);
    var ops := Committed(Stored(start), actions, named);
    var more := ops[|early|..];
    assert ops == early + more;
    RunsJoin(start, early, more);
    ConsumedStays(Run(start, early), more);
  }

  /** In an interleaving the stored session's calls are paired with their results at every point if and
      only if every committed operation obeyed; and then the validator accepts the
      context whenever no batch is running. */
  lemma InterleavingsPair(history: seq<Past>, firstInput: Option<Message>, actions: seq<Action>, named: seq<Op>)
    requires Create(history, firstInput).Ok? && Named(actions, named)
    ensures var start := NewSession(history, firstInput);
            AllObey(start, Committed(Stored(start), actions, named))
            <==> forall k :: 0 <= k <= |actions| ==> PairsOk(StoredSession(Reached(history, firstInput, actions[..k])))
    ensures var d := StoredSession(Reached(history, firstInput, actions));
            PairsOk(d) && !d.state.ExecutingTools? ==> ContextPaired(d)
  {
    hide MachineOk, Run, Create, Persistence.Run, AllSucceed, Committed, PairsOk, AllObey, AlwaysPaired;
    var start := NewSession(history, firstInput);
    var ops := Committed(Stored(start), actions, named);
    CreateKeepsPairs(history, firstInput);
    RunKeepsPairsIff(start, ops);
    PairedAtEveryCommit(start, actions, named);
    var d := StoredSession(Reached(history, firstInput, actions));
    if PairsOk(d) && !d.state.ExecutingTools? { RequestsArePaired(d); }
  }

  ghost function StoredAt(d: Db, actions: seq<Action>): Db {
    StoredSession(Persistence.Run(Stored(d), actions, QueueLength).world)
  }

  ghost predicate AlwaysStoredPaired(d: Db, actions: seq<Action>) {
    forall k :: 0 <= k <= |actions| ==> PairsOk(StoredAt(d, actions[..k]))
  }

  lemma LastStoredPaired(d: Db, actions: seq<Action>)
    requires actions != []
    ensures AlwaysStoredPaired(d, actions)
            <==> AlwaysStoredPaired(d, Front(actions)) && PairsOk(StoredAt(d, actions))
  {
    hide PairsOk, StoredAt;
    assert actions[..|actions|] == actions;
    assert forall k :: 0 <= k < |actions| ==> Front(actions)[..k] == actions[..k];
  }

  lemma CommittedLast(start: Store, actions: seq<Action>, named: seq<Op>)
    requires |named| == |actions| > 0
    ensures var before := Committed(start, Front(actions), Front(named));
            Committed(start, actions, named) == before || Committed(start, actions, named) == before + [Last(named)]
  {
    hide Persistence.Run, Persistence.Next, Persistence.Enabled;
  }

  lemma EndPaired(d: Db, ops: seq<Op>)
    requires MachineOk(d) && AlwaysPaired(d, ops)
    ensures PairsOk(Run(d, ops))
  {
    hide MachineOk, PairsOk, Run;
    assert ops[..|ops|] == ops;
  }

  lemma NothingStored(d: Db, none: seq<Action>)
    requires MachineOk(d) && none == []
    ensures AlwaysStoredPaired(d, none) <==> PairsOk(d)
    ensures AlwaysPaired(d, []) <==> PairsOk(d)
  {
    hide MachineOk, PairsOk;
    assert none[..0] == none && StoredAt(d, none) == d;
  }

  /** The stored session passes through exactly the sessions the committed operations make. */
  lemma {:induction false} PairedAtEveryCommit(d: Db, actions: seq<Action>, named: seq<Op>)
    requires MachineOk(d) && Named(actions, named)
    ensures AlwaysPaired(d, Committed(Stored(d), actions, named)) <==> AlwaysStoredPaired(d, actions)
    decreases |actions|
  {
    hide MachineOk, Run, AllSucceed, PairsOk, AlwaysPaired, AlwaysStoredPaired, Persistence.Run, WorkOf;
    if actions == [] {
      NothingStored(d, actions);
    } else {
      PairedAtEveryCommit(d, Front(actions), Front(named));
      LastStoredPaired(d, actions);
      InterleavingsAreRuns(d, actions, named);
      CommittedLast(Stored(d), actions, named);
      hide Committed;
      var ops := Committed(Stored(d), actions, named);
      var before := Committed(Stored(d), Front(actions), Front(named));
      assert StoredAt(d, actions) == Run(d, ops);
      if ops == before {
        if AlwaysPaired(d, ops) { EndPaired(d, ops); }
      } else {
        assert Front(ops) == before;
        LastPaired(d, ops);
      }
    }
  }

  /** The length published to senders is the stored queue's, while only the owner's own senders send. */
  lemma PublishedQueueLength(d: Db, actions: seq<Action>)
    requires Persistence.OwnSendersOnly(Stored(d), actions, QueueLength)
    ensures var w := Persistence.Run(Stored(d), actions, QueueLength).world;
            w.openings != [] && Last(w.openings).lock.Free? ==> Last(w.openings).published == |w.store.lists.queue|
  {
    Persistence.PublishedIsCommitted(Stored(d), actions, QueueLength);
  }

  predicate IsSendersOp(op: Op) {
    op.Enqueue? || op.AppEvent? || op.AppInput? || op.MoveInput? || op.CancelInput?
  }

  /** What a sender sends is never refused for touching the record. */
  lemma SendersLeaveRecord(d: Db, op: Op)
    requires d.head <= |d.queue| && IsSendersOp(op) && Apply(d, op).Ok?
    ensures HeaderOf(Apply(d, op).value) == HeaderOf(d)
  {
  }

  /** A sender's transaction commits if and only if its operation succeeds on the stored session and leaves
      the record as it is. */
  lemma SenderCommitsIff(w: World, k: nat, op: Op)
    requires Persistence.Enabled(w, Persistence.SenderRun(k, WorkOf(op)))
    ensures var d := Whole(w.store.record, w.store.lists);
            Persistence.Next(w, Persistence.SenderRun(k, WorkOf(op)), QueueLength).1.Some?
            <==> d.head <= |d.queue| && Apply(d, op).Ok? && HeaderOf(Apply(d, op).value) == HeaderOf(d)
  {
    hide Apply;
  }

  /** So a sender's operation commits if and only if it succeeds. */
  lemma SendersOpCommitsIff(w: World, k: nat, op: Op)
    requires Persistence.Enabled(w, Persistence.SenderRun(k, WorkOf(op))) && IsSendersOp(op)
    ensures var d := StoredSession(w);
            Persistence.Next(w, Persistence.SenderRun(k, WorkOf(op)), QueueLength).1.Some?
            <==> d.head <= |d.queue| && Apply(d, op).Ok?
  {
    hide Apply;
    SenderCommitsIff(w, k, op);
    var d := StoredSession(w);
    if d.head <= |d.queue| && Apply(d, op).Ok? { SendersLeaveRecord(d, op); }
  }
}
