/** A session's owner and its senders over one store, interleaved arbitrarily.

    Models `Session::update`, `SessionSender::transact`, `Session::load` and `QueueSize`
    (`src/session/persistence.rs`, `src/session/queue.rs`, `src/session/lifecycle.rs`). The record and
    the lists are arbitrary values and a transaction is an arbitrary function of them, so the results
    hold for every operation of the session. A transaction of the store is atomic; the owner's cached
    record, the mutation lock and the published queue length are not part of it, and every assignment
    to them is a step of its own. Each opening of the session has its own lock and its own published
    length, shared with the senders it created, which may outlive it. */
module Persistence {
  import opened Prelude

  datatype Store<R, L> = Store(record: R, lists: L)

  /** A transaction's work: what it makes of the record and the lists, or nothing when it fails. */
  type Work<!R, !L> = (R, L) -> Option<Store<R, L>>

  /** Who holds the mutation lock of an opening, and how far it got. */
  datatype Holder<R> =
    | Free
    | OwnerStarted(copy: R)
    | OwnerCommitted(record: R, queued: nat)
    | OwnerSaved(queued: nat)
    | SenderStarted
    | SenderCommitted(queued: nat)

  datatype Owner<R> = NoOwner | Loading(cache: R) | Live(cache: R)

  datatype Opening<R> = Opening(lock: Holder<R>, published: nat)

  /** `openings` holds every opening since the process started, the last one being the owner's. */
  datatype World<R, L> = World(store: Store<R, L>, owner: Owner<R>, openings: seq<Opening<R>>)

  datatype Action<!R, !L> =
    | Load
    | Count                                   // the second half of a load
    | Close
    | Crash
    | OwnerLock
    | OwnerRun(work: Work<R, L>)
    | OwnerKeep
    | OwnerPublish
    | SenderLock(opening: nat)
    | SenderRun(opening: nat, work: Work<R, L>)
    | SenderPublish(opening: nat)

  /** A committed transaction: whose it was, and what it did. */
  datatype Commit<!R, !L> = Commit(byOwner: bool, opening: nat, work: Work<R, L>)

  function SetLock<R, L>(w: World<R, L>, k: nat, lock: Holder<R>): World<R, L>
    requires k < |w.openings|
  {
    w.(openings := w.openings[k := w.openings[k].(lock := lock)])
  }

  predicate Enabled<R(==), L>(w: World<R, L>, a: Action<R, L>) {
    var n := |w.openings|;
    match a
    case Load => w.owner.NoOwner?
    case Count => w.owner.Loading?
    case Close => w.owner.Live? && n > 0 && !OwnerBusy(w.openings[n - 1].lock)
    case Crash => true
    case OwnerLock => w.owner.Live? && n > 0 && w.openings[n - 1].lock.Free?
    case OwnerRun(_) => w.owner.Live? && n > 0 && w.openings[n - 1].lock.OwnerStarted?
    case OwnerKeep => w.owner.Live? && n > 0 && w.openings[n - 1].lock.OwnerCommitted?
    case OwnerPublish => w.owner.Live? && n > 0 && w.openings[n - 1].lock.OwnerSaved?
    case SenderLock(k) => k < n && w.openings[k].lock.Free?
    case SenderRun(k, _) => k < n && w.openings[k].lock.SenderStarted?
    case SenderPublish(k) => k < n && w.openings[k].lock.SenderCommitted?
  }

  predicate OwnerBusy<R>(h: Holder<R>) {
    h.OwnerStarted? || h.OwnerCommitted? || h.OwnerSaved?
  }

  /** One step, and the transaction it committed, if any. `length` is the queue's length. */
  function Next<R(==), L>(w: World<R, L>, a: Action<R, L>, length: L -> nat): (World<R, L>, Option<Commit<R, L>>)
    requires Enabled(w, a)
  {
    var n := |w.openings|;
    match a
    case Load => (w.(owner := Loading(w.store.record)), None)
    case Count =>
      (w.(owner := Live(w.owner.cache), openings := w.openings + [Opening(Free, length(w.store.lists))]), None)
    case Close => (w.(owner := NoOwner), None)
    case Crash => (w.(owner := NoOwner, openings := []), None)
    case OwnerLock => (SetLock(w, n - 1, OwnerStarted(w.owner.cache)), None)
    case OwnerRun(work) =>
      (match work(w.openings[n - 1].lock.copy, w.store.lists)
       case None => (SetLock(w, n - 1, Free), None)
       case Some(s) =>
         (SetLock(w, n - 1, OwnerCommitted(s.record, length(s.lists))).(store := s),
          Some(Commit(true, n - 1, work))))
    case OwnerKeep =>
      var lock := w.openings[n - 1].lock;
      (SetLock(w, n - 1, OwnerSaved(lock.queued)).(owner := Live(lock.record)), None)
    case OwnerPublish => (Published(w, n - 1), None)
    case SenderLock(k) => (SetLock(w, k, SenderStarted), None)
    case SenderRun(k, work) =>
      (match work(w.store.record, w.store.lists)
       case None => (SetLock(w, k, Free), None)
       case Some(s) =>
         if s.record != w.store.record then (SetLock(w, k, Free), None)
         else (SetLock(w, k, SenderCommitted(length(s.lists))).(store := s), Some(Commit(false, k, work))))
    case SenderPublish(k) => (Published(w, k), None)
  }

  /** The lock's holder publishes the length its transaction counted, and lets the lock go. */
  function Published<R, L>(w: World<R, L>, k: nat): World<R, L>
    requires k < |w.openings| && (w.openings[k].lock.OwnerSaved? || w.openings[k].lock.SenderCommitted?)
  {
    w.(openings := w.openings[k := Opening(Free, w.openings[k].lock.queued)])
  }

  // ----- the simple form: one transaction at a time on the whole store -----

  /** A transaction applied to the store as it stands, with no cache in between. */
  function Serial<R(==), L>(s: Store<R, L>, c: Commit<R, L>): Store<R, L> {
    match c.work(s.record, s.lists)
    case None => s
    case Some(next) => if !c.byOwner && next.record != s.record then s else next
  }

  function SerialAll<R(==), L>(s: Store<R, L>, log: seq<Commit<R, L>>): Store<R, L> {
    if log == [] then s else Serial(SerialAll(s, Front(log)), Last(log))
  }

  // ----- runs -----

  datatype Outcome<!R, !L> = Outcome(world: World<R, L>, log: seq<Commit<R, L>>)

  function Run<R(==), L>(start: Store<R, L>, actions: seq<Action<R, L>>, length: L -> nat): Outcome<R, L> {
    if actions == [] then Outcome(World(start, NoOwner, []), [])
    else
      var before := Run(start, Front(actions), length);
      if !Enabled(before.world, Last(actions)) then before
      else
        var (world, commit) := Next(before.world, Last(actions), length);
        Outcome(world, if commit.Some? then before.log + [commit.value] else before.log)
  }

  /** What the owner's opening owes the store: its copy, its commit and its cache are the stored
      record, but for the moment between a commit and keeping it. */
  ghost predicate CacheCoherent<R, L>(w: World<R, L>) {
    var n := |w.openings|;
    && (forall k :: 0 <= k < n && OwnerBusy(w.openings[k].lock) ==> w.owner.Live? && k == n - 1)
    && (w.owner.Live? ==> n > 0)
    && (w.owner.Loading? ==> w.owner.cache == w.store.record)
    && (w.owner.Live? ==>
          match w.openings[n - 1].lock
          case OwnerStarted(copy) => copy == w.owner.cache == w.store.record
          case OwnerCommitted(record, _) => record == w.store.record
          case _ => w.owner.cache == w.store.record)
  }

  lemma NextKeepsCoherent<R, L>(w: World<R, L>, a: Action<R, L>, length: L -> nat)
    requires CacheCoherent(w) && Enabled(w, a)
    ensures CacheCoherent(Next(w, a, length).0)
    ensures Next(w, a, length).0.store
            == if Next(w, a, length).1.Some? then Serial(w.store, Next(w, a, length).1.value) else w.store
  {
  }

  /** Whatever the interleaving of the owner, its senders, senders of earlier openings, failed
      transactions, crashes and reopenings: the stored session is that of the committed transactions
      run one after another on the whole store, so a whole-record save never loses a sender's work;
      and the owner's cached record is the stored one whenever its lock is not in the owner's hands. */
  lemma {:induction false} RunsAreSerial<R, L>(start: Store<R, L>, actions: seq<Action<R, L>>, length: L -> nat)
    ensures var o := Run(start, actions, length);
            && o.world.store == SerialAll(start, o.log)
            && CacheCoherent(o.world)
            && (o.world.owner.Live? && !OwnerBusy(Last(o.world.openings).lock)
                ==> o.world.owner.cache == o.world.store.record)
    decreases |actions|
  {
    if actions != [] {
      RunsAreSerial(start, Front(actions), length);
      var before := Run(start, Front(actions), length);
      if Enabled(before.world, Last(actions)) {
        NextKeepsCoherent(before.world, Last(actions), length);
        var (world, commit) := Next(before.world, Last(actions), length);
        if commit.Some? {
          assert Front(before.log + [commit.value]) == before.log;
        }
      }
    }
  }

  /** The owner's whole update, with nobody in between: what the cached record's transaction makes is stored,
      cached and published, or everything is as it was; and the lock is free. */
  lemma UpdateInFour<R, L>(w: World<R, L>, work: Work<R, L>, length: L -> nat)
    requires CacheCoherent(w) && w.owner.Live? && Last(w.openings).lock.Free?
    ensures Enabled(w, OwnerLock) && Enabled(Next(w, OwnerLock, length).0, OwnerRun(work))
    ensures var k, ran := |w.openings| - 1, Next(Next(w, OwnerLock, length).0, OwnerRun(work), length);
            match work(w.store.record, w.store.lists)
            case None => ran == (w, None)
            case Some(s) =>
              && ran.1 == Some(Commit(true, k, work)) && Enabled(ran.0, OwnerKeep)
              && var kept := Next(ran.0, OwnerKeep, length).0;
              && Enabled(kept, OwnerPublish)
              && Next(kept, OwnerPublish, length).0
                 == World(s, Live(s.record), w.openings[k := Opening(Free, length(s.lists))])
  {
    assert SetLock(SetLock(w, |w.openings| - 1, OwnerStarted(w.owner.cache)), |w.openings| - 1, Free) == w;
  }

  /** So is a sender's, which is refused if it leaves another record, and leaves the owner's cache alone. */
  lemma SendInThree<R, L>(w: World<R, L>, k: nat, work: Work<R, L>, length: L -> nat)
    requires Enabled(w, SenderLock(k))
    ensures Enabled(Next(w, SenderLock(k), length).0, SenderRun(k, work))
    ensures var ran := Next(Next(w, SenderLock(k), length).0, SenderRun(k, work), length);
            var made := work(w.store.record, w.store.lists);
            if made.None? || made.value.record != w.store.record then ran == (w, None)
            else
              && ran.1 == Some(Commit(false, k, work)) && Enabled(ran.0, SenderPublish(k))
              && Next(ran.0, SenderPublish(k), length).0
                 == World(made.value, w.owner, w.openings[k := Opening(Free, length(made.value.lists))])
  {
    assert SetLock(SetLock(w, k, SenderStarted), k, Free) == w;
  }

  // ----- one call at a time -----

  /** An open session with its sender, while nobody else holds the lock: the two ways to commit and the
      way to look, each against the serial form. */
  class OpenSession<R(==), L> {
    var store: Store<R, L>
    var cache: R
    var published: nat
    const length: L -> nat

    ghost predicate Valid()
      reads this
    {
      cache == store.record && published == length(store.lists)
    }

    constructor (stored: Store<R, L>, length: L -> nat)
      ensures Valid() && store == stored && this.length == length
    {
      store, cache, published := stored, stored.record, length(stored.lists);
      this.length := length;
    }

    /** The owner's transaction, on its cached record: saved whole and published, or dropped whole. */
    method Update(work: Work<R, L>) returns (ok: bool)
      requires Valid()
      modifies this
      ensures Valid() && ok == work(old(store).record, old(store).lists).Some?
      ensures store == Serial(old(store), Commit(true, 0, work))
    {
      var copy := cache;
      var result := work(copy, store.lists);
      if result.None? { return false; }
      store := result.value;
      cache := result.value.record;
      published := length(store.lists);
      return true;
    }

    /** A sender's transaction, on the stored record: refused if it leaves another record. */
    method Transact(work: Work<R, L>) returns (ok: bool)
      requires Valid()
      modifies this
      ensures Valid() && store.record == old(store).record && cache == old(cache)
      ensures store == Serial(old(store), Commit(false, 0, work))
      ensures ok <==> work(old(store).record, old(store).lists).Some?
                      && work(old(store).record, old(store).lists).value.record == old(store).record
    {
      var result := work(store.record, store.lists);
      if result.None? || result.value.record != store.record { return false; }
      store := result.value;
      published := length(store.lists);
      return true;
    }

    /** Looks at what a transaction would make of the session as committed, and drops it. */
    method Read(work: Work<R, L>) returns (seen: Option<Store<R, L>>)
      requires Valid()
      ensures seen == work(store.record, store.lists)
    {
      seen := work(cache, store.lists);
    }
  }

  // ----- the published queue length -----

  /** The last opening's published length is the committed one whenever its lock is free, and the
      lock's holder carries it between its commit and its publication. */
  ghost predicate Fresh<R, L>(w: World<R, L>, length: L -> nat) {
    w.openings != [] ==>
      var last := Last(w.openings);
      match last.lock
      case OwnerCommitted(_, queued) => queued == length(w.store.lists)
      case OwnerSaved(queued) => queued == length(w.store.lists)
      case SenderCommitted(queued) => queued == length(w.store.lists)
      case _ => last.published == length(w.store.lists)
  }

  /** A sender's transaction under another opening's lock. */
  predicate Foreign<R, L>(w: World<R, L>, a: Action<R, L>) {
    a.SenderRun? && a.opening + 1 != |w.openings|
  }

  /** A step keeps the published length exact if and only if it is not a sender of an earlier opening
      committing a change of the queue's length. */
  lemma NextKeepsFresh<R, L>(w: World<R, L>, a: Action<R, L>, length: L -> nat)
    requires CacheCoherent(w) && Enabled(w, a) && Fresh(w, length)
    ensures Fresh(Next(w, a, length).0, length)
            <==> !Foreign(w, a) || length(Next(w, a, length).0.store.lists) == length(w.store.lists)
  {
  }

  predicate OwnSendersOnly<R(==), L>(start: Store<R, L>, actions: seq<Action<R, L>>, length: L -> nat) {
    actions == []
    || (OwnSendersOnly(start, Front(actions), length)
        && !Foreign(Run(start, Front(actions), length).world, Last(actions)))
  }

  /** While only the current opening's senders send, the published queue length is the committed one
      in every interleaving. */
  lemma {:induction false} PublishedIsCommitted<R, L>(start: Store<R, L>, actions: seq<Action<R, L>>, length: L -> nat)
    requires OwnSendersOnly(start, actions, length)
    ensures var w := Run(start, actions, length).world;
            && Fresh(w, length)
            && (w.openings != [] && Last(w.openings).lock.Free? ==>
                  Last(w.openings).published == length(w.store.lists))
    decreases |actions|
  {
    if actions != [] {
      PublishedIsCommitted(start, Front(actions), length);
      RunsAreSerial(start, Front(actions), length);
      var before := Run(start, Front(actions), length).world;
      if Enabled(before, Last(actions)) {
        NextKeepsFresh(before, Last(actions), length);
      }
    }
  }

  function QueueSeven(record: int, queue: seq<int>): Option<Store<int, seq<int>>> {
    Some(Store(record, queue + [7]))
  }

  function QueueLength(queue: seq<int>): nat { |queue| }

  lemma RunNext<R, L>(start: Store<R, L>, actions: seq<Action<R, L>>, a: Action<R, L>, length: L -> nat)
    requires Enabled(Run(start, actions, length).world, a)
    ensures Run(start, actions + [a], length).world == Next(Run(start, actions, length).world, a, length).0
  {
    assert Front(actions + [a]) == actions;
  }

  /** Opened twice: two openings, both with nothing under way. */
  lemma Reopened()
    ensures Run(Store(0, []), [Load, Count, Close, Load, Count], QueueLength).world
            == World(Store(0, []), Live(0), [Opening(Free, 0), Opening(Free, 0)])
  {
    var start := Store(0, []);
    assert Run(start, [], QueueLength).world == World(start, NoOwner, []);
    hide Run;
    RunNext(start, [], Load, QueueLength);
    RunNext(start, [] + [Load], Count, QueueLength);
    var twice := [] + [Load] + [Count];
    assert Run(start, twice, QueueLength).world == World(start, Live(0), [Opening(Free, 0)]);
    RunNext(start, twice, Close, QueueLength);
    RunNext(start, twice + [Close], Load, QueueLength);
    assert Run(start, twice + [Close] + [Load], QueueLength).world == World(start, Loading(0), [Opening(Free, 0)]);
    RunNext(start, twice + [Close] + [Load], Count, QueueLength);
    assert twice + [Close] + [Load] + [Count] == [Load, Count, Close, Load, Count];
  }

  /** A sender kept from an earlier opening defeats it: the session is closed and loaded again, the old
      sender queues one input, and the new opening still publishes an empty queue. */
  lemma StaleSenderUnpublished(all: seq<Action<int, seq<int>>>)
    requires all == [Load, Count, Close, Load, Count, SenderLock(0), SenderRun(0, QueueSeven)]
    ensures Run(Store(0, []), all, QueueLength).world
            == World(Store(0, [7]), Live(0), [Opening(SenderCommitted(1), 0), Opening(Free, 0)])
  {
    var start := Store(0, []);
    Reopened();
    hide Run;
    var again: seq<Action<int, seq<int>>> := [Load, Count, Close, Load, Count];
    RunNext(start, again, SenderLock(0), QueueLength);
    RunNext(start, again + [SenderLock(0)], SenderRun(0, QueueSeven), QueueLength);
    assert Run(start, again + [SenderLock(0)], QueueLength).world
        == World(start, Live(0), [Opening(SenderStarted, 0), Opening(Free, 0)]);
    var none: seq<int> := [];
    assert none + [7] == [7];
    assert QueueSeven(0, []) == Some(Store(0, [7])) && QueueLength([7]) == 1;
    assert all == again + [SenderLock(0)] + [SenderRun(0, QueueSeven)];
  }
}
