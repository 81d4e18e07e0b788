/** The recovery of one streamed call over broken attempts, as a transition system.

    Models what each step of `src/client/stream.rs` does to the stream's fields and to those of
    `src/client/stream_recovery.rs`. The network is an adversary: it answers every reopening with any
    body, broken anywhere, or refuses it. Beside the fields, a flow records what has been handed over
    and which records it came from, so that the results can say what the caller holds. */
module Recovering {
  import opened Prelude
  import opened Usages
  import opened StreamModel

  const MAX_HOPS := 32

  /** What the service answers to a reopening: a body, a refusal, or no request at all when the
      original call cannot be rebuilt with the token. */
  datatype Opening = Opened(body: Body) | Refused(error: Error) | Unbuildable(error: Error)

  datatype Recovery<S> = Recovery(
    maxAttempts: nat,
    token: Option<string>,
    decoder: Option<S>,
    revision: nat,
    hops: nat,
    failures: nat,
    continuation: bool,
    terminal: bool,
    waiting: Option<nat>,
    usage: Usage,
    committedUsage: Usage,
    previousUsage: Usage,
    initialInput: Option<u64>)

  function NewRecovery<S>(maxAttempts: nat): Recovery<S> {
    Recovery(maxAttempts, None, None, 0, 0, 0, false, false, None, NO_USAGE, NO_USAGE, NO_USAGE, None)
  }

  datatype Setup<!S> = Setup(
    wire: Wire<S>,
    network: (nat, string) -> Opening,
    backoff: (nat, nat, Option<Error>) -> nat)

  datatype Flow<S> = Flow(
    recovery: Option<Recovery<S>>,
    records: Option<Body>,
    decoder: S,
    pending: seq<StreamEvent>,
    done: bool,
    delivered: seq<StreamEvent>,       // what the caller has been handed
    committed: seq<Record>,            // the records up to the last checkpoint
    tail: seq<Record>,                 // the current attempt's records since
    flush: Option<seq<WireEvent>>,     // what the decoder said at the end of the body
    closed: seq<Usage>)                // the usage each left hop had committed
  {
    function Fed(): seq<Record> { committed + tail }

    /** What a caller that takes every event so far holds. */
    function Held(): Result<View, string> { Accumulate(EMPTY_VIEW, delivered + pending) }
  }

  function Open<S>(c: Setup<S>, first: Body, recoverable: Option<nat>): Flow<S> {
    Flow(if recoverable.Some? then Some(NewRecovery(recoverable.value)) else None,
         Some(first), c.wire.initial, [], false, [], [], [], None, [])
  }

  // ----- the steps -----

  const EXHAUSTED := Error("stream recovery has no checkpoint or exhausted its budget", None)

  predicate MayRecover<S>(c: Setup<S>, r: Recovery<S>, error: Option<Error>) {
    && r.token.Some? && r.decoder.Some? && r.hops < MAX_HOPS
    && r.failures < (if r.maxAttempts == 0 then 0 else r.maxAttempts - 1)
    && (error.Some? ==> c.wire.permits(error.value))
  }

  function Schedule<S>(c: Setup<S>, f: Flow<S>, error: Option<Error>): Result<Flow<S>, Error> {
    if f.recovery.None? || !MayRecover(c, f.recovery.value, error) then Err(error.GetOr(EXHAUSTED))
    else
      var r := f.recovery.value;
      var failures := if r.continuation then r.failures else r.failures + 1;
      var delay := if r.continuation then 0 else c.backoff(r.hops + 1, failures, error);
      Ok(f.(recovery := Some(r.(hops := r.hops + 1, failures := failures, continuation := false,
                                waiting := Some(delay))),
            records := None,
            pending := f.pending + [Rewind(r.revision), StreamEvent.Recovering(r.hops + 1, delay),
                                    Decoded(Metered(SumUsage(r.previousUsage, r.committedUsage)))],
            tail := []))
  }

  function Reopen<S>(c: Setup<S>, f: Flow<S>): Result<Flow<S>, Error>
    requires f.recovery.Some? && f.recovery.value.token.Some? && f.recovery.value.decoder.Some?
  {
    var r := f.recovery.value.(waiting := None);
    match c.network(r.hops, r.token.value)
    case Unbuildable(e) => Err(e)
    case Refused(e) => Schedule(c, f.(recovery := Some(r)), Some(e))
    case Opened(body) =>
      Ok(f.(recovery := Some(r.(previousUsage := SumUsage(r.previousUsage, r.committedUsage),
                                terminal := false, committedUsage := NO_USAGE, usage := NO_USAGE)),
            records := Some(body),
            decoder := r.decoder.value,
            closed := f.closed + [r.committedUsage]))
  }

  /** The first prompt size a record's events report. */
  function FirstInput(es: seq<WireEvent>): Option<u64> {
    if es == [] then None
    else if es[0].Metered? && es[0].usage.input.Some? then es[0].usage.input
    else FirstInput(es[1..])
  }

  function HasStop(es: seq<WireEvent>): bool {
    exists i :: 0 <= i < |es| && es[i].Stop?
  }

  /** The record's events as they are handed over, with what recovery adds to them. */
  function Handed<S>(r: Recovery<S>, es: seq<WireEvent>, mark: Option<Mark>): seq<StreamEvent> {
    var first := if r.initialInput.Some? then None else FirstInput(es);
    Stamp(r.previousUsage, es)
    + (if first.Some? then [InputTokens(first.value)] else [])
    + (if mark.Some? then [Checkpoint(r.revision + 1)] else [])
  }

  function Noted<S>(c: Setup<S>, r: Recovery<S>, es: seq<WireEvent>, decoder: S, i: Inspected): Recovery<S> {
    var usage := LastUsage(r.usage, es);
    var next := r.(terminal := r.terminal || i.terminal, usage := usage,
                   initialInput := if r.initialInput.Some? then r.initialInput else FirstInput(es));
    if i.mark.None? then next
    else
      next.(token := Some(i.mark.value.token),
            decoder := if c.wire.snapshots then Some(decoder) else None,
            revision := r.revision + 1, failures := 0, committedUsage := usage,
            continuation := i.mark.value.continuation)
  }

  function Decode<S>(c: Setup<S>, f: Flow<S>, record: Record): Result<Flow<S>, Error> {
    match InspectRecord(c.wire, f.recovery.Some?, record)
    case Err(e) => Err(e)
    case Ok(i) =>
      match c.wire.feed(f.decoder, i.record)
      case Err(e) => Schedule(c, f, Some(e))
      case Ok(fed) =>
        var es := fed.1;
        var fed' := f.committed + f.tail + [record];
        var stopped := f.(decoder := fed.0, done := f.done || HasStop(es));
        if f.recovery.None? then
          Ok(stopped.(pending := f.pending + Stamp(NO_USAGE, es), tail := f.tail + [record]))
        else
          Ok(stopped.(recovery := Some(Noted(c, f.recovery.value, es, fed.0, i)),
                      pending := f.pending + Handed(f.recovery.value, es, i.mark),
                      committed := if i.mark.Some? then fed' else f.committed,
                      tail := if i.mark.Some? then [] else f.tail + [record]))
  }

  function EndOfBody<S>(c: Setup<S>, f: Flow<S>): Result<Flow<S>, Error> {
    if f.recovery.Some? && f.recovery.value.token.Some? && !f.recovery.value.terminal then
      Schedule(c, f, None)
    else
      match c.wire.finish(f.decoder)
      case Err(e) => Err(e)
      case Ok(es) =>
        Ok(f.(pending := f.pending + Stamp(NO_USAGE, es), done := true, flush := Some(Content(es))))
  }

  /** One turn of the reading loop, with nothing pending and the stream not over. */
  function Step<S>(c: Setup<S>, f: Flow<S>): Result<Flow<S>, Error>
    requires Linked(f)
  {
    if f.recovery.Some? && f.recovery.value.waiting.Some? then Reopen(c, f)
    else if f.recovery.Some? && f.recovery.value.continuation then Schedule(c, f, None)
    else
      var body := f.records.value;
      if body.records != [] then
        Decode(c, f.(records := Some(body.(records := body.records[1..]))), body.records[0])
      else if body.broken.Some? then Schedule(c, f, body.broken)
      else EndOfBody(c, f)
  }

  // ----- what every step keeps -----

  predicate Linked<S>(f: Flow<S>) {
    && (f.records.Some? <==> f.recovery.None? || f.recovery.value.waiting.None?)
    && (f.records.None? ==> f.recovery.value.token.Some? && f.recovery.value.decoder.Some?)
  }

  ghost function Kept<S>(c: Setup<S>, f: Flow<S>): Result<Decoding<S>, Error> {
    Replay(c.wire, f.recovery.Some?, f.committed)
  }

  ghost function Made<S>(c: Setup<S>, f: Flow<S>): Result<Decoding<S>, Error> {
    Replay(c.wire, f.recovery.Some?, f.Fed())
  }

  /** The caller's output is exactly what one fresh decoder makes of the committed records and the
      current attempt's records since; so is the live decoder's state. */
  ghost predicate OutputExact<S>(c: Setup<S>, f: Flow<S>) {
    && f.Held().Ok? && Kept(c, f).Ok? && Made(c, f).Ok?
    && f.Held().value.content == Made(c, f).value.output + f.flush.GetOr([])
    && (f.records.Some? && !f.done ==> f.decoder == Made(c, f).value.state)
    && NoStop(Kept(c, f).value.output)
    && (!f.done ==> NoStop(Made(c, f).value.output) && f.flush.None?)
    && (f.flush.Some? ==>
          c.wire.finish(Made(c, f).value.state).Ok?
          && f.flush.value == Content(c.wire.finish(Made(c, f).value.state).value))
  }

  /** The caller's saved state and the saved decoder are the committed records'. */
  ghost predicate SavedExact<S>(c: Setup<S>, f: Flow<S>) {
    && (f.recovery.None? ==> f.committed == [])
    && (f.recovery.Some? && f.recovery.value.token.None? ==>
          f.committed == [] && f.recovery.value.hops == 0 && (f.Held().Ok? ==> f.Held().value.saved.None?))
    && (f.recovery.Some? && f.recovery.value.token.Some? ==>
          && f.Held().Ok? && f.Held().value.saved.Some? && Kept(c, f).Ok?
          && f.Held().value.saved.value.revision == f.recovery.value.revision
          && f.Held().value.saved.value.content == Kept(c, f).value.output
          && f.recovery.value.decoder == if c.wire.snapshots then Some(Kept(c, f).value.state) else None)
  }

  /** The caller's usage is the running total over the left hops and the current one; what it saved is
      the total as of the checkpoint. */
  ghost predicate Billed<S>(f: Flow<S>) {
    f.recovery.Some? && f.Held().Ok? ==>
      var r := f.recovery.value;
      var v := f.Held().value;
      && r.previousUsage == TotalUsage(f.closed)
      && v.usage.GetOr(NO_USAGE) == SumUsage(r.previousUsage, if f.records.Some? then r.usage else r.committedUsage)
      && (v.saved.Some? ==> v.saved.value.usage.GetOr(NO_USAGE) == SumUsage(r.previousUsage, r.committedUsage))
  }

  /** At most 32 reopenings, and fewer than `maxAttempts` failures since a checkpoint. */
  predicate Bounded<S>(f: Flow<S>) {
    f.recovery.Some? ==>
      var r := f.recovery.value;
      && r.hops <= MAX_HOPS
      && (r.failures == 0 || r.failures < r.maxAttempts)
      && Rewinds(f.delivered + f.pending) == r.hops
  }

  function Rewinds(es: seq<StreamEvent>): nat {
    if es == [] then 0 else Rewinds(Front(es)) + if Last(es).Rewind? then 1 else 0
  }

  ghost predicate Exact<S(!new)>(c: Setup<S>, f: Flow<S>) {
    && Disciplined(c.wire, f.recovery.Some?)
    && OutputExact(c, f) && SavedExact(c, f) && Billed(f) && Bounded(f)
    && (f.records.None? ==> f.tail == [] && !f.done)
  }

  // ----- proofs, step by step -----

  lemma {:induction false} RewindsAppend(xs: seq<StreamEvent>, ys: seq<StreamEvent>)
    ensures Rewinds(xs + ys) == Rewinds(xs) + Rewinds(ys)
    decreases |ys|
  {
    if ys == [] {
      assert xs + ys == xs;
    } else {
      assert Front(xs + ys) == xs + Front(ys) && Last(xs + ys) == Last(ys);
      RewindsAppend(xs, Front(ys));
    }
  }

  lemma {:induction false} NoRewinds(es: seq<StreamEvent>)
    requires forall i :: 0 <= i < |es| ==> !es[i].Rewind?
    ensures Rewinds(es) == 0
    decreases |es|
  {
    if es != [] { NoRewinds(Front(es)); }
  }

  /** Handing over more events continues what the caller holds. */
  lemma HeldMore<S>(f: Flow<S>, g: Flow<S>, more: seq<StreamEvent>)
    requires g.delivered == f.delivered && g.pending == f.pending + more && f.Held().Ok?
    ensures g.Held() == Accumulate(f.Held().value, more)
    ensures Rewinds(g.delivered + g.pending) == Rewinds(f.delivered + f.pending) + Rewinds(more)
  {
    assert g.delivered + g.pending == (f.delivered + f.pending) + more;
    AccumulateAppend(EMPTY_VIEW, f.delivered + f.pending, more);
    RewindsAppend(f.delivered + f.pending, more);
  }

  /** A scheduled recovery takes the caller back to what it saved, with the checkpoint's usage. */
  lemma ScheduleHeld<S>(c: Setup<S>, f: Flow<S>, error: Option<Error>)
    requires Schedule(c, f, error).Ok? && f.Held().Ok? && f.Held().value.saved.Some?
    requires !Stopped(f.Held().value.content) && !Stopped(f.Held().value.saved.value.content)
    requires f.Held().value.saved.value.revision == f.recovery.value.revision
    ensures var g := Schedule(c, f, error).value;
            var saved := f.Held().value.saved;
            var r := f.recovery.value;
            && g.Held() == Ok(View(saved.value.content, Some(SumUsage(r.previousUsage, r.committedUsage)), saved))
            && Rewinds(g.delivered + g.pending) == Rewinds(f.delivered + f.pending) + 1
  {
    var g := Schedule(c, f, error).value;
    var r := f.recovery.value;
    var usage := SumUsage(r.previousUsage, r.committedUsage);
    var delay := g.recovery.value.waiting.value;
    var told := [Rewind(r.revision), StreamEvent.Recovering(r.hops + 1, delay), Decoded(Metered(usage))];
    HeldMore(f, g, told);
    TakeRewind(f.Held().value, r.hops + 1, delay, usage);
    assert told == [told[0]] + [told[1], told[2]] && Front([told[0]]) == [];
    RewindsAppend([told[0]], [told[1], told[2]]);
    NoRewinds([told[1], told[2]]);
  }

  lemma ScheduleKeepsExact<S(!new)>(c: Setup<S>, f: Flow<S>, error: Option<Error>)
    requires Exact(c, f) && !f.done && Schedule(c, f, error).Ok?
    ensures Exact(c, Schedule(c, f, error).value) && Linked(Schedule(c, f, error).value)
  {
    ScheduleHeld(c, f, error);
    assert Schedule(c, f, error).value.Fed() == f.committed;
  }

  lemma ReopenKeepsExact<S(!new)>(c: Setup<S>, f: Flow<S>)
    requires Exact(c, f) && Linked(f) && f.recovery.Some? && f.recovery.value.waiting.Some?
    requires Reopen(c, f).Ok?
    ensures Exact(c, Reopen(c, f).value) && Linked(Reopen(c, f).value)
  {
    var r := f.recovery.value.(waiting := None);
    var waited := f.(recovery := Some(r));
    assert waited.Held() == f.Held() && Exact(c, waited);
    match c.network(r.hops, r.token.value)
    case Refused(e) => ScheduleKeepsExact(c, waited, Some(e));
    case Opened(body) =>
      var g := Reopen(c, f).value;
      assert g.Held() == f.Held() && g.Fed() == f.committed;
      assert Front(g.closed) == f.closed && Last(g.closed) == r.committedUsage;
      SumUsageMonoid(g.recovery.value.previousUsage, NO_USAGE, NO_USAGE);
    case Unbuildable(_) =>
  }

  /** Feeding one more record extends the replay by that record. */
  lemma ReplayMore<S(!new)>(c: Setup<S>, f: Flow<S>, record: Record, i: Inspected, next: (S, seq<WireEvent>))
    requires Exact(c, f) && !f.done && f.records.Some?
    requires InspectRecord(c.wire, f.recovery.Some?, record) == Ok(i)
    requires c.wire.feed(f.decoder, i.record) == Ok(next)
    ensures Replay(c.wire, f.recovery.Some?, f.committed + f.tail + [record])
            == Ok(Decoding(next.0, Made(c, f).value.output + Content(next.1)))
    ensures StopOnlyLast(next.1) && (f.recovery.Some? ==> NoStop(next.1))
    ensures NoStop(next.1) ==> NoStop(Made(c, f).value.output + Content(next.1))
  {
    var rs := f.committed + f.tail + [record];
    assert Front(rs) == f.Fed() && Last(rs) == record;
    ContentStops(next.1);
  }

  /** What the caller holds after a record: its output, the running usage, and, at a checkpoint, both
      saved. */
  lemma TakeHanded<S>(v: View, r: Recovery<S>, es: seq<WireEvent>, mark: Option<Mark>)
    requires !Stopped(v.content) && NoStop(v.content) && NoStop(es)
    requires v.usage.GetOr(NO_USAGE) == SumUsage(r.previousUsage, r.usage)
    ensures var h := Accumulate(v, Handed(r, es, mark));
            && h.Ok?
            && h.value.content == v.content + Content(es)
            && h.value.usage.GetOr(NO_USAGE) == SumUsage(r.previousUsage, LastUsage(r.usage, es))
            && h.value.saved
               == (if mark.Some? then Some(Saved(r.revision + 1, h.value.content, h.value.usage)) else v.saved)
    ensures Rewinds(Handed(r, es, mark)) == 0
  {
    hide SumUsage, Content, LastUsage, FirstInput, Stamp;
    var first := if r.initialInput.Some? then None else FirstInput(es);
    var stamped := Stamp(r.previousUsage, es);
    var told := if first.Some? then [InputTokens(first.value)] else [];
    var marked := if mark.Some? then [Checkpoint(r.revision + 1)] else [];
    AccumulateStamp(v, r.previousUsage, r.usage, es);
    var a := Accumulate(v, stamped).value;
    ContentStops(es);
    assert NoStop(a.content);
    AccumulateAppend(v, stamped, told);
    if first.Some? { AccumulateOne(a, told[0]); }
    assert Accumulate(v, stamped + told) == Ok(a);
    AccumulateAppend(v, stamped + told, marked);
    if mark.Some? { AccumulateOne(a, marked[0]); }
    StampDecoded(r.previousUsage, es);
    NoRewinds(stamped + told + marked);
  }

  lemma {:induction false} StampDecoded(previous: Usage, es: seq<WireEvent>)
    ensures forall i :: 0 <= i < |Stamp(previous, es)| ==> Stamp(previous, es)[i].Decoded?
    decreases |es|
  {
    if es != [] { StampDecoded(previous, es[1..]); }
  }

  lemma DecodePlainKeepsExact<S(!new)>(c: Setup<S>, f: Flow<S>, record: Record)
    requires Exact(c, f) && Linked(f) && !f.done && f.recovery.None? && c.wire.feed(f.decoder, record).Ok?
    ensures Decode(c, f, record).Ok? && Exact(c, Decode(c, f, record).value)
  {
    hide Accumulate, SumUsage, Stamp, Replay, LastUsage, Content;
    var g := Decode(c, f, record).value;
    var next := c.wire.feed(f.decoder, record).value;
    var view := f.Held().value;
    ReplayMore(c, f, record, Inspected(record, None, false), next);
    assert g.Fed() == f.committed + f.tail + [record];
    HeldMore(f, g, Stamp(NO_USAGE, next.1));
    SumUsageMonoid(view.usage.GetOr(NO_USAGE), NO_USAGE, NO_USAGE);
    AccumulateStamp(view, NO_USAGE, view.usage.GetOr(NO_USAGE), next.1);
  }

  lemma DecodeHopKeepsExact<S(!new)>(c: Setup<S>, f: Flow<S>, record: Record, i: Inspected, next: (S, seq<WireEvent>))
    requires Exact(c, f) && Linked(f) && !f.done && f.records.Some? && f.recovery.Some?
    requires c.wire.inspect(record) == Ok(i) && c.wire.feed(f.decoder, i.record) == Ok(next)
    ensures Decode(c, f, record).Ok? && Exact(c, Decode(c, f, record).value)
  {
    hide OutputExact, SavedExact, Billed, Accumulate, SumUsage, LastUsage, Stamp, Replay, Content, HasStop, Rewinds;
    DecodeHopHolds(c, f, record, i, next);
    DecodeHopOutput(c, f, record, i, next);
    DecodeHopBills(c, f, record, i, next);
  }

  ghost predicate Hop<S(!new)>(c: Setup<S>, f: Flow<S>, record: Record, i: Inspected, next: (S, seq<WireEvent>)) {
    && Exact(c, f) && Linked(f) && !f.done && f.records.Some? && f.recovery.Some?
    && c.wire.inspect(record) == Ok(i) && c.wire.feed(f.decoder, i.record) == Ok(next)
  }

  /** What the caller holds after a record of a recoverable stream. */
  lemma DecodeHopHolds<S(!new)>(c: Setup<S>, f: Flow<S>, record: Record, i: Inspected, next: (S, seq<WireEvent>))
    requires Hop(c, f, record, i, next)
    ensures Decode(c, f, record).Ok?
    ensures var g, v, r := Decode(c, f, record).value, f.Held().value, f.recovery.value;
            && g.Held().Ok? && !g.done && g.Fed() == f.committed + f.tail + [record]
            && Made(c, g) == Ok(Decoding(next.0, Made(c, f).value.output + Content(next.1)))
            && g.Held().value.content == v.content + Content(next.1) == Made(c, g).value.output
            && NoStop(Made(c, g).value.output)
            && g.Held().value.usage.GetOr(NO_USAGE) == SumUsage(r.previousUsage, LastUsage(r.usage, next.1))
            && g.Held().value.saved
               == (if i.mark.Some? then Some(Saved(r.revision + 1, g.Held().value.content, g.Held().value.usage))
                   else v.saved)
            && Rewinds(g.delivered + g.pending) == Rewinds(f.delivered + f.pending)
  {
    var g := Decode(c, f, record).value;
    var view := f.Held().value;
    ReplayMore(c, f, record, i, next);
    hide Accumulate, SumUsage, Stamp, Replay, LastUsage, Content, Rewinds;
    assert view.content == Made(c, f).value.output;
    HeldMore(f, g, Handed(f.recovery.value, next.1, i.mark));
    TakeHanded(view, f.recovery.value, next.1, i.mark);
    assert !HasStop(next.1);
  }

  lemma DecodeHopOutput<S(!new)>(c: Setup<S>, f: Flow<S>, record: Record, i: Inspected, next: (S, seq<WireEvent>))
    requires Hop(c, f, record, i, next)
    ensures Decode(c, f, record).Ok? && OutputExact(c, Decode(c, f, record).value)
  {
    hide Accumulate, SumUsage, Stamp, Replay, Content, HasStop, Rewinds, Handed, Disciplined, TotalUsage;
    DecodeHopHolds(c, f, record, i, next);
    var g := Decode(c, f, record).value;
    if i.mark.Some? { assert g.committed == g.Fed(); }
  }

  lemma DecodeHopBills<S(!new)>(c: Setup<S>, f: Flow<S>, record: Record, i: Inspected, next: (S, seq<WireEvent>))
    requires Hop(c, f, record, i, next)
    ensures Decode(c, f, record).Ok? && SavedExact(c, Decode(c, f, record).value)
    ensures Billed(Decode(c, f, record).value) && Bounded(Decode(c, f, record).value)
  {
    hide Accumulate, SumUsage, Stamp, Replay, Content, HasStop, Rewinds, Handed, Disciplined, TotalUsage;
    DecodeHopHolds(c, f, record, i, next);
    var g := Decode(c, f, record).value;
    if i.mark.Some? { assert g.committed == g.Fed(); }
  }

  lemma DecodeKeepsExact<S(!new)>(c: Setup<S>, f: Flow<S>, record: Record)
    requires Exact(c, f) && Linked(f) && !f.done && f.records.Some? && Decode(c, f, record).Ok?
    ensures Exact(c, Decode(c, f, record).value) && Linked(Decode(c, f, record).value)
  {
    var i := InspectRecord(c.wire, f.recovery.Some?, record).value;
    var fed := c.wire.feed(f.decoder, i.record);
    if fed.Err? {
      ScheduleKeepsExact(c, f, Some(fed.error));
    } else if f.recovery.None? {
      DecodePlainKeepsExact(c, f, record);
    } else {
      DecodeHopKeepsExact(c, f, record, i, fed.value);
    }
  }

  /** What the caller holds after the end of the stream. */
  lemma EndHolds<S(!new)>(c: Setup<S>, f: Flow<S>, es: seq<WireEvent>)
    requires Exact(c, f) && Linked(f) && !f.done && f.records.Some? && c.wire.finish(f.decoder) == Ok(es)
    ensures var g := f.(pending := f.pending + Stamp(NO_USAGE, es), done := true, flush := Some(Content(es)));
            var v := f.Held().value;
            && g.Held().Ok? && g.Fed() == f.Fed()
            && g.Held().value.content == v.content + Content(es) && g.Held().value.saved == v.saved
            && (f.recovery.Some? ==> g.Held().value.usage.GetOr(NO_USAGE) == v.usage.GetOr(NO_USAGE))
            && Rewinds(g.delivered + g.pending) == Rewinds(f.delivered + f.pending)
  {
    var g := f.(pending := f.pending + Stamp(NO_USAGE, es), done := true, flush := Some(Content(es)));
    var view := f.Held().value;
    HeldMore(f, g, Stamp(NO_USAGE, es));
    SumUsageMonoid(view.usage.GetOr(NO_USAGE), NO_USAGE, NO_USAGE);
    AccumulateStamp(view, NO_USAGE, view.usage.GetOr(NO_USAGE), es);
    if f.recovery.Some? { LastUsageUnmetered(view.usage.GetOr(NO_USAGE), es); }
    StampDecoded(NO_USAGE, es);
    NoRewinds(Stamp(NO_USAGE, es));
  }

  lemma EndKeepsExact<S(!new)>(c: Setup<S>, f: Flow<S>, es: seq<WireEvent>)
    requires Exact(c, f) && Linked(f) && !f.done && f.records.Some? && c.wire.finish(f.decoder) == Ok(es)
    ensures Exact(c, f.(pending := f.pending + Stamp(NO_USAGE, es), done := true, flush := Some(Content(es))))
  {
    hide Accumulate, SumUsage, Stamp, Replay, Content, Rewinds, Disciplined, NoStop, TotalUsage;
    EndHolds(c, f, es);
  }

  lemma EndOfBodyKeepsExact<S(!new)>(c: Setup<S>, f: Flow<S>)
    requires Exact(c, f) && Linked(f) && !f.done && f.records.Some? && EndOfBody(c, f).Ok?
    ensures Exact(c, EndOfBody(c, f).value) && Linked(EndOfBody(c, f).value)
  {
    hide Exact, Stamp, Content, Schedule;
    if f.recovery.Some? && f.recovery.value.token.Some? && !f.recovery.value.terminal {
      ScheduleKeepsExact(c, f, None);
    } else {
      EndKeepsExact(c, f, c.wire.finish(f.decoder).value);
    }
  }

  /** Every turn of the reading loop keeps the caller's output, saved state and usage exact. */
  lemma StepKeepsExact<S(!new)>(c: Setup<S>, f: Flow<S>)
    requires Exact(c, f) && Linked(f) && !f.done && Step(c, f).Ok?
    ensures Exact(c, Step(c, f).value) && Linked(Step(c, f).value)
  {
    if f.recovery.Some? && f.recovery.value.waiting.Some? {
      ReopenKeepsExact(c, f);
    } else if f.recovery.Some? && f.recovery.value.continuation {
      ScheduleKeepsExact(c, f, None);
    } else {
      var body := f.records.value;
      if body.records != [] {
        var read := f.(records := Some(body.(records := body.records[1..])));
        assert read.Held() == f.Held() && read.Fed() == f.Fed();
        assert Exact(c, read);
        DecodeKeepsExact(c, read, body.records[0]);
      } else if body.broken.Some? {
        ScheduleKeepsExact(c, f, body.broken);
      } else {
        EndOfBodyKeepsExact(c, f);
      }
    }
  }

  // ----- an honest service -----

  /** A reply as the service would send it uninterrupted, and where in it each token points. */
  datatype Source = Source(full: seq<Record>, at: string -> nat)

  predicate Marks<S>(w: Wire<S>, record: Record) {
    w.inspect(record).Ok? && w.inspect(record).value.mark.Some?
  }

  predicate Terminates<S>(w: Wire<S>, record: Record) {
    w.inspect(record).Ok? && w.inspect(record).value.terminal
  }

  /** Whether reading these records to a clean end leads to another attempt rather than to the end of
      the reply: a token is held by then, and no record was the protocol's last. */
  ghost predicate LeadsOn<S>(w: Wire<S>, recoverable: bool, resumed: bool, records: seq<Record>) {
    && recoverable
    && (resumed || exists i :: 0 <= i < |records| && Marks(w, records[i]))
    && (forall i :: 0 <= i < |records| ==> !Terminates(w, records[i]))
  }

  /** A body sends what is left of the reply, or a part of it. It may break anywhere, and it may end
      early by itself where that leads on. */
  ghost predicate HonestBody<S>(w: Wire<S>, recoverable: bool, resumed: bool, b: Body, rest: seq<Record>) {
    b.records <= rest && (b.broken.None? ==> b.records == rest || LeadsOn(w, recoverable, resumed, b.records))
  }

  /** Every token names the position after the record it came in, and a resumed body continues there. */
  ghost predicate Honest<S(!new)>(c: Setup<S>, source: Source) {
    && (forall i :: 0 <= i < |source.full| && Marks(c.wire, source.full[i])
          ==> source.at(c.wire.inspect(source.full[i]).value.mark.value.token) == i + 1)
    && (forall k, t :: c.network(k, t).Opened? && source.at(t) <= |source.full|
          ==> HonestBody(c.wire, true, true, c.network(k, t).body, source.full[source.at(t)..]))
  }

  function Token<S>(r: Option<Recovery<S>>): Option<string> {
    if r.Some? then r.value.token else None
  }

  /** What is left of the current body is honest about the rest, and ends early only unterminated. */
  ghost predicate Ahead<S>(w: Wire<S>, r: Option<Recovery<S>>, b: Body, rest: seq<Record>) {
    && HonestBody(w, r.Some?, Token(r).Some?, b, rest)
    && (b.broken.None? && b.records != rest ==> !r.value.terminal)
  }

  /** What has been read and what is left continue the one reply, from where the token points. */
  ghost predicate Positioned<S>(c: Setup<S>, f: Flow<S>, source: Source) {
    && f.committed <= source.full
    && (Token(f.recovery).Some? ==> source.at(Token(f.recovery).value) == |f.committed|)
    && (f.records.Some? ==>
          && f.Fed() <= source.full
          && Ahead(c.wire, f.recovery, f.records.value, source.full[|f.Fed()|..])
          && (f.flush.Some? ==> f.records.value == Body([], None) && f.Fed() == source.full))
  }

  /** Only the last record read can have ended the reply. */
  ghost predicate EndedLast<S>(c: Setup<S>, f: Flow<S>) {
    && (forall k :: 0 <= k < |f.Fed()| - (if f.done && f.flush.None? then 1 else 0) ==>
          QuietAt(c.wire, f.recovery.Some?, f.Fed(), k))
    && (f.done && f.flush.None? ==>
          f.Fed() != [] &&
          var before := Replay(c.wire, f.recovery.Some?, Front(f.Fed()));
          before.Ok? &&
          var last := Advance(c.wire, f.recovery.Some?, before.value.state, Last(f.Fed()));
          last.Ok? && HasStop(last.value.1))
  }

  ghost predicate OnTrack<S(!new)>(c: Setup<S>, f: Flow<S>, source: Source) {
    Honest(c, source) && Positioned(c, f, source) && EndedLast(c, f)
  }

  lemma ScheduleStaysOnTrack<S(!new)>(c: Setup<S>, f: Flow<S>, error: Option<Error>, source: Source)
    requires Exact(c, f) && OnTrack(c, f, source) && !f.done && Schedule(c, f, error).Ok?
    ensures OnTrack(c, Schedule(c, f, error).value, source)
  {
    QuietPrefix(c.wire, true, f.committed, f.tail);
    assert Schedule(c, f, error).value.Fed() == f.committed;
  }

  lemma ReopenStaysOnTrack<S(!new)>(c: Setup<S>, f: Flow<S>, source: Source)
    requires Exact(c, f) && Linked(f) && OnTrack(c, f, source)
    requires f.recovery.Some? && f.recovery.value.waiting.Some? && Reopen(c, f).Ok?
    ensures OnTrack(c, Reopen(c, f).value, source)
  {
    var r := f.recovery.value.(waiting := None);
    var waited := f.(recovery := Some(r));
    match c.network(r.hops, r.token.value)
    case Refused(e) =>
      assert waited.Held() == f.Held() && Exact(c, waited);
      ScheduleStaysOnTrack(c, waited, Some(e), source);
    case Opened(body) => assert Reopen(c, f).value.Fed() == f.committed == f.Fed();
    case Unbuildable(_) =>
  }

  /** A record fed ends the reply or leaves every record so far quiet. */
  lemma DecodeEndsLast<S(!new)>(
    c: Setup<S>, f: Flow<S>, record: Record, i: Inspected, next: (S, seq<WireEvent>), g: Flow<S>)
    requires Exact(c, f) && !f.done && f.records.Some? && EndedLast(c, f)
    requires InspectRecord(c.wire, f.recovery.Some?, record) == Ok(i)
    requires c.wire.feed(f.decoder, i.record) == Ok(next)
    requires g.Fed() == f.Fed() + [record] && g.recovery.Some? == f.recovery.Some?
    requires g.done == HasStop(next.1) && g.flush.None?
    ensures EndedLast(c, g)
  {
    var n := |f.Fed()|;
    var rs := g.Fed();
    ReplayMore(c, f, record, i, next);
    assert Front(rs) == f.Fed() && Last(rs) == record && rs[..n] == f.Fed() && rs[n] == record;
    QuietPrefix(c.wire, f.recovery.Some?, f.Fed(), [record]);
    if !HasStop(next.1) {
      assert QuietAt(c.wire, f.recovery.Some?, rs, n);
    }
  }

  lemma RecordGoesAhead<S>(w: Wire<S>, r: Option<Recovery<S>>, next: Option<Recovery<S>>, b: Body, rest: seq<Record>)
    requires Ahead(w, r, b, rest) && b.records != [] && next.Some? == r.Some?
    requires Token(next).Some? <==> Token(r).Some? || (r.Some? && Marks(w, b.records[0]))
    requires r.Some? ==> next.value.terminal == (r.value.terminal || Terminates(w, b.records[0]))
    ensures rest != [] && rest[0] == b.records[0] && Ahead(w, next, b.(records := b.records[1..]), rest[1..])
  {
    var later := b.records[1..];
    assert rest == [rest[0]] + rest[1..] && b.records == [b.records[0]] + later;
    if b.broken.None? && b.records != rest && Token(next).None? {
      var i :| 0 <= i < |b.records| && Marks(w, b.records[i]);
      assert later[i - 1] == b.records[i];
    }
  }

  lemma DecodeStaysPositioned<S(!new)>(c: Setup<S>, f: Flow<S>, source: Source)
    requires Honest(c, source) && Positioned(c, f, source) && f.flush.None?
    requires f.records.Some? && f.records.value.records != []
    requires var rest := f.records.value;
             InspectRecord(c.wire, f.recovery.Some?, rest.records[0]).Ok?
             && c.wire.feed(f.decoder, InspectRecord(c.wire, f.recovery.Some?, rest.records[0]).value.record).Ok?
    ensures var rest := f.records.value;
            var read := f.(records := Some(rest.(records := rest.records[1..])));
            Positioned(c, Decode(c, read, rest.records[0]).value, source)
            && Decode(c, read, rest.records[0]).value.Fed() == f.Fed() + [rest.records[0]]
  {
    var rest := f.records.value;
    var record := rest.records[0];
    var n := |f.Fed()|;
    var full := source.full;
    var next := Decode(c, f.(records := Some(rest.(records := rest.records[1..]))), record).value;
    RecordGoesAhead(c.wire, f.recovery, next.recovery, rest, full[n..]);
    hide Ahead;
    assert full[n..][0] == full[n] == record && full[n..][1..] == full[n + 1..];
    assert f.Fed() + [record] <= full;
    assert f.committed + f.tail + [record] == f.committed + (f.tail + [record]) == f.Fed() + [record];
  }

  lemma DecodeStaysOnTrack<S(!new)>(c: Setup<S>, f: Flow<S>, source: Source)
    requires Exact(c, f) && !f.done && OnTrack(c, f, source)
    requires f.records.Some? && f.records.value.records != []
    requires var rest := f.records.value;
             Decode(c, f.(records := Some(rest.(records := rest.records[1..]))), rest.records[0]).Ok?
    ensures var rest := f.records.value;
            var read := f.(records := Some(rest.(records := rest.records[1..])));
            OnTrack(c, Decode(c, read, rest.records[0]).value, source)
  {
    var rest := f.records.value;
    var record := rest.records[0];
    var read := f.(records := Some(rest.(records := rest.records[1..])));
    var i := InspectRecord(c.wire, f.recovery.Some?, record).value;
    var fed := c.wire.feed(f.decoder, i.record);
    if fed.Err? {
      ScheduleStaysOnTrack(c, f, Some(fed.error), source);
    } else {
      DecodeStaysPositioned(c, f, source);
      DecodeEndsLast(c, f, record, i, fed.value, Decode(c, read, record).value);
    }
  }

  lemma StepStaysOnTrack<S(!new)>(c: Setup<S>, f: Flow<S>, source: Source)
    requires Exact(c, f) && Linked(f) && !f.done && OnTrack(c, f, source) && Step(c, f).Ok?
    ensures OnTrack(c, Step(c, f).value, source)
  {
    if f.recovery.Some? && f.recovery.value.waiting.Some? {
      ReopenStaysOnTrack(c, f, source);
    } else if f.recovery.Some? && f.recovery.value.continuation {
      ScheduleStaysOnTrack(c, f, None, source);
    } else {
      var body := f.records.value;
      if body.records != [] {
        DecodeStaysOnTrack(c, f, source);
      } else if body.broken.Some? {
        ScheduleStaysOnTrack(c, f, body.broken, source);
      } else if f.recovery.Some? && f.recovery.value.token.Some? && !f.recovery.value.terminal {
        ScheduleStaysOnTrack(c, f, None, source);
      }
    }
  }

  /** When a stream from an honest service is over and taken, the caller holds exactly the output of
      the reply read in one uninterrupted attempt, whatever broke on the way. */
  lemma DoneIsUninterrupted<S(!new)>(c: Setup<S>, f: Flow<S>, source: Source)
    requires Exact(c, f) && OnTrack(c, f, source) && f.done && f.records.Some?
    ensures f.Held().Ok?
    ensures ReadThrough(c.wire, f.recovery.Some?, c.wire.initial, source.full) == Ok(f.Held().value.content)
  {
    var full, fed, recoverable := source.full, f.Fed(), f.recovery.Some?;
    if f.flush.Some? {
      assert full[|fed|..] == [] && full == fed && full[..|fed|] == fed;
      ReadThroughPrefix(c.wire, recoverable, full, |fed|);
    } else {
      var n := |fed| - 1;
      assert Front(fed) == full[..n] && Last(fed) == full[n];
      assert fed + full[n + 1..] == full;
      QuietPrefix(c.wire, recoverable, fed, full[n + 1..]);
      ReadThroughPrefix(c.wire, recoverable, full, n);
      assert full[n..][0] == full[n];
      assert f.Held().value.content == Made(c, f).value.output;
    }
  }

  /** At a clean end of a body, the end is taken for the reply's exactly when no further attempt is due,
      and then the caller gets the output of a reply that was no longer: an honest body may end early
      where that leads on, and nowhere else. */
  lemma EndTakenIff<S(!new)>(c: Setup<S>, f: Flow<S>)
    requires Exact(c, f) && Linked(f) && !f.done && EndedLast(c, f) && Step(c, f).Ok?
    requires f.records == Some(Body([], None)) && (f.recovery.Some? ==> f.recovery.value.waiting.None?)
    requires f.recovery.Some? ==> !f.recovery.value.continuation
    ensures var g := Step(c, f).value;
            && (g.done <==> f.recovery.None? || f.recovery.value.token.None? || f.recovery.value.terminal)
            && (g.done ==>
                  && g.Held().Ok?
                  && ReadThrough(c.wire, f.recovery.Some?, c.wire.initial, f.Fed()) == Ok(g.Held().value.content))
  {
    StepKeepsExact(c, f);
    var g, fed := Step(c, f).value, f.Fed();
    if g.done {
      assert g.Fed() == fed && fed[..|fed|] == fed && fed[|fed|..] == [];
      ReadThroughPrefix(c.wire, f.recovery.Some?, fed, |fed|);
    }
  }

  lemma StepHandsNothing<S>(c: Setup<S>, f: Flow<S>)
    requires Linked(f)
    ensures Step(c, f).Ok? ==> Step(c, f).value.delivered == f.delivered
  {
  }

  // ----- reading ends -----

  function HopsLeft<S>(f: Flow<S>): int {
    if f.recovery.Some? then MAX_HOPS - f.recovery.value.hops else 0
  }

  /** Whether a reopening is due. */
  function Due<S>(f: Flow<S>): nat {
    if f.recovery.Some? && f.recovery.value.waiting.Some? then 1 else 0
  }

  function Left<S>(f: Flow<S>): nat {
    (if f.records.Some? then |f.records.value.records| else 0) + if f.done then 0 else 1
  }

  ghost predicate Nearer<S>(g: Flow<S>, f: Flow<S>) {
    || 0 <= HopsLeft(g) < HopsLeft(f)
    || (HopsLeft(g) == HopsLeft(f) && (Due(g) < Due(f) || (Due(g) == Due(f) && Left(g) < Left(f))))
  }

  lemma ScheduleEnds<S>(c: Setup<S>, f: Flow<S>, error: Option<Error>)
    ensures Schedule(c, f, error).Ok? ==> 0 <= HopsLeft(Schedule(c, f, error).value) < HopsLeft(f)
  {
  }

  lemma DecodeEnds<S>(c: Setup<S>, f: Flow<S>, record: Record)
    ensures Decode(c, f, record).Ok? ==>
              var g := Decode(c, f, record).value;
              || 0 <= HopsLeft(g) < HopsLeft(f)
              || (HopsLeft(g) == HopsLeft(f) && Due(g) == Due(f) && Left(g) <= Left(f))
  {
    var i := InspectRecord(c.wire, f.recovery.Some?, record);
    if i.Ok? && c.wire.feed(f.decoder, i.value.record).Err? {
      ScheduleEnds(c, f, Some(c.wire.feed(f.decoder, i.value.record).error));
    }
  }

  /** Every turn of the loop uses up a reopening, opens a due one, or uses up a record or the end of a
      body: however the network answers, finite bodies are read in finitely many turns. */
  lemma StepEnds<S>(c: Setup<S>, f: Flow<S>)
    requires Linked(f) && !f.done
    ensures Step(c, f).Ok? ==> Nearer(Step(c, f).value, f)
  {
    if f.recovery.Some? && f.recovery.value.waiting.Some? {
      var r := f.recovery.value.(waiting := None);
      var opening := c.network(r.hops, r.token.value);
      if opening.Refused? { ScheduleEnds(c, f.(recovery := Some(r)), Some(opening.error)); }
    } else if f.recovery.Some? && f.recovery.value.continuation {
      ScheduleEnds(c, f, None);
    } else {
      var body := f.records.value;
      if body.records != [] {
        DecodeEnds(c, f.(records := Some(body.(records := body.records[1..]))), body.records[0]);
      } else if body.broken.Some? {
        ScheduleEnds(c, f, body.broken);
      } else {
        ScheduleEnds(c, f, None);
      }
    }
  }

  /** Reading further in a body, or forgetting a wait, leaves the output what it was. */
  lemma OutputStands<S>(c: Setup<S>, f: Flow<S>, g: Flow<S>)
    requires g == f.(recovery := g.recovery, records := g.records)
    requires g.recovery.Some? == f.recovery.Some? && g.records.Some? == f.records.Some? && OutputExact(c, f)
    ensures OutputExact(c, g)
  {
    assert g.Held() == f.Held() && g.Fed() == f.Fed();
  }

  /** Only what has been handed over and what is pending together matter, not where the line is. */
  lemma RegroupKeeps<S(!new)>(c: Setup<S>, f: Flow<S>, g: Flow<S>)
    requires g == f.(delivered := g.delivered, pending := g.pending)
    requires g.delivered + g.pending == f.delivered + f.pending
    ensures (Exact(c, f) ==> Exact(c, g)) && (Linked(f) ==> Linked(g))
    ensures forall source :: OnTrack(c, f, source) ==> OnTrack(c, g, source)
  {
    assert g.Held() == f.Held() && g.Fed() == f.Fed();
  }

  /** A stream opened on an honest first body starts exact and on track. */
  lemma OpenIsExact<S(!new)>(c: Setup<S>, first: Body, recoverable: Option<nat>)
    requires Disciplined(c.wire, recoverable.Some?)
    ensures Exact(c, Open(c, first, recoverable)) && Linked(Open(c, first, recoverable))
    ensures forall source ::
              Honest(c, source) && HonestBody(c.wire, recoverable.Some?, false, first, source.full)
              ==> OnTrack(c, Open(c, first, recoverable), source)
  {
    SumUsageMonoid(NO_USAGE, NO_USAGE, NO_USAGE);
    forall source | Honest(c, source) && HonestBody(c.wire, recoverable.Some?, false, first, source.full)
      ensures OnTrack(c, Open(c, first, recoverable), source)
    {
      assert source.full[0..] == source.full;
    }
  }

  /** The state after `n` turns of the loop, while nothing fails and the stream is not over. */
  ghost function Run<S(!new)>(c: Setup<S>, f: Flow<S>, n: nat): Result<Flow<S>, Error>
    requires Exact(c, f) && Linked(f)
    ensures Run(c, f, n).Ok? ==> Exact(c, Run(c, f, n).value) && Linked(Run(c, f, n).value)
  {
    if n == 0 then Ok(f)
    else
      match Run(c, f, n - 1)
      case Err(e) => Err(e)
      case Ok(g) =>
        if g.done then Ok(g)
        else
          var next := Step(c, g);
          if next.Ok? then StepKeepsExact(c, g); next else next
  }

  /** Any pattern of broken and refused attempts: at every point before an error the caller holds what
      one decoder makes of the committed records and the current tail, and once the stream is over it
      holds the output of the uninterrupted reply. */
  lemma {:induction false} RecoveredRunIsExact<S(!new)>(
    c: Setup<S>, first: Body, recoverable: Option<nat>, source: Source, n: nat)
    requires Disciplined(c.wire, recoverable.Some?)
    requires Honest(c, source) && HonestBody(c.wire, recoverable.Some?, false, first, source.full)
    ensures Exact(c, Open(c, first, recoverable)) && Linked(Open(c, first, recoverable))
    ensures var run := Run(c, Open(c, first, recoverable), n);
            run.Ok? ==>
              && OutputExact(c, run.value) && OnTrack(c, run.value, source)
              && (run.value.done ==>
                    ReadThrough(c.wire, run.value.recovery.Some?, c.wire.initial, source.full)
                    == Ok(run.value.Held().value.content))
  {
    var start := Open(c, first, recoverable);
    OpenIsExact(c, first, recoverable);
    RunStaysOnTrack(c, start, source, n);
    var run := Run(c, start, n);
    if run.Ok? && run.value.done {
      DoneIsUninterrupted(c, run.value, source);
    }
  }

  lemma {:induction false} RunStaysOnTrack<S(!new)>(c: Setup<S>, f: Flow<S>, source: Source, n: nat)
    requires Exact(c, f) && Linked(f) && OnTrack(c, f, source)
    ensures Run(c, f, n).Ok? ==> OnTrack(c, Run(c, f, n).value, source)
  {
    hide Exact, OnTrack, Step;
    if n > 0 {
      RunStaysOnTrack(c, f, source, n - 1);
      var before := Run(c, f, n - 1);
      if before.Ok? && !before.value.done && Step(c, before.value).Ok? {
        StepStaysOnTrack(c, before.value, source);
      }
    }
  }
}
