/** When a break is recovered, and that a service which only breaks in ways that can be recovered is read to
    the end (`src/client/stream.rs:65-225`). */
module RecoveryRuns {
  import opened Prelude
  import opened Usages
  import opened StreamModel
  import opened Recovering

  /** A checkpoint to go back to, reopenings left, and failures left since it. */
  predicate HasRoom<S>(r: Recovery<S>) {
    r.token.Some? && r.decoder.Some? && r.hops < 32 && r.failures + 1 < r.maxAttempts
  }

  /** A reading turn is due: nothing waits to be reopened or continued. */
  predicate Reading<S>(f: Flow<S>) {
    f.recovery.Some? ==> f.recovery.value.waiting.None? && !f.recovery.value.continuation
  }

  /** What a recovered turn leaves: one reopening more, due after a delay, with nothing of the attempt
      kept; a failure more unless the protocol asked to be continued, which also costs no delay. */
  ghost predicate Scheduled<S>(c: Setup<S>, f: Flow<S>, g: Flow<S>, error: Option<Error>) {
    && f.recovery.Some? && g.recovery.Some?
    && var r, q := f.recovery.value, g.recovery.value;
    && g.records.None? && g.tail == [] && g.committed == f.committed && !q.continuation
    && q.hops == r.hops + 1 && q.token == r.token && q.decoder == r.decoder
    && q.failures == (if r.continuation then r.failures else r.failures + 1)
    && q.waiting == Some(if r.continuation then 0 else c.backoff(r.hops + 1, r.failures + 1, error))
    && g.delivered + g.pending
       == f.delivered + f.pending
          + [Rewind(r.revision), StreamEvent.Recovering(r.hops + 1, q.waiting.value),
             Decoded(Metered(SumUsage(r.previousUsage, r.committedUsage)))]
  }

  /** A body broken by an error is recovered if and only if there is room and the protocol permits the
      error; otherwise the error ends the stream. */
  lemma BreakRecoversIff<S>(c: Setup<S>, f: Flow<S>, e: Error)
    requires Linked(f) && Reading(f) && f.records == Some(Body([], Some(e)))
    ensures Step(c, f).Ok? <==> f.recovery.Some? && HasRoom(f.recovery.value) && c.wire.permits(e)
    ensures if Step(c, f).Ok? then Scheduled(c, f, Step(c, f).value, Some(e)) else Step(c, f) == Err(e)
  {
    if Step(c, f).Ok? { EventsJoin(f.delivered, f.pending, Step(c, f).value.pending); }
  }

  lemma EventsJoin(delivered: seq<StreamEvent>, pending: seq<StreamEvent>, more: seq<StreamEvent>)
    requires pending <= more
    ensures delivered + more == delivered + pending + more[|pending|..]
  {
  }

  /** So is a record the decoder refuses. */
  lemma RefusedRecordRecoversIff<S>(c: Setup<S>, f: Flow<S>, e: Error)
    requires Linked(f) && Reading(f) && f.records.Some? && f.records.value.records != []
    requires var i := InspectRecord(c.wire, f.recovery.Some?, f.records.value.records[0]);
             i.Ok? && c.wire.feed(f.decoder, i.value.record) == Err(e)
    ensures Step(c, f).Ok? <==> f.recovery.Some? && HasRoom(f.recovery.value) && c.wire.permits(e)
    ensures if Step(c, f).Ok? then Scheduled(c, f, Step(c, f).value, Some(e)) else Step(c, f) == Err(e)
  {
    if Step(c, f).Ok? { EventsJoin(f.delivered, f.pending, Step(c, f).value.pending); }
  }

  /** So is a reopening the service refuses; a call that cannot be rebuilt ends the stream. */
  lemma RefusedReopeningRecoversIff<S>(c: Setup<S>, f: Flow<S>)
    requires Linked(f) && f.recovery.Some? && f.recovery.value.waiting.Some?
    ensures var r := f.recovery.value;
            match c.network(r.hops, r.token.value)
            case Opened(body) => Step(c, f).Ok? && Step(c, f).value.records == Some(body)
            case Unbuildable(e) => Step(c, f) == Err(e)
            case Refused(e) =>
              && (Step(c, f).Ok? <==> HasRoom(r) && c.wire.permits(e))
              && if Step(c, f).Ok? then Scheduled(c, f, Step(c, f).value, Some(e)) else Step(c, f) == Err(e)
  {
    if Step(c, f).Ok? && c.network(f.recovery.value.hops, f.recovery.value.token.value).Refused? {
      EventsJoin(f.delivered, f.pending, Step(c, f).value.pending);
    }
  }

  /** Going on after a continuation mark, or after a clean end with a token and no last record, needs room
      and no permission. */
  lemma EndRecoversIff<S>(c: Setup<S>, f: Flow<S>)
    requires Linked(f) && f.recovery.Some? && f.recovery.value.waiting.None?
    requires var r := f.recovery.value;
             r.continuation || (f.records == Some(Body([], None)) && r.token.Some? && !r.terminal)
    ensures Step(c, f).Ok? <==> HasRoom(f.recovery.value)
    ensures if Step(c, f).Ok? then Scheduled(c, f, Step(c, f).value, None) else Step(c, f) == Err(EXHAUSTED)
  {
    if Step(c, f).Ok? { EventsJoin(f.delivered, f.pending, Step(c, f).value.pending); }
  }

  /** A record that is taken: what its mark says is kept, with a copy of the decoder and the failures
      forgotten; without one everything saved stays. Whether the reply may end here is remembered. */
  lemma RecordTaken<S>(c: Setup<S>, f: Flow<S>, i: Inspected, next: (S, seq<WireEvent>))
    requires Linked(f) && Reading(f) && f.recovery.Some? && f.records.Some? && f.records.value.records != []
    requires c.wire.inspect(f.records.value.records[0]) == Ok(i) && c.wire.feed(f.decoder, i.record) == Ok(next)
    requires !f.done
    ensures Step(c, f).Ok?
    ensures var r, g := f.recovery.value, Step(c, f).value;
            var q := g.recovery.value;
            && g.recovery.Some? && g.decoder == next.0
            && g.records == Some(f.records.value.(records := f.records.value.records[1..]))
            && (g.done <==> exists k :: 0 <= k < |next.1| && next.1[k].Stop?)
            && q.terminal == (r.terminal || i.terminal) && q.hops == r.hops && q.previousUsage == r.previousUsage
            && q.waiting.None? && q.maxAttempts == r.maxAttempts
            && (r.initialInput.Some? ==> q.initialInput == r.initialInput)
            && (r.initialInput.None? ==> IsFirstInput(q.initialInput, next.1))
            && g.Fed() == f.Fed() + [f.records.value.records[0]]
            && match i.mark
               case None =>
                 && q.token == r.token && q.decoder == r.decoder && q.revision == r.revision && !q.continuation
                 && q.failures == r.failures && q.committedUsage == r.committedUsage && g.committed == f.committed
               case Some(mark) =>
                 && q.token == Some(mark.token) && q.decoder == (if c.wire.snapshots then Some(next.0) else None)
                 && q.revision == r.revision + 1 && q.continuation == mark.continuation
                 && q.failures == 0 && q.committedUsage == q.usage && g.tail == []
                 && g.pending != [] && Last(g.pending) == Checkpoint(q.revision)
  {
    assert f.committed + f.tail + [f.records.value.records[0]] == f.committed + (f.tail + [f.records.value.records[0]]);
    FirstInputIs(next.1);
  }

  /** The prompt size the first event that reports one reports. */
  ghost predicate IsFirstInput(input: Option<u64>, es: seq<WireEvent>) {
    match input
    case None => forall i :: 0 <= i < |es| && es[i].Metered? ==> es[i].usage.input.None?
    case Some(tokens) => exists i :: ReportsFirst(es, i, tokens)
  }

  ghost predicate ReportsFirst(es: seq<WireEvent>, i: int, tokens: u64) {
    && 0 <= i < |es| && es[i].Metered? && es[i].usage.input == Some(tokens)
    && forall j :: 0 <= j < i && es[j].Metered? ==> es[j].usage.input.None?
  }

  lemma {:induction false} FirstInputIs(es: seq<WireEvent>)
    ensures IsFirstInput(FirstInput(es), es)
    decreases |es|
  {
    if es != [] {
      FirstInputIs(es[1..]);
      assert forall i :: 1 <= i < |es| ==> es[i] == es[1..][i - 1];
      var input := FirstInput(es);
      if es[0].Metered? && es[0].usage.input.Some? {
        assert ReportsFirst(es, 0, input.value);
      } else if input.Some? {
        var i :| ReportsFirst(es[1..], i, input.value);
        assert ReportsFirst(es, i + 1, input.value);
      }
    }
  }

  // ----- the prompt size is told once -----

  function Sizes(es: seq<StreamEvent>): seq<u64> {
    if es == [] then []
    else Sizes(Front(es)) + if Last(es).InputTokens? then [Last(es).tokens] else []
  }

  lemma {:induction false} SizesJoin(xs: seq<StreamEvent>, ys: seq<StreamEvent>)
    ensures Sizes(xs + ys) == Sizes(xs) + Sizes(ys)
    decreases |ys|
  {
    if ys == [] {
      assert xs + ys == xs;
    } else {
      assert Front(xs + ys) == xs + Front(ys) && Last(xs + ys) == Last(ys);
      SizesJoin(xs, Front(ys));
    }
  }

  lemma {:induction false} NoSizes(es: seq<StreamEvent>)
    requires forall i :: 0 <= i < |es| ==> !es[i].InputTokens?
    ensures Sizes(es) == []
    decreases |es|
  {
    if es != [] { NoSizes(Front(es)); }
  }

  /** The caller was told the prompt size that is remembered, once, or none yet. */
  ghost predicate SizeTold<S>(f: Flow<S>) {
    Sizes(f.delivered + f.pending)
    == if f.recovery.Some? && f.recovery.value.initialInput.Some? then [f.recovery.value.initialInput.value] else []
  }

  lemma StampHasNoSizes(previous: Usage, es: seq<WireEvent>)
    ensures Sizes(Stamp(previous, es)) == []
  {
    StampIsDecoded(previous, es);
    NoSizes(Stamp(previous, es));
  }

  lemma {:induction false} StampIsDecoded(previous: Usage, es: seq<WireEvent>)
    ensures forall i :: 0 <= i < |Stamp(previous, es)| ==> Stamp(previous, es)[i].Decoded?
    decreases |es|
  {
    if es != [] { StampIsDecoded(previous, es[1..]); }
  }

  lemma HandedSizes<S>(r: Recovery<S>, es: seq<WireEvent>, mark: Option<Mark>)
    ensures Sizes(Handed(r, es, mark))
            == if r.initialInput.None? && FirstInput(es).Some? then [FirstInput(es).value] else []
  {
    StampHasNoSizes(r.previousUsage, es);
    var first := if r.initialInput.Some? then None else FirstInput(es);
    var told := if first.Some? then [InputTokens(first.value)] else [];
    var marked := if mark.Some? then [Checkpoint(r.revision + 1)] else [];
    NoSizes(marked);
    if first.Some? { assert Front(told) == [] && Sizes([]) == []; }
    SizesJoin(Stamp(r.previousUsage, es), told);
    SizesJoin(Stamp(r.previousUsage, es) + told, marked);
  }

  lemma MoreSizes<S>(f: Flow<S>, g: Flow<S>, more: seq<StreamEvent>)
    requires g.delivered == f.delivered && g.pending == f.pending + more
    ensures Sizes(g.delivered + g.pending) == Sizes(f.delivered + f.pending) + Sizes(more)
  {
    assert g.delivered + g.pending == f.delivered + f.pending + more;
    SizesJoin(f.delivered + f.pending, more);
  }

  lemma ScheduleTellsNoSize<S>(c: Setup<S>, f: Flow<S>, error: Option<Error>)
    requires SizeTold(f) && Schedule(c, f, error).Ok?
    ensures SizeTold(Schedule(c, f, error).value)
  {
    var g := Schedule(c, f, error).value;
    var more := g.pending[|f.pending|..];
    NoSizes(more);
    MoreSizes(f, g, more);
  }

  /** Over every turn: the caller is told the size of the prompt once at most, it is the first one reported,
      and a rewind does not have it told again. */
  lemma StepTellsSizeOnce<S>(c: Setup<S>, f: Flow<S>)
    requires Linked(f) && SizeTold(f) && Step(c, f).Ok?
    ensures SizeTold(Step(c, f).value)
  {
    hide Sizes, Stamp, FirstInput, Handed, Schedule;
    if f.recovery.Some? && f.recovery.value.waiting.Some? {
      var r := f.recovery.value.(waiting := None);
      var opening := c.network(r.hops, r.token.value);
      if opening.Refused? { ScheduleTellsNoSize(c, f.(recovery := Some(r)), Some(opening.error)); }
    } else if f.recovery.Some? && f.recovery.value.continuation {
      ScheduleTellsNoSize(c, f, None);
    } else {
      BodyTellsSizeOnce(c, f);
    }
  }

  lemma BodyTellsSizeOnce<S>(c: Setup<S>, f: Flow<S>)
    requires Linked(f) && Reading(f) && SizeTold(f) && Step(c, f).Ok?
    ensures SizeTold(Step(c, f).value)
  {
    hide Sizes, Stamp, FirstInput, Handed, Schedule;
    var body := f.records.value;
    if body.records != [] {
      var read := f.(records := Some(body.(records := body.records[1..])));
      var i := InspectRecord(c.wire, f.recovery.Some?, body.records[0]).value;
      var fed := c.wire.feed(f.decoder, i.record);
      if fed.Err? {
        ScheduleTellsNoSize(c, read, Some(fed.error));
      } else if f.recovery.None? {
        StampHasNoSizes(NO_USAGE, fed.value.1);
        MoreSizes(f, Step(c, f).value, Stamp(NO_USAGE, fed.value.1));
      } else {
        HandedSizes(f.recovery.value, fed.value.1, i.mark);
        MoreSizes(f, Step(c, f).value, Handed(f.recovery.value, fed.value.1, i.mark));
      }
    } else if body.broken.Some? {
      ScheduleTellsNoSize(c, f, body.broken);
    } else if f.recovery.Some? && f.recovery.value.token.Some? && !f.recovery.value.terminal {
      ScheduleTellsNoSize(c, f, None);
    } else {
      var es := c.wire.finish(f.decoder).value;
      StampHasNoSizes(NO_USAGE, es);
      MoreSizes(f, Step(c, f).value, Stamp(NO_USAGE, es));
    }
  }

  lemma {:induction false} RunTellsSizeOnce<S(!new)>(c: Setup<S>, f: Flow<S>, n: nat)
    requires Exact(c, f) && Linked(f) && SizeTold(f)
    ensures Run(c, f, n).Ok? ==> SizeTold(Run(c, f, n).value)
  {
    hide Exact, Step, SizeTold;
    if n > 0 {
      RunTellsSizeOnce(c, f, n - 1);
      var before := Run(c, f, n - 1);
      if before.Ok? && !before.value.done && Step(c, before.value).Ok? { StepTellsSizeOnce(c, before.value); }
    }
  }

  // ----- a service that can be read to the end -----

  /** The body breaks, if it does, with an error that is permitted, and when a token is held. */
  ghost predicate Kind<S>(w: Wire<S>, resumed: bool, b: Body) {
    b.broken.Some? ==>
      && w.permits(b.broken.value)
      && (resumed || exists i :: 0 <= i < |b.records| && Marks(w, b.records[i]))
  }

  /** Every reopening is answered with such a body, or refused with an error that is permitted. */
  ghost predicate Willing<S>(c: Setup<S>) {
    forall k, t ::
      match c.network(k, t)
      case Opened(body) => Kind(c.wire, true, body)
      case Refused(e) => c.wire.permits(e)
      case Unbuildable(_) => false
  }

  /** The reply can be read in one attempt, and the decoder can be copied. */
  ghost predicate Readable<S>(c: Setup<S>, source: Source) {
    c.wire.snapshots && ReadThrough(c.wire, true, c.wire.initial, source.full).Ok?
  }

  /** What is left of the current attempt is kind, and a token comes with a decoder. */
  ghost predicate KindAhead<S>(c: Setup<S>, f: Flow<S>) {
    && f.recovery.Some?
    && (f.recovery.value.token.Some? ==> f.recovery.value.decoder.Some?)
    && (f.records.Some? ==> Kind(c.wire, f.recovery.value.token.Some?, f.records.value))
  }

  /** A hop is due: a continuation, a break, a clean end that leads on, or a reopening that is refused. */
  predicate HopDue<S>(c: Setup<S>, f: Flow<S>)
    requires f.recovery.Some? && Linked(f)
  {
    var r := f.recovery.value;
    if r.waiting.Some? then c.network(r.hops, r.token.value).Refused?
    else
      || r.continuation
      || (f.records.value.records == [] && (f.records.value.broken.Some? || (r.token.Some? && !r.terminal)))
  }

  /** What is left of the reply can be decoded. */
  lemma RestReads<S(!new)>(c: Setup<S>, f: Flow<S>, source: Source)
    requires Exact(c, f) && OnTrack(c, f, source) && Readable(c, source)
    requires !f.done && f.records.Some? && f.recovery.Some?
    ensures f.Fed() <= source.full
    ensures ReadThrough(c.wire, true, f.decoder, source.full[|f.Fed()|..]).Ok?
  {
    var full, fed := source.full, f.Fed();
    assert full[..|fed|] == fed && fed + full[|fed|..] == full;
    QuietPrefix(c.wire, true, fed, full[|fed|..]);
    ReadThroughPrefix(c.wire, true, full, |fed|);
  }

  /** Against such a service a turn fails if and only if a hop is due and there is no room for it. */
  lemma StepSucceedsIff<S(!new)>(c: Setup<S>, f: Flow<S>, source: Source)
    requires Exact(c, f) && Linked(f) && OnTrack(c, f, source) && !f.done
    requires Readable(c, source) && Willing(c) && KindAhead(c, f)
    ensures Step(c, f).Ok? <==> (HopDue(c, f) ==> HasRoom(f.recovery.value))
  {
    var r := f.recovery.value;
    if r.waiting.Some? {
      hide Exact, OnTrack, Readable;
      RefusedReopeningRecoversIff(c, f);
      assert !c.network(r.hops, r.token.value).Unbuildable?;
    } else if r.continuation {
      hide Exact, OnTrack, Readable, Willing;
      EndRecoversIff(c, f);
    } else {
      RestReads(c, f, source);
      assert Ahead(c.wire, f.recovery, f.records.value, source.full[|f.Fed()|..]);
      hide Exact, OnTrack, Readable, Willing;
      BodyStepSucceedsIff(c, f, source.full[|f.Fed()|..]);
    }
  }

  lemma BodyStepSucceedsIff<S>(c: Setup<S>, f: Flow<S>, rest: seq<Record>)
    requires Linked(f) && Reading(f) && !f.done && f.recovery.Some? && KindAhead(c, f)
    requires Ahead(c.wire, f.recovery, f.records.value, rest) && ReadThrough(c.wire, true, f.decoder, rest).Ok?
    ensures Step(c, f).Ok? <==> (HopDue(c, f) ==> HasRoom(f.recovery.value))
  {
    var body := f.records.value;
    if body.records != [] {
      assert rest[0] == body.records[0];
      assert Advance(c.wire, true, f.decoder, rest[0]).Ok?;
    } else if body.broken.Some? {
      BreakRecoversIff(c, f, body.broken.value);
    } else if f.recovery.value.token.Some? && !f.recovery.value.terminal {
      EndRecoversIff(c, f);
    } else {
      assert rest == [];
    }
  }

  lemma StepStaysKind<S(!new)>(c: Setup<S>, f: Flow<S>)
    requires Linked(f) && !f.done && Willing(c) && c.wire.snapshots && KindAhead(c, f) && Step(c, f).Ok?
    ensures KindAhead(c, Step(c, f).value)
  {
    var r, g := f.recovery.value, Step(c, f).value;
    if r.waiting.None? && !r.continuation && f.records.value.records != [] && g.records.Some? {
      var body := f.records.value;
      var later := body.records[1..];
      if body.broken.Some? && g.recovery.value.token.None? {
        var i :| 0 <= i < |body.records| && Marks(c.wire, body.records[i]);
        assert i > 0 && later[i - 1] == body.records[i];
      }
    }
  }

  /** No turn of the run has had a hop due without room for it. */
  ghost predicate NeverStuck<S(!new)>(c: Setup<S>, f: Flow<S>, n: nat)
    requires Exact(c, f) && Linked(f)
  {
    forall k :: 0 <= k < n && Run(c, f, k).Ok? && !Run(c, f, k).value.done && Run(c, f, k).value.recovery.Some? ==>
      HopDue(c, Run(c, f, k).value) ==> HasRoom(Run(c, f, k).value.recovery.value)
  }

  lemma {:induction false} RunSucceedsIff<S(!new)>(c: Setup<S>, f: Flow<S>, source: Source, n: nat)
    requires Exact(c, f) && Linked(f) && OnTrack(c, f, source)
    requires Readable(c, source) && Willing(c) && KindAhead(c, f)
    ensures Run(c, f, n).Ok? <==> NeverStuck(c, f, n)
    ensures Run(c, f, n).Ok? ==> KindAhead(c, Run(c, f, n).value) && OnTrack(c, Run(c, f, n).value, source)
  {
    hide Exact, OnTrack, Step, Readable, Willing, KindAhead, HasRoom, HopDue;
    if n > 0 {
      RunSucceedsIff(c, f, source, n - 1);
      var before := Run(c, f, n - 1);
      if before.Ok? && !before.value.done {
        KindRecovers(c, before.value);
        StepSucceedsIff(c, before.value, source);
        if Step(c, before.value).Ok? {
          StepStaysOnTrack(c, before.value, source);
          ReadableCopies(c, source);
          StepStaysKind(c, before.value);
        }
      }
    }
  }

  lemma KindRecovers<S>(c: Setup<S>, f: Flow<S>)
    requires KindAhead(c, f)
    ensures f.recovery.Some?
  {
  }

  lemma ReadableCopies<S>(c: Setup<S>, source: Source)
    requires Readable(c, source)
    ensures c.wire.snapshots
  {
  }

  /** Turns taken after the first one. */
  lemma {:induction false} RunShifts<S(!new)>(c: Setup<S>, f: Flow<S>, g: Flow<S>, n: nat)
    requires Exact(c, f) && Linked(f) && !f.done && Step(c, f) == Ok(g) && Exact(c, g) && Linked(g)
    ensures Run(c, f, n + 1) == Run(c, g, n)
  {
    hide Exact, Step, Linked;
    assert Run(c, f, 0) == Ok(f);
    if n > 0 { RunShifts(c, f, g, n - 1); }
  }

  /** Every run comes to an end, done or failed. */
  lemma {:induction false} RunEnds<S(!new)>(c: Setup<S>, f: Flow<S>)
    requires Exact(c, f) && Linked(f)
    ensures exists n :: Run(c, f, n).Err? || Run(c, f, n).value.done
    decreases HopsLeft(f) + 1, Due(f), Left(f)
  {
    assert HopsLeft(f) >= 0;
    hide Exact;
    if f.done {
      assert Run(c, f, 0) == Ok(f);
    } else if Step(c, f).Err? {
      FirstTurn(c, f);
    } else {
      StepEnds(c, f);
      StepKeepsExact(c, f);
      var g := Step(c, f).value;
      hide Step;
      RunEnds(c, g);
      var n: nat :| Run(c, g, n).Err? || Run(c, g, n).value.done;
      RunShifts(c, f, g, n);
      assert Run(c, f, n + 1).Err? || Run(c, f, n + 1).value.done;
    }
  }

  lemma FirstTurn<S(!new)>(c: Setup<S>, f: Flow<S>)
    requires Exact(c, f) && Linked(f) && !f.done
    ensures Run(c, f, 1).Ok? <==> Step(c, f).Ok?
  {
    hide Exact, Step;
    assert Run(c, f, 0) == Ok(f);
  }

  lemma {:induction false} DoneStays<S(!new)>(c: Setup<S>, f: Flow<S>, n: nat, m: nat)
    requires Exact(c, f) && Linked(f) && Run(c, f, n).Ok? && Run(c, f, n).value.done && n <= m
    ensures Run(c, f, m) == Run(c, f, n)
    decreases m
  {
    hide Exact, Step;
    if n < m { DoneStays(c, f, n, m - 1); }
  }

  lemma {:induction false} OkBefore<S(!new)>(c: Setup<S>, f: Flow<S>, n: nat, m: nat)
    requires Exact(c, f) && Linked(f) && n <= m && Run(c, f, m).Ok?
    ensures Run(c, f, n).Ok?
    decreases m
  {
    hide Exact, Step;
    if n < m { OkBefore(c, f, n, m - 1); }
  }

  ghost predicate Ends<S(!new)>(c: Setup<S>, f: Flow<S>, n: nat)
    requires Exact(c, f) && Linked(f)
  {
    Run(c, f, n).Ok? && Run(c, f, n).value.done
  }

  lemma EndsIff<S(!new)>(c: Setup<S>, f: Flow<S>, source: Source)
    requires Exact(c, f) && Linked(f) && OnTrack(c, f, source)
    requires Readable(c, source) && Willing(c) && KindAhead(c, f)
    ensures (forall n :: NeverStuck(c, f, n)) <==> exists n :: Ends(c, f, n)
  {
    hide Exact, OnTrack, Step, Readable, Willing, KindAhead, NeverStuck, Run;
    RunEnds(c, f);
    var end: nat :| Run(c, f, end).Err? || Run(c, f, end).value.done;
    RunSucceedsIff(c, f, source, end);
    if Run(c, f, end).Ok? {
      assert Ends(c, f, end);
      forall n: nat ensures NeverStuck(c, f, n) {
        if n <= end { OkBefore(c, f, n, end); } else { DoneStays(c, f, end, n); }
        RunSucceedsIff(c, f, source, n);
      }
    } else {
      forall n: nat ensures !Ends(c, f, n) {
        if Ends(c, f, n) {
          if n <= end { DoneStays(c, f, n, end); } else { OkBefore(c, f, end, n); }
        }
      }
    }
  }

  /** A service that is honest, sends a reply that can be read, and breaks and refuses only in permitted ways
      and once a checkpoint is taken: the stream ends without an error if and only if there was room for
      every hop, and then the caller holds the output of the uninterrupted reply. */
  lemma ReplyIsReadIff<S(!new)>(c: Setup<S>, first: Body, maxAttempts: nat, source: Source)
    requires Disciplined(c.wire, true) && Honest(c, source) && HonestBody(c.wire, true, false, first, source.full)
    requires Readable(c, source) && Willing(c) && Kind(c.wire, false, first)
    ensures Exact(c, Open(c, first, Some(maxAttempts))) && Linked(Open(c, first, Some(maxAttempts)))
    ensures var start := Open(c, first, Some(maxAttempts));
            (forall n :: NeverStuck(c, start, n)) <==> exists n :: Ends(c, start, n)
    ensures var start := Open(c, first, Some(maxAttempts));
            forall n :: Ends(c, start, n) ==>
              && Run(c, start, n).value.Held().Ok?
              && var held := Run(c, start, n).value.Held().value;
              ReadThrough(c.wire, true, c.wire.initial, source.full) == Ok(held.content)
  {
    var start := Open(c, first, Some(maxAttempts));
    OpenIsExact(c, first, Some(maxAttempts));
    assert KindAhead(c, start) && OnTrack(c, start, source);
    EndsIff(c, start, source);
    hide Exact, OnTrack, Step, Readable, Willing, KindAhead, NeverStuck, Honest, HonestBody, ReadThrough, Run;
    forall n: nat | Ends(c, start, n)
      ensures Run(c, start, n).value.Held().Ok?
      ensures ReadThrough(c.wire, true, c.wire.initial, source.full) == Ok(Run(c, start, n).value.Held().value.content)
    {
      RunIsExact(c, start, n);
      RecoveredRunIsExact(c, first, Some(maxAttempts), source, n);
    }
  }

  lemma {:induction false} RunIsExact<S(!new)>(c: Setup<S>, f: Flow<S>, n: nat)
    requires Exact(c, f) && Linked(f)
    ensures Run(c, f, n).Ok? ==> OutputExact(c, Run(c, f, n).value)
    ensures Run(c, f, n).Ok? ==> (Run(c, f, n).value.recovery.Some? <==> f.recovery.Some?)
  {
    hide Exact, Step, OutputExact;
    if n > 0 {
      RunIsExact(c, f, n - 1);
      if Run(c, f, n - 1).Ok? { StaysRecoverable(c, Run(c, f, n - 1).value); }
    }
    if Run(c, f, n).Ok? { ExactOutput(c, Run(c, f, n).value); }
  }

  lemma ExactOutput<S(!new)>(c: Setup<S>, f: Flow<S>)
    requires Exact(c, f)
    ensures OutputExact(c, f)
  {
  }

  lemma StaysRecoverable<S>(c: Setup<S>, f: Flow<S>)
    requires Linked(f)
    ensures Step(c, f).Ok? ==> (Step(c, f).value.recovery.Some? <==> f.recovery.Some?)
  {
  }
}
