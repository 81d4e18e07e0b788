/** One streamed call in flight, as the object `src/client/stream.rs` keeps it: the fields it updates,
    and the methods that update them. Every method is proved to take the step the transition system
    in `Recovering` takes. */
module EventStreams {
  import opened Prelude
  import opened Usages
  import opened StreamModel
  import opened Recovering

  lemma {:induction false} FirstInputAppend(xs: seq<WireEvent>, e: WireEvent)
    ensures FirstInput(xs + [e]) == if FirstInput(xs).Some? then FirstInput(xs) else FirstInput([e])
    decreases |xs|
  {
    if xs == [] {
      assert xs + [e] == [e];
    } else {
      assert (xs + [e])[1..] == xs[1..] + [e];
      FirstInputAppend(xs[1..], e);
    }
  }

  /** Whatever a caller has taken, it could take. */
  lemma {:induction false} AccumulatePrefix(v: View, xs: seq<StreamEvent>, ys: seq<StreamEvent>)
    requires Accumulate(v, xs + ys).Ok?
    ensures Accumulate(v, xs).Ok?
    decreases |xs|
  {
    if xs != [] {
      assert (xs + ys)[1..] == xs[1..] + ys;
      AccumulatePrefix(Take(v, xs[0]).value, xs[1..], ys);
    }
  }

  class EventStream<S(!new, ==)> {
    const setup: Setup<S>
    var recovery: Option<Recovery<S>>
    var records: Option<Body>
    var decoder: S
    var pending: seq<StreamEvent>
    var done: bool

    ghost const source: Option<Source>
    ghost var failed: bool                  // an error has been returned
    ghost var delivered: seq<StreamEvent>
    ghost var committed: seq<Record>
    ghost var tail: seq<Record>
    ghost var flush: Option<seq<WireEvent>>
    ghost var closed: seq<Usage>

    ghost function Now(): Flow<S>
      reads this
    {
      Flow(recovery, records, decoder, pending, done, delivered, committed, tail, flush, closed)
    }

    ghost predicate Valid()
      reads this
    {
      && !failed && Exact(setup, Now()) && Linked(Now())
      && (source.Some? ==> OnTrack(setup, Now(), source.value))
    }

    constructor (setup: Setup<S>, first: Body, recoverable: Option<nat>, ghost source: Option<Source>)
      requires Disciplined(setup.wire, recoverable.Some?)
      requires source.Some? ==>
                 && Honest(setup, source.value)
                 && HonestBody(setup.wire, recoverable.Some?, false, first, source.value.full)
      ensures Valid() && this.setup == setup && this.source == source
      ensures Now() == Open(setup, first, recoverable)
    {
      this.setup, this.source := setup, source;
      recovery := if recoverable.Some? then Some(NewRecovery(recoverable.value)) else None;
      records, decoder, pending, done := Some(first), setup.wire.initial, [], false;
      failed, delivered, committed, tail, flush, closed := false, [], [], [], None, [];
      new;
      OpenIsExact(setup, first, recoverable);
    }

    /** Gives up the current attempt for one that resumes at the checkpoint, if the budget allows. */
    method ScheduleRecovery(error: Option<Error>) returns (r: Result<(), Error>)
      modifies this
      ensures r.Ok? <==> Schedule(setup, old(Now()), error).Ok?
      ensures r.Ok? ==> Now() == Schedule(setup, old(Now()), error).value && failed == old(failed)
      ensures r.Err? ==> failed && Now() == old(Now()) && r.error == Schedule(setup, old(Now()), error).error
    {
      if recovery.None? {
        failed := true;
        return Err(error.GetOr(EXHAUSTED));
      }
      var v := recovery.value;
      if !MayRecover(setup, v, error) {
        failed := true;
        return Err(error.GetOr(EXHAUSTED));
      }
      records := None;
      var failures, delay := v.failures, 0;
      if !v.continuation {
        failures := v.failures + 1;
        delay := setup.backoff(v.hops + 1, failures, error);
      }
      recovery := Some(v.(hops := v.hops + 1, failures := failures, continuation := false, waiting := Some(delay)));
      // The checkpoint's usage follows the rewind.
      pending := pending + [Rewind(v.revision), StreamEvent.Recovering(v.hops + 1, delay),
                            Decoded(Metered(SumUsage(v.previousUsage, v.committedUsage)))];
      tail := [];
      return Ok(());
    }

    /** Opens the attempt a recovery is due for, or schedules the next one. */
    method ReopenAttempt() returns (r: Result<(), Error>)
      requires Linked(Now()) && recovery.Some? && recovery.value.waiting.Some?
      modifies this
      ensures r.Ok? <==> Reopen(setup, old(Now())).Ok?
      ensures r.Ok? ==> Now() == Reopen(setup, old(Now())).value && failed == old(failed)
      ensures r.Err? ==> failed && Now() == old(Now()).(recovery := recovery)
                         && recovery == Some(old(recovery).value.(waiting := None))
    {
      var v := recovery.value.(waiting := None);
      recovery := Some(v);
      match setup.network(v.hops, v.token.value)
      case Unbuildable(e) =>
        failed := true;
        return Err(e);
      case Refused(e) =>
        r := ScheduleRecovery(Some(e));
      case Opened(body) =>
        records := Some(body);
        decoder := v.decoder.value;
        recovery := Some(v.(previousUsage := SumUsage(v.previousUsage, v.committedUsage), terminal := false,
                            committedUsage := NO_USAGE, usage := NO_USAGE));
        closed := closed + [v.committedUsage];
        return Ok(());
    }

    /** Adds the usage of the hops before to a record's events, remembering the hop's own usage and
        the first prompt size reported. */
    method Meter(events: seq<WireEvent>) returns (out: seq<StreamEvent>, first: Option<u64>)
      requires recovery.Some?
      modifies this`recovery
      ensures var was := old(recovery.value);
              && out == Stamp(was.previousUsage, events)
              && first == (if was.initialInput.Some? then None else FirstInput(events))
              && recovery == Some(was.(usage := LastUsage(was.usage, events),
                                       initialInput := if was.initialInput.Some? then was.initialInput
                                                       else FirstInput(events)))
    {
      out, first := [], None;
      ghost var was := recovery.value;
      for k := 0 to |events|
        invariant out == Stamp(was.previousUsage, events[..k])
        invariant first == if was.initialInput.Some? then None else FirstInput(events[..k])
        invariant recovery == Some(was.(usage := LastUsage(was.usage, events[..k]),
                                        initialInput := if was.initialInput.Some? then was.initialInput
                                                        else FirstInput(events[..k])))
      {
        var e := events[k];
        assert events[..k + 1] == events[..k] + [e];
        StampAppend(was.previousUsage, events[..k], e);
        LastUsageAppend(was.usage, events[..k], e);
        FirstInputAppend(events[..k], e);
        assert [e][1..] == [];
        if e.Metered? {
          recovery := Some(recovery.value.(usage := e.usage));
          if recovery.value.initialInput.None? {
            recovery := Some(recovery.value.(initialInput := e.usage.input));
            first := recovery.value.initialInput;
          }
        }
        out := out + [StampOne(recovery.value.previousUsage, e)];
      }
      assert events[..|events|] == events;
    }

    /** Notes what a record says of the hop, and takes the checkpoint it carries: the token, a copy of
        the decoder, and the usage so far. */
    method Annotate(es: seq<WireEvent>, i: Inspected) returns (events: seq<StreamEvent>)
      requires recovery.Some?
      modifies this`recovery
      ensures events == Handed(old(recovery.value), es, i.mark)
      ensures recovery == Some(Noted(setup, old(recovery.value), es, decoder, i))
    {
      var first;
      events, first := Meter(es);
      if first.Some? {
        events := events + [InputTokens(first.value)];
      }
      var v := recovery.value;
      v := v.(terminal := v.terminal || i.terminal);
      if i.mark.Some? {
        v := v.(token := Some(i.mark.value.token),
                decoder := if setup.wire.snapshots then Some(decoder) else None,
                revision := v.revision + 1, failures := 0, committedUsage := v.usage,
                continuation := i.mark.value.continuation);
        events := events + [Checkpoint(v.revision)];
      }
      recovery := Some(v);
    }

    /** Decodes one record of the current attempt. */
    method DecodeRecord(record: Record) returns (r: Result<(), Error>)
      modifies this
      ensures r.Ok? <==> Decode(setup, old(Now()), record).Ok?
      ensures r.Ok? ==> Now() == Decode(setup, old(Now()), record).value && failed == old(failed)
      ensures r.Err? ==> failed && Now() == old(Now())
    {
      hide Schedule, Stamp, HasStop, Replay, InspectRecord, Noted, Handed;
      var inspected := InspectRecord(setup.wire, recovery.Some?, record);
      if inspected.Err? {
        failed := true;
        return Err(inspected.error);
      }
      var i := inspected.value;
      var fed := setup.wire.feed(decoder, i.record);
      if fed.Err? {
        r := ScheduleRecovery(Some(fed.error));
        return;
      }
      decoder := fed.value.0;
      var es := fed.value.1;
      ghost var read := committed + tail + [record];
      var events := Stamp(NO_USAGE, es);
      if recovery.Some? {
        events := Annotate(es, i);
      }
      if recovery.Some? && i.mark.Some? {
        committed, tail := read, [];
      } else {
        tail := tail + [record];
      }
      if HasStop(es) {
        done := true;
      }
      pending := pending + events;
      return Ok(());
    }

    /** The end of a body: a break, if the reply was not over, or the end of the stream. */
    method EndBody() returns (r: Result<(), Error>)
      modifies this
      ensures r.Ok? <==> EndOfBody(setup, old(Now())).Ok?
      ensures r.Ok? ==> Now() == EndOfBody(setup, old(Now())).value && failed == old(failed)
      ensures r.Err? ==> failed && Now() == old(Now())
    {
      if recovery.Some? && recovery.value.token.Some? && !recovery.value.terminal {
        r := ScheduleRecovery(None);
        return;
      }
      var es := setup.wire.finish(decoder);
      if es.Err? {
        failed := true;
        return Err(es.error);
      }
      pending := pending + Stamp(NO_USAGE, es.value);
      done := true;
      flush := Some(Content(es.value));
      return Ok(());
    }

    /** One turn of the loop in `Next`, with nothing pending. */
    method Turn() returns (r: Result<(), Error>)
      requires Linked(Now()) && pending == [] && !done && !failed
      modifies this
      ensures r.Ok? <==> Step(setup, old(Now())).Ok?
      ensures r.Ok? ==> !failed && Now() == Step(setup, old(Now())).value
      ensures r.Err? ==> failed && Now() == old(Now()).(recovery := recovery, records := records)
                         && recovery.Some? == old(recovery.Some?) && records.Some? == old(records.Some?)
    {
      if recovery.Some? && recovery.value.waiting.Some? {
        r := ReopenAttempt();
      } else if recovery.Some? && recovery.value.continuation {
        r := ScheduleRecovery(None);
      } else {
        var body := records.value;
        if body.records != [] {
          records := Some(body.(records := body.records[1..]));
          r := DecodeRecord(body.records[0]);
        } else if body.broken.Some? {
          r := ScheduleRecovery(body.broken);
        } else {
          r := EndBody();
        }
      }
    }

    /** A turn keeps the stream exact and leads nearer to its end. */
    method ReadMore() returns (r: Result<(), Error>)
      requires Valid() && pending == [] && !done
      modifies this
      ensures r.Ok? ==> Valid() && Nearer(Now(), old(Now()))
      ensures r.Err? ==> failed && pending == [] && OutputExact(setup, Now())
      ensures delivered == old(delivered)
    {
      ghost var f := Now();
      StepEnds(setup, f);
      StepHandsNothing(setup, f);
      r := Turn();
      if r.Ok? {
        StepKeepsExact(setup, f);
        if source.Some? { StepStaysOnTrack(setup, f, source.value); }
      } else {
        OutputStands(setup, f, Now());
      }
    }

    method Pop() returns (e: StreamEvent)
      requires Valid() && pending != []
      modifies this`pending, this`delivered
      ensures Valid() && e == old(pending)[0] && pending == old(pending)[1..] && delivered == old(delivered) + [e]
    {
      ghost var f := Now();
      e, pending := pending[0], pending[1..];
      delivered := delivered + [e];
      assert delivered + pending == f.delivered + f.pending;
      RegroupKeeps(setup, f, Now());
    }

    /** The next event, or `None` at the end of the stream. It returns, however the network answers. */
    method Next() returns (r: Result<Option<StreamEvent>, Error>)
      requires Valid()
      modifies this
      ensures r.Ok? ==> Valid()
      ensures r.Ok? && r.value.Some? ==> delivered == old(delivered) + [r.value.value]
      ensures r.Ok? && r.value.None? ==> delivered == old(delivered) && done && pending == []
      ensures r.Err? ==> failed && delivered == old(delivered) && pending == [] && OutputExact(setup, Now())
      ensures r.Ok? ==> Nearer(Now(), old(Now()))
                        || (SameDistance(Now(), old(Now())) && |pending| <= |old(pending)|)
      ensures r.Ok? && r.value.Some? && SameDistance(Now(), old(Now())) ==> |pending| < |old(pending)|
    {
      hide Exact, OnTrack, Linked;
      ghost var start := Now();
      while true
        invariant Valid() && delivered == old(delivered)
        invariant Nearer(Now(), start) || Now() == start
        decreases HopsLeft(Now()), Due(Now()), Left(Now())
      {
        if pending != [] {
          var e := Pop();
          return Ok(Some(e));
        }
        if done {
          return Ok(None);
        }
        ghost var f := Now();
        var turned := ReadMore();
        if turned.Err? {
          return Err(turned.error);
        }
      }
      assert false;
    }

    method PutBack(e: StreamEvent)
      requires Valid() && delivered != [] && Last(delivered) == e
      modifies this`pending, this`delivered
      ensures Valid() && pending == [e] + old(pending) && delivered == Front(old(delivered))
    {
      ghost var f := Now();
      pending := [e] + pending;
      delivered := Front(delivered);
      assert delivered + pending == f.delivered + f.pending;
      RegroupKeeps(setup, f, Now());
    }

    /** Reads the first event and puts it back in front: nothing has been handed over then. */
    method ReadAhead() returns (r: Result<(), Error>)
      requires Valid()
      modifies this
      ensures delivered == old(delivered)
      ensures r.Ok? ==> Valid() && (pending != [] || done)
      ensures r.Err? ==> failed && OutputExact(setup, Now())
    {
      var event := Next();
      if event.Err? {
        return Err(event.error);
      }
      if event.value.Some? {
        PutBack(event.value.value);
      }
      return Ok(());
    }
  }

  ghost predicate SameDistance<S>(g: Flow<S>, f: Flow<S>) {
    HopsLeft(g) == HopsLeft(f) && Due(g) == Due(f) && Left(g) == Left(f)
  }

  /** A caller reading a whole reply, as `read_segment_stream` does: it never refuses an event, it gets
      to the end or to an error, and from an honest service it ends with the uninterrupted output. */
  method ReadReply<S(!new, ==)>(stream: EventStream<S>) returns (view: View, error: Option<Error>)
    requires stream.Valid() && stream.delivered == []
    modifies stream
    ensures Accumulate(EMPTY_VIEW, stream.delivered) == Ok(view)
    ensures OutputExact(stream.setup, stream.Now()) && stream.Now().Held() == Ok(view)
    ensures error.None? && stream.source.Some? ==>
              ReadThrough(stream.setup.wire, stream.recovery.Some?, stream.setup.wire.initial, stream.source.value.full)
              == Ok(view.content)
  {
    view, error := EMPTY_VIEW, None;
    while true
      invariant stream.Valid()
      invariant Accumulate(EMPTY_VIEW, stream.delivered) == Ok(view)
      decreases HopsLeft(stream.Now()), Due(stream.Now()), Left(stream.Now()), |stream.pending|
    {
      var before := stream.delivered;
      var r := stream.Next();
      if r.Err? {
        error := Some(r.error);
        assert stream.delivered + stream.pending == stream.delivered;
        return;
      }
      if r.value.None? {
        assert stream.delivered + stream.pending == stream.delivered;
        if stream.source.Some? { DoneIsUninterrupted(stream.setup, stream.Now(), stream.source.value); }
        return;
      }
      AccumulatePrefix(EMPTY_VIEW, stream.delivered, stream.pending);
      AccumulateAppend(EMPTY_VIEW, before, [r.value.value]);
      AccumulateOne(view, r.value.value);
      view := Take(view, r.value.value).value;
    }
    assert false;
  }
}
