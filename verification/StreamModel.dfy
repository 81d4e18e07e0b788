/** What one streamed reply means: the records a decoder is fed, the events a caller is handed, and
    the caller that saves at a checkpoint and restores at a rewind.

    The decoder, the recovery protocol's record inspection and the choice of recoverable errors are
    functions of a `Wire`; every result holds for all of them. Models the vocabulary of
    `src/protocol/model_use/stream.rs` and `src/protocol/model_use/recovery.rs`. */
module StreamModel {
  import opened Prelude
  import opened Usages

  datatype Record = Record(event: Option<string>, data: string)
  datatype Error = Error(message: string, retryAfter: Option<nat>)

  /** An event a decoder produces. `Delta` stands for every block event. */
  datatype WireEvent = Delta(payload: string) | Metered(usage: Usage) | Stop(reason: string)

  /** An event the caller is handed. */
  datatype StreamEvent =
    | Decoded(event: WireEvent)
    | InputTokens(tokens: u64)
    | Checkpoint(revision: nat)
    | Rewind(revision: nat)
    | Recovering(attempt: nat, delay: nat)

  /** A generation checkpoint found in a record. */
  datatype Mark = Mark(token: string, continuation: bool)
  datatype Inspected = Inspected(record: Record, mark: Option<Mark>, terminal: bool)

  /** A decoder with its recovery protocol. `snapshots` says whether its state can be copied. */
  datatype Wire<!S> = Wire(
    initial: S,
    feed: (S, Record) -> Result<(S, seq<WireEvent>), Error>,
    finish: S -> Result<seq<WireEvent>, Error>,
    snapshots: bool,
    inspect: Record -> Result<Inspected, Error>,
    permits: Error -> bool)

  /** The records of one response body, and the error that breaks it off, if one does. */
  datatype Body = Body(records: seq<Record>, broken: Option<Error>)

  ghost predicate StopOnlyLast(es: seq<WireEvent>) {
    forall i :: 0 <= i < |es| - 1 ==> !es[i].Stop?
  }

  ghost predicate NoStop(es: seq<WireEvent>) {
    forall i :: 0 <= i < |es| ==> !es[i].Stop?
  }

  ghost predicate Unmetered(es: seq<WireEvent>) {
    forall i :: 0 <= i < |es| ==> !es[i].Metered?
  }

  /** The stream contract: nothing follows the terminal event, and a wire that can be recovered has
      no terminal event but the one its ending body makes, which then reports no usage. */
  ghost predicate Disciplined<S(!new)>(w: Wire<S>, recoverable: bool) {
    && (forall s, r :: w.feed(s, r).Ok? ==> StopOnlyLast(w.feed(s, r).value.1))
    && (recoverable ==> forall s, r :: w.feed(s, r).Ok? ==> NoStop(w.feed(s, r).value.1))
    && (forall s :: w.finish(s).Ok? ==> StopOnlyLast(w.finish(s).value))
    && (recoverable ==> forall s :: w.finish(s).Ok? ==> Unmetered(w.finish(s).value))
  }

  // ----- one decoder, fed straight through -----

  function InspectRecord<S>(w: Wire<S>, recoverable: bool, r: Record): Result<Inspected, Error> {
    if recoverable then w.inspect(r) else Ok(Inspected(r, None, false))
  }

  function Advance<S>(w: Wire<S>, recoverable: bool, s: S, r: Record): Result<(S, seq<WireEvent>), Error> {
    match InspectRecord(w, recoverable, r)
    case Err(e) => Err(e)
    case Ok(i) => w.feed(s, i.record)
  }

  /** The part of a decoder's events that is output: all but usage. */
  function Content(es: seq<WireEvent>): seq<WireEvent> {
    if es == [] then []
    else (if es[0].Metered? then [] else [es[0]]) + Content(es[1..])
  }

  datatype Decoding<S> = Decoding(state: S, output: seq<WireEvent>)

  /** One fresh decoder fed `rs`. */
  function Replay<S>(w: Wire<S>, recoverable: bool, rs: seq<Record>): Result<Decoding<S>, Error> {
    if rs == [] then Ok(Decoding(w.initial, []))
    else
      match Replay(w, recoverable, Front(rs))
      case Err(e) => Err(e)
      case Ok(d) =>
        match Advance(w, recoverable, d.state, Last(rs))
        case Err(e) => Err(e)
        case Ok(next) => Ok(Decoding(next.0, d.output + Content(next.1)))
  }

  /** The output of a single attempt that is never interrupted: the decoder in state `s` reads `rs`
      until a terminal event, or to the end of the body. */
  function ReadThrough<S>(w: Wire<S>, recoverable: bool, s: S, rs: seq<Record>): Result<seq<WireEvent>, Error> {
    if rs == [] then
      match w.finish(s)
      case Err(e) => Err(e)
      case Ok(es) => Ok(Content(es))
    else
      match Advance(w, recoverable, s, rs[0])
      case Err(e) => Err(e)
      case Ok(next) =>
        if exists i :: 0 <= i < |next.1| && next.1[i].Stop? then Ok(Content(next.1))
        else
          match ReadThrough(w, recoverable, next.0, rs[1..])
          case Err(e) => Err(e)
          case Ok(rest) => Ok(Content(next.1) + rest)
  }

  // ----- the caller -----

  datatype Saved = Saved(revision: nat, content: seq<WireEvent>, usage: Option<Usage>)

  /** A caller's accumulator: the output it holds, and what it saved at the last checkpoint. */
  datatype View = View(content: seq<WireEvent>, usage: Option<Usage>, saved: Option<Saved>)

  const EMPTY_VIEW := View([], None, None)

  predicate Stopped(content: seq<WireEvent>) {
    content != [] && Last(content).Stop?
  }

  /** Takes one event, or refuses it: nothing may follow a stop, and a rewind must name the saved
      revision. */
  function Take(v: View, e: StreamEvent): Result<View, string> {
    if Stopped(v.content) then Err("event after the stop event")
    else
      match e
      case Decoded(Metered(u)) => Ok(v.(usage := Some(u)))
      case Decoded(other) => Ok(v.(content := v.content + [other]))
      case Checkpoint(n) => Ok(v.(saved := Some(Saved(n, v.content, v.usage))))
      case Rewind(n) =>
        if v.saved.None? then Err("rewind without checkpoint")
        else if v.saved.value.revision != n then Err("checkpoint revision mismatch")
        else Ok(v.(content := v.saved.value.content, usage := v.saved.value.usage))
      case _ => Ok(v)
  }

  function Accumulate(v: View, es: seq<StreamEvent>): Result<View, string>
    decreases |es|
  {
    if es == [] then Ok(v)
    else
      match Take(v, es[0])
      case Err(e) => Err(e)
      case Ok(next) => Accumulate(next, es[1..])
  }

  lemma {:induction false} AccumulateAppend(v: View, xs: seq<StreamEvent>, ys: seq<StreamEvent>)
    requires Accumulate(v, xs).Ok?
    ensures Accumulate(v, xs + ys) == Accumulate(Accumulate(v, xs).value, ys)
    decreases |xs|
  {
    if xs == [] {
      assert xs + ys == ys;
    } else {
      assert (xs + ys)[1..] == xs[1..] + ys;
      AccumulateAppend(Take(v, xs[0]).value, xs[1..], ys);
    }
  }

  lemma AccumulateOne(v: View, e: StreamEvent)
    ensures Accumulate(v, [e]) == Take(v, e)
  {
    if Take(v, e).Ok? {
      assert [e][1..] == [];
      assert Accumulate(Take(v, e).value, []) == Take(v, e);
    }
  }

  /** The last usage in `es`, or `before` when they hold none. */
  function LastUsage(before: Usage, es: seq<WireEvent>): Usage
    decreases |es|
  {
    if es == [] then before
    else LastUsage(if es[0].Metered? then es[0].usage else before, es[1..])
  }

  /** A hop's events as the caller is handed them: its usage added to that of the hops before it. */
  function Stamp(previous: Usage, es: seq<WireEvent>): seq<StreamEvent> {
    if es == [] then []
    else [StampOne(previous, es[0])] + Stamp(previous, es[1..])
  }

  function StampOne(previous: Usage, e: WireEvent): StreamEvent {
    Decoded(if e.Metered? then Metered(SumUsage(previous, e.usage)) else e)
  }

  lemma {:induction false} StampAppend(previous: Usage, xs: seq<WireEvent>, e: WireEvent)
    ensures Stamp(previous, xs + [e]) == Stamp(previous, xs) + [StampOne(previous, e)]
    ensures |Stamp(previous, xs)| == |xs|
    decreases |xs|
  {
    if xs == [] {
      assert [e][1..] == [] && Stamp(previous, []) == [];
      assert xs + [e] == [e];
    } else {
      assert (xs + [e])[1..] == xs[1..] + [e];
      StampAppend(previous, xs[1..], e);
    }
  }

  lemma {:induction false} LastUsageAppend(before: Usage, xs: seq<WireEvent>, e: WireEvent)
    ensures LastUsage(before, xs + [e]) == if e.Metered? then e.usage else LastUsage(before, xs)
    decreases |xs|
  {
    if xs == [] {
      assert xs + [e] == [e] && [e][1..] == [];
    } else {
      assert (xs + [e])[1..] == xs[1..] + [e];
      LastUsageAppend(if xs[0].Metered? then xs[0].usage else before, xs[1..], e);
    }
  }

  lemma {:induction false} LastUsageUnmetered(before: Usage, es: seq<WireEvent>)
    requires Unmetered(es)
    ensures LastUsage(before, es) == before
    decreases |es|
  {
    if es != [] { LastUsageUnmetered(before, es[1..]); }
  }

  /** A caller that takes a hop's stamped events holds the hop's output after what it had, and the
      running total of usage. */
  lemma {:induction false} AccumulateStamp(v: View, previous: Usage, used: Usage, es: seq<WireEvent>)
    requires !Stopped(v.content) && StopOnlyLast(es)
    requires v.usage.GetOr(NO_USAGE) == SumUsage(previous, used)
    ensures var r := Accumulate(v, Stamp(previous, es));
            && r.Ok?
            && r.value.content == v.content + Content(es)
            && r.value.saved == v.saved
            && r.value.usage.GetOr(NO_USAGE) == SumUsage(previous, LastUsage(used, es))
    decreases |es|
  {
    if es != [] {
      var stamped := Stamp(previous, es);
      var next := Take(v, stamped[0]).value;
      assert stamped[1..] == Stamp(previous, es[1..]);
      if es[0].Stop? {
        assert es[1..] == [];
        assert Content(es) == [es[0]];
      } else {
        assert !Stopped(next.content);
        AccumulateStamp(next, previous, if es[0].Metered? then es[0].usage else used, es[1..]);
        assert v.content + [es[0]] + Content(es[1..]) == v.content + ([es[0]] + Content(es[1..]));
      }
    }
  }

  /** Without usage in the way of the argument: plain events are events stamped with nothing. */
  lemma {:induction false} StampNothing(es: seq<WireEvent>)
    ensures |Stamp(NO_USAGE, es)| == |es|
    ensures forall i :: 0 <= i < |es| ==> Stamp(NO_USAGE, es)[i] == Decoded(es[i])
    decreases |es|
  {
    if es != [] {
      StampNothing(es[1..]);
      if es[0].Metered? {
        SumUsageMonoid(es[0].usage, NO_USAGE, NO_USAGE);
      }
    }
  }

  lemma {:induction false} ContentStops(es: seq<WireEvent>)
    requires StopOnlyLast(es)
    ensures Stopped(Content(es)) ==> exists i :: 0 <= i < |es| && es[i].Stop?
    ensures (exists i :: 0 <= i < |es| && es[i].Stop?) ==> Stopped(Content(es))
    ensures NoStop(es) ==> NoStop(Content(es))
    decreases |es|
  {
    if es != [] {
      ContentStops(es[1..]);
      if Stopped(Content(es)) {
        if Content(es[1..]) == [] {
          assert es[0].Stop?;
        } else {
          var i :| 0 <= i < |es[1..]| && es[1..][i].Stop?;
          assert es[i + 1].Stop?;
        }
      }
      if i :| 0 <= i < |es| && es[i].Stop? {
        if i == 0 {
          assert es[1..] == [] && Content(es) == [es[0]];
        } else {
          assert es[1..][i - 1].Stop?;
        }
      }
    }
  }

  /** Reading through from the start passes through every replayed prefix that has not stopped. */
  lemma {:induction false} ReadThroughPrefix<S>(w: Wire<S>, recoverable: bool, rs: seq<Record>, n: nat)
    requires n <= |rs| && Replay(w, recoverable, rs[..n]).Ok?
    requires forall k :: 0 <= k < n ==> QuietAt(w, recoverable, rs, k)
    ensures var d := Replay(w, recoverable, rs[..n]).value;
            var rest := ReadThrough(w, recoverable, d.state, rs[n..]);
            ReadThrough(w, recoverable, w.initial, rs)
            == if rest.Err? then rest else Ok(d.output + rest.value)
  {
    if n == 0 {
      assert rs[..0] == [] && rs[0..] == rs;
      var rest := ReadThrough(w, recoverable, w.initial, rs);
      assert rest.Ok? ==> [] + rest.value == rest.value;
    } else {
      assert Front(rs[..n]) == rs[..n - 1] && Last(rs[..n]) == rs[n - 1];
      ReadThroughPrefix(w, recoverable, rs, n - 1);
      var before := Replay(w, recoverable, rs[..n - 1]).value;
      var step := Advance(w, recoverable, before.state, rs[n - 1]).value;
      assert QuietAt(w, recoverable, rs, n - 1);
      assert rs[n - 1..][0] == rs[n - 1] && rs[n - 1..][1..] == rs[n..];
      var rest := ReadThrough(w, recoverable, step.0, rs[n..]);
      if rest.Ok? {
        assert before.output + (Content(step.1) + rest.value) == before.output + Content(step.1) + rest.value;
      }
    }
  }

  /** Record `k` of `rs`, fed after the records before it, makes no terminal event. */
  ghost predicate QuietAt<S>(w: Wire<S>, recoverable: bool, rs: seq<Record>, k: nat) {
    k < |rs| &&
    var d := Replay(w, recoverable, rs[..k]);
    d.Ok? && var step := Advance(w, recoverable, d.value.state, rs[k]);
    step.Ok? && NoStop(step.value.1)
  }

  /** Quietness of a record depends only on the records up to it. */
  lemma QuietPrefix<S>(w: Wire<S>, recoverable: bool, rs: seq<Record>, more: seq<Record>)
    ensures forall k :: 0 <= k < |rs| ==>
              QuietAt(w, recoverable, rs, k) == QuietAt(w, recoverable, rs + more, k)
  {
    forall k | 0 <= k < |rs|
      ensures QuietAt(w, recoverable, rs, k) == QuietAt(w, recoverable, rs + more, k)
    {
      assert (rs + more)[..k] == rs[..k];
    }
  }

  /** A scheduled recovery takes the caller back to what it saved, and tells it the saved usage. */
  lemma TakeRewind(v: View, attempt: nat, delay: nat, usage: Usage)
    requires !Stopped(v.content) && v.saved.Some? && !Stopped(v.saved.value.content)
    ensures Accumulate(v, [Rewind(v.saved.value.revision), Recovering(attempt, delay), Decoded(Metered(usage))])
            == Ok(View(v.saved.value.content, Some(usage), v.saved))
  {
    var told := [Rewind(v.saved.value.revision), Recovering(attempt, delay), Decoded(Metered(usage))];
    var back := Take(v, told[0]).value;
    assert told[1..] == [told[1], told[2]] && told[1..][1..] == [told[2]];
    AccumulateOne(back, told[2]);
  }

  predicate IsSpeculative(e: StreamEvent) {
    !e.Checkpoint? && !e.Rewind?
  }

  /** Whatever comes between a checkpoint and a rewind to it leaves no trace. */
  lemma {:induction false} RewindForgets(v: View, n: nat, es: seq<StreamEvent>)
    requires !Stopped(v.content) && (forall i :: 0 <= i < |es| ==> IsSpeculative(es[i]))
    requires Accumulate(v.(saved := Some(Saved(n, v.content, v.usage))), es).Ok?
    requires !Stopped(Accumulate(v.(saved := Some(Saved(n, v.content, v.usage))), es).value.content)
    ensures Take(v, Checkpoint(n)) == Ok(v.(saved := Some(Saved(n, v.content, v.usage))))
    ensures var marked := v.(saved := Some(Saved(n, v.content, v.usage)));
            Take(Accumulate(marked, es).value, Rewind(n)) == Ok(marked)
  {
    SavedStands(v.(saved := Some(Saved(n, v.content, v.usage))), es);
  }

  lemma {:induction false} SavedStands(v: View, es: seq<StreamEvent>)
    requires (forall i :: 0 <= i < |es| ==> IsSpeculative(es[i])) && Accumulate(v, es).Ok?
    ensures Accumulate(v, es).value.saved == v.saved
    decreases |es|
  {
    if es != [] {
      assert IsSpeculative(es[0]) && Take(v, es[0]).value.saved == v.saved;
      SavedStands(Take(v, es[0]).value, es[1..]);
    }
  }
}
