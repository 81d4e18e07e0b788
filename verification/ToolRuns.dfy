/** Executing one batch of tool calls, one after another or up to eight at once
    (`src/executor/tool.rs`), and what it leaves in the session (`src/session/machine/tool_batch.rs`).

    What tools return, when the run is cancelled and the order in which futures are polled and end are
    arbitrary. A cancelled run stays cancelled (`src/utils/control.rs`), so the time of the cancellation
    is the number of checks that still see the run going. */
module ToolRuns {
  import opened Prelude
  import opened Sessions
  import opened SessionPairs

  const MAX_PARALLEL_TOOLS: nat := 8

  /** `known` are the registered names and those the executor takes unadvertised. */
  datatype World = World(known: set<string>, result: ToolCall -> ToolOutcome, cancelAt: nat)

  /** What happens in a batch: a start is recorded, a tool's body runs, an outcome is recorded, or a
      check sees the run cancelled. */
  datatype Deed =
    | Began(call: ToolCall)
    | Executed(call: ToolCall)
    | Settled(call: ToolCall, outcome: ToolOutcome)
    | SawCancel

  // ----- the rules a batch must follow, as a reader of its deeds -----

  datatype Book = Book(
    begun: set<string>, executed: set<string>, settled: set<string>,
    cancelled: bool, unknown: bool, yielded: bool)

  const BLANK := Book({}, {}, {}, false, false, false)

  /** `limit` calls at once; whether an unknown outcome or a yield stops the rest. */
  datatype Rules = Rules(limit: nat, stops: bool)

  const SERIAL := Rules(1, true)
  const PARALLEL := Rules(MAX_PARALLEL_TOOLS, false)

  predicate Halted(b: Book, rules: Rules) {
    b.cancelled || (rules.stops && (b.unknown || b.yielded))
  }

  /** The outcome of a call whose body never ran. */
  predicate Excused(b: Book, call: ToolCall, outcome: ToolOutcome, world: World, rules: Rules) {
    || (outcome.Cancelled? && (b.cancelled || (rules.stops && b.unknown)))
    || (outcome.Failure? && call.name !in world.known && (rules.stops ==> !Halted(b, rules)))
    || (outcome == Report(false) && rules.stops && b.yielded && !b.cancelled && !b.unknown)
  }

  function Enter(b: Book, e: Deed, world: World, rules: Rules): Option<Book> {
    match e
    case SawCancel => Some(b.(cancelled := true))
    case Began(call) =>
      if call.name in world.known && call.id !in b.begun && call.id !in b.settled && !Halted(b, rules)
         && |b.begun - b.settled| < rules.limit
      then Some(b.(begun := b.begun + {call.id})) else None
    case Executed(call) =>
      if call.id in b.begun && call.id !in b.executed && call.id !in b.settled && !Halted(b, rules)
      then Some(b.(executed := b.executed + {call.id})) else None
    case Settled(call, outcome) =>
      if call.id !in b.settled
         && (if call.id in b.executed then outcome == world.result(call) else Excused(b, call, outcome, world, rules))
      then Some(b.(settled := b.settled + {call.id}, unknown := b.unknown || outcome.Unknown?,
                   yielded := b.yielded || outcome == Report(true)))
      else None
  }

  function Enters(trace: seq<Deed>, world: World, rules: Rules): Option<Book> {
    if trace == [] then Some(BLANK)
    else
      var before := Enters(Front(trace), world, rules);
      if before.None? then None else Enter(before.value, Last(trace), world, rules)
  }

  /** The calls in the order they were settled. */
  function SettledOrder(trace: seq<Deed>): seq<ToolCall> {
    if trace == [] then []
    else if Last(trace).Settled? then SettledOrder(Front(trace)) + [Last(trace).call]
    else SettledOrder(Front(trace))
  }

  lemma EnterLast(trace: seq<Deed>, e: Deed, world: World, rules: Rules)
    requires Enters(trace, world, rules).Some?
    ensures Enters(trace + [e], world, rules) == Enter(Enters(trace, world, rules).value, e, world, rules)
    ensures SettledOrder(trace + [e]) == if e.Settled? then SettledOrder(trace) + [e.call] else SettledOrder(trace)
  {
    assert Front(trace + [e]) == trace;
  }

  function IdsOf(calls: seq<ToolCall>): set<string> {
    set c <- calls :: c.id
  }

  ghost predicate DistinctIds(calls: seq<ToolCall>) {
    forall i, j :: 0 <= i < j < |calls| ==> calls[i].id != calls[j].id
  }

  // ----- what an accepted trace says, read off the trace itself -----

  function BegunIn(trace: seq<Deed>): set<string> {
    set e <- trace | e.Began? :: e.call.id
  }

  function ExecutedIn(trace: seq<Deed>): set<string> {
    set e <- trace | e.Executed? :: e.call.id
  }

  function SettledIn(trace: seq<Deed>): set<string> {
    set e <- trace | e.Settled? :: e.call.id
  }

  predicate IsUnknown(e: Deed) {
    e.Settled? && e.outcome.Unknown?
  }

  predicate IsYield(e: Deed) {
    e.Settled? && e.outcome == Report(true)
  }

  predicate UnknownIn(trace: seq<Deed>) {
    exists k :: 0 <= k < |trace| && IsUnknown(trace[k])
  }

  predicate YieldedIn(trace: seq<Deed>) {
    exists k :: 0 <= k < |trace| && IsYield(trace[k])
  }

  predicate CancelledIn(trace: seq<Deed>) {
    SawCancel in trace
  }

  lemma OneMore(trace: seq<Deed>, e: Deed)
    ensures BegunIn(trace + [e]) == if e.Began? then BegunIn(trace) + {e.call.id} else BegunIn(trace)
    ensures ExecutedIn(trace + [e]) == if e.Executed? then ExecutedIn(trace) + {e.call.id} else ExecutedIn(trace)
    ensures SettledIn(trace + [e]) == if e.Settled? then SettledIn(trace) + {e.call.id} else SettledIn(trace)
    ensures UnknownIn(trace + [e]) <==> UnknownIn(trace) || IsUnknown(e)
    ensures YieldedIn(trace + [e]) <==> YieldedIn(trace) || IsYield(e)
    ensures CancelledIn(trace + [e]) <==> CancelledIn(trace) || e.SawCancel?
  {
    var more := trace + [e];
    assert more[|trace|] == e && forall k :: 0 <= k < |trace| ==> more[k] == trace[k];
  }

  lemma StepKeepsLimit(b: Book, e: Deed, world: World, rules: Rules)
    requires Enter(b, e, world, rules).Some? && |b.begun - b.settled| <= rules.limit
    ensures var after := Enter(b, e, world, rules).value; |after.begun - after.settled| <= rules.limit
  {
    var after := Enter(b, e, world, rules).value;
    if e.Began? {
      assert after.begun - after.settled == (b.begun - b.settled) + {e.call.id};
    } else {
      Subset(after.begun - after.settled, b.begun - b.settled);
    }
  }

  /** The book is what the deeds say. */
  ghost predicate Tells(b: Book, trace: seq<Deed>, rules: Rules) {
    && b.begun == BegunIn(trace) && b.executed == ExecutedIn(trace) && b.settled == SettledIn(trace)
    && (CancelledIn(trace) <==> b.cancelled) && (UnknownIn(trace) <==> b.unknown) && (YieldedIn(trace) <==> b.yielded)
    && |b.begun - b.settled| <= rules.limit
  }

  lemma StepTells(b: Book, trace: seq<Deed>, e: Deed, world: World, rules: Rules)
    requires Tells(b, trace, rules) && Enter(b, e, world, rules).Some?
    ensures Tells(Enter(b, e, world, rules).value, trace + [e], rules)
  {
    hide BegunIn, ExecutedIn, SettledIn, UnknownIn, YieldedIn, CancelledIn, Excused, Halted;
    OneMore(trace, e);
    StepKeepsLimit(b, e, world, rules);
  }

  lemma NothingTells(rules: Rules)
    ensures Tells(BLANK, [], rules)
  {
  }

  lemma {:induction false} BookReads(trace: seq<Deed>, world: World, rules: Rules)
    requires Enters(trace, world, rules).Some?
    ensures Tells(Enters(trace, world, rules).value, trace, rules)
    decreases |trace|
  {
    if trace == [] {
      NothingTells(rules);
    } else {
      hide Tells, Enter;
      BookReads(Front(trace), world, rules);
      assert trace == Front(trace) + [Last(trace)];
      StepTells(Enters(Front(trace), world, rules).value, Front(trace), Last(trace), world, rules);
    }
  }

  lemma {:induction false} Subset<T>(a: set<T>, b: set<T>)
    requires a <= b
    ensures |a| <= |b|
  {
    if a != {} {
      var x :| x in a;
      Subset(a - {x}, b - {x});
    }
  }

  lemma {:induction false} EntersPrefix(trace: seq<Deed>, k: nat, world: World, rules: Rules)
    requires Enters(trace, world, rules).Some? && k <= |trace|
    ensures Enters(trace[..k], world, rules).Some?
    ensures k < |trace| ==> Enter(Enters(trace[..k], world, rules).value, trace[k], world, rules).Some?
    decreases |trace|
  {
    if k == |trace| {
      assert trace[..k] == trace;
    } else if k < |trace| - 1 {
      EntersPrefix(Front(trace), k, world, rules);
      assert Front(trace)[..k] == trace[..k];
    }
  }

  /** What a batch that follows the rules promises: a call is settled at most once, its body runs at most
      once and only after its recorded start, with its own result recorded; never more than `limit` are
      under way; and nothing starts or runs once the run was seen cancelled or, one after another,
      once an outcome is unknown or a tool yielded. */
  lemma OrderlyBatch(trace: seq<Deed>, world: World, rules: Rules, j: nat, k: nat)
    requires Enters(trace, world, rules).Some? && k <= |trace|
    ensures |BegunIn(trace[..k]) - SettledIn(trace[..k])| <= rules.limit
    ensures k < |trace| && trace[k].Executed? ==>
              trace[k].call.id in BegunIn(trace[..k]) && trace[k].call.id !in SettledIn(trace[..k])
    ensures j < k < |trace| ==>
              && (trace[j].Settled? && trace[k].Settled? ==> trace[j].call.id != trace[k].call.id)
              && (trace[j].Executed? && trace[k].Executed? ==> trace[j].call.id != trace[k].call.id)
              && (trace[j].Executed? && trace[k].Settled? && trace[j].call.id == trace[k].call.id
                  ==> trace[k].outcome == world.result(trace[k].call))
              && (trace[j].SawCancel? || (rules.stops && (IsUnknown(trace[j]) || IsYield(trace[j])))
                  ==> !trace[k].Began? && !trace[k].Executed?)
  {
    EntersPrefix(trace, k, world, rules);
    BookReads(trace[..k], world, rules);
    assert j < k ==> trace[..k][j] == trace[j];
  }

  /** Why a call's body may not have run: the run was seen cancelled, or, one after another, an earlier
      outcome is unknown; its tool is not known; or, one after another, an earlier tool yielded. Each has its
      outcome, and any other call settled ran and has its own. */
  lemma UnrunIsExcused(trace: seq<Deed>, world: World, rules: Rules, k: nat)
    requires Enters(trace, world, rules).Some? && k < |trace| && trace[k].Settled?
    ensures var before, call, outcome := trace[..k], trace[k].call, trace[k].outcome;
            if call.id in ExecutedIn(before) then outcome == world.result(call)
            else
              || (outcome.Cancelled? && (SawCancel in before || (rules.stops && UnknownIn(before))))
              || (outcome.Failure? && call.name !in world.known
                  && (rules.stops ==> SawCancel !in before && !UnknownIn(before) && !YieldedIn(before)))
              || (outcome == Report(false) && rules.stops && YieldedIn(before)
                  && SawCancel !in before && !UnknownIn(before))
  {
    EntersPrefix(trace, k, world, rules);
    BookReads(trace[..k], world, rules);
  }

  /** A body runs, and a start is recorded, only of a tool that is known. */
  lemma OnlyKnownBegin(trace: seq<Deed>, world: World, rules: Rules, k: nat)
    requires Enters(trace, world, rules).Some? && k < |trace| && trace[k].Began?
    ensures trace[k].call.name in world.known
  {
    EntersPrefix(trace, k, world, rules);
  }

  // ----- one after another -----

  /** Between two calls, nothing is under way and the flags say what the deeds said. */
  ghost predicate Between(
    trace: seq<Deed>, world: World, settled: set<string>, checks: nat, unknown: bool, yielded: bool)
  {
    && Enters(trace, world, SERIAL).Some?
    && var b := Enters(trace, world, SERIAL).value;
       && b.begun <= b.settled && b.executed <= b.settled && b.settled == settled
       && (b.cancelled <==> checks > world.cancelAt) && b.unknown == unknown && b.yielded == yielded
  }

  /** One call: skipped where the run must stop, otherwise started, looked at again, and run. */
  method ExecuteOne(call: ToolCall, trace: seq<Deed>, checks: nat, unknown: bool, yielded: bool, world: World,
                    ghost settled: set<string>)
    returns (trace': seq<Deed>, checks': nat, outcome: ToolOutcome)
    requires Between(trace, world, settled, checks, unknown, yielded) && call.id !in settled
    ensures Between(trace', world, settled + {call.id}, checks', unknown || outcome.Unknown?,
                    yielded || outcome == Report(true))
    ensures SettledOrder(trace') == SettledOrder(trace) + [call]
  {
    hide Enters, SettledOrder;
    trace', checks' := trace, checks;
    var stop := unknown;
    if !stop { trace', checks', stop := Check(trace, checks, world, SERIAL); }
    ghost var b := Enters(trace', world, SERIAL).value;
    if stop {
      outcome := Cancelled;
    } else if yielded {
      outcome := Report(false);
    } else if call.name !in world.known {
      outcome := Failure;
    } else {
      assert b.begun - b.settled == {};
      EnterLast(trace', Began(call), world, SERIAL);
      trace' := trace' + [Began(call)];
      trace', checks', stop := Check(trace', checks', world, SERIAL);
      if stop {
        outcome := Cancelled;
      } else {
        EnterLast(trace', Executed(call), world, SERIAL);
        trace' := trace' + [Executed(call)];
        outcome := world.result(call);
      }
    }
    EnterLast(trace', Settled(call, outcome), world, SERIAL);
    trace' := trace' + [Settled(call, outcome)];
  }

  lemma NextId(calls: seq<ToolCall>, i: nat)
    requires DistinctIds(calls) && i < |calls|
    ensures calls[i].id !in IdsOf(calls[..i]) && IdsOf(calls[..i + 1]) == IdsOf(calls[..i]) + {calls[i].id}
  {
    assert calls[..i + 1] == calls[..i] + [calls[i]];
  }

  /** Every call is settled, one after another, within the rules; `checks` is how often it was looked whether
      the run is cancelled. */
  method ExecuteSerial(calls: seq<ToolCall>, world: World) returns (trace: seq<Deed>, checks: nat)
    requires DistinctIds(calls)
    ensures Enters(trace, world, SERIAL).Some?
    ensures SettledOrder(trace) == calls && SettledIn(trace) == IdsOf(calls) && BegunIn(trace) <= SettledIn(trace)
    ensures SawCancel in trace <==> checks > world.cancelAt
  {
    trace, checks := [], 0;
    var unknown, yielded := false, false;
    for i := 0 to |calls|
      invariant Between(trace, world, IdsOf(calls[..i]), checks, unknown, yielded) && SettledOrder(trace) == calls[..i]
    {
      NextId(calls, i);
      var outcome;
      trace, checks, outcome := ExecuteOne(calls[i], trace, checks, unknown, yielded, world, IdsOf(calls[..i]));
      yielded := yielded || outcome == Report(true);
      unknown := unknown || outcome.Unknown?;
    }
    assert calls[..|calls|] == calls;
    BookReads(trace, world, SERIAL);
  }

  /** One look at whether the run is cancelled. */
  method Check(trace: seq<Deed>, checks: nat, world: World, rules: Rules)
    returns (trace': seq<Deed>, checks': nat, cancelled: bool)
    requires Enters(trace, world, rules).Some?
    requires Enters(trace, world, rules).value.cancelled <==> checks > world.cancelAt
    ensures Enters(trace', world, rules) == Some(Enters(trace, world, rules).value.(cancelled := cancelled))
    ensures SettledOrder(trace') == SettledOrder(trace)
    ensures cancelled <==> checks' > world.cancelAt
    ensures checks > world.cancelAt ==> cancelled
  {
    cancelled := checks >= world.cancelAt;
    checks' := checks + 1;
    trace' := trace;
    if cancelled {
      EnterLast(trace, SawCancel, world, rules);
      trace' := trace + [SawCancel];
    }
  }

  // ----- up to eight at once -----

  /** A pushed future: polled for the first time, it looks whether the run is cancelled and settles its
      call at once or runs the tool's body. */
  datatype Future = Future(call: ToolCall, known: bool, outcome: Option<ToolOutcome>)

  /** What the scheduler does next with one of the futures. */
  datatype Move = Poll(at: nat) | Finish(at: nat)

  function CallsIn(futures: seq<Future>): seq<ToolCall> {
    seq(|futures|, i requires 0 <= i < |futures| => futures[i].call)
  }

  /** What the deeds so far say of the futures in flight. */
  ghost predicate InHand(b: Book, f: Future, world: World) {
    && (f.known <==> f.call.name in world.known)
    && f.call.id !in b.settled
    && (f.outcome.None? ==> f.call.id !in b.executed)
    && (f.known && f.call.id !in b.begun ==> b.cancelled)
    && (f.outcome.Some? ==>
          if f.call.id in b.executed then f.outcome.value == world.result(f.call)
          else Excused(b, f.call, f.outcome.value, world, PARALLEL))
  }

  ghost predicate AllInHand(b: Book, futures: seq<Future>, world: World) {
    && DistinctIds(CallsIn(futures))
    && (forall i :: 0 <= i < |futures| ==> InHand(b, futures[i], world))
    && b.begun <= b.settled + IdsOf(CallsIn(futures))
  }

  lemma IdsCount(calls: seq<ToolCall>)
    ensures |IdsOf(calls)| <= |calls|
    decreases |calls|
  {
    if calls != [] {
      IdsCount(Front(calls));
      assert calls == Front(calls) + [Last(calls)];
      assert IdsOf(calls) == IdsOf(Front(calls)) + {Last(calls).id};
    }
  }

  lemma Room(b: Book, futures: seq<Future>, world: World)
    requires AllInHand(b, futures, world)
    ensures |b.begun - b.settled| <= |futures|
  {
    Subset(b.begun - b.settled, IdsOf(CallsIn(futures)));
    IdsCount(CallsIn(futures));
  }

  lemma NotBegun(b: Book, futures: seq<Future>, call: ToolCall, world: World)
    requires AllInHand(b, futures, world) && call.id !in b.settled && call.id !in IdsOf(CallsIn(futures))
    ensures call.id !in b.begun
  {
  }

  lemma PushInHand(b: Book, b': Book, futures: seq<Future>, f: Future, world: World)
    requires AllInHand(b, futures, world) && InHand(b', f, world) && f.call.id !in IdsOf(CallsIn(futures))
    requires b'.settled == b.settled && b'.executed == b.executed && b.begun <= b'.begun <= b.begun + {f.call.id}
    requires b.cancelled ==> b'.cancelled
    ensures AllInHand(b', futures + [f], world)
    ensures IdsOf(CallsIn(futures + [f])) == IdsOf(CallsIn(futures)) + {f.call.id}
  {
    assert CallsIn(futures + [f]) == CallsIn(futures) + [f.call];
    forall i | 0 <= i < |futures|
      ensures CallsIn(futures)[i].id in IdsOf(CallsIn(futures)) && InHand(b', futures[i], world)
    {
    }
  }

  lemma TakeOut(futures: seq<Future>, at: nat)
    requires at < |futures| && DistinctIds(CallsIn(futures))
    ensures var rest := futures[..at] + futures[at + 1..];
            && DistinctIds(CallsIn(rest)) && IdsOf(CallsIn(rest)) == IdsOf(CallsIn(futures)) - {futures[at].call.id}
  {
    var rest := futures[..at] + futures[at + 1..];
    var calls := CallsIn(futures);
    assert CallsIn(rest) == calls[..at] + calls[at + 1..];
    assert calls == calls[..at] + [calls[at]] + calls[at + 1..];
  }

  /** Admits one call: recorded as started if it is known and the run still goes on. */
  method Admit(call: ToolCall, trace: seq<Deed>, checks: nat, futures: seq<Future>, world: World)
    returns (trace': seq<Deed>, checks': nat, futures': seq<Future>)
    requires Enters(trace, world, PARALLEL).Some? && |futures| < MAX_PARALLEL_TOOLS
    requires var b := Enters(trace, world, PARALLEL).value;
             && AllInHand(b, futures, world) && (b.cancelled <==> checks > world.cancelAt)
             && call.id !in b.settled && call.id !in b.executed && call.id !in IdsOf(CallsIn(futures))
    ensures Enters(trace', world, PARALLEL).Some?
    ensures var b, b' := Enters(trace, world, PARALLEL).value, Enters(trace', world, PARALLEL).value;
            && AllInHand(b', futures', world) && (b'.cancelled <==> checks' > world.cancelAt)
            && b'.settled == b.settled && b'.executed == b.executed
            && IdsOf(CallsIn(futures')) == IdsOf(CallsIn(futures)) + {call.id} && |futures'| == |futures| + 1
  {
    hide Enters, AllInHand, IdsOf;
    ghost var b := Enters(trace, world, PARALLEL).value;
    var known := call.name in world.known;
    trace', checks' := trace, checks;
    Room(b, futures, world);
    NotBegun(b, futures, call, world);
    if known {
      var cancelled;
      trace', checks', cancelled := Check(trace, checks, world, PARALLEL);
      if !cancelled {
        EnterLast(trace', Began(call), world, PARALLEL);
        trace' := trace' + [Began(call)];
      }
    }
    var f := Future(call, known, None);
    futures' := futures + [f];
    ghost var b' := Enters(trace', world, PARALLEL).value;
    PushInHand(b, b', futures, f, world);
  }

  /** The first poll of a future. */
  method PollOnce(f: Future, trace: seq<Deed>, checks: nat, world: World)
    returns (trace': seq<Deed>, checks': nat, f': Future)
    requires Enters(trace, world, PARALLEL).Some?
    requires var b := Enters(trace, world, PARALLEL).value;
             InHand(b, f, world) && (b.cancelled <==> checks > world.cancelAt)
    ensures Enters(trace', world, PARALLEL).Some? && f'.outcome.Some? && f'.call == f.call
    ensures var b, b' := Enters(trace, world, PARALLEL).value, Enters(trace', world, PARALLEL).value;
            && InHand(b', f', world) && (b'.cancelled <==> checks' > world.cancelAt)
            && b'.settled == b.settled && b'.begun == b.begun && (b.cancelled ==> b'.cancelled)
            && b.executed <= b'.executed <= b.executed + {f.call.id}
  {
    trace', checks', f' := trace, checks, f;
    if f.outcome.Some? { return; }
    var cancelled;
    trace', checks', cancelled := Check(trace, checks, world, PARALLEL);
    if cancelled {
      f' := f.(outcome := Some(Cancelled));
    } else if !f.known {
      f' := f.(outcome := Some(Failure));
    } else {
      EnterLast(trace', Executed(f.call), world, PARALLEL);
      trace' := trace' + [Executed(f.call)];
      f' := f.(outcome := Some(world.result(f.call)));
    }
  }

  /** The first poll of one of the futures in flight, the others left as they are. */
  method PollAt(at: nat, trace: seq<Deed>, checks: nat, futures: seq<Future>, world: World)
    returns (trace': seq<Deed>, checks': nat, futures': seq<Future>)
    requires at < |futures| && Flying(trace, checks, futures, world)
    ensures Flying(trace', checks', futures', world) && SettledBy(trace', world) == SettledBy(trace, world)
    ensures CallsIn(futures') == CallsIn(futures) && futures'[at].outcome.Some?
  {
    hide Enters;
    var polled;
    trace', checks', polled := PollOnce(futures[at], trace, checks, world);
    futures' := futures[at := polled];
    assert futures[at].call.id in IdsOf(CallsIn(futures)) by { assert CallsIn(futures)[at] == futures[at].call; }
    OthersStay(Enters(trace, world, PARALLEL).value, Enters(trace', world, PARALLEL).value, futures, at, polled, world);
  }

  lemma OthersStay(b: Book, b': Book, futures: seq<Future>, at: nat, polled: Future, world: World)
    requires AllInHand(b, futures, world) && at < |futures|
    requires polled.call == futures[at].call && InHand(b', polled, world)
    requires b'.settled == b.settled && b'.begun == b.begun && (b.cancelled ==> b'.cancelled)
    requires b.executed <= b'.executed <= b.executed + {polled.call.id}
    ensures AllInHand(b', futures[at := polled], world) && CallsIn(futures[at := polled]) == CallsIn(futures)
  {
    assert CallsIn(futures[at := polled]) == CallsIn(futures);
    forall i | 0 <= i < |futures| && i != at
      ensures InHand(b', futures[i], world)
    {
      assert CallsIn(futures)[i].id != CallsIn(futures)[at].id;
      assert InHand(b, futures[i], world);
    }
  }

  ghost function SettledBy(trace: seq<Deed>, world: World): set<string> {
    var b := Enters(trace, world, PARALLEL);
    if b.Some? then b.value.settled else {}
  }

  /** The calls admitted so far. */
  ghost function Taken(trace: seq<Deed>, futures: seq<Future>, world: World): set<string> {
    SettledBy(trace, world) + IdsOf(CallsIn(futures))
  }

  ghost predicate Flying(trace: seq<Deed>, checks: nat, futures: seq<Future>, world: World) {
    && Enters(trace, world, PARALLEL).Some?
    && var b := Enters(trace, world, PARALLEL).value;
       AllInHand(b, futures, world) && (b.cancelled <==> checks > world.cancelAt)
       && b.executed <= b.settled + IdsOf(CallsIn(futures))
  }

  /** The outcome of an ended future is recorded. */
  method SettleAt(at: nat, trace: seq<Deed>, ghost checks: nat, futures: seq<Future>, world: World)
    returns (trace': seq<Deed>, futures': seq<Future>)
    requires at < |futures| && futures[at].outcome.Some? && Flying(trace, checks, futures, world)
    ensures Flying(trace', checks, futures', world) && |futures'| == |futures| - 1
    ensures SettledBy(trace', world) == SettledBy(trace, world) + {futures[at].call.id}
    ensures IdsOf(CallsIn(futures')) == IdsOf(CallsIn(futures)) - {futures[at].call.id}
  {
    hide Enters;
    var f := futures[at];
    assert InHand(Enters(trace, world, PARALLEL).value, f, world);
    EnterLast(trace, Settled(f.call, f.outcome.value), world, PARALLEL);
    trace' := trace + [Settled(f.call, f.outcome.value)];
    futures' := futures[..at] + futures[at + 1..];
    TakeOut(futures, at);
    OthersFly(Enters(trace, world, PARALLEL).value, Enters(trace', world, PARALLEL).value, futures, at, world);
  }

  lemma OthersFly(b: Book, b': Book, futures: seq<Future>, at: nat, world: World)
    requires AllInHand(b, futures, world) && at < |futures|
    requires b'.settled == b.settled + {futures[at].call.id} && b'.begun == b.begun && b'.executed == b.executed
    requires b'.cancelled == b.cancelled
    ensures AllInHand(b', futures[..at] + futures[at + 1..], world)
  {
    TakeOut(futures, at);
    forall i | 0 <= i < |futures| && i != at
      ensures InHand(b', futures[i], world)
    {
      assert CallsIn(futures)[i].id != CallsIn(futures)[at].id;
      assert InHand(b, futures[i], world);
    }
  }

  /** Admits waiting calls while there is room. */
  method AdmitMore(calls: seq<ToolCall>, start: nat, trace: seq<Deed>, checks: nat, futures: seq<Future>, world: World)
    returns (next: nat, trace': seq<Deed>, checks': nat, futures': seq<Future>)
    requires DistinctIds(calls) && start <= |calls| && Flying(trace, checks, futures, world)
    requires |futures| <= MAX_PARALLEL_TOOLS && Taken(trace, futures, world) == IdsOf(calls[..start])
    ensures next <= |calls| && Flying(trace', checks', futures', world)
    ensures |futures'| <= MAX_PARALLEL_TOOLS && Taken(trace', futures', world) == IdsOf(calls[..next])
    ensures |futures'| - next == |futures| - start && (futures' == [] ==> next == |calls|)
  {
    next, trace', checks', futures' := start, trace, checks, futures;
    while |futures'| < MAX_PARALLEL_TOOLS && next < |calls|
      invariant next <= |calls| && Flying(trace', checks', futures', world)
      invariant |futures'| <= MAX_PARALLEL_TOOLS && Taken(trace', futures', world) == IdsOf(calls[..next])
      invariant |futures'| - next == |futures| - start
    {
      hide Enters, IdsOf, CallsIn, AllInHand, DistinctIds;
      NextId(calls, next);
      trace', checks', futures' := Admit(calls[next], trace', checks', futures', world);
      next := next + 1;
    }
  }

  /** Waits for one of the futures to end, and records its outcome; the scheduler moves as it likes. */
  method AwaitOne(moves: seq<Move>, trace: seq<Deed>, checks: nat, futures: seq<Future>, world: World)
    returns (rest: seq<Move>, trace': seq<Deed>, checks': nat, futures': seq<Future>)
    requires futures != [] && Flying(trace, checks, futures, world)
    ensures Flying(trace', checks', futures', world) && |futures'| == |futures| - 1
    ensures Taken(trace', futures', world) == Taken(trace, futures, world)
  {
    hide Enters, IdsOf, Flying;
    rest, trace', checks', futures' := moves, trace, checks, futures;
    while rest != [] && rest[0].Poll?
      invariant Flying(trace', checks', futures', world) && CallsIn(futures') == CallsIn(futures)
      invariant SettledBy(trace', world) == SettledBy(trace, world)
    {
      assert |CallsIn(futures')| == |CallsIn(futures)|;
      trace', checks', futures' := PollAt(rest[0].at % |futures'|, trace', checks', futures', world);
      rest := rest[1..];
    }
    assert |CallsIn(futures')| == |CallsIn(futures)|;
    var at := 0;
    if rest != [] { at, rest := rest[0].at % |futures'|, rest[1..]; }
    trace', checks', futures' := PollAt(at, trace', checks', futures', world);
    assert |CallsIn(futures')| == |CallsIn(futures)|;
    IdInHand(futures', at);
    trace', futures' := SettleAt(at, trace', checks', futures', world);
  }

  lemma IdInHand(futures: seq<Future>, at: nat)
    requires at < |futures|
    ensures futures[at].call.id in IdsOf(CallsIn(futures))
  {
    assert CallsIn(futures)[at] == futures[at].call;
  }

  /** Every call is settled, at most eight in flight, within the rules, however the scheduler moves. */
  method ExecuteParallel(calls: seq<ToolCall>, world: World, moves: seq<Move>)
    returns (trace: seq<Deed>, checks: nat)
    requires DistinctIds(calls)
    ensures Enters(trace, world, PARALLEL).Some?
    ensures SettledIn(trace) == IdsOf(calls) && BegunIn(trace) <= SettledIn(trace)
    ensures SawCancel in trace <==> checks > world.cancelAt
  {
    hide Enters, AllInHand, InHand, IdsOf, SettledIn, BegunIn, ExecutedIn;
    trace, checks := [], 0;
    var futures: seq<Future>, next, rest := [], 0, moves;
    NoneFlying(world);
    assert calls[..0] == [] && calls[..|calls|] == calls;
    while true
      invariant next <= |calls| && Flying(trace, checks, futures, world)
      invariant |futures| <= MAX_PARALLEL_TOOLS && Taken(trace, futures, world) == IdsOf(calls[..next])
      decreases |calls| - next + |futures|
    {
      next, trace, checks, futures := AdmitMore(calls, next, trace, checks, futures, world);
      if futures == [] { break; }
      rest, trace, checks, futures := AwaitOne(rest, trace, checks, futures, world);
    }
    BookReads(trace, world, PARALLEL);
    AllLanded(Enters(trace, world, PARALLEL).value, world);
  }

  lemma AllLanded(b: Book, world: World)
    requires AllInHand(b, [], world)
    ensures b.begun <= b.settled
  {
  }

  lemma NoneFlying(world: World)
    ensures Flying([], 0, [], world) && SettledBy([], world) == {} && IdsOf(CallsIn([])) == {} == IdsOf([])
  {
    assert CallsIn([]) == [];
  }

  // ----- what the session holds after the deeds -----

  /** The session's transactions for the deeds, in order. */
  function Record(d: Db, trace: seq<Deed>): Step {
    if trace == [] then Ok(d)
    else
      var before := Record(d, Front(trace));
      if before.Err? then before
      else
        match Last(trace)
        case Began(call) => MarkToolStarted(before.value, call)
        case Settled(call, outcome) => RecordToolOutcome(before.value, call, outcome)
        case _ => before
  }

  ghost predicate Running(d: Db, batch: seq<ToolExecution>) {
    d.state.ExecutingTools? && d.state.batch in d.batches && d.batches[d.state.batch] == batch && DistinctCalls(batch)
  }

  ghost predicate InBatch(ids: set<string>, batch: seq<ToolExecution>) {
    forall id <- ids :: exists i :: 0 <= i < |batch| && batch[i].call.id == id
  }

  /** The batch after the deeds: what began is marked so, what settled has an outcome. */
  ghost predicate Marked(was: seq<ToolExecution>, now: seq<ToolExecution>, trace: seq<Deed>) {
    && SameCalls(was, now)
    && forall i :: 0 <= i < |was| ==>
         && (now[i].started <==> was[i].started || was[i].call.id in BegunIn(trace))
         && (now[i].outcome.Some? <==> was[i].outcome.Some? || was[i].call.id in SettledIn(trace))
  }

  lemma SameCallsDistinct(xs: seq<ToolExecution>, ys: seq<ToolExecution>, ids: set<string>)
    requires SameCalls(xs, ys) && DistinctCalls(xs) && InBatch(ids, xs)
    ensures DistinctCalls(ys) && InBatch(ids, ys)
  {
    forall id | id in ids
      ensures exists i :: 0 <= i < |ys| && ys[i].call.id == id
    {
      var i :| 0 <= i < |xs| && xs[i].call.id == id;
      assert ys[i].call.id == id;
    }
  }

  lemma MarkOne(
    was: seq<ToolExecution>, now: seq<ToolExecution>, after: seq<ToolExecution>, at: nat, trace: seq<Deed>, e: Deed)
    requires Marked(was, now, trace) && DistinctCalls(was)
    requires at < |now| && (e.Began? || e.Settled?) && now[at].call.id == e.call.id
    requires after == now[at := if e.Began? then now[at].(started := true) else now[at].(outcome := Some(e.outcome))]
    ensures Marked(was, after, trace + [e])
  {
    hide BegunIn, SettledIn, ExecutedIn, UnknownIn, YieldedIn, CancelledIn;
    OneMore(trace, e);
    forall i | 0 <= i < |was| && i != at
      ensures was[i].call.id != e.call.id
    {
      assert was[at].call.id == e.call.id;
    }
  }

  lemma RecordOne(d: Db, batch: seq<ToolExecution>, trace: seq<Deed>, e: Deed)
    requires d.state.ExecutingTools? && d.state.batch in d.batches && DistinctCalls(batch)
    requires Marked(batch, d.batches[d.state.batch], trace) && (e.Began? || e.Settled?) && InBatch({e.call.id}, batch)
    ensures var r := if e.Began? then MarkToolStarted(d, e.call) else RecordToolOutcome(d, e.call, e.outcome);
            && r.Ok? && r.value.state == d.state && d.state.batch in r.value.batches
            && Marked(batch, r.value.batches[d.state.batch], trace + [e])
  {
    var now := d.batches[d.state.batch];
    UnpackMarked(batch, now, trace);
    hide Marked, SameCalls;
    SameCallsDistinct(batch, now, {e.call.id});
    var i :| 0 <= i < |now| && now[i].call.id == e.call.id;
    var r := if e.Began? then MarkToolStarted(d, e.call) else RecordToolOutcome(d, e.call, e.outcome);
    MarkOne(batch, now, r.value.batches[d.state.batch], FindCall(now, e.call.id).value, trace, e);
  }

  /** The session takes every deed of its own batch. */
  lemma {:induction false} RecordMarks(d: Db, batch: seq<ToolExecution>, trace: seq<Deed>)
    requires Running(d, batch) && InBatch(BegunIn(trace) + SettledIn(trace), batch)
    ensures Record(d, trace).Ok? && Record(d, trace).value.state == d.state
    ensures var r := Record(d, trace).value;
            d.state.batch in r.batches && Marked(batch, r.batches[d.state.batch], trace)
    decreases |trace|
  {
    if trace == [] {
      assert BegunIn([]) == {} && SettledIn([]) == {};
    } else {
      hide Marked, SameCalls;
      var front, e := Front(trace), Last(trace);
      assert trace == front + [e];
      OneMore(front, e);
      RecordMarks(d, batch, front);
      if e.Began? || e.Settled? {
        RecordOne(Record(d, front).value, batch, front, e);
      } else {
        MarkNone(batch, Record(d, front).value.batches[d.state.batch], front, e);
      }
    }
  }

  lemma UnpackMarked(was: seq<ToolExecution>, now: seq<ToolExecution>, trace: seq<Deed>)
    requires Marked(was, now, trace)
    ensures SameCalls(was, now)
  {
  }

  lemma MarkNone(was: seq<ToolExecution>, now: seq<ToolExecution>, trace: seq<Deed>, e: Deed)
    requires Marked(was, now, trace) && !e.Began? && !e.Settled?
    ensures Marked(was, now, trace + [e])
  {
    OneMore(trace, e);
  }

  lemma {:induction false} PendingAreCalls(batch: seq<ToolExecution>)
    ensures InBatch(IdsOf(PendingCalls(batch)), batch)
    ensures forall i :: 0 <= i < |batch| && batch[i].outcome.None? ==> batch[i].call.id in IdsOf(PendingCalls(batch))
    decreases |batch|
  {
    if batch != [] {
      PendingAreCalls(Front(batch));
      var before := PendingCalls(Front(batch));
      forall id | id in IdsOf(PendingCalls(batch))
        ensures exists i :: 0 <= i < |batch| && batch[i].call.id == id
      {
        if id in IdsOf(before) {
          var i :| 0 <= i < |Front(batch)| && Front(batch)[i].call.id == id;
          assert batch[i].call.id == id;
        } else {
          assert batch[|batch| - 1].call.id == id;
        }
      }
      if Last(batch).outcome.None? { assert PendingCalls(batch) == before + [Last(batch).call]; }
    }
  }

  /** A batch whose pending calls were executed, either way, is settled in the session: no transaction
      failed, and its turn can be completed. */
  lemma ExecutedBatchCompletes(d: Db, batch: seq<ToolExecution>, trace: seq<Deed>)
    requires Running(d, batch)
    requires SettledIn(trace) == IdsOf(PendingCalls(batch)) && BegunIn(trace) <= SettledIn(trace)
    ensures Record(d, trace).Ok? && CompleteTools(Record(d, trace).value).Ok?
  {
    hide BegunIn, SettledIn, IdsOf, PendingCalls, Record;
    PendingAreCalls(batch);
    assert BegunIn(trace) + SettledIn(trace) == IdsOf(PendingCalls(batch));
    RecordMarks(d, batch, trace);
  }

  /** A crash after any of the deeds: recovery never calls a tool whose body ran "cancelled", and calls a
      tool that never started just that. */
  lemma CrashIsHonest(d: Db, batch: seq<ToolExecution>, trace: seq<Deed>, world: World, rules: Rules, i: nat)
    requires Running(d, batch) && InBatch(BegunIn(trace) + SettledIn(trace), batch)
    requires Enters(trace, world, rules).Some? && i < |batch| && batch[i].outcome.None?
    ensures Record(d, trace).Ok? && d.state.batch in Record(d, trace).value.batches
    ensures var now := CancelUnfinished(Record(d, trace).value.batches[d.state.batch]);
            var id := batch[i].call.id;
            && |now| == |batch|
            && (id in ExecutedIn(trace) && id !in SettledIn(trace) ==> now[i].outcome == Some(Unknown))
            && (!batch[i].started && id !in BegunIn(trace) && id !in SettledIn(trace) ==>
                  now[i].outcome == Some(Cancelled))
  {
    hide Enters, Record;
    RecordMarks(d, batch, trace);
    ExecutedWereBegun(trace, world, rules);
  }

  lemma {:induction false} ExecutedWereBegun(trace: seq<Deed>, world: World, rules: Rules)
    requires Enters(trace, world, rules).Some?
    ensures ExecutedIn(trace) <= BegunIn(trace)
    decreases |trace|
  {
    if trace != [] {
      ExecutedWereBegun(Front(trace), world, rules);
      BookReads(Front(trace), world, rules);
      hide BegunIn, ExecutedIn, SettledIn, UnknownIn, YieldedIn, CancelledIn, Excused, Halted;
      assert trace == Front(trace) + [Last(trace)];
      OneMore(Front(trace), Last(trace));
    }
  }
}
