/** A body that ends by itself before the reply does, with no token held: the stream is over, and the
    caller has less than the reply (`src/client/stream.rs:140-148`). */
module EarlyEnd {
  import opened Prelude
  import opened Usages
  import opened StreamModel
  import opened Recovering

  function Echo(s: nat, r: Record): Result<(nat, seq<WireEvent>), Error> {
    Ok((s, [Delta(r.data)]))
  }

  function EndOnly(s: nat): Result<seq<WireEvent>, Error> {
    Ok([Stop("end")])
  }

  function Unmarked(r: Record): Result<Inspected, Error> {
    Ok(Inspected(r, None, false))
  }

  /** A decoder that hands on what it reads, records without tokens, and a service that resumes nothing. */
  function Plain(): Setup<nat> {
    Setup(Wire(0, Echo, EndOnly, true, Unmarked, (e: Error) => true),
          (k: nat, token: string) => Refused(EXHAUSTED), (hops: nat, failures: nat, e: Option<Error>) => 0)
  }

  lemma PlainIsHonest(first: Body, recoverable: Option<nat>, source: Source)
    requires first.broken.None? && source.full == first.records
    ensures Disciplined(Plain().wire, recoverable.Some?) && Honest(Plain(), source)
    ensures HonestBody(Plain().wire, recoverable.Some?, false, first, source.full)
    ensures Exact(Plain(), Open(Plain(), first, recoverable)) && Linked(Open(Plain(), first, recoverable))
  {
    assert Disciplined(Plain().wire, recoverable.Some?);
    OpenIsExact(Plain(), first, recoverable);
  }

  lemma ReadsOne(f: Flow<nat>, r: Record)
    requires f.records == Some(Body([r], None)) && !f.done && Token(f.recovery).None?
    requires f.recovery.Some? ==> f.recovery.value.waiting.None? && !f.recovery.value.continuation
    ensures var g := Step(Plain(), f);
            && g.Ok? && !g.value.done && g.value.records == Some(Body([], None)) && Token(g.value.recovery).None?
            && (g.value.recovery.Some? ==>
                  g.value.recovery.value.waiting.None? && !g.value.recovery.value.continuation)
  {
    assert [r][1..] == [];
  }

  lemma TakesEnd(f: Flow<nat>)
    requires f.records == Some(Body([], None)) && !f.done && Token(f.recovery).None?
    requires f.recovery.Some? ==> f.recovery.value.waiting.None? && !f.recovery.value.continuation
    ensures Step(Plain(), f).Ok? && Step(Plain(), f).value.done
  {
  }

  lemma ContentOfOne(e: WireEvent)
    requires !e.Metered?
    ensures Content([e]) == [e]
  {
    assert Content([e][1..]) == [];
  }

  lemma EchoReads(rs: seq<Record>, recoverable: bool)
    ensures ReadThrough(Plain().wire, recoverable, 0, []) == Ok([Stop("end")])
    ensures rs != [] && ReadThrough(Plain().wire, recoverable, 0, rs[1..]).Ok? ==>
              ReadThrough(Plain().wire, recoverable, 0, rs)
              == Ok([Delta(rs[0].data)] + ReadThrough(Plain().wire, recoverable, 0, rs[1..]).value)
  {
    ContentOfOne(Stop("end"));
    if rs != [] {
      ContentOfOne(Delta(rs[0].data));
      assert Advance(Plain().wire, recoverable, 0, rs[0]) == Ok((0, [Delta(rs[0].data)]));
    }
  }

  lemma ShorterReads(a: Record, b: Record, recoverable: bool)
    ensures ReadThrough(Plain().wire, recoverable, 0, [a]) == Ok([Delta(a.data), Stop("end")])
    ensures ReadThrough(Plain().wire, recoverable, 0, [a, b]) == Ok([Delta(a.data), Delta(b.data), Stop("end")])
  {
    hide ReadThrough;
    assert [a][1..] == [] && [a, b][1..] == [b] && [b][1..] == [];
    EchoReads([a], recoverable);
    EchoReads([b], recoverable);
    EchoReads([a, b], recoverable);
    var end := [Stop("end")];
    assert [Delta(a.data)] + end == [Delta(a.data), Stop("end")];
    assert [Delta(a.data)] + ([Delta(b.data)] + end) == [Delta(a.data), Delta(b.data), Stop("end")];
  }

  /** Of a reply of two records the body brings one and ends: recoverable or not, the stream is over then,
      without an error, and what the caller holds is not the output of the reply. */
  lemma EarlyEndIsTaken(a: Record, b: Record, recoverable: Option<nat>)
    ensures var c, first := Plain(), Body([a], None);
            && Exact(c, Open(c, first, recoverable)) && Linked(Open(c, first, recoverable))
            && var run := Run(c, Open(c, first, recoverable), 2);
            && run.Ok? && run.value.done && run.value.Held().Ok?
            && ReadThrough(c.wire, recoverable.Some?, 0, [a]) == Ok(run.value.Held().value.content)
            && ReadThrough(c.wire, recoverable.Some?, 0, [a, b]) != Ok(run.value.Held().value.content)
  {
    var c, first, source := Plain(), Body([a], None), Source([a], (token: string) => 0);
    PlainIsHonest(first, recoverable, source);
    var start := Open(c, first, recoverable);
    ReadsOne(start, a);
    TakesEnd(Step(c, start).value);
    hide Exact, Linked, Step, Honest, HonestBody, ReadThrough;
    assert Run(c, start, 1) == Step(c, start);
    assert Run(c, start, 2).Ok? && Run(c, start, 2).value.done;
    RecoveredRunIsExact(c, first, recoverable, source, 2);
    ShorterReads(a, b, recoverable.Some?);
  }
}
