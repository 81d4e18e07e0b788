/** The quota of attachments uploaded before a session exists (`src/application/draft_uploads.rs`).

    Uploads are admitted one at a time under the inventory's lock and then write without it; an upload
    given up, at any time and without the lock, marks the inventory for a rescan. An admission takes the
    lock and checks that mark, asks whether the id is a session by now, and only then sums up, so other
    uploads write and are given up between its two halves: these are two steps here. */
module Drafts {
  import opened Prelude

  const MAX_DRAFTS: nat := 128
  const MAX_BYTES: nat := 4 * 1024 * 1024 * 1024
  const DESCRIPTOR_BYTES: nat := 64 * 1024
  const MAX_UPLOAD_BYTES: nat := 1024 * 1024 * 1024
  const U64_MAX: nat := 0xffff_ffff_ffff_ffff

  datatype Reserved = Reserved(amount: nat, active: bool)

  /** One draft id: the bytes of its directory, what the inventory has of it, and, while an upload runs,
      the bytes the directory had when it was admitted. */
  datatype Draft = Draft(disk: Option<nat>, size: Option<nat>, reserved: Option<Reserved>, base: Option<nat>)

  const NO_DRAFT := Draft(None, None, None, None)

  /** Every id of a run, by number. `admitting` is the id whose admission holds the lock. */
  datatype State = State(drafts: seq<Draft>, dirty: bool, loaded: bool, admitting: Option<nat>)

  // ----- sums over the drafts -----

  function Sum(ds: seq<Draft>, f: Draft -> nat): nat {
    if ds == [] then 0 else Sum(Front(ds), f) + f(Last(ds))
  }

  /** What the directory holds, or what a running upload may make of it. */
  function Worst(d: Draft): nat {
    if d.base.Some? && d.reserved.Some? then d.base.value + d.reserved.value.amount else d.disk.GetOr(0)
  }

  function OnDisk(d: Draft): nat {
    d.disk.GetOr(0)
  }

  function SizeOf(d: Draft): nat {
    d.size.GetOr(0)
  }

  function ActiveOf(d: Draft): nat {
    if d.reserved.Some? && d.reserved.value.active then d.reserved.value.amount else 0
  }

  function Accounted(d: Draft): nat {
    SizeOf(d) + ActiveOf(d)
  }

  function Listed(d: Draft): nat {
    if d.size.Some? then 1 else 0
  }

  function Held(d: Draft): nat {
    if d.disk.Some? || d.base.Some? then 1 else 0
  }

  lemma {:induction false} SumUpdate(ds: seq<Draft>, f: Draft -> nat, i: nat, d: Draft)
    requires i < |ds|
    ensures Sum(ds[i := d], f) == Sum(ds, f) - f(ds[i]) + f(d)
    decreases |ds|
  {
    var after := ds[i := d];
    if i == |ds| - 1 {
      assert Front(after) == Front(ds);
    } else {
      assert Front(after) == Front(ds)[i := d];
      SumUpdate(Front(ds), f, i, d);
    }
  }

  lemma {:induction false} SumAtMost(ds: seq<Draft>, es: seq<Draft>, f: Draft -> nat, g: Draft -> nat)
    requires |ds| == |es| && forall i :: 0 <= i < |ds| ==> f(ds[i]) <= g(es[i])
    ensures Sum(ds, f) <= Sum(es, g)
    decreases |ds|
  {
    if ds != [] {
      forall i | 0 <= i < |Front(ds)| ensures f(Front(ds)[i]) <= g(Front(es)[i]) {
        assert f(ds[i]) <= g(es[i]);
      }
      SumAtMost(Front(ds), Front(es), f, g);
    }
  }

  lemma {:induction false} AccountedSplits(ds: seq<Draft>)
    ensures Sum(ds, Accounted) == Sum(ds, SizeOf) + Sum(ds, ActiveOf)
    decreases |ds|
  {
    if ds != [] { AccountedSplits(Front(ds)); }
  }

  // ----- the steps -----

  predicate IsActive(d: Draft) {
    d.reserved.Some? && d.reserved.value.active
  }

  /** A rescan keeps what a running upload has, drops given-up reservations, removes an expired
      directory and measures every other. */
  function Scanned(d: Draft, expired: bool): Draft {
    if IsActive(d) then d
    else if expired || d.disk.None? then NO_DRAFT
    else Draft(d.disk, d.disk, None, None)
  }

  /** A rescan that failed before it came to this directory. */
  function Unscanned(d: Draft): Draft {
    if IsActive(d) then d else Draft(d.disk, None, None, None)
  }

  function ScanAll(ds: seq<Draft>, expired: set<nat>): seq<Draft> {
    seq(|ds|, i requires 0 <= i < |ds| => Scanned(ds[i], i in expired))
  }

  function ScanSome(ds: seq<Draft>, expired: set<nat>, seen: set<nat>): seq<Draft> {
    seq(|ds|, i requires 0 <= i < |ds| => if i in seen then Scanned(ds[i], i in expired) else Unscanned(ds[i]))
  }

  function Rescanned(s: State, expired: set<nat>): State {
    s.(drafts := ScanAll(s.drafts, expired), dirty := false, loaded := true)
  }

  function Saturated(n: nat): nat {
    if n > U64_MAX then U64_MAX else n
  }

  /** The bytes an admission counts. */
  function Tally(ds: seq<Draft>): nat {
    Saturated(Saturated(Sum(ds, SizeOf)) + Sum(ds, ActiveOf))
  }

  function Others(ds: seq<Draft>, id: nat): int
    requires id < |ds|
  {
    Sum(ds, Listed) - Listed(ds[id])
  }

  predicate Admissible(ds: seq<Draft>, id: nat)
    requires id < |ds|
  {
    Others(ds, id) < MAX_DRAFTS && Tally(ds) + DESCRIPTOR_BYTES < MAX_BYTES
  }

  function Allowance(bytes: nat): nat
    requires bytes + DESCRIPTOR_BYTES < MAX_BYTES
  {
    if MAX_BYTES - bytes - DESCRIPTOR_BYTES < MAX_UPLOAD_BYTES then MAX_BYTES - bytes - DESCRIPTOR_BYTES
    else MAX_UPLOAD_BYTES
  }

  function Admitted(d: Draft, amount: nat): Draft {
    Draft(d.disk, Some(SizeOf(d)), Some(Reserved(amount, true)), Some(OnDisk(d)))
  }

  function Reserve(s: State, id: nat): State
    requires id < |s.drafts|
  {
    if Admissible(s.drafts, id) then
      var amount := Allowance(Tally(s.drafts)) + DESCRIPTOR_BYTES;
      s.(drafts := s.drafts[id := Admitted(s.drafts[id], amount)], admitting := None)
    else s.(admitting := None)
  }

  datatype Step =
    | Check(id: nat, expired: set<nat>)
    | Decide
    | Withdraw
    | Write(id: nat, bytes: nat)
    | Complete(id: nat)
    | GiveUp(id: nat)
    | Rescan(expired: set<nat>)
    | FailScan(expired: set<nat>, seen: set<nat>)
    | Adopt(id: nat)
    | Restart

  /** Whether the locks and the uploads under way allow the step. The uploads of one id follow each
      other, and an upload writes at most what it reserved. */
  predicate Enabled(s: State, step: Step) {
    match step
    case Check(id, _) => s.admitting.None? && id < |s.drafts| && s.drafts[id].base.None?
    case Decide => s.admitting.Some? && s.admitting.value < |s.drafts|
    case Withdraw => s.admitting.Some?
    case Write(id, bytes) =>
      && id < |s.drafts| && s.drafts[id].base.Some? && s.drafts[id].reserved.Some?
      && OnDisk(s.drafts[id]) + bytes <= s.drafts[id].base.value + s.drafts[id].reserved.value.amount
    case Complete(id) =>
      s.admitting.None? && id < |s.drafts| && s.drafts[id].base.Some? && s.drafts[id].disk.Some?
    case GiveUp(id) => id < |s.drafts| && s.drafts[id].base.Some? && s.drafts[id].reserved.Some?
    case Adopt(id) => s.admitting.None? && id < |s.drafts| && s.drafts[id].base.None?
    case Rescan(_) => s.admitting.None?
    case FailScan(_, _) => s.admitting.None?
    case Restart => true
  }

  /** `GiveUp` is the drop of a reservation: its mark and its release are one step. */
  function Next(s: State, step: Step): State
    requires Enabled(s, step)
  {
    match step
    case Check(id, expired) =>
      var scanned := if s.dirty || !s.loaded then Rescanned(s, expired - {id}) else s;
      scanned.(admitting := Some(id))
    case Decide => Reserve(s, s.admitting.value)
    case Withdraw => s.(admitting := None)
    case Write(id, bytes) =>
      var d := s.drafts[id];
      s.(drafts := s.drafts[id := d.(disk := Some(OnDisk(d) + bytes))])
    case Complete(id) =>
      var d := s.drafts[id];
      s.(drafts := s.drafts[id := Draft(d.disk, d.disk, None, None)])
    case GiveUp(id) =>
      var d := s.drafts[id];
      var released := d.(reserved := Some(d.reserved.value.(active := false)), base := None);
      s.(drafts := s.drafts[id := released], dirty := true)
    case Rescan(expired) => Rescanned(s, expired)
    case FailScan(expired, seen) =>
      s.(drafts := ScanSome(s.drafts, expired, seen), dirty := false, loaded := false)
    case Adopt(id) => s.(drafts := s.drafts[id := s.drafts[id].(disk := None, size := None)])
    case Restart =>
      State(seq(|s.drafts|, i requires 0 <= i < |s.drafts| => Draft(s.drafts[i].disk, None, None, None)),
            false, false, None)
  }

  // ----- what the inventory knows -----

  predicate SoundDraft(d: Draft) {
    && (d.base.Some? <==> IsActive(d))
    && (d.base.Some? ==>
          && OnDisk(d) <= d.base.value + d.reserved.value.amount
          && d.size.Some? && d.base.value <= d.size.value)
  }

  /** Loaded, the inventory lists every directory, and its size where no upload was given up. */
  predicate KnownDraft(d: Draft) {
    && (d.disk.Some? ==> d.size.Some?)
    && (d.reserved.None? ==> OnDisk(d) <= SizeOf(d))
  }

  predicate GivenUp(d: Draft) {
    d.reserved.Some? && !d.reserved.value.active
  }

  predicate Sound(s: State) {
    && (forall i :: 0 <= i < |s.drafts| ==> SoundDraft(s.drafts[i]))
    && (s.loaded ==> forall i :: 0 <= i < |s.drafts| ==> KnownDraft(s.drafts[i]))
    && (forall i :: 0 <= i < |s.drafts| && GivenUp(s.drafts[i]) ==> s.dirty)
    && (s.admitting.Some? ==>
          s.loaded && s.admitting.value < |s.drafts|
          && s.drafts[s.admitting.value].reserved.None?)
  }

  lemma ReserveKeepsSound(s: State)
    requires Sound(s) && s.admitting.Some?
    ensures Sound(Reserve(s, s.admitting.value))
  {
    hide Sum;
    var id := s.admitting.value;
    if Admissible(s.drafts, id) {
      var d := Admitted(s.drafts[id], Allowance(Tally(s.drafts)) + DESCRIPTOR_BYTES);
      assert SoundDraft(d) && KnownDraft(d) && !GivenUp(d) by { assert KnownDraft(s.drafts[id]); }
    }
  }

  lemma ScanKeepsSound(s: State, expired: set<nat>, seen: set<nat>)
    requires Sound(s) && s.admitting.None?
    ensures Sound(Rescanned(s, expired)) && |Rescanned(s, expired).drafts| == |s.drafts|
    ensures forall i :: 0 <= i < |s.drafts| && s.drafts[i].base.None? ==> Rescanned(s, expired).drafts[i].reserved.None?
    ensures Sound(s.(drafts := ScanSome(s.drafts, expired, seen), dirty := false, loaded := false))
  {
  }

  lemma NextKeepsSound(s: State, step: Step)
    requires Sound(s) && Enabled(s, step)
    ensures Sound(Next(s, step))
  {
    hide Sum, Reserve, ScanAll, ScanSome;
    match step
    case Decide => ReserveKeepsSound(s);
    case Check(id, expired) => ScanKeepsSound(s, expired - {id}, {});
    case Rescan(expired) => ScanKeepsSound(s, expired, {});
    case FailScan(expired, seen) => ScanKeepsSound(s, expired, seen);
    case _ =>
  }

  // ----- the number of drafts -----

  predicate CountOk(s: State) {
    Sum(s.drafts, Held) <= MAX_DRAFTS && Sum(s.drafts, Listed) <= MAX_DRAFTS
  }

  /** No interleaving makes the drafts on disk or in the inventory more than 128. */
  lemma NextKeepsCount(s: State, step: Step)
    requires Sound(s) && CountOk(s) && Enabled(s, step)
    ensures CountOk(Next(s, step))
  {
    hide Sum;
    var t := Next(s, step);
    match step
    case Decide =>
      var id := s.admitting.value;
      if Admissible(s.drafts, id) {
        SumUpdate(s.drafts, Listed, id, t.drafts[id]);
        forall i | 0 <= i < |t.drafts| ensures Held(t.drafts[i]) <= Listed(t.drafts[i]) {
          assert KnownDraft(s.drafts[i]) && SoundDraft(s.drafts[i]);
        }
        SumAtMost(t.drafts, t.drafts, Held, Listed);
      }
    case Check(_, _) => CountAfterScan(s, t);
    case Rescan(_) => CountAfterScan(s, t);
    case FailScan(_, _) => CountAfterScan(s, t);
    case Restart => CountAfterScan(s, t);
    case Withdraw =>
    case Write(id, _) => CountAfterUpdate(s, t, id);
    case Complete(id) => CountAfterUpdate(s, t, id);
    case GiveUp(id) => CountAfterUpdate(s, t, id);
    case Adopt(id) => CountAfterUpdate(s, t, id);
  }

  lemma CountAfterUpdate(s: State, t: State, id: nat)
    requires CountOk(s) && id < |s.drafts| == |t.drafts| && t.drafts == s.drafts[id := t.drafts[id]]
    requires Held(t.drafts[id]) <= Held(s.drafts[id]) && Listed(t.drafts[id]) <= Listed(s.drafts[id])
    ensures CountOk(t)
  {
    SumUpdate(s.drafts, Held, id, t.drafts[id]);
    SumUpdate(s.drafts, Listed, id, t.drafts[id]);
  }

  lemma CountAfterScan(s: State, t: State)
    requires CountOk(s) && |t.drafts| == |s.drafts|
    requires forall i :: 0 <= i < |s.drafts| ==> Held(t.drafts[i]) <= Held(s.drafts[i])
    requires (forall i :: 0 <= i < |s.drafts| ==> Listed(t.drafts[i]) <= Held(s.drafts[i])) || t.drafts == s.drafts
    ensures CountOk(t)
  {
    SumAtMost(t.drafts, s.drafts, Held, Held);
    if t.drafts != s.drafts { SumAtMost(t.drafts, s.drafts, Listed, Held); }
  }

  // ----- the bytes -----

  /** What is on disk, with every running upload taken at its worst. */
  function Load(s: State): nat {
    Sum(s.drafts, Worst)
  }

  lemma LoadOnDisk(s: State)
    requires Sound(s)
    ensures Sum(s.drafts, OnDisk) <= Load(s)
  {
    forall i | 0 <= i < |s.drafts| ensures OnDisk(s.drafts[i]) <= Worst(s.drafts[i]) {
      assert SoundDraft(s.drafts[i]);
    }
    SumAtMost(s.drafts, s.drafts, OnDisk, Worst);
  }

  lemma LoadAfterUpdate(s: State, t: State, id: nat)
    requires id < |s.drafts| == |t.drafts| && t.drafts == s.drafts[id := t.drafts[id]]
    ensures Load(t) == Load(s) - Worst(s.drafts[id]) + Worst(t.drafts[id])
  {
    SumUpdate(s.drafts, Worst, id, t.drafts[id]);
  }

  /** Only an admission adds to the load. */
  lemma NextKeepsLoad(s: State, step: Step)
    requires Sound(s) && Enabled(s, step) && !step.Decide?
    ensures Load(Next(s, step)) <= Load(s)
  {
    hide Sum;
    var t := Next(s, step);
    if step.Write? || step.Complete? || step.GiveUp? || step.Adopt? {
      LoadAfterUpdate(s, t, step.id);
    } else if !step.Withdraw? {
      forall i | 0 <= i < |s.drafts| ensures Worst(t.drafts[i]) <= Worst(s.drafts[i]) {
        assert SoundDraft(s.drafts[i]);
      }
      SumAtMost(t.drafts, s.drafts, Worst, Worst);
    }
  }

  /** An admission counts all of the load, or there is room for an upload of any size anyway. */
  predicate Covers(s: State) {
    Load(s) <= Tally(s.drafts) || Load(s) + MAX_UPLOAD_BYTES + DESCRIPTOR_BYTES <= MAX_BYTES
  }

  /** An admission keeps the load within the limit if and only if it covers. */
  lemma AdmissionKeepsLoadIff(s: State)
    requires Sound(s) && s.admitting.Some? && Admissible(s.drafts, s.admitting.value)
    ensures Load(Next(s, Decide)) <= MAX_BYTES <==> Covers(s)
  {
    hide Sum;
    var id := s.admitting.value;
    assert SoundDraft(s.drafts[id]);
    LoadAfterUpdate(s, Next(s, Decide), id);
  }

  /** The ids beside `id` the inventory lists. */
  ghost function ListedBeside(ds: seq<Draft>, id: nat): set<nat> {
    set i | 0 <= i < |ds| && i != id && ds[i].size.Some?
  }

  lemma {:induction false} ListedCount(ds: seq<Draft>, id: nat)
    ensures Sum(ds, Listed) == |ListedBeside(ds, id)| + if id < |ds| then Listed(ds[id]) else 0
    decreases |ds|
  {
    if ds != [] {
      var front, n := Front(ds), |ds| - 1;
      ListedCount(front, id);
      if n != id && ds[n].size.Some? {
        assert ListedBeside(ds, id) == ListedBeside(front, id) + {n};
      } else {
        assert ListedBeside(ds, id) == ListedBeside(front, id);
      }
    }
  }

  /** An upload is admitted if and only if fewer than 128 other ids are listed, whether or not its own is,
      and what is counted leaves room for its descriptor in 4 GiB; it may then bring what is left of the
      4 GiB, and not more than the limit for one upload, beside the descriptor. A refusal changes nothing
      but lets the next one in. */
  lemma GrantedIff(s: State)
    requires Enabled(s, Decide)
    ensures var id, counted, t := s.admitting.value, Tally(s.drafts), Next(s, Decide);
            var granted := |ListedBeside(s.drafts, id)| < 128 && counted + 64 * 1024 < 4 * GIB;
            && t.admitting.None? && t.dirty == s.dirty && t.loaded == s.loaded && |t.drafts| == |s.drafts|
            && (forall i :: 0 <= i < |s.drafts| && (i != id || !granted) ==> t.drafts[i] == s.drafts[i])
            && (granted ==>
                  && t.drafts[id].disk == s.drafts[id].disk && t.drafts[id].size == Some(s.drafts[id].size.GetOr(0))
                  && t.drafts[id].base == Some(s.drafts[id].disk.GetOr(0))
                  && t.drafts[id].reserved.Some? && t.drafts[id].reserved.value.active
                  && var allowed := t.drafts[id].reserved.value.amount - 64 * 1024;
                  && 0 < allowed <= MAX_UPLOAD_BYTES && counted + allowed + 64 * 1024 <= 4 * GIB
                  && (allowed == MAX_UPLOAD_BYTES || counted + allowed + 64 * 1024 == 4 * GIB))
  {
    hide Sum;
    ListedCount(s.drafts, s.admitting.value);
  }

  /** A completed upload counts with what is on disk and reserves nothing; one given up reserves nothing
      either, keeps the size it was admitted with and asks for a rescan; an admission that is withdrawn
      changes nothing but lets the next one in. */
  lemma EndsCount(s: State, id: nat)
    ensures Enabled(s, Complete(id)) ==>
              && Next(s, Complete(id)) == s.(drafts := Next(s, Complete(id)).drafts)
              && |Next(s, Complete(id)).drafts| == |s.drafts|
              && (forall i :: 0 <= i < |s.drafts| && i != id ==> Next(s, Complete(id)).drafts[i] == s.drafts[i])
              && var d := Next(s, Complete(id)).drafts[id];
              d.disk == d.size == s.drafts[id].disk && d.reserved.None? && d.base.None?
    ensures Enabled(s, GiveUp(id)) ==>
              && Next(s, GiveUp(id)).dirty && |Next(s, GiveUp(id)).drafts| == |s.drafts|
              && (forall i :: 0 <= i < |s.drafts| && i != id ==> Next(s, GiveUp(id)).drafts[i] == s.drafts[i])
              && var d := Next(s, GiveUp(id)).drafts[id];
              ActiveOf(d) == 0 && d.size == s.drafts[id].size && d.disk == s.drafts[id].disk && d.base.None?
    ensures Enabled(s, Withdraw) ==> Next(s, Withdraw) == s.(admitting := None)
  {
  }

  /** A rescan measures every directory in which nothing runs, but for those it removes as expired, and
      forgets what was given up. */
  lemma RescanMeasures(s: State, expired: set<nat>, i: nat)
    requires Enabled(s, Rescan(expired)) && i < |s.drafts|
    ensures var t, d := Next(s, Rescan(expired)), s.drafts[i];
            && !t.dirty && t.loaded && |t.drafts| == |s.drafts|
            && (ActiveOf(d) > 0 ==> t.drafts[i] == d)
            && (!(d.reserved.Some? && d.reserved.value.active) ==>
                  && t.drafts[i].reserved.None? && t.drafts[i].size == t.drafts[i].disk
                  && t.drafts[i].disk == if i in expired then None else d.disk)
  {
  }

  /** What is counted: the listed sizes and the running reservations, each sum held within 64 bits. */
  lemma {:induction false} CountedParts(ds: seq<Draft>, es: seq<Draft>, f: Draft -> nat)
    ensures Sum(ds + es, f) == Sum(ds, f) + Sum(es, f)
    ensures |es| == 1 ==> Sum(es, f) == f(es[0])
    decreases |es|
  {
    if |es| == 1 { assert Sum(Front(es), f) == 0; }
    if es == [] {
      assert ds + es == ds;
    } else {
      assert Front(ds + es) == ds + Front(es) && Last(ds + es) == Last(es);
      CountedParts(ds, Front(es), f);
    }
  }

  /** An admission that finds no upload given up since its check counts all of the load. */
  lemma CountsAll(s: State)
    requires Sound(s) && s.loaded && !s.dirty && Tally(s.drafts) < MAX_BYTES
    ensures Load(s) <= Tally(s.drafts)
  {
    hide Sum;
    forall i | 0 <= i < |s.drafts| ensures Worst(s.drafts[i]) <= Accounted(s.drafts[i]) {
      assert SoundDraft(s.drafts[i]) && KnownDraft(s.drafts[i]) && !GivenUp(s.drafts[i]);
    }
    SumAtMost(s.drafts, s.drafts, Worst, Accounted);
    AccountedSplits(s.drafts);
  }

  // ----- every run -----

  function Run(s: State, steps: seq<Step>): State {
    if steps == [] then s
    else
      var before := Run(s, Front(steps));
      if Enabled(before, Last(steps)) then Next(before, Last(steps)) else before
  }

  /** No upload is given up between the two halves of an admission. */
  predicate Undisturbed(s: State, steps: seq<Step>) {
    forall k :: 0 <= k < |steps| && steps[k].GiveUp? ==> Run(s, steps[..k]).admitting.None?
  }

  /** However admissions, writes, completions, rescans, adoptions, failures and restarts interleave, at
      most 128 drafts are kept. */
  lemma {:induction false} RunsKeepCount(s: State, steps: seq<Step>)
    requires Sound(s) && CountOk(s)
    ensures Sound(Run(s, steps)) && CountOk(Run(s, steps))
    decreases |steps|
  {
    hide Sound, CountOk, Enabled, Next;
    if steps != [] {
      RunsKeepCount(s, Front(steps));
      var before := Run(s, Front(steps));
      if Enabled(before, Last(steps)) {
        NextKeepsSound(before, Last(steps));
        NextKeepsCount(before, Last(steps));
      }
    }
  }

  predicate WithinQuota(s: State) {
    Sound(s) && Load(s) <= MAX_BYTES && (s.admitting.Some? ==> !s.dirty)
  }

  lemma NextKeepsQuota(s: State, step: Step)
    requires WithinQuota(s) && Enabled(s, step) && (step.GiveUp? ==> s.admitting.None?)
    ensures WithinQuota(Next(s, step))
  {
    hide Sum, Sound, Tally, Admissible;
    NextKeepsSound(s, step);
    if step.Decide? {
      if Admissible(s.drafts, s.admitting.value) {
        assert s.loaded && Tally(s.drafts) < MAX_BYTES by { Unpack(s); }
        CountsAll(s);
        AdmissionKeepsLoadIff(s);
      }
    } else {
      NextKeepsLoad(s, step);
    }
  }

  lemma Unpack(s: State)
    requires Sound(s) && s.admitting.Some?
    ensures s.loaded && s.admitting.value < |s.drafts|
    ensures Admissible(s.drafts, s.admitting.value) ==> Tally(s.drafts) < MAX_BYTES
  {
  }

  /** Undisturbed, drafts never exceed the limit of bytes on disk, over every interleaving. */
  lemma {:induction false} RunsKeepQuota(s: State, steps: seq<Step>)
    requires WithinQuota(s) && Undisturbed(s, steps)
    ensures WithinQuota(Run(s, steps)) && Sum(Run(s, steps).drafts, OnDisk) <= MAX_BYTES
    decreases |steps|
  {
    hide WithinQuota, Enabled, Next, Sum;
    if steps != [] {
      var front := Front(steps);
      forall k | 0 <= k < |front| && front[k].GiveUp? ensures Run(s, front[..k]).admitting.None? {
        assert front[..k] == steps[..k];
      }
      RunsKeepQuota(s, front);
      assert steps[..|steps| - 1] == front;
      if Enabled(Run(s, front), Last(steps)) { NextKeepsQuota(Run(s, front), Last(steps)); }
    }
    OnDiskWithin(Run(s, steps));
  }

  lemma OnDiskWithin(s: State)
    requires WithinQuota(s)
    ensures Sum(s.drafts, OnDisk) <= MAX_BYTES
  {
    LoadOnDisk(s);
  }

  // ----- exactly which runs -----

  predicate Reserves(s: State, step: Step) {
    step.Decide? && Enabled(s, step) && Admissible(s.drafts, s.admitting.value)
  }

  /** Every admission of the run that reserves covers. */
  predicate AllCover(s: State, steps: seq<Step>) {
    forall k :: 0 <= k < |steps| && Reserves(Run(s, steps[..k]), steps[k]) ==> Covers(Run(s, steps[..k]))
  }

  predicate AlwaysWithin(s: State, steps: seq<Step>) {
    forall k :: 0 <= k <= |steps| ==> Load(Run(s, steps[..k])) <= MAX_BYTES
  }

  lemma {:induction false} RunsKeepSound(s: State, steps: seq<Step>)
    requires Sound(s)
    ensures Sound(Run(s, steps))
    decreases |steps|
  {
    hide Sound, Enabled, Next;
    if steps != [] {
      RunsKeepSound(s, Front(steps));
      if Enabled(Run(s, Front(steps)), Last(steps)) { NextKeepsSound(Run(s, Front(steps)), Last(steps)); }
    }
  }

  lemma StepKeepsLoadIff(s: State, step: Step)
    requires Sound(s) && Enabled(s, step) && Load(s) <= MAX_BYTES
    ensures Load(Next(s, step)) <= MAX_BYTES <==> (Reserves(s, step) ==> Covers(s))
  {
    hide Sum, Load, Tally;
    if Reserves(s, step) {
      AdmissionKeepsLoadIff(s);
    } else if step.Decide? {
      assert Load(Next(s, step)) == Load(s) by { SameLoad(s, Next(s, step)); }
    } else {
      NextKeepsLoad(s, step);
    }
  }

  lemma SameLoad(s: State, t: State)
    requires t.drafts == s.drafts
    ensures Load(t) == Load(s)
  {
  }

  lemma LastStep(s: State, steps: seq<Step>)
    requires steps != []
    ensures var before := Run(s, Front(steps));
            && (AllCover(s, steps)
                <==> AllCover(s, Front(steps)) && (Reserves(before, Last(steps)) ==> Covers(before)))
            && (AlwaysWithin(s, steps) <==> AlwaysWithin(s, Front(steps)) && Load(Run(s, steps)) <= MAX_BYTES)
            && (AlwaysWithin(s, Front(steps)) ==> Load(before) <= MAX_BYTES)
  {
    hide Run, Load, Reserves, Covers;
    var front := Front(steps);
    assert steps[..|steps|] == steps && front[..|front|] == front && steps[..|front|] == front;
    assert forall k :: 0 <= k <= |front| ==> front[..k] == steps[..k];
    assert forall k :: 0 <= k < |front| ==> front[k] == steps[k];
    assert steps[|front|] == Last(steps);
  }

  /** Over every interleaving, disturbed or not: the load stays within the limit at every point if and only
      if every admission that reserved covered. */
  lemma {:induction false} RunsKeepLoadIff(s: State, steps: seq<Step>)
    requires Sound(s) && Load(s) <= MAX_BYTES
    ensures AlwaysWithin(s, steps) <==> AllCover(s, steps)
    decreases |steps|
  {
    if steps == [] {
      assert steps[..0] == steps;
    } else {
      var before := Run(s, Front(steps));
      RunsKeepLoadIff(s, Front(steps));
      RunsKeepSound(s, Front(steps));
      LastStep(s, steps);
      hide AllCover, AlwaysWithin, Sound, Next, Load, Covers;
      if Load(before) <= MAX_BYTES && Enabled(before, Last(steps)) { StepKeepsLoadIff(before, Last(steps)); }
    }
  }

  /** A draft whose upload has written all it reserved. */
  function Full(d: Draft): Draft {
    if IsActive(d) then d.(disk := Some(Worst(d))) else d
  }

  function FullUpTo(ds: seq<Draft>, n: nat): seq<Draft> {
    seq(|ds|, i requires 0 <= i < |ds| => if i < n then Full(ds[i]) else ds[i])
  }

  lemma FillsNext(s: State, t: State, n: nat)
    requires n < |s.drafts| && SoundDraft(s.drafts[n]) && IsActive(s.drafts[n])
    requires t == s.(drafts := FullUpTo(s.drafts, n))
    ensures var write := Write(n, Worst(s.drafts[n]) - OnDisk(s.drafts[n]));
            Enabled(t, write) && Next(t, write) == s.(drafts := FullUpTo(s.drafts, n + 1))
  {
    assert FullUpTo(s.drafts, n + 1) == FullUpTo(s.drafts, n)[n := Full(s.drafts[n])];
  }

  lemma NoneFills(s: State, n: nat)
    requires n == 0 || (n <= |s.drafts| && !IsActive(s.drafts[n - 1]))
    ensures n == 0 ==> s.(drafts := FullUpTo(s.drafts, 0)) == s
    ensures n > 0 ==> FullUpTo(s.drafts, n) == FullUpTo(s.drafts, n - 1)
  {
  }

  lemma OneMoreStep(s: State, steps: seq<Step>, step: Step)
    ensures Run(s, steps + [step])
            == if Enabled(Run(s, steps), step) then Next(Run(s, steps), step) else Run(s, steps)
  {
    hide Enabled, Next;
    assert Front(steps + [step]) == steps;
  }

  lemma {:induction false} WritesOut(s: State, n: nat) returns (steps: seq<Step>)
    requires Sound(s) && n <= |s.drafts|
    ensures Run(s, steps) == s.(drafts := FullUpTo(s.drafts, n))
  {
    hide FullUpTo, Next, Enabled;
    if n == 0 {
      NoneFills(s, 0);
      steps := [];
    } else {
      steps := WritesOut(s, n - 1);
      var d := s.drafts[n - 1];
      assert SoundDraft(d);
      if IsActive(d) {
        var write := Write(n - 1, Worst(d) - OnDisk(d));
        FillsNext(s, Run(s, steps), n - 1);
        OneMoreStep(s, steps, write);
        steps := steps + [write];
      } else {
        NoneFills(s, n);
      }
    }
  }

  /** The load is what the uploads under way can bring onto the disk: once it exceeds the limit, so can
      the disk. */
  lemma LoadIsReached(s: State)
    requires Sound(s)
    ensures exists steps :: Sum(Run(s, steps).drafts, OnDisk) == Load(s)
  {
    var n := |s.drafts|;
    var steps := WritesOut(s, n);
    var full := FullUpTo(s.drafts, n);
    hide Run;
    forall i | 0 <= i < n ensures OnDisk(full[i]) == Worst(s.drafts[i]) {
      assert SoundDraft(s.drafts[i]);
    }
    SumAtMost(full, s.drafts, OnDisk, Worst);
    SumAtMost(s.drafts, full, Worst, OnDisk);
  }

  // ----- and a disturbed one -----

  const GIB: nat := 1024 * 1024 * 1024

  lemma SumThree(a: Draft, b: Draft, c: Draft, f: Draft -> nat)
    ensures Sum([a, b, c], f) == f(a) + f(b) + f(c)
  {
    assert Front([a, b, c]) == [a, b] && Front([a, b]) == [a] && Front([a]) == [];
    assert Sum([a], f) == f(a);
    assert Sum([a, b], f) == f(a) + f(b);
  }

  const KEPT := Draft(Some(3 * GIB), None, None, None)
  const SEEN := Draft(Some(3 * GIB), Some(3 * GIB), None, None)
  const ADMITTED := Draft(None, Some(0), Some(Reserved(GIB, true)), Some(0))
  const WRITTEN := Draft(Some(GIB), Some(0), Some(Reserved(GIB, true)), Some(0))
  const GIVEN_UP := Draft(Some(GIB), Some(0), Some(Reserved(GIB, false)), None)

  const CROWDED := State([KEPT, NO_DRAFT, NO_DRAFT], false, false, None)
  const RACE := [Check(1, {}), Decide, Write(1, GIB), Check(2, {}), GiveUp(1), Decide, Write(2, GIB)]

  /** With 3 GiB counted, 1 GiB is reserved. */
  lemma ReserveThree(second: Draft, dirty: bool, id: nat)
    requires (second == NO_DRAFT && id == 1) || (second == GIVEN_UP && id == 2)
    ensures var s := State([SEEN, second, NO_DRAFT], dirty, true, Some(id));
            Next(s, Decide) == State([SEEN, second, NO_DRAFT][id := ADMITTED], dirty, true, None)
  {
    hide Sum;
    SumThree(SEEN, second, NO_DRAFT, Listed);
    SumThree(SEEN, second, NO_DRAFT, SizeOf);
    SumThree(SEEN, second, NO_DRAFT, ActiveOf);
  }

  lemma WithinAtFirst()
    ensures WithinQuota(CROWDED)
  {
    hide Sum;
    SumThree(KEPT, NO_DRAFT, NO_DRAFT, Worst);
  }

  /** An upload given up between another's check and its sum is not counted: with 3 GiB kept, two uploads
      of 1 GiB are admitted where one fits, and 5 GiB end up on disk. */
  lemma QuotaExceeded()
    ensures WithinQuota(CROWDED) && Sum(Run(CROWDED, RACE).drafts, OnDisk) == 5 * GIB > MAX_BYTES
  {
    hide Sum, Reserve, Run, Load;
    WithinAtFirst();
    var s1 := State([SEEN, NO_DRAFT, NO_DRAFT], false, true, Some(1));
    assert Next(CROWDED, Check(1, {})) == s1;
    ReserveThree(NO_DRAFT, false, 1);
    var s2 := State([SEEN, ADMITTED, NO_DRAFT], false, true, None);
    assert Next(s1, Decide) == s2;
    var s3 := State([SEEN, WRITTEN, NO_DRAFT], false, true, None);
    assert Next(s2, Write(1, GIB)) == s3;
    var s4 := s3.(admitting := Some(2));
    var s5 := State([SEEN, GIVEN_UP, NO_DRAFT], true, true, Some(2));
    assert Next(s4, GiveUp(1)) == s5;
    ReserveThree(GIVEN_UP, true, 2);
    var s6 := State([SEEN, GIVEN_UP, ADMITTED], true, true, None);
    assert Next(s5, Decide) == s6;
    var s7 := State([SEEN, GIVEN_UP, WRITTEN], true, true, None);
    assert Next(s6, Write(2, GIB)) == s7;
    RunSeven(CROWDED, RACE, s1, s2, s3, s4, s5, s6, s7);
    SumThree(SEEN, GIVEN_UP, WRITTEN, OnDisk);
  }

  lemma RunSeven(
    s: State, steps: seq<Step>, s1: State, s2: State, s3: State, s4: State, s5: State, s6: State, s7: State)
    requires |steps| == 7
    requires Enabled(s, steps[0]) && Next(s, steps[0]) == s1 && Enabled(s1, steps[1]) && Next(s1, steps[1]) == s2
    requires Enabled(s2, steps[2]) && Next(s2, steps[2]) == s3 && Enabled(s3, steps[3]) && Next(s3, steps[3]) == s4
    requires Enabled(s4, steps[4]) && Next(s4, steps[4]) == s5 && Enabled(s5, steps[5]) && Next(s5, steps[5]) == s6
    requires Enabled(s6, steps[6]) && Next(s6, steps[6]) == s7
    ensures Run(s, steps) == s7
  {
    hide Enabled, Next;
    assert Run(s, steps[..1]) == s1 by { assert Front(steps[..1]) == []; }
    assert Run(s, steps[..2]) == s2 by { assert Front(steps[..2]) == steps[..1]; }
    assert Run(s, steps[..3]) == s3 by { assert Front(steps[..3]) == steps[..2]; }
    assert Run(s, steps[..4]) == s4 by { assert Front(steps[..4]) == steps[..3]; }
    assert Run(s, steps[..5]) == s5 by { assert Front(steps[..5]) == steps[..4]; }
    assert Run(s, steps[..6]) == s6 by { assert Front(steps[..6]) == steps[..5]; }
    assert Front(steps) == steps[..6];
  }

  // ----- the inventory as it is updated -----

  class Inventory {
    var drafts: seq<Draft>
    var dirty: bool
    var loaded: bool
    var admitting: Option<nat>

    ghost function Now(): State
      reads this
    {
      State(drafts, dirty, loaded, admitting)
    }

    constructor (ids: nat)
      ensures Now() == State(seq(ids, _ => NO_DRAFT), false, false, None)
    {
      drafts, dirty, loaded, admitting := seq(ids, _ => NO_DRAFT), false, false, None;
    }

    method Inspect(expired: set<nat>)
      modifies this
      ensures Now() == Rescanned(old(Now()), expired)
    {
      loaded, dirty := false, false;
      for i := 0 to |drafts|
        invariant |drafts| == |old(drafts)| && Now() == State(drafts, false, false, old(admitting))
        invariant forall j :: 0 <= j < i ==> drafts[j] == Scanned(old(drafts)[j], j in expired)
        invariant forall j :: i <= j < |drafts| ==> drafts[j] == old(drafts)[j]
      {
        drafts := drafts[i := Scanned(drafts[i], i in expired)];
      }
      assert drafts == ScanAll(old(drafts), expired);
      loaded := true;
    }

    /** The drafts listed beside `id`, and the bytes counted. */
    method CountUp(id: nat) returns (count: int, bytes: nat)
      requires id < |drafts|
      ensures count == Others(drafts, id) && bytes == Tally(drafts)
    {
      count := 0;
      var sizes, active := 0, 0;
      for i := 0 to |drafts|
        invariant count == Sum(drafts[..i], Listed) && active == Sum(drafts[..i], ActiveOf)
        invariant sizes == Saturated(Sum(drafts[..i], SizeOf))
      {
        assert Front(drafts[..i + 1]) == drafts[..i];
        if drafts[i].size.Some? { count := count + 1; }
        sizes := Saturated(sizes + SizeOf(drafts[i]));
        active := active + ActiveOf(drafts[i]);
      }
      assert drafts[..|drafts|] == drafts;
      if drafts[id].size.Some? { count := count - 1; }
      bytes := Saturated(sizes + active);
    }

    /** The first half of an admission. */
    method Begin(id: nat, expired: set<nat>)
      requires Enabled(Now(), Check(id, expired))
      modifies this
      ensures Now() == Next(old(Now()), Check(id, expired))
    {
      if !loaded || dirty { Inspect(expired - {id}); }
      admitting := Some(id);
    }

    /** The second half: refused, or reserved with an allowance. */
    method Finish() returns (allowance: Option<nat>)
      requires Enabled(Now(), Decide)
      modifies this
      ensures Now() == Next(old(Now()), Decide)
      ensures allowance.Some? <==> Admissible(old(drafts), old(admitting).value)
      ensures allowance.Some? ==> 0 < allowance.value <= MAX_UPLOAD_BYTES
    {
      var id := admitting.value;
      var count, bytes := CountUp(id);
      admitting := None;
      if count >= MAX_DRAFTS || bytes >= MAX_BYTES { return None; }
      if MAX_BYTES - bytes <= DESCRIPTOR_BYTES { return None; }
      var given := Allowance(bytes);
      var d := drafts[id];
      drafts := drafts[id := d.(size := Some(SizeOf(d)), reserved := Some(Reserved(given + DESCRIPTOR_BYTES, true)),
                                base := Some(OnDisk(d)))];
      return Some(given);
    }

    /** A finished upload is measured and its reservation returned. */
    method Settle(id: nat)
      requires Enabled(Now(), Complete(id)) && Sound(Now())
      modifies this
      ensures Now() == Next(old(Now()), Complete(id)) && Sound(Now())
    {
      NextKeepsSound(Now(), Complete(id));
      drafts := drafts[id := Draft(drafts[id].disk, drafts[id].disk, None, None)];
    }

    /** The drop of the reservation of an upload given up. */
    method Drop(id: nat)
      requires Enabled(Now(), GiveUp(id)) && Sound(Now())
      modifies this
      ensures Now() == Next(old(Now()), GiveUp(id)) && Sound(Now())
    {
      NextKeepsSound(Now(), GiveUp(id));
      dirty := true;
      drafts := drafts[id := drafts[id].(reserved := Some(drafts[id].reserved.value.(active := false)), base := None)];
    }
  }
}
