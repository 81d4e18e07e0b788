/** Recovery of background jobs and the writes that dropped callers leave behind: how often a job can
    finish, and what recovery settles, over every run of `BackgroundTools`.

    `src/application/background_tools.rs` writes recovery's finishes inside the request that opens the
    session, and a foreground's started event inside the run; `src/utils/blocking.rs` lets a write go on
    when its caller is dropped. */
module BackgroundRecovery {
  import opened Prelude
  import opened BackgroundTools

  lemma RunMore(before: seq<Action>, a: Action)
    ensures Run(before + [a]) == if Enabled(Run(before), a) then Next(Run(before), a) else Run(before)
  {
    assert Front(before + [a]) == before;
  }

  lemma NoteCounts(log: seq<Note>, note: Note, id: JobId)
    ensures Starts(log + [note], id) == Starts(log, id) + if note == Started(id) then 1 else 0
    ensures Finishes(log + [note], id) == Finishes(log, id) + if note.Finished? && note.id == id then 1 else 0
  {
    AppendNote(log, note);
  }

  // ----- how often a job finishes -----

  /** Abandoned finishes of the job still under way. */
  function InFlight(s: State, id: JobId): nat {
    s.late[Finished(id, Unknown)]
  }

  /** Whether a recovery under way has the job on its list. */
  function TakenUp(s: State, id: JobId): nat {
    if s.mode.Reopening? && id in s.mode.todo then 1 else 0
  }

  /** The finishes the job has, and those it may yet get from what is under way. */
  function Claims(s: State, id: JobId): nat {
    Finishes(s.log, id) + InFlight(s, id) + TakenUp(s, id)
  }

  ghost predicate ClaimedOnce(s: State) {
    forall id :: Claims(s, id) <= 1
  }

  /** A recovery takes up a job whose abandoned finish is still under way. */
  ghost predicate TakesUpAbandoned(s: State, a: Action) {
    a.Reopen? && Enabled(s, a) && exists id :: id in Unfinished(s.log) && InFlight(s, id) > 0
  }

  lemma FinishIsFirst(s: State, id: JobId)
    requires Sound(s) && Enabled(s, FinishWritten(id))
    ensures Claims(s, id) == 0
  {
    assert JobInv(s.jobs[id], id in Ledger(s.log).value, FinishedIn(s.log, id), AnswerOf(s, id));
    LedgerCounts(s.log, id);
    assert Finished(id, Unknown) in s.late ==> LateNote(s, Finished(id, Unknown));
  }

  /** A note written moves the claim it stands for. */
  lemma WritingClaims(s: State, a: Action, id: JobId)
    requires Enabled(s, a) && (a.StartWritten? || a.RecoverOne? || a.LateWritten? || a.FinishWritten?)
    requires a.LateWritten? && a.note.Finished? ==> a.note.outcome.Unknown?
    ensures Claims(Next(s, a), id) <= Claims(s, id) + if a == FinishWritten(id) then 1 else 0
  {
    hide Finishes, Unfinished, Active;
    var t := Next(s, a);
    assert t.log == s.log + [Last(t.log)];
    NoteCounts(s.log, Last(t.log), id);
  }

  /** Scanning adds the unfinished jobs; a worker's own finish is its job's first; every other step moves
      a claim on or gives it up. */
  lemma StepClaims(s: State, a: Action, id: JobId)
    requires Sound(s) && Enabled(s, a)
    ensures a.Reopen? ==> Claims(Next(s, a), id) == Claims(s, id) + if id in Unfinished(s.log) then 1 else 0
    ensures !a.Reopen? ==> Claims(Next(s, a), id) <= if a == FinishWritten(id) then 1 else Claims(s, id)
  {
    hide Sound, Next, Enabled, Claims;
    if a.FinishWritten? || a.StartWritten? || a.RecoverOne? || a.LateWritten? {
      if a == FinishWritten(id) { FinishIsFirst(s, id); }
      if a.LateWritten? { LateKnown(s, a); }
      WritingClaims(s, a, id);
    } else {
      QuietClaims(s, a, id);
    }
  }

  lemma LateKnown(s: State, a: Action)
    requires Sound(s) && Enabled(s, a) && a.LateWritten?
    ensures a.note.Finished? ==> a.note.outcome.Unknown?
  {
    LateIsUnknown(s, a.note);
  }

  lemma QuietClaims(s: State, a: Action, id: JobId)
    requires Enabled(s, a) && !a.FinishWritten? && !a.StartWritten? && !a.RecoverOne? && !a.LateWritten?
    ensures a.Reopen? ==> Claims(Next(s, a), id) == Claims(s, id) + if id in Unfinished(s.log) then 1 else 0
    ensures !a.Reopen? ==> Claims(Next(s, a), id) <= Claims(s, id)
  {
    hide Finishes, Unfinished, Active;
    if !IsModeStep(a) { JobStepClaims(s, a, id); }
  }

  lemma JobStepClaims(s: State, a: Action, id: JobId)
    requires Enabled(s, a) && !IsModeStep(a) && !a.FinishWritten? && !a.StartWritten?
    ensures Next(s, a).log == s.log && Next(s, a).mode == s.mode && InFlight(Next(s, a), id) == InFlight(s, id)
  {
    hide Active;
  }

  lemma StepClaimsOnceIff(s: State, a: Action)
    requires Sound(s) && ClaimedOnce(s) && Enabled(s, a)
    ensures ClaimedOnce(Next(s, a)) <==> !TakesUpAbandoned(s, a)
  {
    hide Sound, Next, Enabled, Claims;
    if TakesUpAbandoned(s, a) {
      var id :| id in Unfinished(s.log) && InFlight(s, id) > 0;
      StepClaims(s, a, id);
      assert Claims(s, id) >= 1 by { InFlightIsClaim(s, id); }
      assert Claims(Next(s, a), id) > 1;
    } else {
      forall id ensures Claims(Next(s, a), id) <= 1 {
        StepClaims(s, a, id);
        if a.Reopen? && id in Unfinished(s.log) { UnclaimedBeforeScan(s, id); }
      }
    }
  }

  lemma InFlightIsClaim(s: State, id: JobId)
    ensures Claims(s, id) >= InFlight(s, id)
  {
  }

  lemma UnclaimedBeforeScan(s: State, id: JobId)
    requires Sound(s) && Enabled(s, Reopen) && id in Unfinished(s.log) && InFlight(s, id) == 0
    ensures Claims(s, id) == 0
  {
    LedgerCounts(s.log, id);
  }

  ghost predicate AlwaysClaimedOnce(actions: seq<Action>) {
    forall k :: 0 <= k <= |actions| ==> ClaimedOnce(Run(actions[..k]))
  }

  /** No recovery of the run takes up a job whose abandoned finish is still under way. */
  ghost predicate NoneTakesUpAbandoned(actions: seq<Action>) {
    forall k :: 0 <= k < |actions| ==> !TakesUpAbandoned(Run(actions[..k]), actions[k])
  }

  lemma LastAction(actions: seq<Action>)
    requires actions != []
    ensures AlwaysClaimedOnce(actions) <==> AlwaysClaimedOnce(Front(actions)) && ClaimedOnce(Run(actions))
    ensures AlwaysClaimedOnce(Front(actions)) ==> ClaimedOnce(Run(Front(actions)))
    ensures NoneTakesUpAbandoned(actions)
            <==> NoneTakesUpAbandoned(Front(actions)) && !TakesUpAbandoned(Run(Front(actions)), Last(actions))
  {
    hide Run, ClaimedOnce, TakesUpAbandoned;
    var front := Front(actions);
    assert actions[..|actions|] == actions && front[..|front|] == front && actions[..|front|] == front;
    assert forall k :: 0 <= k <= |front| ==> front[..k] == actions[..k];
    assert forall k :: 0 <= k < |front| ==> front[k] == actions[k];
    assert actions[|front|] == Last(actions);
  }

  /** Over every run: each job has at most one finish, counting those under way and those a recovery has
      taken up, at every point, if and only if no recovery takes up a job whose abandoned finish is still
      under way. */
  lemma {:induction false} RunsFinishOnceIff(actions: seq<Action>)
    ensures AlwaysClaimedOnce(actions) <==> NoneTakesUpAbandoned(actions)
    ensures NoneTakesUpAbandoned(actions) ==> forall id :: Finishes(Run(actions).log, id) <= 1
    decreases |actions|
  {
    hide Sound, Next, Enabled, ClaimedOnce, TakesUpAbandoned, AlwaysClaimedOnce, NoneTakesUpAbandoned;
    if actions == [] {
      NothingClaimed(actions);
    } else {
      var front, a := Front(actions), Last(actions);
      RunsFinishOnceIff(front);
      LastAction(actions);
      RunsAreSound(front);
      if ClaimedOnce(Run(front)) && Enabled(Run(front), a) {
        StepClaimsOnceIff(Run(front), a);
      } else {
        NotTaken(Run(front), a);
      }
      if ClaimedOnce(Run(actions)) { OnceFinished(Run(actions)); }
    }
  }

  lemma NotTaken(s: State, a: Action)
    ensures !Enabled(s, a) ==> !TakesUpAbandoned(s, a)
  {
  }

  lemma OnceFinished(s: State)
    requires ClaimedOnce(s)
    ensures forall id :: Finishes(s.log, id) <= 1
  {
    forall id ensures Finishes(s.log, id) <= 1 { assert Claims(s, id) <= 1; }
  }

  lemma NothingClaimed(actions: seq<Action>)
    requires actions == []
    ensures AlwaysClaimedOnce(actions) && NoneTakesUpAbandoned(actions)
    ensures forall id :: Finishes(Run(actions).log, id) <= 1
  {
    assert actions[..0] == actions && Run(actions) == INITIAL;
    assert ClaimedOnce(INITIAL);
  }

  /** A claim still open, and the step that makes it good. */
  lemma ClaimComesTrue(s: State, id: JobId) returns (a: Action)
    requires InFlight(s, id) + TakenUp(s, id) > 0
    ensures Enabled(s, a) && Claims(Next(s, a), id) == Claims(s, id)
    ensures InFlight(Next(s, a), id) + TakenUp(Next(s, a), id) < InFlight(s, id) + TakenUp(s, id)
  {
    hide Finishes, Unfinished, Active;
    a := if InFlight(s, id) > 0 then LateWritten(Finished(id, Unknown)) else RecoverOne(id);
    NoteCounts(s.log, Finished(id, Unknown), id);
  }

  lemma NoneOpen(s: State, id: JobId)
    requires InFlight(s, id) + TakenUp(s, id) == 0
    ensures Finishes(s.log, id) == Claims(s, id)
  {
  }

  /** Every claim can come true: from any point the session can come to as many finishes of the job. */
  lemma {:induction false} ClaimsAreReached(before: seq<Action>, id: JobId)
    ensures exists more :: Finishes(Run(before + more).log, id) == Claims(Run(before), id)
    decreases InFlight(Run(before), id) + TakenUp(Run(before), id)
  {
    hide Run, Next, Enabled, Claims, InFlight, TakenUp, Finishes;
    var s := Run(before);
    if InFlight(s, id) + TakenUp(s, id) == 0 {
      NoneOpen(s, id);
      assert before + [] == before;
      assert Finishes(Run(before + []).log, id) == Claims(s, id);
    } else {
      var a := ClaimComesTrue(s, id);
      RunMore(before, a);
      ClaimsAreReached(before + [a], id);
      var more :| Finishes(Run(before + [a] + more).log, id) == Claims(s, id);
      assert before + [a] + more == before + ([a] + more);
    }
  }

  // ----- a job that finishes twice -----

  function Scanned(s: State): State {
    s.(mode := Reopening(Unfinished(s.log)))
  }

  lemma Abandons(s: State, id: JobId)
    requires s.mode.Down? && id in Unfinished(s.log)
    ensures Enabled(s, Reopen) && Next(s, Reopen) == Scanned(s)
    ensures Enabled(Scanned(s), OpenerDropped(id))
    ensures Next(Scanned(s), OpenerDropped(id)) == s.(late := s.late + multiset{Finished(id, Unknown)})
  {
    hide Unfinished, Active;
  }

  lemma TakesUp(s: State, id: JobId)
    requires s.mode.Down? && id in Unfinished(s.log) && Finished(id, Unknown) in s.late
    ensures var note := Finished(id, Unknown);
            var t := Written(s, note).(mode := Reopening(Unfinished(s.log) - {id}));
            && Enabled(s, Reopen) && Next(s, Reopen) == Scanned(s)
            && Enabled(Scanned(s), RecoverOne(id)) && Next(Scanned(s), RecoverOne(id)) == t
            && Enabled(t, LateWritten(note))
            && Next(t, LateWritten(note)) == Written(t, note).(late := s.late - multiset{note})
  {
    hide Unfinished, Active;
  }

  /** Whoever opens the session goes away while the job's finish is being written; the next to open it
      finds the job unfinished and writes one; then the first one lands. */
  lemma FinishesTwice(before: seq<Action>, id: JobId)
    requires Run(before).mode.Down? && id in Unfinished(Run(before).log)
    ensures var more := [Reopen, OpenerDropped(id), Reopen, RecoverOne(id), LateWritten(Finished(id, Unknown))];
            && Run(before + more).log == Run(before).log + [Finished(id, Unknown)] + [Finished(id, Unknown)]
            && Run(before + more).queue == Run(before).queue + [Completion(id, Unknown)] + [Completion(id, Unknown)]
            && Finishes(Run(before + more).log, id) == Finishes(Run(before).log, id) + 2
  {
    hide Run, Unfinished, Finishes, Next, Enabled;
    var s, note := Run(before), Finished(id, Unknown);
    Abandons(s, id);
    RunMore(before, Reopen);
    var dropped := before + [Reopen] + [OpenerDropped(id)];
    RunMore(before + [Reopen], OpenerDropped(id));
    TakesUp(Run(dropped), id);
    RunMore(dropped, Reopen);
    RunMore(dropped + [Reopen], RecoverOne(id));
    RunMore(dropped + [Reopen] + [RecoverOne(id)], LateWritten(note));
    NoteCounts(s.log, note, id);
    NoteCounts(s.log + [note], note, id);
    assert dropped + [Reopen] + [RecoverOne(id)] + [LateWritten(note)]
        == before + [Reopen, OpenerDropped(id), Reopen, RecoverOne(id), LateWritten(note)];
  }

  /** A session that serves, has nothing in memory and nothing to recover. */
  lemma Serves(before: seq<Action>)
    requires before == [Reopen, RecoverDone]
    ensures Run(before) == INITIAL.(mode := Serving)
  {
    hide Active;
    var none: seq<Action> := [];
    assert Run(none) == INITIAL && none + [Reopen] == [Reopen] && Scanned(INITIAL).mode == Reopening({});
    RunMore(none, Reopen);
    RunMore([Reopen], RecoverDone);
    assert [Reopen] + [RecoverDone] == before;
  }

  /** A job started, its foreground writing the started event. */
  function Transferred(s: State, id: JobId): State {
    s.(jobs := s.jobs[id := Job(Running, Transferring, Foreground, Empty, false)], runs := s.runs + [id])
  }

  lemma Transfers(s: State, id: JobId)
    requires Enabled(s, Start(id))
    ensures var one := Next(s, Start(id));
            && Enabled(one, InputArrives(id))
            && var two := Next(one, InputArrives(id));
            Enabled(two, WaiterLocks(id)) && Next(two, WaiterLocks(id)) == Transferred(s, id)
  {
    hide Active;
    var two := Next(Next(s, Start(id)), InputArrives(id));
    assert Next(two, WaiterLocks(id)).jobs == Transferred(s, id).jobs;
  }

  lemma RunTransfers(before: seq<Action>, id: JobId)
    requires Enabled(Run(before), Start(id))
    ensures Run(before + [Start(id)] + [InputArrives(id)] + [WaiterLocks(id)]) == Transferred(Run(before), id)
  {
    hide Run, Next, Enabled;
    Transfers(Run(before), id);
    RunMore(before, Start(id));
    RunMore(before + [Start(id)], InputArrives(id));
    RunMore(before + [Start(id)] + [InputArrives(id)], WaiterLocks(id));
  }

  /** A job handed over, and the process gone. */
  lemma HandedOver(before: seq<Action>, id: JobId)
    requires Enabled(Run(before), Start(id))
    ensures var s := Run(before + [Start(id)] + [InputArrives(id)] + [WaiterLocks(id)] + [StartWritten(id)] + [Crash]);
            && s.mode.Down? && s.log == Run(before).log + [Started(id)] && s.queue == Run(before).queue
            && id in Unfinished(s.log) && Finishes(s.log, id) == Finishes(Run(before).log, id)
  {
    var s, asked := Run(before), before + [Start(id)] + [InputArrives(id)] + [WaiterLocks(id)];
    RunTransfers(before, id);
    hide Run, Active;
    RunMore(asked, StartWritten(id));
    RunMore(asked + [StartWritten(id)], Crash);
    NoteCounts(s.log, Started(id), id);
    AppendNote(s.log, Started(id));
  }

  /** So a reachable run has a job with two finishes. */
  lemma TwiceIsReached()
    ensures exists actions :: Finishes(Run(actions).log, 0) == 2 && |Run(actions).queue| == 2
  {
    var before := [Reopen, RecoverDone];
    Serves(before);
    assert Active(INITIAL.jobs) == {} && Enabled(Run(before), Start(0));
    HandedOver(before, 0);
    var down := before + [Start(0)] + [InputArrives(0)] + [WaiterLocks(0)] + [StartWritten(0)] + [Crash];
    assert Finishes(Run(before).log, 0) == 0 && Run(before).queue == [];
    hide Run, Next, Enabled;
    FinishesTwice(down, 0);
    var more := [Reopen, OpenerDropped(0), Reopen, RecoverOne(0), LateWritten(Finished(0, Unknown))];
    assert Finishes(Run(down + more).log, 0) == 2 && |Run(down + more).queue| == 2;
  }

  // ----- what recovery settles -----

  /** How often an abandoned write of `note` lands in `during`, after `before`. */
  function Landings(before: seq<Action>, during: seq<Action>, note: Note): nat {
    if during == [] then 0
    else
      Landings(before, Front(during), note)
      + if Last(during) == LateWritten(note) && note in Run(before + Front(during)).late then 1 else 0
  }

  /** An abandoned write of the job lands. */
  predicate Lands(before: seq<Action>, during: seq<Action>, id: JobId) {
    Landings(before, during, Started(id)) + Landings(before, during, Finished(id, Unknown)) > 0
  }

  /** What the log after the scan holds of a job: what the scan saw, what recovery wrote, what landed. */
  ghost predicate Accounts(s: State, t: State, id: JobId, starts: nat, finishes: nat) {
    && t.mode.Reopening? && t.jobs == map[] && t.late <= s.late
    && t.runs == s.runs && t.answers == s.answers && t.returned == s.returned
    && Starts(t.log, id) == Starts(s.log, id) + starts
    && Finishes(t.log, id) + TakenUp(t, id)
       == Finishes(s.log, id) + (if id in Unfinished(s.log) then 1 else 0) + finishes
    && (starts > 0 ==> Started(id) in s.late) && (finishes > 0 ==> Finished(id, Unknown) in s.late)
  }

  lemma RecoverAccounts(s: State, t: State, k: JobId, id: JobId, starts: nat, finishes: nat)
    requires Accounts(s, t, id, starts, finishes) && k in t.mode.todo
    ensures Accounts(s, Written(t, Finished(k, Unknown)).(mode := Reopening(t.mode.todo - {k})), id, starts, finishes)
  {
    hide Starts, Finishes, Unfinished;
    NoteCounts(t.log, Finished(k, Unknown), id);
  }

  lemma LandAccounts(s: State, t: State, note: Note, id: JobId, starts: nat, finishes: nat)
    requires Accounts(s, t, id, starts, finishes) && note in t.late && (note.Finished? ==> note.outcome.Unknown?)
    ensures Accounts(s, Written(t, note).(late := t.late - multiset{note}), id,
                     starts + (if note == Started(id) then 1 else 0),
                     finishes + if note == Finished(id, Unknown) then 1 else 0)
  {
    hide Starts, Finishes, Unfinished;
    NoteCounts(t.log, note, id);
    LateFewer(s.late, t.late, note);
  }

  lemma RefuseAccounts(s: State, t: State, note: Note, id: JobId, starts: nat, finishes: nat)
    requires Accounts(s, t, id, starts, finishes) && note in t.late
    ensures Accounts(s, t.(late := t.late - multiset{note}), id, starts, finishes)
  {
    hide Starts, Finishes, Unfinished;
    LateFewer(s.late, t.late, note);
  }

  lemma LateFewer(some: multiset<Note>, few: multiset<Note>, note: Note)
    requires few <= some && note in few
    ensures note in some && few - multiset{note} <= some
  {
  }

  lemma StepAccounts(s: State, t: State, a: Action, id: JobId, starts: nat, finishes: nat)
    requires Accounts(s, t, id, starts, finishes) && Enabled(t, a) && Next(t, a).mode.Reopening? && !a.Reopen?
    requires a.LateWritten? && a.note.Finished? ==> a.note.outcome.Unknown?
    ensures Accounts(s, Next(t, a), id, starts + (if a == LateWritten(Started(id)) then 1 else 0),
                     finishes + if a == LateWritten(Finished(id, Unknown)) then 1 else 0)
  {
    assert t.mode.Reopening? && t.jobs == map[];
    OnlyRecovers(t, a);
    hide Accounts, Active, Written;
    if a.RecoverOne? {
      RecoverAccounts(s, t, a.id, id, starts, finishes);
    } else if a.LateWritten? {
      LandAccounts(s, t, a.note, id, starts, finishes);
    } else {
      RefuseAccounts(s, t, a.note, id, starts, finishes);
    }
  }

  lemma OnlyRecovers(t: State, a: Action)
    requires t.mode.Reopening? && t.jobs == map[] && Enabled(t, a) && Next(t, a).mode.Reopening?
    ensures (a.RecoverOne? && a.id in t.mode.todo) || ((a.LateWritten? || a.LateRefused?) && a.note in t.late)
  {
    hide Active;
  }

  lemma ScanAccounts(s: State, id: JobId)
    requires s.mode.Down? && s.jobs == map[]
    ensures Enabled(s, Reopen) && Accounts(s, Next(s, Reopen), id, 0, 0)
  {
    hide Starts, Finishes, Unfinished;
  }

  lemma StaysReopening(t: State, a: Action)
    requires Enabled(t, a) && Next(t, a).mode.Reopening? && !a.Reopen?
    ensures t.mode.Reopening?
  {
  }

  lemma {:induction false} RecoveryAccounts(before: seq<Action>, during: seq<Action>, id: JobId)
    requires Run(before).mode.Down? && Reopen !in during && Run(before + [Reopen] + during).mode.Reopening?
    ensures var from := before + [Reopen];
            Accounts(Run(before), Run(from + during), id, Landings(from, during, Started(id)),
                     Landings(from, during, Finished(id, Unknown)))
    decreases |during|
  {
    hide Run, Next, Enabled, Accounts, Sound;
    var from := before + [Reopen];
    RunMore(before, Reopen);
    if during == [] {
      RunsAreSound(before);
      assert Run(before).jobs == map[] by { DownIsEmpty(Run(before)); }
      ScanAccounts(Run(before), id);
      assert from + during == from;
    } else {
      var front, a := Front(during), Last(during);
      var t := Run(from + front);
      assert from + during == from + front + [a] && a in during;
      assert forall x :: x in front ==> x in during;
      RunMore(from + front, a);
      if Enabled(t, a) {
        StaysReopening(t, a);
        RecoveryAccounts(before, front, id);
        RunsAreSound(from + front);
        if a.LateWritten? { LateKnown(t, a); }
        StepAccounts(Run(before), t, a, id, Landings(from, front, Started(id)),
                     Landings(from, front, Finished(id, Unknown)));
        EnabledLate(t, a);
      } else {
        RecoveryAccounts(before, front, id);
        EnabledLate(t, a);
      }
    }
  }

  lemma EnabledLate(t: State, a: Action)
    ensures a.LateWritten? ==> (Enabled(t, a) <==> a.note in t.late)
  {
  }

  lemma DownIsEmpty(s: State)
    requires Sound(s) && s.mode.Down?
    ensures s.jobs == map[]
  {
  }

  /** From the scan to the end of recovery: no tool body runs and nothing is answered, every job the scan
      saw started has a finish, and a job has as many finishes as starts, one or none, if and only if it had
      no more before and no abandoned write of it lands in between. None is there to land after a crash. */
  lemma RecoveredIsSettledIff(before: seq<Action>, during: seq<Action>, id: JobId)
    requires Run(before).mode.Down? && Reopen !in during
    requires Enabled(Run(before + [Reopen] + during), RecoverDone)
    ensures var s, t := Run(before), Next(Run(before + [Reopen] + during), RecoverDone);
            && t.runs == s.runs && t.answers == s.answers && t.returned == s.returned && t.jobs == map[]
            && (Starts(s.log, id) == 1 ==> Finishes(t.log, id) >= 1)
            && (Finishes(t.log, id) == Starts(t.log, id)
                <==> Finishes(s.log, id) <= 1 && !Lands(before + [Reopen], during, id))
            && (s.late == multiset{} ==> !Lands(before + [Reopen], during, id))
  {
    hide Run, Starts, Finishes, Unfinished, Ledger, Accounts, Sound;
    var from := before + [Reopen];
    RecoveryAccounts(before, during, id);
    ExactlyOnce(from + during, id);
    RunsAreSound(before);
    SettledIff(Run(before), Run(from + during), id, Landings(from, during, Started(id)),
               Landings(from, during, Finished(id, Unknown)));
  }

  lemma SettledIff(s: State, t: State, id: JobId, starts: nat, finishes: nat)
    requires Sound(s) && Accounts(s, t, id, starts, finishes)
    requires Enabled(t, RecoverDone) && Starts(t.log, id) <= 1
    ensures var r := Next(t, RecoverDone);
            && r.runs == s.runs && r.answers == s.answers && r.returned == s.returned && r.jobs == map[]
            && (Starts(s.log, id) == 1 ==> Finishes(r.log, id) >= 1)
            && (Finishes(r.log, id) == Starts(r.log, id) <==> Finishes(s.log, id) <= 1 && starts + finishes == 0)
            && (s.late == multiset{} ==> starts + finishes == 0)
  {
    hide Starts, Finishes, Unfinished, Ledger, Active;
    LedgerCounts(s.log, id);
    assert Finished(id, Unknown) in s.late ==> LateNote(s, Finished(id, Unknown));
  }

  /** While the session is down or being opened, however often that is cut off and begun again, no tool body
      runs, nothing is answered, and every finish written is recovery's. */
  ghost predicate OnlyRecovered(s: State, t: State) {
    && t.runs == s.runs && t.answers == s.answers && t.returned == s.returned && t.jobs == s.jobs == map[]
    && s.log <= t.log && forall i :: |s.log| <= i < |t.log| && t.log[i].Finished? ==> t.log[i].outcome.Unknown?
  }

  lemma RecoveryStep(s: State, t: State, a: Action)
    requires !t.mode.Serving? && OnlyRecovered(s, t) && Enabled(t, a)
    requires a.LateWritten? && a.note.Finished? ==> a.note.outcome.Unknown?
    ensures OnlyRecovered(s, Next(t, a)) && (!a.RecoverDone? ==> !Next(t, a).mode.Serving?)
  {
    hide Active;
  }

  lemma {:induction false} RecoveryRunsNothing(before: seq<Action>, during: seq<Action>)
    requires !Run(before).mode.Serving? && RecoverDone !in during
    ensures !Run(before + during).mode.Serving? && OnlyRecovered(Run(before), Run(before + during))
    decreases |during|
  {
    hide Run, Next, Enabled, OnlyRecovered, Sound;
    if during == [] {
      RunsAreSound(before);
      assert before + during == before;
      StartsRecovered(Run(before));
    } else {
      var front, a := Front(during), Last(during);
      assert before + during == before + front + [a] && a in during;
      assert forall x :: x in front ==> x in during;
      RecoveryRunsNothing(before, front);
      RunMore(before + front, a);
      if Enabled(Run(before + front), a) {
        RunsAreSound(before + front);
        if a.LateWritten? { LateKnown(Run(before + front), a); }
        RecoveryStep(Run(before), Run(before + front), a);
      }
    }
  }

  lemma StartsRecovered(s: State)
    requires Sound(s) && !s.mode.Serving?
    ensures OnlyRecovered(s, s)
  {
  }

  // ----- a start that is not settled -----

  /** The foreground of a transferring job has gone away, and its tool returned. */
  function Left(s: State, id: JobId, outcome: ToolOutcome): State {
    s.(jobs := s.jobs[id := Job(Returned(outcome), Dropped, Foreground, Empty, false)], runs := s.runs + [id],
       late := s.late + multiset{Started(id)}, returned := s.returned[id := outcome])
  }

  lemma LeavesStart(s: State, id: JobId, outcome: ToolOutcome)
    requires id !in s.jobs
    ensures var asked := Transferred(s, id);
            && Enabled(asked, DropWaiter(id))
            && var dropped := Next(asked, DropWaiter(id));
            && Enabled(dropped, BodyReturns(id, outcome))
            && Next(dropped, BodyReturns(id, outcome)) == Left(s, id, outcome)
  {
    hide Active;
    var dropped := Next(Transferred(s, id), DropWaiter(id));
    assert Next(dropped, BodyReturns(id, outcome)).jobs == Left(s, id, outcome).jobs;
  }

  /** The worker ends, and the session is unloaded. */
  lemma Unloads(s: State, id: JobId, outcome: ToolOutcome)
    requires s.jobs == map[] && s.mode.Serving?
    ensures var left := Left(s, id, outcome);
            && Enabled(left, WorkerLocks(id))
            && var ended := Next(left, WorkerLocks(id));
            Enabled(ended, Unload) && Next(ended, Unload) == left.(mode := Down, closed := false, jobs := map[])
  {
    var ended := Next(Left(s, id, outcome), WorkerLocks(id));
    assert ended.jobs.Keys == {id} && ended.jobs[id].worker.Ended?;
    assert Active(ended.jobs) == {};
  }

  /** The abandoned start lands between the next opening's scan and its end. */
  lemma LandsAfterScan(s: State, id: JobId)
    requires s.mode.Down? && Started(id) in s.late && Unfinished(s.log) == {}
    ensures var landed := Written(Scanned(s), Started(id)).(late := s.late - multiset{Started(id)});
            && Enabled(s, Reopen) && Next(s, Reopen) == Scanned(s)
            && Enabled(Scanned(s), LateWritten(Started(id)))
            && Next(Scanned(s), LateWritten(Started(id))) == landed
            && Enabled(landed, RecoverDone) && Next(landed, RecoverDone) == landed.(mode := Serving)
  {
    hide Unfinished, Active;
  }

  lemma LeftBehind(before: seq<Action>, id: JobId, outcome: ToolOutcome)
    requires Enabled(Run(before), Start(id)) && Run(before).jobs == map[]
    ensures var s := Run(before);
            Run(before + [Start(id)] + [InputArrives(id)] + [WaiterLocks(id)] + [DropWaiter(id)]
                + [BodyReturns(id, outcome)] + [WorkerLocks(id)] + [Unload])
            == s.(runs := s.runs + [id], late := s.late + multiset{Started(id)}, mode := Down, closed := false,
                  jobs := map[], returned := s.returned[id := outcome])
  {
    var s, asked := Run(before), before + [Start(id)] + [InputArrives(id)] + [WaiterLocks(id)];
    RunTransfers(before, id);
    assert s.mode.Serving?;
    hide Run, Next, Enabled, Transferred;
    LeavesStart(s, id, outcome);
    Unloads(s, id, outcome);
    RunMore(asked, DropWaiter(id));
    RunMore(asked + [DropWaiter(id)], BodyReturns(id, outcome));
    RunMore(asked + [DropWaiter(id)] + [BodyReturns(id, outcome)], WorkerLocks(id));
    RunMore(asked + [DropWaiter(id)] + [BodyReturns(id, outcome)] + [WorkerLocks(id)], Unload);
  }

  /** So a reachable run recovers, serves again, and has a started job without a finish. */
  lemma UnsettledIsReached()
    ensures exists actions ::
              Run(actions).mode.Serving? && Starts(Run(actions).log, 0) == 1 && Finishes(Run(actions).log, 0) == 0
  {
    var before := [Reopen, RecoverDone];
    Serves(before);
    assert Active(INITIAL.jobs) == {} && Enabled(Run(before), Start(0));
    LeftBehind(before, 0, Unknown);
    var down := before + [Start(0)] + [InputArrives(0)] + [WaiterLocks(0)] + [DropWaiter(0)]
                + [BodyReturns(0, Unknown)] + [WorkerLocks(0)] + [Unload];
    assert Run(down).log == [] && Started(0) in Run(down).late;
    hide Run, Next, Enabled;
    LandsAfterScan(Run(down), 0);
    RunMore(down, Reopen);
    RunMore(down + [Reopen], LateWritten(Started(0)));
    RunMore(down + [Reopen] + [LateWritten(Started(0))], RecoverDone);
    NoteCounts([], Started(0), 0);
    var all := down + [Reopen] + [LateWritten(Started(0))] + [RecoverDone];
    assert Run(all).log == [] + [Started(0)];
    assert Run(all).mode.Serving? && Starts(Run(all).log, 0) == 1 && Finishes(Run(all).log, 0) == 0;
  }
}
