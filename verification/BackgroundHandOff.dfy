/** Which jobs go to the background, and what becomes of them there, over every run of `BackgroundTools`
    (`src/application/background_tools.rs:94-202`). */
module BackgroundHandOff {
  import opened Prelude
  import opened BackgroundTools
  import opened BackgroundRecovery

  // ----- a job that is not handed over, and stays so -----

  /** The foreground will not hand the job over: it is cancelled, or waits for the result only, or is gone. */
  predicate PastHandOff(j: Job) {
    !j.waiter.Transferring? && (j.cancelled || j.waiter.Settling? || j.waiter.Answered? || j.waiter.Dropped?)
  }

  /** The job is past its hand-off, or gone, and no started event of it was written or left under way. */
  ghost predicate Barred(s: State, id: JobId) {
    && id in s.runs && Starts(s.log, id) == 0 && Started(id) !in s.late
    && (id in s.answers ==> !s.answers[id].Report?)
    && (id in s.jobs ==> PastHandOff(s.jobs[id]))
  }

  lemma BarredStays(s: State, a: Action, id: JobId)
    requires Barred(s, id) && Enabled(s, a)
    ensures Barred(Next(s, a), id)
  {
    hide Starts, Finishes, Unfinished, Active, Barred;
    if IsModeStep(a) {
      BarredByMode(s, a, id);
    } else {
      BarredByJob(s, a, id);
    }
  }

  lemma BarredByMode(s: State, a: Action, id: JobId)
    requires Barred(s, id) && Enabled(s, a) && IsModeStep(a)
    ensures Barred(Next(s, a), id)
  {
    hide Starts, Finishes, Unfinished, Active;
    if a.RecoverOne? || a.LateWritten? { NoteCounts(s.log, Last(Next(s, a).log), id); }
  }

  lemma BarredByJob(s: State, a: Action, id: JobId)
    requires Barred(s, id) && Enabled(s, a) && !IsModeStep(a)
    ensures Barred(Next(s, a), id)
  {
    hide Starts, Finishes, Unfinished, Active;
    if a.FinishWritten? || a.StartWritten? { NoteCounts(s.log, Last(Next(s, a).log), id); }
  }

  /** Once past its hand-off without a started event, a job never gets one and is never answered as going on,
      whatever happens. */
  lemma {:induction false} BarredForever(before: seq<Action>, after: seq<Action>, id: JobId)
    requires Barred(Run(before), id)
    ensures Barred(Run(before + after), id)
    decreases |after|
  {
    hide Run, Next, Enabled, Barred;
    if after == [] {
      assert before + after == before;
    } else {
      assert before + after == before + Front(after) + [Last(after)];
      BarredForever(before, Front(after), id);
      RunMore(before + Front(after), Last(after));
      if Enabled(Run(before + Front(after)), Last(after)) {
        BarredStays(Run(before + Front(after)), Last(after), id);
      }
    }
  }

  /** What takes a job past its hand-off: a cancellation, input that could not be listened for, and a started
      event that could not be written. */
  predicate GivesUp(a: Action, id: JobId) {
    a == Cancel(id) || a == InputLost(id) || a == StartRefused(id)
  }

  lemma GivenUpIsBarred(s: State, a: Action, id: JobId)
    requires Sound(s) && Enabled(s, a) && GivesUp(a, id)
    requires Starts(s.log, id) == 0 && (a.Cancel? ==> !s.jobs[id].waiter.Transferring?)
    requires Started(id) !in s.late
    ensures Barred(Next(s, a), id)
  {
    LedgerCounts(s.log, id);
    assert JobInv(s.jobs[id], id in Ledger(s.log).value, FinishedIn(s.log, id), AnswerOf(s, id));
    hide Starts, Ledger, Active;
  }

  /** A job cancelled while its foreground is not already writing the started event, or one whose input could
      not be listened for or whose started event was refused, stays in the foreground over every run. */
  lemma GivenUpStaysForeground(before: seq<Action>, a: Action, after: seq<Action>, id: JobId)
    requires GivesUp(a, id) && Enabled(Run(before), a)
    requires var s := Run(before);
             Starts(s.log, id) == 0 && Started(id) !in s.late && (a.Cancel? ==> !s.jobs[id].waiter.Transferring?)
    ensures var t := Run(before + [a] + after);
            Starts(t.log, id) == 0 && (id in t.answers ==> !t.answers[id].Report?)
  {
    hide Run, Next, Enabled, Barred;
    RunsAreSound(before);
    RunMore(before, a);
    GivenUpIsBarred(Run(before), a, id);
    BarredForever(before + [a], after, id);
    BarredNeverStarts(Run(before + [a] + after), id);
  }

  lemma BarredNeverStarts(s: State, id: JobId)
    requires Barred(s, id)
    ensures Starts(s.log, id) == 0 && (id in s.answers ==> !s.answers[id].Report?)
  {
  }

  /** A foreground that is asked for by input and gets the gate hands its job over if and only if the job is
      neither cancelled nor through: then the started event is written and the caller told that it goes on,
      unless something else comes in between; otherwise it waits for the result. */
  lemma HandsOverIff(before: seq<Action>, id: JobId)
    requires Enabled(Run(before), WaiterLocks(id))
    ensures var s, t := Run(before), Run(before + [WaiterLocks(id)]);
            && (t.jobs[id].waiter.Transferring? <==> s.jobs[id].phase.Foreground? && !s.jobs[id].cancelled)
            && (!t.jobs[id].waiter.Transferring? ==> t.jobs[id].waiter.Settling?)
            && t == s.(jobs := s.jobs[id := s.jobs[id].(waiter := t.jobs[id].waiter)])
    ensures var s, t := Run(before), Run(before + [WaiterLocks(id)] + [StartWritten(id)]);
            s.jobs[id].phase.Foreground? && !s.jobs[id].cancelled ==>
              && t.log == s.log + [Started(id)] && id in t.answers && t.answers[id] == Report
              && id in t.jobs && t.jobs[id].phase.Detached?
  {
    RunMore(before, WaiterLocks(id));
    RunMore(before + [WaiterLocks(id)], StartWritten(id));
    hide Run, Active;
  }

  // ----- no job hangs -----

  function WorkerToDo(w: Worker): nat {
    match w
    case Running => 3
    case Returned(_) => 2
    case Recording(_) => 1
    case Ended => 0
  }

  function WaiterToDo(w: Waiter): nat {
    match w
    case Asking => 2
    case Transferring => 1
    case Waiting => 1
    case Settling => 1
    case Answered => 0
    case Dropped => 0
  }

  function ToDo(j: Job): nat {
    WorkerToDo(j.worker) + WaiterToDo(j.waiter)
  }

  /** Steps of the job itself, in which nothing fails. */
  predicate Goes(a: Action, id: JobId) {
    || (a.BodyReturns? && a.id == id) || a == WorkerLocks(id) || a == FinishWritten(id)
    || a == WaiterLocks(id) || a == StartWritten(id) || a == WaiterReceives(id)
  }

  /** A job that is not through has a step of its own to take, and is nearer its end after it. */
  lemma GoesOn(s: State, id: JobId) returns (a: Action)
    requires Sound(s) && id in s.jobs && ToDo(s.jobs[id]) > 0
    ensures Enabled(s, a) && Goes(a, id) && id in Next(s, a).jobs && ToDo(Next(s, a).jobs[id]) < ToDo(s.jobs[id])
  {
    var j := s.jobs[id];
    assert JobInv(j, id in Ledger(s.log).value, FinishedIn(s.log, id), AnswerOf(s, id));
    hide Ledger, Completions, Unfinished, Active, Inv, LateOk;
    a := if j.worker.Running? then BodyReturns(id, Unknown)
         else if j.worker.Recording? then FinishWritten(id)
         else if j.waiter.Transferring? then StartWritten(id)
         else if j.worker.Returned? then WorkerLocks(id)
         else if j.waiter.Asking? then WaiterLocks(id)
         else WaiterReceives(id);
    GoesNearer(s, id, a);
  }

  lemma GoesNearer(s: State, id: JobId, a: Action)
    requires id in s.jobs && Enabled(s, a) && Goes(a, id)
    ensures id in Next(s, a).jobs && ToDo(Next(s, a).jobs[id]) < ToDo(s.jobs[id])
  {
    hide Active, Next, Enabled, ToDo;
    match a
    case BodyReturns(_, _) => WorkerNearer(s, id, a);
    case WorkerLocks(_) => WorkerNearer(s, id, a);
    case FinishWritten(_) => WorkerNearer(s, id, a);
    case _ => WaiterNearer(s, id, a);
  }

  lemma WorkerNearer(s: State, id: JobId, a: Action)
    requires id in s.jobs && Enabled(s, a) && Goes(a, id) && (a.BodyReturns? || a.WorkerLocks? || a.FinishWritten?)
    ensures id in Next(s, a).jobs && ToDo(Next(s, a).jobs[id]) < ToDo(s.jobs[id])
  {
    hide Active;
  }

  lemma WaiterNearer(s: State, id: JobId, a: Action)
    requires id in s.jobs && Enabled(s, a) && Goes(a, id) && (a.WaiterLocks? || a.StartWritten? || a.WaiterReceives?)
    ensures id in Next(s, a).jobs && ToDo(Next(s, a).jobs[id]) < ToDo(s.jobs[id])
  {
    hide Active;
  }

  /** From every point of every run a job in memory can come to its end by steps of its own: its worker is
      through and its foreground answered, if it is still there. */
  lemma {:induction false} EveryJobCanEnd(before: seq<Action>, id: JobId)
    requires id in Run(before).jobs
    ensures exists more :: id in Run(before + more).jobs && ToDo(Run(before + more).jobs[id]) == 0
    decreases ToDo(Run(before).jobs[id])
  {
    hide Run, Next, Enabled, Sound, ToDo;
    if ToDo(Run(before).jobs[id]) == 0 {
      assert before + [] == before;
      assert id in Run(before + []).jobs && ToDo(Run(before + []).jobs[id]) == 0;
    } else {
      RunsAreSound(before);
      var a := GoesOn(Run(before), id);
      RunMore(before, a);
      EveryJobCanEnd(before + [a], id);
      var more :| id in Run(before + [a] + more).jobs && ToDo(Run(before + [a] + more).jobs[id]) == 0;
      assert before + [a] + more == before + ([a] + more);
    }
  }

  // ----- a closed session starts nothing -----

  /** After a shutdown no tool body starts until the session is opened again. */
  lemma {:induction false} ClosedStartsNothing(before: seq<Action>, after: seq<Action>)
    requires Enabled(Run(before), Shutdown) && Reopen !in after
    ensures var t := Run(before + [Shutdown] + after);
            t.runs == Run(before).runs && (t.mode.Down? || t.closed) && !t.mode.Reopening?
    decreases |after|
  {
    hide Run, Next, Enabled;
    if after == [] {
      RunMore(before, Shutdown);
      ShutsDown(Run(before));
      assert before + [Shutdown] + after == before + [Shutdown];
    } else {
      var front, a := Front(after), Last(after);
      assert before + [Shutdown] + after == before + [Shutdown] + front + [a] && a in after;
      assert forall x :: x in front ==> x in after;
      ClosedStartsNothing(before, front);
      RunMore(before + [Shutdown] + front, a);
      if Enabled(Run(before + [Shutdown] + front), a) { ClosedStep(Run(before + [Shutdown] + front), a); }
    }
  }

  lemma ShutsDown(s: State)
    requires Enabled(s, Shutdown)
    ensures Next(s, Shutdown) == s.(closed := true) && s.mode.Serving?
  {
  }

  lemma ClosedStep(t: State, a: Action)
    requires Enabled(t, a) && (t.mode.Down? || t.closed) && !t.mode.Reopening? && !a.Reopen?
    ensures var u := Next(t, a); u.runs == t.runs && (u.mode.Down? || u.closed) && !u.mode.Reopening?
  {
    hide Active, Unfinished;
  }

  /** A tool body may start if and only if the session is open and serving, the job is new, and fewer than 32
      workers are alive; it then runs, with its foreground waiting, and nothing is written. */
  lemma StartsIff(s: State, id: JobId)
    ensures Enabled(s, Start(id)) <==> s.mode.Serving? && !s.closed && id !in s.runs && |Active(s.jobs)| < 32
    ensures Enabled(s, Start(id)) ==>
              && Next(s, Start(id)).runs == s.runs + [id] && Next(s, Start(id)).log == s.log
              && id in Next(s, Start(id)).jobs && ToDo(Next(s, Start(id)).jobs[id]) == 4
  {
    hide Active;
  }

  /** A session opened again after a crash or an unload has forgotten its jobs and is open for new ones. */
  lemma ReopenedServes(s: State, id: JobId)
    requires s.log == [] || Unfinished(s.log) == {}
    ensures var down := Next(s, Crash);
            && down.jobs == map[] && down.late == multiset{} && !down.closed && Enabled(down, Reopen)
            && var reopened := Next(down, Reopen);
            && Enabled(reopened, RecoverDone) && (Enabled(Next(reopened, RecoverDone), Start(id)) <==> id !in s.runs)
    ensures Enabled(s, Unload) ==> Next(s, Unload) == Next(s, Crash).(late := s.late)
  {
    hide Active, Unfinished;
    NothingActive();
  }

  lemma NothingActive()
    ensures Active(map[]) == {} && Unfinished([]) == {}
  {
  }

  // ----- what a job that is not disturbed comes to -----

  /** Nothing killed the job's worker and no write of its finish failed. */
  ghost predicate Undisturbed(actions: seq<Action>, id: JobId) {
    WorkerDies(id) !in actions && FinishRefused(id) !in actions
  }

  /** A job in memory whose worker is through: what the body returned is with its waiter, and, if the job was
      handed over, in the log and queued as well. */
  ghost predicate Settled(s: State, id: JobId) {
    id in s.jobs ==>
      var j := s.jobs[id];
      && (j.worker.Ended? ==>
            && id in s.returned && j.phase.Completed? && j.channel == Sent(s.returned[id])
            && (id in s.answers && s.answers[id].Report? ==> Finished(id, s.returned[id]) in s.log))
      && ((j.worker.Returned? || j.worker.Recording?) ==> id in s.returned && s.returned[id] == j.worker.outcome)
      && (!j.worker.Ended? ==> j.channel.Empty? && !j.phase.Completed?)
      && (id in s.answers && s.answers[id].Report? ==> !j.phase.Foreground?)
  }

  ghost predicate NeverLost(s: State, id: JobId) {
    id in s.answers ==> !s.answers[id].Lost?
  }

  /** Whatever else happens, a job's own facts stay. */
  lemma ElsewhereStays(s: State, t: State, id: JobId)
    requires Settled(s, id) && NeverLost(s, id) && s.log <= t.log
    requires id in t.jobs ==> id in s.jobs && t.jobs[id] == s.jobs[id]
    requires (id in t.returned <==> id in s.returned) && (id in s.returned ==> t.returned[id] == s.returned[id])
    requires (id in t.answers <==> id in s.answers) && (id in s.answers ==> t.answers[id] == s.answers[id])
    ensures Settled(t, id) && NeverLost(t, id)
  {
  }

  predicate Concerns(a: Action, id: JobId) {
    !IsModeStep(a) && a.id == id
  }

  lemma Elsewhere(s: State, a: Action, id: JobId)
    requires Enabled(s, a) && !Concerns(a, id)
    ensures var t := Next(s, a);
            && s.log <= t.log
            && (id in t.jobs ==> id in s.jobs && t.jobs[id] == s.jobs[id])
            && (id in t.returned <==> id in s.returned) && (id in s.returned ==> t.returned[id] == s.returned[id])
            && (id in t.answers <==> id in s.answers) && (id in s.answers ==> t.answers[id] == s.answers[id])
  {
    hide Active, Unfinished, Next, Enabled;
    if IsModeStep(a) { ModeElsewhere(s, a, id); } else { JobElsewhere(s, a, id); }
  }

  lemma ModeElsewhere(s: State, a: Action, id: JobId)
    requires Enabled(s, a) && IsModeStep(a)
    ensures var t := Next(s, a);
            && s.log <= t.log && (id in t.jobs ==> id in s.jobs && t.jobs[id] == s.jobs[id])
            && t.returned == s.returned && t.answers == s.answers
  {
    hide Next, Enabled;
    ModeStepChanges(s, a);
  }

  lemma JobElsewhere(s: State, a: Action, id: JobId)
    requires Enabled(s, a) && !IsModeStep(a) && a.id != id
    ensures var t := Next(s, a);
            && s.log <= t.log && (id in t.jobs <==> id in s.jobs) && (id in s.jobs ==> t.jobs[id] == s.jobs[id])
            && (id in t.returned <==> id in s.returned) && (id in s.returned ==> t.returned[id] == s.returned[id])
            && (id in t.answers <==> id in s.answers) && (id in s.answers ==> t.answers[id] == s.answers[id])
  {
    hide Active, Unfinished;
  }

  lemma StartSettles(s: State, id: JobId)
    requires Sound(s) && Enabled(s, Start(id))
    ensures Settled(Next(s, Start(id)), id) && NeverLost(Next(s, Start(id)), id)
  {
    hide Active, Unfinished, Ledger, Completions;
  }

  lemma WorkerSettles(s: State, a: Action, id: JobId)
    requires Settled(s, id) && NeverLost(s, id) && Enabled(s, a) && Concerns(a, id)
    requires a.BodyReturns? || a.WorkerLocks? || a.FinishWritten?
    requires s.jobs[id].worker.Recording? ==> s.jobs[id].phase.Detached?
    ensures Settled(Next(s, a), id) && NeverLost(Next(s, a), id)
  {
    hide Active, Unfinished;
  }

  lemma WaiterSettles(s: State, a: Action, id: JobId)
    requires Settled(s, id) && NeverLost(s, id) && Enabled(s, a) && Concerns(a, id)
    requires !a.Start? && !a.BodyReturns? && !a.WorkerLocks? && !a.FinishWritten? && !a.WorkerDies? && !a.FinishRefused?
    requires s.jobs[id].waiter.Transferring? ==> s.jobs[id].phase.Foreground?
    requires !s.jobs[id].channel.Closed? || s.jobs[id].worker.Ended?
    ensures Settled(Next(s, a), id) && NeverLost(Next(s, a), id)
  {
    hide Active, Unfinished;
  }

  lemma SettledStays(s: State, a: Action, id: JobId)
    requires Sound(s) && Settled(s, id) && NeverLost(s, id) && Enabled(s, a)
    requires a != WorkerDies(id) && a != FinishRefused(id)
    ensures Settled(Next(s, a), id) && NeverLost(Next(s, a), id)
  {
    hide Next, Enabled, Settled, NeverLost;
    if !Concerns(a, id) {
      Elsewhere(s, a, id);
      ElsewhereStays(s, Next(s, a), id);
    } else if a.Start? {
      StartSettles(s, id);
    } else {
      JobInMemory(s, a, id);
      JobFacts(s, id);
      if a.BodyReturns? || a.WorkerLocks? || a.FinishWritten? {
        WorkerSettles(s, a, id);
      } else {
        WaiterSettles(s, a, id);
      }
    }
  }

  lemma JobInMemory(s: State, a: Action, id: JobId)
    requires Enabled(s, a) && Concerns(a, id) && !a.Start?
    ensures id in s.jobs
  {
  }

  lemma JobFacts(s: State, id: JobId)
    requires Sound(s) && id in s.jobs
    ensures var j := s.jobs[id];
            && (j.worker.Recording? ==> j.phase.Detached?) && (j.waiter.Transferring? ==> j.phase.Foreground?)
            && (j.channel.Closed? ==> j.worker.Ended?)
  {
    assert JobInv(s.jobs[id], id in Ledger(s.log).value, FinishedIn(s.log, id), AnswerOf(s, id));
  }

  /** Over every run in which nothing kills a job's worker and no write of its finish fails: once its worker
      is through, the body's outcome waits for the foreground, and if the job was handed over it is in the
      log; and the caller is never told that the worker was lost. */
  lemma {:induction false} UndisturbedIsDelivered(actions: seq<Action>, id: JobId)
    requires Undisturbed(actions, id)
    ensures Settled(Run(actions), id) && NeverLost(Run(actions), id)
    decreases |actions|
  {
    hide Run, Next, Enabled, Settled, NeverLost, Sound;
    if actions == [] {
      assert Run(actions) == INITIAL by { NothingRun(actions); }
      assert Settled(INITIAL, id) && NeverLost(INITIAL, id) by { NothingSettled(id); }
    } else {
      var front, a := Front(actions), Last(actions);
      assert actions == front + [a] && a in actions && forall x :: x in front ==> x in actions;
      UndisturbedIsDelivered(front, id);
      RunMore(front, a);
      RunsAreSound(front);
      if Enabled(Run(front), a) { SettledStays(Run(front), a, id); }
    }
  }

  lemma NothingRun(actions: seq<Action>)
    requires actions == []
    ensures Run(actions) == INITIAL
  {
  }

  lemma NothingSettled(id: JobId)
    ensures Settled(INITIAL, id) && NeverLost(INITIAL, id)
  {
  }
}
