/** The hand-off of a running tool from a waiting run to the background.

    Models `src/application/background_tools.rs`: a worker that runs the tool body and a foreground
    that waits for it race through a gate with three phases; a detached job leaves a started event and
    later a finished event in the durable log, the latter in one transaction with the queued completion;
    and reopening a session pairs every unfinished start with an unknown outcome. Every `await` is a
    point where any other step may come, and a write may fail or be cut off by a crash. A write whose
    caller is dropped, the foreground's started event or recovery's finished one, is abandoned, not
    undone: it lands or fails later, whatever the session has become by then. */
module BackgroundTools {
  import opened Prelude

  const MAX_JOBS := 32

  type JobId = nat

  datatype ToolOutcome = Outcome(value: string) | Unknown

  /** The application's durable notes about background jobs. */
  datatype Note = Started(id: JobId) | Finished(id: JobId, outcome: ToolOutcome)

  datatype Completion = Completion(id: JobId, outcome: ToolOutcome)

  datatype Phase = Foreground | Detached | Completed

  datatype Worker =
    | Running                             // the tool body
    | Returned(outcome: ToolOutcome)      // waiting for the gate
    | Recording(outcome: ToolOutcome)     // holding the gate, writing the completion
    | Ended

  datatype Waiter =
    | Waiting                             // for a result, a cancellation or input
    | Asking                              // input came: waiting for the gate
    | Transferring                        // holding the gate, writing the started event
    | Settling                            // for a result only
    | Answered
    | Dropped

  datatype Channel = Empty | Sent(outcome: ToolOutcome) | Closed

  /** What `execute` returned: the tool's own outcome, the report that it goes on in the background, or
      that the worker stopped without one. */
  datatype Answer = Real(outcome: ToolOutcome) | Report | Lost

  datatype Job = Job(worker: Worker, waiter: Waiter, phase: Phase, channel: Channel, cancelled: bool)

  datatype Mode = Down | Reopening(todo: set<JobId>) | Serving

  datatype State = State(
    mode: Mode,
    closed: bool,
    jobs: map<JobId, Job>,
    log: seq<Note>,                       // durable
    queue: seq<Completion>,               // durable
    late: multiset<Note>,                 // abandoned writes still under way
    answers: map<JobId, Answer>,          // every answer ever given
    runs: seq<JobId>,                     // every tool body ever started
    returned: map<JobId, ToolOutcome>)    // what each tool body returned

  const INITIAL := State(Down, false, map[], [], [], multiset{}, map[], [], map[])

  predicate GateFree(j: Job) {
    !j.worker.Recording? && !j.waiter.Transferring?
  }

  function Active(jobs: map<JobId, Job>): set<JobId> {
    set id | id in jobs && !jobs[id].worker.Ended?
  }

  // ----- the durable log -----

  /** Which jobs the log has started, and whether each is finished; nothing when an event is out of
      place: a second start, or a finish without a start. */
  function Ledger(log: seq<Note>): Option<map<JobId, bool>> {
    if log == [] then Some(map[])
    else
      var before := Ledger(Front(log));
      if before.None? then None
      else
        match Last(log)
        case Started(id) => if id in before.value then None else Some(before.value[id := false])
        case Finished(id, _) => if id in before.value then Some(before.value[id := true]) else None
  }

  function Completions(log: seq<Note>): seq<Completion> {
    if log == [] then []
    else Completions(Front(log)) + if Last(log).Finished? then [Completion(Last(log).id, Last(log).outcome)] else []
  }

  function Starts(log: seq<Note>, id: JobId): nat {
    if log == [] then 0 else Starts(Front(log), id) + if Last(log) == Started(id) then 1 else 0
  }

  function Finishes(log: seq<Note>, id: JobId): nat {
    if log == [] then 0
    else Finishes(Front(log), id) + if Last(log).Finished? && Last(log).id == id then 1 else 0
  }

  /** The jobs recovery has to finish, as its scan of the log collects them. */
  function Unfinished(log: seq<Note>): set<JobId> {
    if log == [] then {}
    else
      match Last(log)
      case Started(id) => Unfinished(Front(log)) + {id}
      case Finished(id, _) => Unfinished(Front(log)) - {id}
  }

  /** In an orderly log every job starts at most once, and finishes only if it started; the scan finds
      exactly those that started and did not finish. */
  lemma {:induction false} LedgerCounts(log: seq<Note>, id: JobId)
    requires Ledger(log).Some?
    ensures var l := Ledger(log).value;
            && Starts(log, id) == (if id in l then 1 else 0)
            && (Finishes(log, id) > 0 <==> id in l && l[id])
            && (id in Unfinished(log) <==> id in l && !l[id])
    decreases |log|
  {
    if log != [] { LedgerCounts(Front(log), id); }
  }

  lemma {:induction false} CountsGrow(log: seq<Note>, k: nat, id: JobId)
    requires k <= |log|
    ensures Finishes(log[..k], id) <= Finishes(log, id)
    ensures k < |log| && log[k].Finished? && log[k].id == id ==> Finishes(log[..k], id) < Finishes(log, id)
    decreases |log|
  {
    if k == |log| {
      assert log[..k] == log;
    } else if k == |log| - 1 {
      assert log[..k] == Front(log);
    } else {
      assert log[..k] == Front(log)[..k] && Front(log)[k] == log[k];
      CountsGrow(Front(log), k, id);
    }
  }

  /** An orderly log has every finish after the start of the same job; and the only one is the first. */
  lemma {:induction false} FinishFollowsStart(log: seq<Note>, i: nat)
    requires Ledger(log).Some? && i < |log| && log[i].Finished?
    ensures Ledger(log[..i]).Some? && Starts(log[..i], log[i].id) == 1
    ensures Finishes(log, log[i].id) == 1 ==> Finishes(log[..i], log[i].id) == 0
    decreases |log|
  {
    CountsGrow(log, i, log[i].id);
    if i == |log| - 1 {
      assert log[..i] == Front(log);
      LedgerCounts(Front(log), log[i].id);
    } else {
      assert log[..i] == Front(log)[..i] && Front(log)[i] == log[i];
      FinishFollowsStart(Front(log), i);
    }
  }

  /** The scan of the log page by page, with a map of the jobs still open. */
  method ScanUnfinished(log: seq<Note>) returns (pending: set<JobId>)
    ensures pending == Unfinished(log)
  {
    pending := {};
    for i := 0 to |log|
      invariant pending == Unfinished(log[..i])
    {
      assert Front(log[..i + 1]) == log[..i] && Last(log[..i + 1]) == log[i];
      match log[i]
      case Started(id) => pending := pending + {id};
      case Finished(id, _) => pending := pending - {id};
    }
    assert log[..|log|] == log;
  }

  // ----- steps -----

  datatype Action =
    | Start(id: JobId)
    | BodyReturns(id: JobId, outcome: ToolOutcome)
    | WorkerDies(id: JobId)
    | WorkerLocks(id: JobId)
    | FinishWritten(id: JobId)
    | FinishRefused(id: JobId)
    | InputArrives(id: JobId)
    | InputLost(id: JobId)
    | WaiterLocks(id: JobId)
    | StartWritten(id: JobId)
    | StartRefused(id: JobId)
    | WaiterReceives(id: JobId)
    | Cancel(id: JobId)
    | DropWaiter(id: JobId)
    | LateWritten(note: Note)
    | LateRefused(note: Note)
    | Shutdown
    | Crash
    | Unload
    | Reopen
    | RecoverOne(id: JobId)
    | RecoverStops
    | OpenerDropped(id: JobId)            // while the finish of `id` is being written
    | RecoverDone

  predicate Enabled(s: State, a: Action) {
    match a
    case Start(id) => s.mode.Serving? && !s.closed && id !in s.runs && |Active(s.jobs)| < MAX_JOBS
    case BodyReturns(id, _) => id in s.jobs && s.jobs[id].worker.Running?
    case WorkerDies(id) => id in s.jobs && !s.jobs[id].worker.Ended?
    case WorkerLocks(id) => id in s.jobs && s.jobs[id].worker.Returned? && GateFree(s.jobs[id])
    case FinishWritten(id) => id in s.jobs && s.jobs[id].worker.Recording?
    case FinishRefused(id) => id in s.jobs && s.jobs[id].worker.Recording?
    case InputArrives(id) => id in s.jobs && s.jobs[id].waiter.Waiting?
    case InputLost(id) => id in s.jobs && s.jobs[id].waiter.Waiting?
    case WaiterLocks(id) => id in s.jobs && s.jobs[id].waiter.Asking? && GateFree(s.jobs[id])
    case StartWritten(id) => id in s.jobs && s.jobs[id].waiter.Transferring?
    case StartRefused(id) => id in s.jobs && s.jobs[id].waiter.Transferring?
    case WaiterReceives(id) =>
      id in s.jobs && (s.jobs[id].waiter.Waiting? || s.jobs[id].waiter.Settling?) && !s.jobs[id].channel.Empty?
    case Cancel(id) => id in s.jobs
    case DropWaiter(id) => id in s.jobs && !s.jobs[id].waiter.Answered? && !s.jobs[id].waiter.Dropped?
    case LateWritten(note) => note in s.late
    case LateRefused(note) => note in s.late
    case Shutdown => s.mode.Serving?
    case Crash => true
    case Unload => s.mode.Serving? && Active(s.jobs) == {}
    case Reopen => s.mode.Down?
    case RecoverOne(id) => s.mode.Reopening? && id in s.mode.todo
    case RecoverStops => s.mode.Reopening?
    case OpenerDropped(id) => s.mode.Reopening? && id in s.mode.todo
    case RecoverDone => s.mode.Reopening? && s.mode.todo == {}
  }

  function WithJob(s: State, id: JobId, j: Job): State {
    s.(jobs := s.jobs[id := j])
  }

  /** The log with a note more, and the completion queued that a finish comes with. */
  function Written(s: State, note: Note): State {
    s.(log := s.log + [note],
       queue := if note.Finished? then s.queue + [Completion(note.id, note.outcome)] else s.queue)
  }

  function Next(s: State, a: Action): State
    requires Enabled(s, a)
  {
    match a
    case Start(id) =>
      s.(jobs := s.jobs[id := Job(Running, Waiting, Foreground, Empty, false)], runs := s.runs + [id])
    case BodyReturns(id, o) =>
      WithJob(s, id, s.jobs[id].(worker := Returned(o))).(returned := s.returned[id := o])
    case WorkerDies(id) => WithJob(s, id, s.jobs[id].(worker := Ended, channel := Closed))
    case WorkerLocks(id) =>
      var j := s.jobs[id];
      if j.phase.Detached? then WithJob(s, id, j.(worker := Recording(j.worker.outcome)))
      else WithJob(s, id, j.(worker := Ended, phase := Completed, channel := Sent(j.worker.outcome)))
    case FinishWritten(id) =>
      var j := s.jobs[id];
      WithJob(s, id, j.(worker := Ended, phase := Completed, channel := Sent(j.worker.outcome)))
      .(log := s.log + [Finished(id, j.worker.outcome)], queue := s.queue + [Completion(id, j.worker.outcome)])
    case FinishRefused(id) =>
      var j := s.jobs[id];
      WithJob(s, id, j.(worker := Ended, phase := Completed, channel := Sent(j.worker.outcome)))
    case InputArrives(id) => WithJob(s, id, s.jobs[id].(waiter := Asking))
    case InputLost(id) => WithJob(s, id, s.jobs[id].(waiter := Settling))
    case WaiterLocks(id) =>
      var j := s.jobs[id];
      WithJob(s, id, j.(waiter := if j.phase.Foreground? && !j.cancelled then Transferring else Settling))
    case StartWritten(id) =>
      WithJob(s, id, s.jobs[id].(waiter := Answered, phase := Detached))
      .(log := s.log + [Started(id)], answers := s.answers[id := Report])
    case StartRefused(id) => WithJob(s, id, s.jobs[id].(waiter := Settling))
    case WaiterReceives(id) =>
      var j := s.jobs[id];
      WithJob(s, id, j.(waiter := Answered))
      .(answers := s.answers[id := if j.channel.Sent? then Real(j.channel.outcome) else Lost])
    case Cancel(id) =>
      var j := s.jobs[id];
      WithJob(s, id, j.(cancelled := true, waiter := if j.waiter.Waiting? then Settling else j.waiter))
    case DropWaiter(id) =>
      var j := s.jobs[id];
      WithJob(s, id, j.(waiter := Dropped))
      .(late := if j.waiter.Transferring? then s.late + multiset{Started(id)} else s.late)
    case LateWritten(note) => Written(s, note).(late := s.late - multiset{note})
    case LateRefused(note) => s.(late := s.late - multiset{note})
    case Shutdown => s.(closed := true)
    case Crash => s.(mode := Down, closed := false, jobs := map[], late := multiset{})
    case Unload => s.(mode := Down, closed := false, jobs := map[])
    case Reopen => s.(mode := Reopening(Unfinished(s.log)))
    case RecoverOne(id) => Written(s, Finished(id, Unknown)).(mode := Reopening(s.mode.todo - {id}))
    case RecoverStops => s.(mode := Down)
    case OpenerDropped(id) => s.(mode := Down, late := s.late + multiset{Finished(id, Unknown)})
    case RecoverDone => s.(mode := Serving)
  }

  // ----- what every step keeps -----

  /** One job against the log and the answers: `started` and `finished` say what the log holds. */
  ghost predicate JobInv(j: Job, started: bool, finished: bool, answer: Option<Answer>) {
    && (j.waiter.Answered? <==> answer.Some?)
    && (finished ==> j.phase.Completed? && answer == Some(Report))
    && (j.phase.Detached? ==> started && answer == Some(Report))
    && (j.worker.Recording? ==> j.phase.Detached?)
    && (j.waiter.Transferring? ==> j.phase.Foreground?)
    && (started ==> answer == Some(Report) || (j.waiter.Dropped? && !j.phase.Detached?))
    && (answer == Some(Report) ==> started && !j.phase.Foreground?)
    && (j.phase.Completed? <==> j.channel.Sent?)
    && (j.phase.Completed? ==> j.worker.Ended?)
    && (j.channel.Closed? ==> j.worker.Ended?)
    && (j.worker.Ended? ==> !j.channel.Empty?)
  }

  ghost predicate Inv(s: State) {
    && Ledger(s.log).Some?
    && s.queue == Completions(s.log)
    && Distinct(s.runs)
    && (forall id :: id in s.jobs || id in Ledger(s.log).value || id in s.answers ==> id in s.runs)
    && (forall id :: id in s.jobs ==>
          JobInv(s.jobs[id], id in Ledger(s.log).value, FinishedIn(s.log, id), AnswerOf(s, id)))
    && (forall id :: id in s.answers && !s.answers[id].Report? ==> id !in Ledger(s.log).value)
    && (!s.mode.Serving? ==> s.jobs == map[])
    && (s.mode.Reopening? ==> s.mode.todo <= Ledger(s.log).value.Keys)
    && |Active(s.jobs)| <= MAX_JOBS
  }

  ghost predicate FinishedIn(log: seq<Note>, id: JobId)
    requires Ledger(log).Some?
  {
    id in Ledger(log).value && Ledger(log).value[id]
  }

  ghost function AnswerOf(s: State, id: JobId): Option<Answer> {
    if id in s.answers then Some(s.answers[id]) else None
  }

  lemma AppendNote(log: seq<Note>, e: Note)
    ensures Front(log + [e]) == log && Last(log + [e]) == e
  {
  }

  /** Replacing one job by another that fits the log and the answers as they are. */
  lemma ReplaceJob(s: State, id: JobId, j: Job, late: multiset<Note>, returned: map<JobId, ToolOutcome>)
    requires Inv(s) && id in s.jobs && (s.jobs[id].worker.Ended? ==> j.worker.Ended?)
    requires JobInv(j, id in Ledger(s.log).value, FinishedIn(s.log, id), AnswerOf(s, id))
    ensures Inv(WithJob(s, id, j).(late := late, returned := returned))
  {
    hide JobInv, Ledger, Completions, Unfinished;
    var t := WithJob(s, id, j).(late := late, returned := returned);
    assert Active(t.jobs) <= Active(s.jobs);
    ActiveShrinks(t.jobs, s.jobs);
    assert forall k :: AnswerOf(t, k) == AnswerOf(s, k);
  }

  lemma ActiveShrinks(small: map<JobId, Job>, large: map<JobId, Job>)
    requires Active(small) <= Active(large)
    ensures |Active(small)| <= |Active(large)|
  {
    assert Active(large) == Active(small) + (Active(large) - Active(small));
  }

  /** A step that writes nothing and answers nothing, on one job. */
  lemma QuietStepKeepsInv(s: State, a: Action)
    requires Inv(s) && Enabled(s, a)
    requires a.BodyReturns? || a.WorkerDies? || a.WorkerLocks? || a.FinishRefused? || a.InputArrives? || a.InputLost?
             || a.WaiterLocks? || a.StartRefused? || a.Cancel? || a.DropWaiter?
    ensures Inv(Next(s, a))
  {
    var j := Next(s, a).jobs[a.id];
    JobStepKeepsInv(s, a);
    ReplaceJob(s, a.id, j, Next(s, a).late, Next(s, a).returned);
    assert Next(s, a) == WithJob(s, a.id, j).(late := Next(s, a).late, returned := Next(s, a).returned);
  }

  lemma JobStepKeepsInv(s: State, a: Action)
    requires Enabled(s, a) && Ledger(s.log).Some?
    requires a.BodyReturns? || a.WorkerDies? || a.WorkerLocks? || a.FinishRefused? || a.InputArrives? || a.InputLost?
             || a.WaiterLocks? || a.StartRefused? || a.Cancel? || a.DropWaiter?
    requires JobInv(s.jobs[a.id], a.id in Ledger(s.log).value, FinishedIn(s.log, a.id), AnswerOf(s, a.id))
    ensures var j := Next(s, a).jobs[a.id];
            && JobInv(j, a.id in Ledger(s.log).value, FinishedIn(s.log, a.id), AnswerOf(s, a.id))
            && (s.jobs[a.id].worker.Ended? ==> j.worker.Ended?)
  {
  }

  /** Writing a note about one job, and answering its caller, leaves the other jobs' facts alone. */
  lemma ReplaceJobWriting(s: State, id: JobId, j: Job, note: Note, answers: map<JobId, Answer>)
    requires Inv(s) && id in s.jobs && (s.jobs[id].worker.Ended? ==> j.worker.Ended?)
    requires note.id == id && Ledger(s.log + [note]).Some?
    requires answers == s.answers || answers == s.answers[id := Report]
    requires var t := WithJob(s, id, j).(log := s.log + [note], answers := answers);
             JobInv(j, true, note.Finished?, AnswerOf(t, id))
    requires id in answers ==> answers[id].Report?
    ensures Inv(WithJob(s, id, j).(log := s.log + [note], answers := answers, queue := Completions(s.log + [note])))
  {
    hide JobInv, Completions, Unfinished, Ledger, FinishedIn;
    var t := WithJob(s, id, j).(log := s.log + [note], answers := answers, queue := Completions(s.log + [note]));
    NoteElsewhere(s.log, note);
    FewerActive(s, id, j);
    JobsFit(s, t, id, note);
    hide AnswerOf, Active;
  }

  lemma JobsFit(s: State, t: State, id: JobId, note: Note)
    requires Inv(s) && id in s.jobs && id in t.jobs && t.jobs == s.jobs[id := t.jobs[id]]
    requires note.id == id && t.log == s.log + [note] && Ledger(t.log).Some?
    requires t.answers == s.answers || t.answers == s.answers[id := Report]
    requires JobInv(t.jobs[id], true, note.Finished?, AnswerOf(t, id))
    ensures forall k :: k in t.jobs ==>
              JobInv(t.jobs[k], k in Ledger(t.log).value, FinishedIn(t.log, k), AnswerOf(t, k))
  {
    hide JobInv, Completions, Unfinished, Ledger, FinishedIn, Active;
    NoteElsewhere(s.log, note);
    forall k | k in t.jobs
      ensures JobInv(t.jobs[k], k in Ledger(t.log).value, FinishedIn(t.log, k), AnswerOf(t, k))
    {
      if k != id { assert AnswerOf(t, k) == AnswerOf(s, k); }
    }
  }

  lemma FewerActive(s: State, id: JobId, j: Job)
    requires id in s.jobs && (s.jobs[id].worker.Ended? ==> j.worker.Ended?)
    ensures |Active(WithJob(s, id, j).jobs)| <= |Active(s.jobs)|
  {
    var jobs := WithJob(s, id, j).jobs;
    assert Active(jobs) <= Active(s.jobs);
    ActiveShrinks(jobs, s.jobs);
  }

  /** A note changes what the log says of its own job only. */
  lemma NoteElsewhere(log: seq<Note>, note: Note)
    requires Ledger(log + [note]).Some?
    ensures Ledger(log).Some? && note.id in Ledger(log + [note]).value
    ensures FinishedIn(log + [note], note.id) == note.Finished?
    ensures forall k :: k != note.id ==>
              && (k in Ledger(log + [note]).value <==> k in Ledger(log).value)
              && FinishedIn(log + [note], k) == FinishedIn(log, k)
  {
    AppendNote(log, note);
  }

  /** A step that writes to the log or answers the caller. */
  lemma WritingStepKeepsInv(s: State, a: Action)
    requires Inv(s) && Enabled(s, a)
    requires a.FinishWritten? || a.StartWritten?
    ensures Inv(Next(s, a))
  {
    hide Inv, JobInv, Next, Enabled, FinishedIn, Completions, Ledger;
    var t := Next(s, a);
    WritingJobStep(s, a);
    WritingShape(s, a);
    ReplaceJobWriting(s, a.id, t.jobs[a.id], Last(t.log), t.answers);
  }

  /** All such a step changes. */
  lemma WritingShape(s: State, a: Action)
    requires Inv(s) && Enabled(s, a)
    requires a.FinishWritten? || a.StartWritten?
    ensures var t := Next(s, a);
            && a.id in s.jobs && a.id in t.jobs && t.log != [] && Last(t.log).id == a.id
            && Ledger(s.log + [Last(t.log)]).Some?
            && (t.answers == s.answers || t.answers == s.answers[a.id := Report])
            && t == WithJob(s, a.id, t.jobs[a.id]).(log := s.log + [Last(t.log)], answers := t.answers,
                                                    queue := Completions(s.log + [Last(t.log)]))
  {
    hide JobInv, Unfinished, FinishedIn, AnswerOf, Active, Ledger, Completions;
    assert s.queue == Completions(s.log);
    hide Inv;
    WritingWrites(s, a);
    WritingFits(s, a, Last(Next(s, a).log));
  }

  lemma WritingWrites(s: State, a: Action)
    requires Enabled(s, a) && s.queue == Completions(s.log)
    requires a.FinishWritten? || a.StartWritten?
    ensures var t := Next(s, a);
            && a.id in s.jobs && a.id in t.jobs && t.log != []
            && Last(t.log).id == a.id && Last(t.log).Finished? == a.FinishWritten?
            && (t.answers == s.answers || t.answers == s.answers[a.id := Report])
            && t == WithJob(s, a.id, t.jobs[a.id]).(log := s.log + [Last(t.log)], answers := t.answers,
                                                    queue := Completions(s.log + [Last(t.log)]))
  {
    var note := if a.FinishWritten? then Finished(a.id, s.jobs[a.id].worker.outcome) else Started(a.id);
    AppendNote(s.log, note);
  }

  lemma WritingFits(s: State, a: Action, note: Note)
    requires Inv(s) && Enabled(s, a)
    requires a.FinishWritten? || a.StartWritten?
    requires note.id == a.id && note.Finished? == a.FinishWritten?
    ensures Ledger(s.log + [note]).Some?
  {
    WritingJobStep(s, a);
    hide Inv, Next, Enabled, JobInv, Unfinished, Completions, AnswerOf;
    AppendNote(s.log, note);
  }

  lemma WritingJobStep(s: State, a: Action)
    requires Inv(s) && Enabled(s, a)
    requires a.FinishWritten? || a.StartWritten?
    ensures var t := Next(s, a);
            && t.log != [] && JobInv(t.jobs[a.id], true, Last(t.log).Finished?, AnswerOf(t, a.id))
            && (a.FinishWritten? ==> a.id in Ledger(s.log).value) && !FinishedIn(s.log, a.id)
            && (!a.FinishWritten? ==> a.id !in Ledger(s.log).value)
            && (s.jobs[a.id].worker.Ended? ==> t.jobs[a.id].worker.Ended?)
            && (a.id in t.answers ==> t.answers[a.id].Report?)
  {
    hide Completions, Unfinished, Ledger;
    assert JobInv(s.jobs[a.id], a.id in Ledger(s.log).value, FinishedIn(s.log, a.id), AnswerOf(s, a.id));
  }

  /** An answer taken from the channel is of a job the log does not know. */
  lemma ReceiveFits(j: Job, started: bool, finished: bool)
    requires JobInv(j, started, finished, None) && (j.waiter.Waiting? || j.waiter.Settling?) && !j.channel.Empty?
    ensures var answer := if j.channel.Sent? then Real(j.channel.outcome) else Lost;
            !started && JobInv(j.(waiter := Answered), started, finished, Some(answer))
  {
  }

  lemma AnswerKeepsInv(s: State, t: State, id: JobId, j: Job, answer: Answer)
    requires Inv(s) && id in s.jobs && id !in s.answers && j.worker == s.jobs[id].worker
    requires t == s.(jobs := s.jobs[id := j], answers := s.answers[id := answer])
    requires id !in Ledger(s.log).value && JobInv(j, false, false, Some(answer))
    ensures Inv(t)
  {
    hide JobInv, Ledger, Completions, Unfinished;
    assert Active(t.jobs) == Active(s.jobs);
    assert forall k :: k != id ==> AnswerOf(t, k) == AnswerOf(s, k);
  }

  lemma ReceiveKeepsInv(s: State, a: Action)
    requires Inv(s) && Enabled(s, a) && a.WaiterReceives?
    ensures Inv(Next(s, a))
  {
    hide Ledger, Completions, Unfinished, Active;
    var j, t := s.jobs[a.id], Next(s, a);
    assert JobInv(j, a.id in Ledger(s.log).value, FinishedIn(s.log, a.id), AnswerOf(s, a.id));
    ReceiveFits(j, a.id in Ledger(s.log).value, FinishedIn(s.log, a.id));
    AnswerKeepsInv(s, t, a.id, t.jobs[a.id], t.answers[a.id]);
  }

  lemma NewJobFits()
    ensures JobInv(Job(Running, Waiting, Foreground, Empty, false), false, false, None)
  {
  }

  lemma OneMoreActive(jobs: map<JobId, Job>, id: JobId, j: Job)
    requires id !in jobs
    ensures |Active(jobs[id := j])| <= |Active(jobs)| + 1
  {
    assert Active(jobs[id := j]) <= Active(jobs) + {id};
    assert Active(jobs[id := j]) == Active(jobs) + {id} || Active(jobs[id := j]) == Active(jobs);
  }

  lemma StartKeepsInv(s: State, a: Action)
    requires Inv(s) && Enabled(s, a) && a.Start?
    ensures Inv(Next(s, a))
  {
    hide Completions, Unfinished, Ledger, JobInv, Active;
    var t := Next(s, a);
    NewJobFits();
    OneMoreActive(s.jobs, a.id, t.jobs[a.id]);
    assert a.id !in Ledger(s.log).value && AnswerOf(s, a.id) == None;
    assert forall k :: AnswerOf(t, k) == AnswerOf(s, k);
  }

  /** What writing a finish does to an orderly log. */
  lemma FinishNote(log: seq<Note>, id: JobId, outcome: ToolOutcome)
    requires Ledger(log).Some? && id in Unfinished(log)
    ensures id in Ledger(log).value
    ensures Ledger(log + [Finished(id, outcome)]) == Some(Ledger(log).value[id := true])
    ensures Unfinished(log + [Finished(id, outcome)]) == Unfinished(log) - {id}
    ensures Completions(log + [Finished(id, outcome)]) == Completions(log) + [Completion(id, outcome)]
  {
    LedgerCounts(log, id);
    AppendNote(log, Finished(id, outcome));
  }

  /** The durable half of a session's background jobs. */
  class Journal {
    var log: seq<Note>
    var queue: seq<Completion>

    ghost predicate Valid()
      reads this
    {
      Ledger(log).Some? && queue == Completions(log)
    }

    constructor ()
      ensures Valid() && log == []
    {
      log, queue := [], [];
    }

    /** The finished event and its queued completion, in one transaction. */
    method Finish(id: JobId, outcome: ToolOutcome)
      requires Valid() && id in Unfinished(log)
      modifies this
      ensures Valid() && log == old(log) + [Finished(id, outcome)]
      ensures Unfinished(log) == Unfinished(old(log)) - {id}
    {
      FinishNote(log, id, outcome);
      log, queue := log + [Finished(id, outcome)], queue + [Completion(id, outcome)];
    }

    /** Pairs every unfinished start with an unknown outcome; the write number `failAt` fails and ends it.
        What it adds are unknown finishes of unfinished jobs, each once, so it may be tried again. */
    method Recover(failAt: nat) returns (ok: bool)
      requires Valid()
      modifies this
      ensures Valid() && old(log) <= log && Unfinished(log) <= Unfinished(old(log))
      ensures forall i :: |old(log)| <= i < |log| ==>
                log[i].Finished? && log[i].outcome.Unknown? && log[i].id in Unfinished(old(log))
      ensures ok ==> Unfinished(log) == {} && |log| == |old(log)| + |Unfinished(old(log))|
    {
      var todo := ScanUnfinished(log);
      hide Ledger, Completions, Unfinished;
      var written := 0;
      while todo != {}
        invariant Valid() && old(log) <= log && todo == Unfinished(log) <= Unfinished(old(log))
        invariant |log| + |todo| == |old(log)| + |Unfinished(old(log))|
        invariant forall i :: |old(log)| <= i < |log| ==>
                    log[i].Finished? && log[i].outcome.Unknown? && log[i].id in Unfinished(old(log))
        decreases |todo|
      {
        if written == failAt { return false; }
        var id :| id in todo;
        Finish(id, Unknown);
        todo, written := todo - {id}, written + 1;
      }
      return true;
    }
  }

  /** A note about a job that is not in memory. */
  lemma ForeignNoteKeepsInv(s: State, note: Note)
    requires Inv(s) && note.id !in s.jobs && note.id in s.runs && Ledger(s.log + [note]).Some?
    requires note.Started? ==> note.id !in s.answers
    ensures Inv(Written(s, note)) && Ledger(s.log).value.Keys <= Ledger(s.log + [note]).value.Keys
  {
    hide JobInv, Completions, Unfinished, Ledger, FinishedIn;
    NoteElsewhere(s.log, note);
    NoteCompletes(s.log, note);
    KeysStay(s.log, note);
    assert forall k :: AnswerOf(Written(s, note), k) == AnswerOf(s, k);
  }

  lemma NoteCompletes(log: seq<Note>, note: Note)
    ensures Completions(log + [note])
            == if note.Finished? then Completions(log) + [Completion(note.id, note.outcome)] else Completions(log)
  {
    AppendNote(log, note);
  }

  lemma KeysStay(log: seq<Note>, note: Note)
    requires Ledger(log + [note]).Some?
    ensures Ledger(log).Some? && Ledger(log).value.Keys <= Ledger(log + [note]).value.Keys
    ensures note.Finished? ==> note.id in Ledger(log).value
  {
    AppendNote(log, note);
  }

  lemma NoteFits(log: seq<Note>, note: Note)
    requires Ledger(log).Some? && (note.Started? <==> note.id !in Ledger(log).value)
    ensures Ledger(log + [note]).Some?
  {
    AppendNote(log, note);
  }

  lemma RecoverOneKeepsInv(s: State, id: JobId)
    requires Inv(s) && Enabled(s, RecoverOne(id))
    ensures Inv(Next(s, RecoverOne(id)))
  {
    hide JobInv, Ledger, Completions, Unfinished, FinishedIn;
    assert id in Ledger(s.log).value;
    NoteFits(s.log, Finished(id, Unknown));
    ForeignNoteKeepsInv(s, Finished(id, Unknown));
    ModeKeepsInv(Written(s, Finished(id, Unknown)), Next(s, RecoverOne(id)));
  }

  /** Changing the mode or forgetting every job in memory, or abandoned writes, keeps what the log and the
      answers say. */
  lemma ModeKeepsInv(s: State, t: State)
    requires Inv(s) && t == s.(mode := t.mode, closed := t.closed, jobs := t.jobs, late := t.late)
    requires t.jobs == s.jobs || t.jobs == map[]
    requires !t.mode.Serving? ==> t.jobs == map[]
    requires t.mode.Reopening? ==> t.mode.todo <= Ledger(t.log).value.Keys
    ensures Inv(t)
  {
    hide Completions, Unfinished, Ledger, JobInv;
    assert Active(t.jobs) == Active(s.jobs) || Active(t.jobs) == {};
    assert forall k :: AnswerOf(t, k) == AnswerOf(s, k);
  }

  lemma ReopenKeepsInv(s: State)
    requires Inv(s) && s.mode.Down?
    ensures Inv(Next(s, Reopen))
  {
    forall id | id in Unfinished(s.log) ensures id in Ledger(s.log).value { LedgerCounts(s.log, id); }
    ModeKeepsInv(s, Next(s, Reopen));
  }

  // ----- abandoned writes -----

  /** An abandoned start is of a job that is not started in the log, was not answered and will not be, and
      that nothing else starts; an abandoned finish is recovery's, of a started job of an earlier opening. */
  ghost predicate LateNote(s: State, note: Note)
    requires Ledger(s.log).Some?
  {
    if note.Started? then
      && s.late[note] == 1 && note.id in s.runs && note.id !in Ledger(s.log).value && note.id !in s.answers
      && (note.id in s.jobs ==> s.jobs[note.id].waiter.Dropped? && !s.jobs[note.id].phase.Detached?)
    else note.outcome.Unknown? && note.id in Ledger(s.log).value && note.id !in s.jobs
  }

  ghost predicate LateOk(s: State)
    requires Ledger(s.log).Some?
  {
    forall note :: note in s.late ==> LateNote(s, note)
  }

  ghost predicate Sound(s: State) {
    Inv(s) && LateOk(s)
  }

  lemma LateWrittenKeepsInv(s: State, note: Note)
    requires Sound(s) && note in s.late
    ensures Inv(Next(s, LateWritten(note))) && Ledger(s.log + [note]).Some?
  {
    assert LateNote(s, note);
    var t := Next(s, LateWritten(note));
    NoteFits(s.log, note);
    if note.id in s.jobs {
      StartLandsAtJob(s, note);
    } else {
      hide Inv, JobInv, Ledger, Completions, Unfinished;
      assert note.id in s.runs by { RunsKnown(s, note.id); }
      ForeignNoteKeepsInv(s, note);
    }
    ModeKeepsInv(Written(s, note), t);
  }

  lemma RunsKnown(s: State, id: JobId)
    requires Inv(s) && (id in Ledger(s.log).value || id in s.runs)
    ensures id in s.runs
  {
  }

  lemma StartLandsAtJob(s: State, note: Note)
    requires Inv(s) && note.Started? && note.id in s.jobs && Ledger(s.log + [note]).Some? && LateNote(s, note)
    ensures Inv(Written(s, note))
  {
    var id := note.id;
    var j := s.jobs[id];
    assert JobInv(j, false, FinishedIn(s.log, id), AnswerOf(s, id));
    assert JobInv(j, true, false, None);
    hide JobInv, Ledger, Completions, Unfinished, FinishedIn;
    NoteCompletes(s.log, note);
    assert s.jobs[id := j] == s.jobs;
    ReplaceJobWriting(s, id, j, note, s.answers);
  }

  /** A step that writes nothing and answers nothing, on one job or none. */
  lemma QuietKeepsLateNote(s: State, a: Action, note: Note)
    requires Ledger(s.log).Some? && Enabled(s, a) && note in s.late && LateNote(s, note) && IsQuiet(a)
    ensures LateNote(Next(s, a), note)
  {
    hide Ledger, Active;
  }

  predicate IsQuiet(a: Action) {
    || a.BodyReturns? || a.WorkerDies? || a.WorkerLocks? || a.FinishRefused? || a.InputArrives? || a.InputLost?
    || a.WaiterLocks? || a.StartRefused? || a.Cancel?
  }

  lemma WritingKeepsLateNote(s: State, a: Action, note: Note)
    requires Sound(s) && Enabled(s, a) && note in s.late
    requires a.FinishWritten? || a.StartWritten? || a.WaiterReceives? || a.Start?
    requires Ledger(Next(s, a).log).Some?
    ensures LateNote(Next(s, a), note)
  {
    hide Ledger, Active, Completions;
    assert LateNote(s, note);
    var t := Next(s, a);
    if note.id in s.jobs {
      assert JobInv(s.jobs[note.id], note.id in Ledger(s.log).value, FinishedIn(s.log, note.id), AnswerOf(s, note.id));
    }
    hide Inv;
    if t.log != s.log { LogGrows(s.log, t.log); }
  }

  lemma ModeKeepsLateNote(s: State, a: Action, note: Note)
    requires Ledger(s.log).Some? && LateNote(s, note) && Enabled(s, a) && note in s.late && note in Next(s, a).late
    requires IsModeStep(a) && !a.LateWritten? && !a.OpenerDropped? && !a.RecoverOne?
    ensures LateNote(Next(s, a), note)
  {
    hide Ledger, Active, Unfinished;
  }

  lemma RecoverKeepsLateNote(s: State, a: Action, note: Note)
    requires Sound(s) && Enabled(s, a) && note in s.late && a.RecoverOne? && Ledger(Next(s, a).log).Some?
    ensures LateNote(Next(s, a), note)
  {
    hide Ledger, Active, Completions, JobInv, Unfinished;
    assert LateNote(s, note);
    LogGrows(s.log, Next(s, a).log);
  }

  lemma LateShrinks(s: State, a: Action)
    requires Enabled(s, a) && !a.DropWaiter? && !a.OpenerDropped?
    ensures forall note :: note in Next(s, a).late ==> note in s.late
  {
  }

  lemma LogGrows(log: seq<Note>, more: seq<Note>)
    requires more != [] && more == log + [Last(more)] && Ledger(more).Some?
    ensures Ledger(log).Some? && Ledger(log).value.Keys <= Ledger(more).value.Keys
    ensures forall k :: k != Last(more).id ==> (k in Ledger(more).value <==> k in Ledger(log).value)
  {
    AppendNote(log, Last(more));
  }

  lemma DropKeepsLate(s: State, id: JobId)
    requires Sound(s) && Enabled(s, DropWaiter(id))
    ensures LateOk(Next(s, DropWaiter(id)))
  {
    hide Completions, Unfinished, Active, Ledger;
    var t := Next(s, DropWaiter(id));
    assert JobInv(s.jobs[id], id in Ledger(s.log).value, FinishedIn(s.log, id), AnswerOf(s, id));
    forall note | note in t.late ensures LateNote(t, note) {
      assert note in s.late ==> LateNote(s, note);
    }
  }

  lemma LandingKeepsLate(s: State, note: Note)
    requires Sound(s) && note in s.late && Ledger(s.log + [note]).Some?
    ensures LateOk(Next(s, LateWritten(note)))
  {
    hide Ledger, Completions, Inv;
    var t := Next(s, LateWritten(note));
    LogGrows(s.log, s.log + [note]);
    LogStays(s);
    forall other | other in t.late ensures LateNote(t, other) {
      LandingKeepsNote(s, note, other);
    }
  }

  lemma LandingKeepsNote(s: State, note: Note, other: Note)
    requires Sound(s) && note in s.late && Ledger(s.log + [note]).Some? && other in Next(s, LateWritten(note)).late
    ensures LateNote(Next(s, LateWritten(note)), other)
  {
    LogGrows(s.log, s.log + [note]);
    OthersWait(s, note, other);
    assert LateNote(s, note) && LateNote(s, other);
    hide Ledger, Completions, Inv, Active, Next;
  }

  lemma OthersWait(s: State, note: Note, other: Note)
    requires note in s.late
    ensures Next(s, LateWritten(note)) == Written(s, note).(late := s.late - multiset{note})
    ensures other in Next(s, LateWritten(note)).late ==> other in s.late
  {
  }

  lemma OpenerDropKeepsLate(s: State, id: JobId)
    requires Sound(s) && Enabled(s, OpenerDropped(id))
    ensures LateOk(Next(s, OpenerDropped(id)))
  {
    hide Completions, Unfinished, Active, Ledger, JobInv;
    var t := Next(s, OpenerDropped(id));
    forall note | note in t.late ensures LateNote(t, note) {
      assert note in s.late ==> LateNote(s, note);
    }
  }

  lemma NextKeepsInv(s: State, a: Action)
    requires Sound(s) && Enabled(s, a)
    ensures Inv(Next(s, a))
  {
    hide JobInv, Ledger, Completions, Active, LateOk;
    match a
    case FinishWritten(_) => WritingStepKeepsInv(s, a);
    case StartWritten(_) => WritingStepKeepsInv(s, a);
    case WaiterReceives(_) => ReceiveKeepsInv(s, a);
    case Start(_) => StartKeepsInv(s, a);
    case LateWritten(note) => LateWrittenKeepsInv(s, note);
    case LateRefused(_) => ModeKeepsInv(s, Next(s, a));
    case RecoverOne(id) => RecoverOneKeepsInv(s, id);
    case Reopen => ReopenKeepsInv(s);
    case Shutdown => ModeKeepsInv(s, Next(s, a));
    case Crash => ModeKeepsInv(s, Next(s, a));
    case Unload => ModeKeepsInv(s, Next(s, a));
    case RecoverStops => ModeKeepsInv(s, Next(s, a));
    case OpenerDropped(_) => ModeKeepsInv(s, Next(s, a));
    case RecoverDone => ModeKeepsInv(s, Next(s, a));
    case _ => QuietStepKeepsInv(s, a);
  }

  lemma OneStaysLate(s: State, a: Action, note: Note)
    requires Sound(s) && Enabled(s, a) && Inv(Next(s, a)) && note in s.late && note in Next(s, a).late
    requires !a.LateWritten? && !a.DropWaiter? && !a.OpenerDropped?
    ensures Ledger(Next(s, a).log).Some? && LateNote(Next(s, a), note)
  {
    assert Ledger(s.log).Some? && Ledger(Next(s, a).log).Some? && LateNote(s, note);
    hide Inv, LateNote, Next, Enabled, Ledger;
    if IsQuiet(a) {
      QuietKeepsLateNote(s, a, note);
    } else if a.RecoverOne? {
      RecoverKeepsLateNote(s, a, note);
    } else if IsModeStep(a) {
      ModeKeepsLateNote(s, a, note);
    } else {
      WritingKeepsLateNote(s, a, note);
    }
  }

  lemma OthersKeepLate(s: State, a: Action)
    requires Sound(s) && Enabled(s, a) && Inv(Next(s, a))
    requires !a.LateWritten? && !a.DropWaiter? && !a.OpenerDropped?
    ensures LateOk(Next(s, a))
  {
    LogStays(Next(s, a));
    hide Inv, LateNote, Next, Enabled, Ledger;
    LateShrinks(s, a);
    forall note | note in Next(s, a).late ensures LateNote(Next(s, a), note) {
      OneStaysLate(s, a, note);
    }
  }

  lemma NextKeepsSound(s: State, a: Action)
    requires Sound(s) && Enabled(s, a)
    ensures Sound(Next(s, a))
  {
    hide Inv, LateOk, Next, Enabled, Ledger;
    NextKeepsInv(s, a);
    match a
    case LateWritten(note) => LandsSound(s, note);
    case DropWaiter(id) => DropKeepsLate(s, id);
    case OpenerDropped(id) => OpenerDropKeepsLate(s, id);
    case _ => OthersKeepLate(s, a);
  }

  lemma LandsSound(s: State, note: Note)
    requires Sound(s) && Enabled(s, LateWritten(note))
    ensures Sound(Next(s, LateWritten(note)))
  {
    hide Inv, LateOk, Ledger;
    LateWrittenKeepsInv(s, note);
    LandingKeepsLate(s, note);
  }

  lemma LogStays(s: State)
    requires Inv(s)
    ensures Ledger(s.log).Some?
  {
  }

  /** What a job still carries of its tool's outcome is what the tool body returned. */
  ghost predicate Carries(j: Job, returned: Option<ToolOutcome>) {
    && (j.worker.Running? ==> returned.None?)
    && (j.worker.Returned? || j.worker.Recording? ==> returned == Some(j.worker.outcome))
    && (j.channel.Sent? ==> returned == Some(j.channel.outcome))
  }

  ghost function ReturnedBy(s: State, id: JobId): Option<ToolOutcome> {
    if id in s.returned then Some(s.returned[id]) else None
  }

  /** Every answer with an outcome and every finish but recovery's carries what the body returned. */
  ghost predicate Truthful(s: State) {
    && (forall id :: id in s.returned || id in s.jobs ==> id in s.runs)
    && (forall id :: id in s.jobs ==> Carries(s.jobs[id], ReturnedBy(s, id)))
    && (forall id :: id in s.answers && s.answers[id].Real? ==> ReturnedBy(s, id) == Some(s.answers[id].outcome))
    && (forall i :: 0 <= i < |s.log| && s.log[i].Finished? ==>
          s.log[i].outcome.Unknown? || ReturnedBy(s, s.log[i].id) == Some(s.log[i].outcome))
  }

  /** What a step may do to the job `id` without lying about any outcome. */
  ghost predicate HonestChange(s: State, t: State, id: JobId) {
    && t.runs == s.runs && id in s.jobs && id in t.jobs
    && t.jobs == s.jobs[id := t.jobs[id]]
    && (t.returned == s.returned
        || (id in t.returned && id !in s.returned && t.returned == s.returned[id := t.returned[id]]))
    && Carries(t.jobs[id], ReturnedBy(t, id))
    && (t.answers == s.answers
        || (id in t.answers && t.answers == s.answers[id := t.answers[id]]
            && (t.answers[id].Real? ==> ReturnedBy(t, id) == Some(t.answers[id].outcome))))
    && (t.log == s.log || t.log == s.log + [Started(id)]
        || (ReturnedBy(t, id).Some? && t.log == s.log + [Finished(id, ReturnedBy(t, id).value)]))
  }

  lemma JobStepIsHonest(s: State, a: Action)
    requires Enabled(s, a)
    requires !a.Start? && !IsModeStep(a)
    requires Carries(s.jobs[a.id], ReturnedBy(s, a.id))
    ensures HonestChange(s, Next(s, a), a.id)
  {
  }

  lemma ModeKeepsTruthful(s: State, t: State)
    requires Truthful(s) && t.returned == s.returned && t.answers == s.answers && t.runs == s.runs
    requires t.jobs == s.jobs || t.jobs == map[]
    requires t.log == s.log || exists note ::
               t.log == s.log + [note] && (note.Finished? ==> note.outcome.Unknown?)
    ensures Truthful(t)
  {
    hide Carries;
    assert forall k :: ReturnedBy(t, k) == ReturnedBy(s, k);
  }

  lemma StartKeepsTruthful(s: State, a: Action)
    requires Truthful(s) && Enabled(s, a) && a.Start?
    ensures Truthful(Next(s, a))
  {
    var t := Next(s, a);
    assert Carries(t.jobs[a.id], None) && ReturnedBy(s, a.id).None?;
    assert forall k :: ReturnedBy(t, k) == ReturnedBy(s, k);
  }

  predicate IsModeStep(a: Action) {
    || a.Shutdown? || a.Crash? || a.Unload? || a.Reopen? || a.RecoverOne? || a.RecoverStops? || a.OpenerDropped?
    || a.RecoverDone? || a.LateWritten? || a.LateRefused?
  }

  lemma RecoverChanges(s: State, id: JobId)
    requires Enabled(s, RecoverOne(id))
    ensures Next(s, RecoverOne(id)) == Written(s, Finished(id, Unknown)).(mode := Reopening(s.mode.todo - {id}))
  {
  }

  lemma PlainModeChanges(s: State, a: Action)
    requires Enabled(s, a) && IsModeStep(a) && !a.LateWritten? && !a.RecoverOne?
    ensures var t := Next(s, a);
            && t.log == s.log && (t.jobs == s.jobs || t.jobs == map[])
            && t.returned == s.returned && t.answers == s.answers && t.runs == s.runs
  {
    hide Active, Unfinished;
  }

  /** A step of no one job may clear the jobs, and writes one note at most. */
  lemma ModeStepChanges(s: State, a: Action)
    requires Enabled(s, a) && IsModeStep(a)
    ensures var t := Next(s, a);
            && (t.jobs == s.jobs || t.jobs == map[])
            && t.returned == s.returned && t.answers == s.answers && t.runs == s.runs
            && t.log == if a.LateWritten? then s.log + [a.note]
                        else if a.RecoverOne? then s.log + [Finished(a.id, Unknown)]
                        else s.log
    ensures a.LateWritten? ==> a.note in s.late
  {
    hide Next;
    if a.LateWritten? {
      OthersWait(s, a.note, a.note);
    } else if a.RecoverOne? {
      RecoverChanges(s, a.id);
    } else {
      PlainModeChanges(s, a);
    }
  }

  lemma ModeStepKeepsTruthful(s: State, a: Action)
    requires Truthful(s) && Enabled(s, a) && IsModeStep(a) && Sound(s)
    ensures Truthful(Next(s, a))
  {
    hide Truthful, Sound, Next, Enabled;
    ModeStepChanges(s, a);
    if a.LateWritten? {
      LateIsUnknown(s, a.note);
      assert Next(s, a).log == s.log + [a.note];
    }
    ModeKeepsTruthful(s, Next(s, a));
  }

  lemma LateIsUnknown(s: State, note: Note)
    requires Sound(s) && note in s.late
    ensures note.Finished? ==> note.outcome.Unknown?
  {
    assert LateNote(s, note);
  }

  lemma JobStepKeepsTruthful(s: State, a: Action)
    requires Truthful(s) && Enabled(s, a) && !a.Start? && !IsModeStep(a)
    ensures Truthful(Next(s, a))
  {
    hide Next;
    JobStepIsHonest(s, a);
  }

  lemma NextKeepsTruthful(s: State, a: Action)
    requires Sound(s) && Truthful(s) && Enabled(s, a)
    ensures Truthful(Next(s, a))
  {
    hide Next, Enabled, Truthful, Sound;
    if a.Start? {
      StartKeepsTruthful(s, a);
    } else if IsModeStep(a) {
      ModeStepKeepsTruthful(s, a);
    } else {
      JobStepKeepsTruthful(s, a);
    }
  }

  // ----- runs -----

  /** Any interleaving of the workers, the waiters, the writes, crashes and reopenings. */
  function RunFrom(s: State, actions: seq<Action>): State {
    if actions == [] then s
    else
      var before := RunFrom(s, Front(actions));
      if Enabled(before, Last(actions)) then Next(before, Last(actions)) else before
  }

  function Run(actions: seq<Action>): State {
    RunFrom(INITIAL, actions)
  }

  lemma {:induction false} RunKeepsSound(s: State, actions: seq<Action>)
    requires Sound(s) && Truthful(s)
    ensures Sound(RunFrom(s, actions)) && Truthful(RunFrom(s, actions))
    decreases |actions|
  {
    hide Next, Enabled, Sound, Truthful;
    if actions != [] {
      var before, a := RunFrom(s, Front(actions)), Last(actions);
      RunKeepsSound(s, Front(actions));
      if Enabled(before, a) {
        NextKeepsSound(before, a);
        NextKeepsTruthful(before, a);
      }
    }
  }

  lemma RunsAreSound(actions: seq<Action>)
    ensures Sound(Run(actions)) && Truthful(Run(actions))
  {
    assert Active(INITIAL.jobs) == {};
    assert Sound(INITIAL) && Truthful(INITIAL);
    RunKeepsSound(INITIAL, actions);
  }

  /** In every run, for every job: the tool's own outcome is never both returned in the foreground and
      written or queued as a completion; the job starts at most once in the log and finishes only if it
      started; its body ran at most once; the completions queued are those of the log, in order; and at
      most 32 workers are alive. */
  lemma ExactlyOnce(actions: seq<Action>, id: JobId)
    ensures var s := Run(actions);
            && (id in s.answers && !s.answers[id].Report? ==> Starts(s.log, id) == 0 && Finishes(s.log, id) == 0)
            && (Finishes(s.log, id) > 0 ==> Starts(s.log, id) == 1)
            && Starts(s.log, id) <= 1
            && Distinct(s.runs) && (Starts(s.log, id) == 1 ==> id in s.runs)
            && s.queue == Completions(s.log)
            && |Active(s.jobs)| <= MAX_JOBS
  {
    RunsAreSound(actions);
    LedgerCounts(Run(actions).log, id);
  }

  /** Where an outcome is delivered, in the foreground or as a completion, it is the one the tool body
      returned; the only other outcome a completion can carry is recovery's Unknown. */
  lemma DeliversWhatReturned(actions: seq<Action>, id: JobId, i: nat)
    ensures var s := Run(actions);
            && (id in s.answers && s.answers[id].Real? ==> id in s.returned && s.answers[id].outcome == s.returned[id])
            && (i < |s.log| && s.log[i].Finished? && !s.log[i].outcome.Unknown? ==>
                  s.log[i].id in s.returned && s.log[i].outcome == s.returned[s.log[i].id])
  {
    RunsAreSound(actions);
  }
}
