/** Delivery of a session's events to the observer of a run (`src/executor/observe.rs`), page by page
    (`src/storage/list.rs`) while senders keep committing. */
module Observing {
  import opened Prelude
  import opened Sessions
  import opened SessionLists
  import opened SessionMachine

  const PAGE_SIZE: nat := 128

  // ----- the log only grows -----

  ghost predicate Extends(d: Db, r: Db) {
    d.events <= r.events && d.history <= r.history
  }

  lemma {:induction false} MessagesExtend(d: Db, ms: seq<Message>, origin: Origin)
    ensures Extends(d, AppendMessages(d, ms, origin))
    decreases |ms|
  {
    if ms != [] { MessagesExtend(d, Front(ms), origin); }
  }

  lemma {:induction false} ImportExtends(d: Db, past: seq<Past>)
    ensures Extends(d, ImportAll(d, past))
    decreases |past|
  {
    if past != [] { ImportExtends(d, Front(past)); }
  }

  lemma {:induction false} JoiningExtends(d: Db, ids: seq<EntryId>)
    ensures Extends(d, JoinInputs(d, ids))
    decreases |ids|
  {
    if ids != [] { JoiningExtends(d, Front(ids)); }
  }

  lemma FinishExtends(d: Db, outcome: RunOutcome)
    ensures Extends(d, FinishRun(d, outcome))
  {
  }

  lemma ResponseExtends(d: Db, r: Response)
    requires SettleResponse(d, r).Ok?
    ensures Extends(d, SettleResponse(d, r).value)
  {
    hide AppendMessages, IsAcceptable, ToolCalls;
    MessagesExtend(d, r.messages, FromModel);
  }

  lemma ToolsExtend(d: Db)
    requires CompleteTools(d).Ok?
    ensures Extends(d, CompleteTools(d).value)
  {
    hide AppendMessages, InputsOf, ResultsOf;
    var batch := d.batches[d.state.batch];
    MessagesExtend(d, ResultsOf(batch), FromTool);
    MessagesExtend(AppendMessages(d, ResultsOf(batch), FromTool).(batches := d.batches - {d.state.batch}),
                   InputsOf(batch), FromTool);
  }

  lemma {:induction false} SettlingExtends(d: Db)
    requires SettleInterrupted(d).Ok?
    ensures Extends(d, SettleInterrupted(d).value)
    decreases d.state
  {
    hide CompleteTools;
    match d.state
    case ExecutingTools(_, id) =>
      ToolsExtend(d.(batches := d.batches[id := CancelUnfinished(d.batches[id])]));
    case Compacting(resume) => if !IsStable(resume) { SettlingExtends(TransitionTo(d, resume)); }
    case _ =>
  }

  lemma TurnExtends(d: Db)
    requires d.head <= |d.queue| && d.state.Ready?
    ensures Extends(d, StartTurn(d, d.state.completed, d.state.needsModel).db)
  {
    hide JoinInputs;
    JoiningExtends(d, d.queue[d.head..]);
  }

  lemma CallOpExtends(d: Db, op: Op)
    requires d.head <= |d.queue| && Apply(d, op).Ok?
    requires op.TakeResponse? || op.TakeInterruption? || op.FailCall? || op.Import?
    ensures Extends(d, Apply(d, op).value)
  {
    hide SettleResponse, AppendMessages, ImportAll, FinishRun;
    match op
    case TakeResponse(r) => ResponseExtends(CompleteModelCall(d, CallCompleted).value, r);
    case TakeInterruption(replay) =>
      var completed := CompleteModelCall(d, CallInterrupted).value;
      MessagesExtend(completed, replay, FromInterruption);
      FinishExtends(RecordEvent(RecordEvent(AppendMessages(completed, replay, FromInterruption), ResponseInterrupted),
                                StableBoundary(d.state.turn)), Interrupted);
    case FailCall(outcome) => FinishExtends(CompleteModelCall(d, CallFailed).value, outcome);
    case Import(past) => ImportExtends(d, past);
  }

  /** No transaction takes anything back from the log. */
  lemma ApplyExtends(d: Db, op: Op)
    requires d.head <= |d.queue| && Apply(d, op).Ok?
    ensures Extends(d, Apply(d, op).value)
  {
    hide SettleResponse, AppendMessages, ImportMessages, FinishRun, CompleteTools, StartTurn, SettleInterrupted;
    if op.TakeResponse? || op.TakeInterruption? || op.FailCall? || op.Import? {
      CallOpExtends(d, op);
    } else if op.AdvanceRun? {
      if d.state.Ready? { TurnExtends(d); }
    } else if op.FinishTools? {
      ToolsExtend(d);
    } else if op.Finish? {
      FinishExtends(d, op.outcome);
    } else if op.Settle? {
      if !IsStable(d.state) { SettlingExtends(d); }
    }
  }

  lemma {:induction false} RunExtends(d: Db, ops: seq<Op>)
    requires MachineOk(d)
    ensures Extends(d, Run(d, ops))
    decreases |ops|
  {
    hide MachineOk, Apply;
    if ops != [] {
      RunExtends(d, Front(ops));
      var before := Run(d, Front(ops));
      assert before.head <= |before.queue| by { UnpackMachine(before); }
      if Apply(before, Last(ops)).Ok? { ApplyExtends(before, Last(ops)); }
    }
  }

  // ----- what an observer is owed -----

  /** The events that reach an observer through the log: those of a stream reached it live. */
  function Heard(events: seq<Event>): seq<Event> {
    if events == [] then []
    else if Last(events).ModelStream? then Heard(Front(events))
    else Heard(Front(events)) + [Last(events)]
  }

  /** What delivering `records` hands over. */
  function Delivered(events: seq<Event>, records: seq<HistoryRecord>): seq<Event> {
    if records == [] then []
    else
      var before := Delivered(events, Front(records));
      var item := Last(records).item;
      if item.EventItem? && item.event < |events| && !events[item.event].ModelStream? then before + [events[item.event]]
      else before
  }

  lemma DeliverLast(events: seq<Event>, records: seq<HistoryRecord>, r: HistoryRecord)
    ensures Delivered(events, records + [r])
            == if r.item.EventItem? && r.item.event < |events| && !events[r.item.event].ModelStream?
               then Delivered(events, records) + [events[r.item.event]]
               else Delivered(events, records)
  {
    assert Front(records + [r]) == records;
  }

  ghost predicate Resolved(events: seq<Event>, records: seq<HistoryRecord>) {
    forall i :: 0 <= i < |records| && records[i].item.EventItem? ==> records[i].item.event < |events|
  }

  lemma {:induction false} DeliveredStands(events: seq<Event>, more: seq<Event>, records: seq<HistoryRecord>)
    requires Resolved(events, records) && events <= more
    ensures Delivered(more, records) == Delivered(events, records)
    decreases |records|
  {
    if records != [] { DeliveredStands(events, more, Front(records)); }
  }

  lemma {:induction false} ItemsPrefix(history: seq<HistoryRecord>, k: nat)
    requires k <= |history|
    ensures EventItems(history[..k]) <= EventItems(history)
    decreases |history|
  {
    if k == |history| {
      assert history[..k] == history;
    } else {
      ItemsPrefix(Front(history), k);
      assert Front(history)[..k] == history[..k];
    }
  }

  lemma NumberedResolves(d: Db)
    requires MachineOk(d)
    ensures Resolved(d.events, d.history) && EventItems(d.history) == Upto(|d.events|)
  {
    assert Numbered(ListsOf(d));
    forall i | 0 <= i < |d.history| && d.history[i].item.EventItem?
      ensures d.history[i].item.event < |d.events|
    {
      ItemsPrefix(d.history, i + 1);
      assert Last(d.history[..i + 1]) == d.history[i];
      assert Last(EventItems(d.history[..i + 1])) == d.history[i].item.event;
      var items := EventItems(d.history[..i + 1]);
      assert items[|items| - 1] == Upto(|d.events|)[|items| - 1];
    }
  }

  /** Delivering a stretch of the history hands over exactly the events recorded in it: a stretch of the
      event list, each event once and in order, without those of streams. */
  lemma {:induction false} DeliveredIsHeard(events: seq<Event>, history: seq<HistoryRecord>, a: nat, b: nat)
    requires a <= b <= |history| && EventItems(history) == Upto(|events|)
    ensures var x, y := |EventItems(history[..a])|, |EventItems(history[..b])|;
            x <= y <= |events| && Delivered(events, history[a..b]) == Heard(events[x..y])
    decreases b
  {
    ItemsPrefix(history, b);
    if a < b {
      DeliveredIsHeard(events, history, a, b - 1);
      var x, y := |EventItems(history[..a])|, |EventItems(history[..b])|;
      assert Front(history[..b]) == history[..b - 1] && Front(history[a..b]) == history[a..b - 1];
      if history[b - 1].item.EventItem? {
        assert EventItems(history[..b])[y - 1] == Upto(|events|)[y - 1];
        assert Front(events[x..y]) == events[x..y - 1];
      }
    }
  }

  // ----- deliver_new_events -----

  datatype Page = Page(items: seq<HistoryRecord>, end: nat, next: Option<nat>)

  function ReadPage(history: seq<HistoryRecord>, from: nat): Page
    requires from <= |history|
  {
    var end := if from + PAGE_SIZE <= |history| then from + PAGE_SIZE else |history|;
    Page(history[from..end], end, if end < |history| then Some(end) else None)
  }

  class Watch {
    var session: Db
    const begun: nat
    var delivered: nat
    var seen: seq<Event>

    ghost predicate Valid()
      reads this
    {
      && MachineOk(session) && begun <= delivered <= |session.history|
      && seen == Delivered(session.events, session.history[begun..delivered])
    }

    /** A run watches from the end of the history on. */
    constructor (d: Db)
      requires MachineOk(d)
      ensures Valid() && session == d && begun == |d.history| && seen == []
    {
      session, begun, delivered, seen := d, |d.history|, |d.history|, [];
    }

    /** Commits of the owner or of senders. */
    method Commit(ops: seq<Op>)
      requires Valid()
      modifies this`session
      ensures Valid() && session == Run(old(session), ops) && Extends(old(session), session)
    {
      hide MachineOk, Delivered, Run;
      ghost var was := session;
      session := Run(session, ops);
      RunExtends(was, ops);
      NumberedResolves(was);
      assert session.history[begun..delivered] == was.history[begun..delivered];
      DeliveredStands(was.events, session.events, was.history[begun..delivered]);
    }

    /** Hands over the events of one page; an event the page names but the list lacks is an error. */
    method DeliverPage(page: Page) returns (ok: bool)
      requires Valid() && page == ReadPage(session.history, delivered)
      modifies this`seen, this`delivered
      ensures ok && Valid() && delivered == page.end
    {
      hide MachineOk, Delivered, EventItems;
      NumberedResolves(session);
      ghost var handed := session.history[begun..delivered];
      for i := 0 to |page.items|
        invariant delivered == old(delivered)
        invariant handed == session.history[begun..delivered] + page.items[..i]
        invariant seen == Delivered(session.events, handed)
      {
        DeliverLast(session.events, handed, page.items[i]);
        handed := handed + [page.items[i]];
        if page.items[i].item.EventItem? {
          var id := page.items[i].item.event;
          if id >= |session.events| { return false; }
          if !session.events[id].ModelStream? { seen := seen + [session.events[id]]; }
        }
      }
      assert handed == session.history[begun..page.end];
      delivered := page.end;
      return true;
    }

    /** Delivers every event from `delivered` on. Before the page read number k, `arrivals[k]` commits;
        what has arrived when the last page is read is delivered too. */
    method DeliverNewEvents(arrivals: seq<seq<Op>>) returns (ok: bool)
      requires Valid()
      modifies this
      ensures ok && Valid()
      ensures delivered == |session.history| && Extends(old(session), session)
    {
      hide MachineOk, Delivered, ReadPage;
      var count := 0;
      var next := Some(delivered);
      while next.Some?
        invariant Valid() && Extends(old(session), session)
        invariant next.Some? ==> next.value == delivered
        invariant next.None? ==> delivered == |session.history|
        decreases if count < |arrivals| then |arrivals| - count else 0,
                  if next.Some? then 1 + |session.history| - delivered else 0
      {
        if count < |arrivals| { Commit(arrivals[count]); }
        count := count + 1;
        var page := ReadPage(session.history, delivered);
        PageBounds(session.history, delivered);
        if page.end == delivered { return true; }
        var read := DeliverPage(page);
        if !read { return false; }
        next := page.next;
      }
      return true;
    }
  }

  /** Records a transaction's events now, and delivers them with anything committed before them. */
  method RecordAndDeliver(watch: Watch, op: Op, arrivals: seq<seq<Op>>) returns (ok: bool)
    requires watch.Valid()
    modifies watch
    ensures ok && watch.Valid() && watch.delivered == |watch.session.history|
    ensures Extends(Run(old(watch.session), [op]), watch.session)
  {
    hide MachineOk, Delivered, Run;
    watch.Commit([op]);
    ok := watch.DeliverNewEvents(arrivals);
  }

  lemma PageBounds(history: seq<HistoryRecord>, from: nat)
    requires from <= |history|
    ensures var page := ReadPage(history, from);
            && from <= page.end <= |history| && (page.end == from <==> from == |history|)
            && (page.next.None? ==> page.end == |history|) && (page.next.Some? ==> page.next.value == page.end)
  {
  }

  /** Whatever is committed by whom and however deliveries fall, an observer has been handed exactly the
      events the log gained since its run began, once each and in order, and nothing is left over after
      a delivery. */
  lemma ObserverHearsAll(w: Watch)
    requires w.Valid() && w.delivered == |w.session.history|
    ensures var x := |EventItems(w.session.history[..w.begun])|;
            x <= |w.session.events| && w.seen == Heard(w.session.events[x..])
  {
    var d := w.session;
    NumberedResolves(d);
    DeliveredIsHeard(d.events, d.history, w.begun, |d.history|);
    assert d.history[..|d.history|] == d.history;
    assert d.events[|EventItems(d.history[..w.begun])|..|d.events|] == d.events[|EventItems(d.history[..w.begun])|..];
  }
}
