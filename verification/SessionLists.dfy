/** Conservation of input and of facts in a session's lists.

    Invariants of `src/session/queue.rs` and `src/session/history.rs`: every input ever queued is in
    exactly one of consumed, pending and cancelled; what was consumed is in the context and in the
    history once each, in queue order; and the history numbers every fact by its position and holds
    every event once, in order. */
module SessionLists {
  import opened Prelude
  import opened Sessions

  /** The lists these invariants are about. */
  datatype Lists = Lists(
    entries: seq<Entry>, events: seq<Event>, history: seq<HistoryRecord>,
    context: seq<EntryId>, cursor: nat, queue: seq<EntryId>, head: nat)

  function ListsOf(d: Db): Lists {
    Lists(d.entries, d.events, d.history, d.context, d.cursor, d.queue, d.head)
  }

  // ----- readings of the lists -----

  function EventItems(history: seq<HistoryRecord>): seq<nat> {
    if history == [] then []
    else EventItems(Front(history)) + if Last(history).item.EventItem? then [Last(history).item.event] else []
  }

  function MessageItems(history: seq<HistoryRecord>): seq<EntryId> {
    if history == [] then []
    else MessageItems(Front(history)) + if Last(history).item.MessageItem? then [Last(history).item.entry] else []
  }

  predicate IsQueued(entries: seq<Entry>, id: EntryId) {
    id < |entries| && entries[id].origin.FromInput?
  }

  /** Those of `ids` that came in through the queue. */
  function InputsAmong(ids: seq<EntryId>, entries: seq<Entry>): seq<EntryId> {
    if ids == [] then []
    else InputsAmong(Front(ids), entries) + if IsQueued(entries, Last(ids)) then [Last(ids)] else []
  }

  function Queued(events: seq<Event>): seq<EntryId> {
    if events == [] then []
    else Queued(Front(events)) + if Last(events).MessageQueued? then [Last(events).entry] else []
  }

  function CancelledIds(events: seq<Event>): seq<EntryId> {
    if events == [] then []
    else CancelledIds(Front(events)) + if Last(events).InputCancelled? then [Last(events).entry] else []
  }

  function Upto(n: nat): seq<nat> {
    seq(n, i => i)
  }

  ghost predicate Below(ids: seq<nat>, n: nat) {
    forall i :: 0 <= i < |ids| ==> ids[i] < n
  }

  ghost predicate Increasing(ids: seq<nat>) {
    forall i, j :: 0 <= i < j < |ids| ==> ids[i] < ids[j]
  }

  ghost predicate Numbered(l: Lists) {
    && (forall i :: 0 <= i < |l.history| ==> l.history[i].sequence == i)
    && (forall i :: 0 <= i < |l.entries| ==> l.entries[i].id == i)
    && EventItems(l.history) == Upto(|l.events|)
  }

  ghost predicate Conserved(l: Lists) {
    && l.head <= |l.queue|
    && (forall i :: 0 <= i < |l.queue| ==> IsQueued(l.entries, l.queue[i]))
    && Increasing(Queued(l.events)) && Below(Queued(l.events), |l.entries|)
    && multiset(Queued(l.events)) == multiset(l.queue) + multiset(CancelledIds(l.events))
  }

  ghost predicate ConsumedOnce(l: Lists) {
    && l.head <= |l.queue|
    && Below(MessageItems(l.history), |l.entries|) && Below(l.context, |l.entries|)
    && InputsAmong(MessageItems(l.history), l.entries) == l.queue[..l.head]
    && InputsAmong(l.context, l.entries) == l.queue[..l.head]
  }

  predicate IsKept(entries: seq<Entry>, id: EntryId) {
    id < |entries| && IsContextOnly(entries[id].origin)
  }

  /** Context-only entries come before the point where compaction begins, and are in no history. */
  ghost predicate KeptAside(l: Lists) {
    && l.cursor <= |l.context|
    && (forall i :: l.cursor <= i < |l.context| ==> !IsKept(l.entries, l.context[i]))
    && (forall i :: 0 <= i < |MessageItems(l.history)| ==> !IsKept(l.entries, MessageItems(l.history)[i]))
  }

  ghost predicate ListsOk(l: Lists) {
    Numbered(l) && Conserved(l) && ConsumedOnce(l) && KeptAside(l)
  }

  // ----- what one step does to each reading -----

  lemma AddRecord(h: seq<HistoryRecord>, r: HistoryRecord)
    ensures EventItems(h + [r]) == if r.item.EventItem? then EventItems(h) + [r.item.event] else EventItems(h)
    ensures MessageItems(h + [r]) == if r.item.MessageItem? then MessageItems(h) + [r.item.entry] else MessageItems(h)
  {
    assert Front(h + [r]) == h;
  }

  lemma AddEvent(events: seq<Event>, e: Event)
    ensures Queued(events + [e]) == if e.MessageQueued? then Queued(events) + [e.entry] else Queued(events)
    ensures CancelledIds(events + [e])
            == if e.InputCancelled? then CancelledIds(events) + [e.entry] else CancelledIds(events)
  {
    assert Front(events + [e]) == events;
  }

  lemma AddId(ids: seq<EntryId>, id: EntryId, entries: seq<Entry>)
    ensures InputsAmong(ids + [id], entries)
            == if IsQueued(entries, id) then InputsAmong(ids, entries) + [id] else InputsAmong(ids, entries)
  {
    assert Front(ids + [id]) == ids;
  }

  lemma {:induction false} AddEntry(ids: seq<EntryId>, entries: seq<Entry>, e: Entry)
    requires Below(ids, |entries|)
    ensures InputsAmong(ids, entries + [e]) == InputsAmong(ids, entries)
    decreases |ids|
  {
    if ids != [] { AddEntry(Front(ids), entries, e); }
  }

  predicate Plain(e: Event) {
    !e.MessageQueued? && !e.InputCancelled?
  }

  lemma RecordEventKeepsLists(d: Db, e: Event)
    requires ListsOk(ListsOf(d)) && Plain(e)
    ensures ListsOk(ListsOf(RecordEvent(d, e)))
  {
    hide EventItems, MessageItems, InputsAmong, Queued, CancelledIds;
    AddRecord(d.history, HistoryRecord(|d.history|, EventItem(|d.events|)));
    AddEvent(d.events, e);
    assert Upto(|d.events| + 1) == Upto(|d.events|) + [|d.events|];
  }

  /** Origins of messages that join the context and the history as they are stored. */
  predicate IsSpoken(origin: Origin) {
    !origin.FromInput? && !IsContextOnly(origin)
  }

  lemma AppendMessageKeepsLists(d: Db, m: Message, origin: Origin)
    requires ListsOk(ListsOf(d)) && IsSpoken(origin)
    ensures ListsOk(ListsOf(AppendMessage(d, m, origin)))
  {
    var r, e := AppendMessage(d, m, origin), Entry(|d.entries|, origin, m);
    hide MessageItems, EventItems;
    AppendedEntryConsumes(d, r, e);
    AppendedEntryKept(d, r, e);
  }

  lemma AppendedEntryConsumes(d: Db, r: Db, e: Entry)
    requires ConsumedOnce(ListsOf(d)) && !e.origin.FromInput? && e.id == |d.entries|
    requires r.entries == d.entries + [e] && r.context == d.context + [e.id] && r.queue == d.queue && r.head == d.head
    requires MessageItems(r.history) == MessageItems(d.history) + [e.id]
    ensures ConsumedOnce(ListsOf(r))
  {
    hide MessageItems, InputsAmong;
    AddEntry(MessageItems(d.history), d.entries, e);
    AddEntry(d.context, d.entries, e);
    AddId(MessageItems(d.history), e.id, r.entries);
    AddId(d.context, e.id, r.entries);
    assert !IsQueued(r.entries, e.id);
  }

  lemma AppendedEntryKept(d: Db, r: Db, e: Entry)
    requires KeptAside(ListsOf(d)) && ConsumedOnce(ListsOf(d)) && !IsContextOnly(e.origin) && e.id == |d.entries|
    requires r.entries == d.entries + [e] && r.context == d.context + [e.id] && r.cursor == d.cursor
    requires MessageItems(r.history) == MessageItems(d.history) + [e.id]
    ensures KeptAside(ListsOf(r))
  {
    hide MessageItems, InputsAmong;
  }

  lemma {:induction false} AppendMessagesKeepsLists(d: Db, ms: seq<Message>, origin: Origin)
    requires ListsOk(ListsOf(d)) && IsSpoken(origin)
    ensures ListsOk(ListsOf(AppendMessages(d, ms, origin)))
    decreases |ms|
  {
    hide ListsOk, AppendMessage;
    if ms != [] {
      AppendMessagesKeepsLists(d, Front(ms), origin);
      AppendMessageKeepsLists(AppendMessages(d, Front(ms), origin), Last(ms), origin);
    }
  }

  /** A context-only entry joins the context alone; compaction then begins after it. */
  lemma KeepOneKeepsLists(d: Db, p: Past)
    requires ListsOk(ListsOf(d)) && IsContextOnly(p.origin)
    ensures ListsOk(ListsOf(ImportOne(d, p).(cursor := |d.context| + 1)))
  {
    hide EventItems, MessageItems, InputsAmong, Queued, CancelledIds;
    var id := |d.entries|;
    var e := Entry(id, p.origin, p.message);
    AddEntry(MessageItems(d.history), d.entries, e);
    AddEntry(d.context, d.entries, e);
    AddId(d.context, id, d.entries + [e]);
  }

  lemma {:induction false} ImportGrows(d: Db, past: seq<Past>)
    ensures |ImportAll(d, past).context| == |d.context| + |past| && ImportAll(d, past).cursor == d.cursor
    decreases |past|
  {
    if past != [] { ImportGrows(d, Front(past)); }
  }

  lemma {:induction false} CursorBound(start: nat, past: seq<Past>)
    ensures CursorIn(start, past).Some? ==> start < CursorIn(start, past).value <= start + |past|
    decreases |past|
  {
    if past != [] { CursorBound(start, Front(past)); }
  }

  /** Importing message by message, with the cursor moved along, is importing. */
  lemma ImportStep(d: Db, past: seq<Past>)
    requires past != [] && d.cursor <= |d.context|
    ensures var before := ImportMessages(d, Front(past));
            ImportMessages(d, past) == if IsContextOnly(Last(past).origin)
                                       then ImportOne(before, Last(past)).(cursor := |before.context| + 1)
                                       else ImportOne(before, Last(past))
  {
    ImportGrows(d, Front(past));
    CursorBound(|d.context|, Front(past));
  }

  lemma ImportNothing(d: Db)
    ensures ImportMessages(d, []) == d
  {
  }

  lemma CursorInContext(d: Db)
    requires ListsOk(ListsOf(d))
    ensures d.cursor <= |d.context|
  {
  }

  lemma {:induction false} ImportKeepsLists(d: Db, past: seq<Past>)
    requires ListsOk(ListsOf(d))
    ensures ListsOk(ListsOf(ImportMessages(d, past)))
    decreases |past|
  {
    hide ListsOk, ImportMessages, AppendMessage, CreateEntry;
    if past == [] {
      ImportNothing(d);
    } else {
      CursorInContext(d);
      ImportStep(d, past);
      ImportKeepsLists(d, Front(past));
      var before := ImportMessages(d, Front(past));
      if IsContextOnly(Last(past).origin) {
        KeepOneKeepsLists(before, Last(past));
      } else {
        AppendMessageKeepsLists(before, Last(past).message, Imported);
      }
    }
  }

  lemma EventIsNumbered(d: Db, e: Event)
    requires Numbered(ListsOf(d))
    ensures Numbered(ListsOf(RecordEvent(d, e)))
  {
    hide EventItems;
    AddRecord(d.history, HistoryRecord(|d.history|, EventItem(|d.events|)));
    assert Upto(|d.events| + 1) == Upto(|d.events|) + [|d.events|];
  }

  lemma EventConsumesNothing(d: Db, e: Event)
    requires ConsumedOnce(ListsOf(d)) && KeptAside(ListsOf(d))
    ensures ConsumedOnce(ListsOf(RecordEvent(d, e))) && KeptAside(ListsOf(RecordEvent(d, e)))
  {
    hide MessageItems, InputsAmong;
    AddRecord(d.history, HistoryRecord(|d.history|, EventItem(|d.events|)));
  }

  /** Queueing a new entry: before its event is recorded. */
  function Queueing(d: Db, m: Message): Db {
    CreateEntry(d, m, FromInput).(queue := d.queue + [|d.entries|])
  }

  lemma QueueingConsumesNothing(d: Db, m: Message)
    requires ConsumedOnce(ListsOf(d)) && KeptAside(ListsOf(d))
    ensures ConsumedOnce(ListsOf(Queueing(d, m))) && KeptAside(ListsOf(Queueing(d, m)))
  {
    hide MessageItems, InputsAmong;
    var e := Entry(|d.entries|, FromInput, m);
    AddEntry(MessageItems(d.history), d.entries, e);
    AddEntry(d.context, d.entries, e);
    assert Queueing(d, m).queue[..d.head] == d.queue[..d.head];
  }

  lemma NextIdConserves(entries: seq<Entry>, e: Entry, queue: seq<EntryId>, queued: seq<EntryId>)
    requires forall i :: 0 <= i < |queue| ==> IsQueued(entries, queue[i])
    requires Increasing(queued) && Below(queued, |entries|) && e.origin.FromInput?
    ensures var more := queue + [|entries|]; forall i :: 0 <= i < |more| ==> IsQueued(entries + [e], more[i])
    ensures Increasing(queued + [|entries|]) && Below(queued + [|entries|], |entries + [e]|)
  {
  }

  lemma QueueingConserves(d: Db, m: Message)
    requires Conserved(ListsOf(d))
    ensures Conserved(ListsOf(AppendInput(d, m)))
  {
    hide Queued, CancelledIds, Increasing, Below, IsQueued;
    AddEvent(d.events, MessageQueued(|d.entries|));
    NextIdConserves(d.entries, Entry(|d.entries|, FromInput, m), d.queue, Queued(d.events));
  }

  lemma AppendInputKeepsLists(d: Db, m: Message)
    requires ListsOk(ListsOf(d))
    ensures ListsOk(ListsOf(AppendInput(d, m)))
  {
    var queued := Queueing(d, m);
    assert Numbered(ListsOf(queued)) by { hide ConsumedOnce, Conserved, KeptAside; }
    hide Numbered, ConsumedOnce, Conserved, KeptAside;
    QueueingConsumesNothing(d, m);
    QueueingConserves(d, m);
    EventIsNumbered(queued, MessageQueued(|d.entries|));
    EventConsumesNothing(queued, MessageQueued(|d.entries|));
  }

  lemma RemovedMultiset(ids: seq<EntryId>, k: nat)
    requires k < |ids|
    ensures multiset(RemoveAt(ids, k)) + multiset{ids[k]} == multiset(ids)
  {
    assert ids == ids[..k] + [ids[k]] + ids[k + 1..];
  }

  /** A move only permutes the pending part. */
  lemma MovedIsPermutation(pending: seq<EntryId>, entry: EntryId, before: Option<EntryId>)
    requires entry in pending
    ensures multiset(Moved(pending, entry, before)) == multiset(pending)
    ensures |Moved(pending, entry, before)| == |pending|
  {
    var k := Position(pending, entry).value;
    var rest := RemoveAt(pending, k);
    RemovedMultiset(pending, k);
    var at := (if before.Some? then Position(rest, before.value) else None).GetOr(|rest|);
    assert rest == rest[..at] + rest[at..];
    assert Moved(pending, entry, before) == rest[..at] + [entry] + rest[at..];
  }

  lemma PermutedQueueKeepsLists(d: Db, pending: seq<EntryId>)
    requires ListsOk(ListsOf(d)) && multiset(pending) == multiset(d.queue[d.head..])
    requires |pending| == |d.queue| - d.head
    ensures var queue := d.queue[..d.head] + pending;
            ListsOk(ListsOf(d.(queue := queue))) && queue[..d.head] == d.queue[..d.head] && queue[d.head..] == pending
  {
    hide EventItems, MessageItems, InputsAmong, Queued, CancelledIds, Increasing, Below, Upto, IsQueued;
    var queue := d.queue[..d.head] + pending;
    assert d.queue == d.queue[..d.head] + d.queue[d.head..];
    assert multiset(queue) == multiset(d.queue);
    assert queue[..d.head] == d.queue[..d.head];
    forall i | 0 <= i < |queue|
      ensures IsQueued(d.entries, queue[i])
    {
      assert queue[i] in multiset(queue);
    }
  }

  lemma MoveKeepsLists(d: Db, entry: EntryId, before: Option<EntryId>)
    requires d.head <= |d.queue| && MoveQueuedInput(d, entry, before).Ok? && ListsOk(ListsOf(d))
    ensures var r := MoveQueuedInput(d, entry, before).value;
            && ListsOk(ListsOf(r)) && r.queue[..d.head] == d.queue[..d.head] && r.head == d.head
            && multiset(r.queue[d.head..]) == multiset(d.queue[d.head..])
  {
    hide Numbered, Conserved, ConsumedOnce, Moved, Position;
    assert d.head <= |d.queue|;
    var pending := d.queue[d.head..];
    if before != Some(entry) && Moved(pending, entry, before) != pending {
      MovedIsPermutation(pending, entry, before);
      PermutedQueueKeepsLists(d, Moved(pending, entry, before));
      RecordEventKeepsLists(d.(queue := d.queue[..d.head] + Moved(pending, entry, before)), InputMoved(entry, before));
    }
  }

  lemma CancelAtConserves(d: Db, k: nat)
    requires Conserved(ListsOf(d)) && d.head <= k < |d.queue|
    ensures Conserved(ListsOf(RecordEvent(d.(queue := RemoveAt(d.queue, k)), InputCancelled(d.queue[k]))))
  {
    hide Queued, CancelledIds, IsQueued, Increasing, Below;
    RemovedMultiset(d.queue, k);
    assert |RemoveAt(d.queue, k)| == |d.queue| - 1;
    hide RemoveAt;
    AddEvent(d.events, InputCancelled(d.queue[k]));
  }

  lemma CancelAtRemoves(d: Db, k: nat)
    requires d.head <= k < |d.queue|
    ensures RemoveAt(d.queue, k)[..d.head] == d.queue[..d.head]
    ensures multiset(RemoveAt(d.queue, k)[d.head..]) + multiset{d.queue[k]} == multiset(d.queue[d.head..])
  {
    var pending := d.queue[d.head..];
    RemovedMultiset(pending, k - d.head);
    assert RemoveAt(d.queue, k)[d.head..] == RemoveAt(pending, k - d.head) && pending[k - d.head] == d.queue[k];
  }

  lemma CancelAtKeepsLists(d: Db, k: nat)
    requires ListsOk(ListsOf(d)) && d.head <= k < |d.queue|
    ensures var r := RecordEvent(d.(queue := RemoveAt(d.queue, k)), InputCancelled(d.queue[k]));
            && d.head <= |r.queue| && r.queue[..d.head] == d.queue[..d.head] && ListsOk(ListsOf(r))
            && multiset(r.queue[d.head..]) + multiset{d.queue[k]} == multiset(d.queue[d.head..])
  {
    var removed := d.(queue := RemoveAt(d.queue, k));
    CancelAtRemoves(d, k);
    CancelAtConserves(d, k);
    hide Numbered, ConsumedOnce, Conserved, KeptAside, RemoveAt;
    EventIsNumbered(removed, InputCancelled(d.queue[k]));
    EventConsumesNothing(removed, InputCancelled(d.queue[k]));
  }

  lemma CancelKeepsLists(d: Db, entry: EntryId)
    requires d.head <= |d.queue| && CancelQueuedInput(d, entry).Ok? && ListsOk(ListsOf(d))
    ensures var r := CancelQueuedInput(d, entry).value;
            && d.head <= |r.queue| && r.queue[..d.head] == d.queue[..d.head] && r.head == d.head
            && ListsOk(ListsOf(r))
            && multiset(r.queue[d.head..]) + multiset{entry} == multiset(d.queue[d.head..])
  {
    hide ListsOk, RemoveAt, Position;
    var k := d.head + Position(d.queue[d.head..], entry).value;
    assert d.queue[k] == entry;
    CancelAtKeepsLists(d, k);
  }

  lemma JoinOne(d: Db, id: EntryId)
    requires Numbered(ListsOf(d)) && Below(MessageItems(d.history), |d.entries|) && Below(d.context, |d.entries|)
    requires IsQueued(d.entries, id)
    ensures var r := RecordHistory(d.(context := d.context + [id]), MessageItem(id));
            && Numbered(ListsOf(r))
            && Below(MessageItems(r.history), |d.entries|) && Below(r.context, |d.entries|)
            && InputsAmong(MessageItems(r.history), d.entries) == InputsAmong(MessageItems(d.history), d.entries) + [id]
            && InputsAmong(r.context, d.entries) == InputsAmong(d.context, d.entries) + [id]
  {
    hide EventItems, MessageItems, InputsAmong, Queued, CancelledIds;
    AddRecord(d.history, HistoryRecord(|d.history|, MessageItem(id)));
    AddId(MessageItems(d.history), id, d.entries);
    AddId(d.context, id, d.entries);
  }

  /** Joining pending input moves it, in order, behind what was consumed before. */
  lemma {:induction false} JoinInputsJoins(d: Db, ids: seq<EntryId>)
    requires Numbered(ListsOf(d)) && Below(MessageItems(d.history), |d.entries|) && Below(d.context, |d.entries|)
    requires forall i :: 0 <= i < |ids| ==> IsQueued(d.entries, ids[i])
    ensures var r := JoinInputs(d, ids);
            && r == d.(history := r.history, context := r.context)
            && Numbered(ListsOf(r))
            && Below(MessageItems(r.history), |d.entries|) && Below(r.context, |d.entries|)
            && InputsAmong(MessageItems(r.history), d.entries) == InputsAmong(MessageItems(d.history), d.entries) + ids
            && InputsAmong(r.context, d.entries) == InputsAmong(d.context, d.entries) + ids
    decreases |ids|
  {
    hide EventItems, MessageItems, InputsAmong, Queued, CancelledIds;
    if ids != [] {
      JoinInputsJoins(d, Front(ids));
      JoinOne(JoinInputs(d, Front(ids)), Last(ids));
      hide Numbered;
      assert Front(ids) + [Last(ids)] == ids;
    }
  }

  lemma {:induction false} JoinKeepsAside(d: Db, ids: seq<EntryId>)
    requires KeptAside(ListsOf(d)) && forall i :: 0 <= i < |ids| ==> IsQueued(d.entries, ids[i])
    ensures KeptAside(ListsOf(JoinInputs(d, ids))) && JoinInputs(d, ids).entries == d.entries
    decreases |ids|
  {
    if ids != [] {
      hide KeptAside;
      JoinKeepsAside(d, Front(ids));
      JoinOneAside(JoinInputs(d, Front(ids)), Last(ids));
    }
  }

  lemma JoinOneAside(d: Db, id: EntryId)
    requires KeptAside(ListsOf(d)) && IsQueued(d.entries, id)
    ensures KeptAside(ListsOf(RecordHistory(d.(context := d.context + [id]), MessageItem(id))))
  {
    hide MessageItems;
    AddRecord(d.history, HistoryRecord(|d.history|, MessageItem(id)));
  }

  lemma ConsumeKeepsLists(d: Db)
    requires ListsOk(ListsOf(d))
    ensures ListsOk(ListsOf(ConsumeInputs(d)))
    ensures ConsumeInputs(d).queue == d.queue && ConsumeInputs(d).head == |d.queue|
  {
    hide EventItems, MessageItems, InputsAmong, Queued, CancelledIds;
    var pending := d.queue[d.head..];
    JoinInputsJoins(d, pending);
    var joined := JoinInputs(d, pending).(head := |d.queue|);
    assert d.queue[..d.head] + pending == d.queue == d.queue[..|d.queue|];
    JoinKeepsAside(d, pending);
    assert ListsOk(ListsOf(joined));
    if d.head != |d.queue| { RecordEventKeepsLists(joined, InputsConsumed(d.head, |d.queue|)); }
  }

  // ----- what the invariant means -----

  lemma {:induction false} IncreasingOnce(ids: seq<nat>, x: nat)
    requires Increasing(ids)
    ensures multiset(ids)[x] <= 1
    decreases |ids|
  {
    if ids != [] {
      assert ids == Front(ids) + [Last(ids)];
      IncreasingOnce(Front(ids), x);
      if x == Last(ids) { assert x !in Front(ids); }
    }
  }

  /** Every input ever queued is in exactly one place: consumed, pending or cancelled; and nothing else
      ever is. */
  lemma InputsConserved(l: Lists, id: EntryId)
    requires ListsOk(l)
    ensures multiset(l.queue[..l.head])[id] + multiset(l.queue[l.head..])[id] + multiset(CancelledIds(l.events))[id]
            == (if id in Queued(l.events) then 1 else 0)
  {
    hide Queued, CancelledIds, Numbered, ConsumedOnce, KeptAside;
    IncreasingOnce(Queued(l.events), id);
    assert l.queue == l.queue[..l.head] + l.queue[l.head..];
    assert id in Queued(l.events) <==> id in multiset(Queued(l.events));
  }
}
