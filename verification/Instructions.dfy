/** The log of a session's model instructions and the state replayed from it
    (`src/application/model_observation.rs`).

    A request's notes are compared with what the log says is in force, and only what changed is
    appended. The replay keeps a cursor and, across its own appends, does not move it: those entries
    are applied again by the next replay. */
module Instructions {
  import opened Prelude

  const PAGE_LIMIT: nat := 100
  /** The title of notes about images. */
  const IMAGE_TITLE: string := "图片输入说明"

  datatype Block = Text(text: string) | OtherBlock(body: string)

  datatype Note = Note(title: string, content: seq<Block>, position: Option<nat>)

  /** One record of the history: an instruction's change, a legacy one without a key, another event of
      the application, or anything else. */
  datatype Fact =
    | Instruction(key: Option<string>, removes: bool, note: Note)
    | OtherApplication
    | OtherFact

  type Notes = map<string, Note>

  // ----- notes -----

  function UpTo(s: string, c: char): (r: Option<string>)
    ensures r.Some? ==> |r.value| < |s| && s[..|r.value|] == r.value && s[|r.value|] == c && c !in r.value
    ensures r.None? ==> c !in s
  {
    if s == [] then None
    else if s[0] == c then Some([])
    else
      var rest := UpTo(s[1..], c);
      assert s == [s[0]] + s[1..];
      if rest.None? then None else Some([s[0]] + rest.value)
  }

  /** The slot a note fills: its title, or the identity of its image. */
  function NoteKey(n: Note): string {
    if n.title == IMAGE_TITLE && n.content != [] && n.content[0].Text? then
      UpTo(n.content[0].text, ']').GetOr(n.title)
    else n.title
  }

  predicate SameContent(a: Note, b: Note) {
    a.title == b.title && a.content == b.content
  }

  /** What a request's notes put into each slot: notes of one slot are joined, unless they say the same. */
  function Merge(notes: seq<Note>): Notes {
    if notes == [] then map[]
    else MergeOne(Merge(Front(notes)), Last(notes))
  }

  function MergeOne(m: Notes, n: Note): Notes {
    var key := NoteKey(n);
    if key !in m then m[key := n]
    else if SameContent(m[key], n) then m
    else m[key := m[key].(content := m[key].content + n.content)]
  }

  /** The same slots with the same titles and contents; positions do not matter. */
  ghost predicate Matches(m: Notes, wanted: Notes) {
    && m.Keys == wanted.Keys
    && forall k :: k in m && k in wanted ==> m[k].title == wanted[k].title && m[k].content == wanted[k].content
  }

  /** A note about an image fills the slot its text names up to the first bracket closed; any other note, and
      one about an image that names none, fills the slot of its title. */
  lemma SlotNamed(n: Note)
    ensures n.title != IMAGE_TITLE || n.content == [] || !n.content[0].Text? || ']' !in n.content[0].text ==>
              NoteKey(n) == n.title
    ensures n.title == IMAGE_TITLE && n.content != [] && n.content[0].Text? && ']' in n.content[0].text ==>
              && |NoteKey(n)| < |n.content[0].text| && NoteKey(n) == n.content[0].text[..|NoteKey(n)|]
              && n.content[0].text[|NoteKey(n)|] == ']' && ']' !in NoteKey(n)
  {
  }

  /** Those of `notes` that fill the slot `key`, in order. */
  function InSlot(notes: seq<Note>, key: string): seq<Note> {
    if notes == [] then []
    else InSlot(Front(notes), key) + if NoteKey(Last(notes)) == key then [Last(notes)] else []
  }

  /** What is there, and then what each note adds unless it says exactly that, under the same title. */
  function Gathered(title: string, content: seq<Block>, notes: seq<Note>): seq<Block> {
    if notes == [] then content
    else
      var before := Gathered(title, content, Front(notes));
      if Last(notes).title == title && Last(notes).content == before then before else before + Last(notes).content
  }

  /** A slot of a request holds the first note that fills it, with what the later ones add. */
  ghost predicate Holds(m: Notes, key: string, slot: seq<Note>) {
    && (key in m <==> slot != [])
    && (slot != [] && key in m ==>
          && m[key].title == slot[0].title && m[key].position == slot[0].position
          && m[key].content == Gathered(slot[0].title, slot[0].content, slot[1..]))
  }

  lemma HoldsMore(m: Notes, key: string, slot: seq<Note>, n: Note)
    requires Holds(m, key, slot)
    ensures NoteKey(n) == key ==> Holds(MergeOne(m, n), key, slot + [n])
    ensures NoteKey(n) != key ==> Holds(MergeOne(m, n), key, slot)
  {
    hide NoteKey, Gathered;
    if NoteKey(n) == key {
      if slot == [] {
        assert (slot + [n])[1..] == [];
        NothingGathered(n.title, n.content);
      } else {
        GatherOne(slot[0].title, slot[0].content, slot[1..], n);
        assert (slot + [n])[1..] == slot[1..] + [n];
      }
    }
  }

  lemma {:induction false} MergedSlot(notes: seq<Note>, key: string)
    ensures Holds(Merge(notes), key, InSlot(notes, key))
    decreases |notes|
  {
    hide Holds, MergeOne;
    if notes == [] {
      assert Holds(map[], key, []) by { NothingHeld(key); }
    } else {
      MergedSlot(Front(notes), key);
      var slot := InSlot(Front(notes), key);
      assert slot + [] == slot;
      HoldsMore(Merge(Front(notes)), key, slot, Last(notes));
    }
  }

  lemma NothingHeld(key: string)
    ensures Holds(map[], key, [])
  {
  }

  lemma NothingGathered(title: string, content: seq<Block>)
    ensures Gathered(title, content, []) == content
  {
  }

  lemma GatherOne(title: string, content: seq<Block>, notes: seq<Note>, n: Note)
    ensures var before := Gathered(title, content, notes);
            Gathered(title, content, notes + [n])
            == if n.title == title && n.content == before then before else before + n.content
  {
    assert Front(notes + [n]) == notes;
  }

  // ----- replay -----

  function KeyOf(f: Fact): string
    requires f.Instruction?
  {
    f.key.GetOr(NoteKey(f.note))
  }

  function Apply(m: Notes, f: Fact): Notes {
    if !f.Instruction? then m
    else if f.removes then m - {KeyOf(f)}
    else m[KeyOf(f) := f.note]
  }

  function ReplayFrom(m: Notes, facts: seq<Fact>): Notes {
    if facts == [] then m else Apply(ReplayFrom(m, Front(facts)), Last(facts))
  }

  /** What the whole log says. */
  function Replay(log: seq<Fact>): Notes {
    ReplayFrom(map[], log)
  }

  predicate Touches(f: Fact, key: string) {
    f.Instruction? && KeyOf(f) == key
  }

  predicate Touched(facts: seq<Fact>, key: string) {
    exists i :: 0 <= i < |facts| && Touches(facts[i], key)
  }

  ghost predicate AgreeAt(a: Notes, b: Notes, key: string) {
    (key in a <==> key in b) && (key in a && key in b ==> a[key] == b[key])
  }

  lemma {:induction false} ReplaySplits(m: Notes, xs: seq<Fact>, ys: seq<Fact>)
    ensures ReplayFrom(m, xs + ys) == ReplayFrom(ReplayFrom(m, xs), ys)
    decreases |ys|
  {
    if ys == [] {
      assert xs + ys == xs;
    } else {
      assert Front(xs + ys) == xs + Front(ys) && Last(xs + ys) == Last(ys);
      ReplaySplits(m, xs, Front(ys));
    }
  }

  /** A key some fact touches ends the same whatever the replay began with. */
  lemma {:induction false} TouchedAgree(a: Notes, b: Notes, facts: seq<Fact>, key: string)
    requires Touched(facts, key) || AgreeAt(a, b, key)
    ensures AgreeAt(ReplayFrom(a, facts), ReplayFrom(b, facts), key)
    decreases |facts|
  {
    if facts != [] && !Touches(Last(facts), key) {
      if Touched(facts, key) {
        var i :| 0 <= i < |facts| && Touches(facts[i], key);
        assert Touches(Front(facts)[i], key);
      }
      TouchedAgree(a, b, Front(facts), key);
    }
  }

  lemma {:induction false} UntouchedStays(m: Notes, facts: seq<Fact>, key: string)
    requires !Touched(facts, key)
    ensures AgreeAt(ReplayFrom(m, facts), m, key)
    decreases |facts|
  {
    if facts != [] {
      assert !Touches(facts[|facts| - 1], key);
      forall i | 0 <= i < |Front(facts)| ensures !Touches(Front(facts)[i], key) {
        assert !Touches(facts[i], key);
      }
      UntouchedStays(m, Front(facts), key);
    }
  }

  /** The saved notes and cursor are good for `log`: they differ from what the log said at the cursor
      only where it says more after it. */
  ghost predicate Usable(recorded: Notes, next: nat, log: seq<Fact>) {
    next <= |log| && forall k :: !Touched(log[next..], k) ==> AgreeAt(recorded, Replay(log[..next]), k)
  }

  /** Replaying on from the cursor is replaying from the beginning. */
  lemma IncrementalIsWhole(recorded: Notes, next: nat, log: seq<Fact>)
    requires Usable(recorded, next, log)
    ensures ReplayFrom(recorded, log[next..]) == Replay(log)
  {
    var tail, saved := log[next..], Replay(log[..next]);
    assert log[..next] + tail == log;
    ReplaySplits(map[], log[..next], tail);
    forall k ensures AgreeAt(ReplayFrom(recorded, tail), ReplayFrom(saved, tail), k) {
      TouchedAgree(recorded, saved, tail, k);
    }
    SameNotes(ReplayFrom(recorded, tail), ReplayFrom(saved, tail));
  }

  lemma SameNotes(a: Notes, b: Notes)
    requires forall k :: AgreeAt(a, b, k)
    ensures a == b
  {
    assert forall k :: k in a <==> k in b by {
      forall k ensures k in a <==> k in b { assert AgreeAt(a, b, k); }
    }
    assert a.Keys == b.Keys;
    forall k | k in a ensures a[k] == b[k] { assert AgreeAt(a, b, k); }
  }

  /** Notes that are what the log says are good with any cursor into it, however far behind. */
  lemma CurrentIsUsable(recorded: Notes, next: nat, log: seq<Fact>)
    requires recorded == Replay(log) && next <= |log|
    ensures Usable(recorded, next, log)
  {
    ReplaySplits(map[], log[..next], log[next..]);
    assert log == log[..next] + log[next..];
    forall k | !Touched(log[next..], k) ensures AgreeAt(recorded, Replay(log[..next]), k) {
      UntouchedStays(Replay(log[..next]), log[next..], k);
    }
  }

  lemma NothingReplayed(m: Notes)
    ensures ReplayFrom(m, []) == m
  {
  }

  // ----- reading the log in pages -----

  function Applications(facts: seq<Fact>): seq<Fact> {
    if facts == [] then []
    else if Last(facts).OtherFact? then Applications(Front(facts))
    else Applications(Front(facts)) + [Last(facts)]
  }

  lemma {:induction false} ApplicationsSuffice(m: Notes, facts: seq<Fact>)
    ensures ReplayFrom(m, Applications(facts)) == ReplayFrom(m, facts)
    decreases |facts|
  {
    if facts != [] {
      ApplicationsSuffice(m, Front(facts));
      if !Last(facts).OtherFact? { assert Front(Applications(facts)) == Applications(Front(facts)); }
    }
  }

  /** The application's events from `from` on, at most a page of them, and where the next page begins. */
  method QueryHistory(log: seq<Fact>, from: nat) returns (items: seq<Fact>, next: Option<nat>)
    requires from <= |log|
    ensures var stop := next.GetOr(|log|); from <= stop <= |log| && items == Applications(log[from..stop])
    ensures next.Some? ==> from < next.value
  {
    items := [];
    var at := from;
    while at < |log| && |items| < PAGE_LIMIT
      invariant from <= at <= |log| && items == Applications(log[from..at]) && |items| <= at - from
    {
      if !log[at].OtherFact? { items := items + [log[at]]; }
      assert Front(log[from..at + 1]) == log[from..at];
      at := at + 1;
    }
    next := if at < |log| then Some(at) else None;
  }

  class InstructionState {
    var recorded: Notes
    var next: nat

    constructor ()
      ensures recorded == map[] && next == 0
    {
      recorded, next := map[], 0;
    }

    method ApplyPage(items: seq<Fact>)
      modifies this`recorded
      ensures recorded == ReplayFrom(old(recorded), items)
    {
      for i := 0 to |items|
        invariant recorded == ReplayFrom(old(recorded), items[..i])
      {
        if items[i].Instruction? {
          var key := items[i].key.GetOr(NoteKey(items[i].note));
          if items[i].removes { recorded := recorded - {key}; } else { recorded := recorded[key := items[i].note]; }
        }
        assert Front(items[..i + 1]) == items[..i];
      }
      assert items[..|items|] == items;
    }

    /** Afterwards the notes are what the whole log says. A log shorter than the cursor is another log,
        and is read from its beginning. */
    method Refresh(log: seq<Fact>)
      requires next <= |log| ==> Usable(recorded, next, log)
      modifies this
      ensures recorded == Replay(log) && next == |log|
    {
      if |log| < next {
        recorded, next := map[], 0;
        assert Usable(recorded, 0, log) by { assert log[..0] == []; }
      }
      IncrementalIsWhole(recorded, next, log);
      if |log| == next {
        assert log[next..] == [];
        NothingReplayed(recorded);
        return;
      }
      hide ReplayFrom, Applications, Usable, Replay;
      ghost var start, before := next, recorded;
      NothingReplayed(before);
      assert log[start..start] == [];
      var cursor := Some(next);
      while cursor.Some?
        invariant next == start && cursor.GetOr(|log|) <= |log| && start <= cursor.GetOr(|log|)
        invariant recorded == ReplayFrom(before, log[start..cursor.GetOr(|log|)])
        decreases if cursor.Some? then 1 + |log| - cursor.value else 0
      {
        var at := cursor.value;
        var items;
        items, cursor := QueryHistory(log, at);
        ghost var stop := cursor.GetOr(|log|);
        ApplyPage(items);
        ApplicationsSuffice(ReplayFrom(before, log[start..at]), log[at..stop]);
        ReplaySplits(before, log[start..at], log[at..stop]);
        assert log[start..stop] == log[start..at] + log[at..stop];
      }
      assert log[start..|log|] == log[start..];
      next := |log|;
    }

    /** The slots of a request's notes. */
    method MergeNotes(notes: seq<Note>) returns (current: Notes)
      ensures current == Merge(notes)
    {
      current := map[];
      for i := 0 to |notes|
        invariant current == Merge(notes[..i])
      {
        var key := NoteKey(notes[i]);
        if key in current {
          if !SameContent(current[key], notes[i]) {
            current := current[key := current[key].(content := current[key].content + notes[i].content)];
          }
        } else {
          current := current[key := notes[i]];
        }
        assert Front(notes[..i + 1]) == notes[..i];
      }
      assert notes[..|notes|] == notes;
    }

    /** Appends one change, after whatever else was committed meanwhile, and keeps it; nothing is kept of
        one that could not be committed. */
    method Commit(log: seq<Fact>, fact: Fact, meanwhile: seq<Fact>, fails: bool) returns (log': seq<Fact>)
      requires recorded == Replay(log) && fact.Instruction? && Bystanders(meanwhile)
      modifies this`recorded
      ensures log' == log + meanwhile + if fails then [] else [fact]
      ensures recorded == Replay(log') == if fails then old(recorded) else Apply(old(recorded), fact)
    {
      ReplaySplits(map[], log, meanwhile);
      BystandersPass(Replay(log), meanwhile);
      log' := log + meanwhile;
      if !fails {
        assert Front(log' + [fact]) == log';
        log' := log' + [fact];
        if fact.removes {
          recorded := recorded - {KeyOf(fact)};
        } else {
          recorded := recorded[KeyOf(fact) := fact.note];
        }
      } else {
        assert log' + [] == log';
      }
    }

    /** Appends what `current` says anew. */
    method SetAll(log: seq<Fact>, current: Notes, others: nat -> seq<Fact>, failAt: nat)
      returns (log': seq<Fact>, ok: bool, changed: bool, count: nat)
      requires recorded == Replay(log) && forall k :: Bystanders(others(k))
      modifies this`recorded
      ensures log <= log' && recorded == Replay(log')
      ensures ok ==> AllSet(recorded, current) && Apart(recorded, old(recorded), current.Keys)
      ensures ok ==> (changed <==> exists k :: Differs(old(recorded), current, k))
      ensures ok && !changed ==> log' == log
    {
      hide Replay, Bystanders, Setting, AllSet, Apart, Differs;
      log', ok, changed, count := log, true, false, 0;
      ghost var was := recorded;
      var todo := current.Keys;
      SettingBegins(was, current);
      while todo != {}
        invariant todo <= current.Keys && log <= log' && recorded == Replay(log')
        invariant Setting(recorded, was, current, todo, changed)
        invariant !changed ==> log' == log
        decreases |todo|
      {
        var key :| key in todo;
        SettingStep(recorded, was, current, todo, changed, key);
        if key in recorded && SameContent(recorded[key], current[key]) {
          todo := todo - {key};
          continue;
        }
        var fact := Instruction(Some(key), false, current[key]);
        log' := Commit(log', fact, others(count), count == failAt);
        if count == failAt { return log', false, changed, count; }
        count, changed, todo := count + 1, true, todo - {key};
      }
      AllDone(recorded, was, current, changed);
    }

    /** Appends the removal of what `current` does not have. */
    method RemoveRest(log: seq<Fact>, current: Notes, others: nat -> seq<Fact>, failAt: nat, done: nat)
      returns (log': seq<Fact>, ok: bool, changed: bool)
      requires recorded == Replay(log) && forall k :: Bystanders(others(k))
      modifies this`recorded
      ensures log <= log' && recorded == Replay(log')
      ensures ok ==> recorded == Without(old(recorded), old(recorded).Keys - current.Keys)
      ensures ok ==> (changed <==> old(recorded).Keys - current.Keys != {})
      ensures ok && !changed ==> log' == log
    {
      hide Replay, Bystanders, Without;
      log', ok, changed := log, true, false;
      ghost var was, extra := recorded, recorded.Keys - current.Keys;
      WithoutNone(was);
      assert extra - extra == {};
      var removed, count := recorded.Keys - current.Keys, done;
      while removed != {}
        invariant log <= log' && recorded == Replay(log')
        invariant removed <= extra && recorded == Without(was, extra - removed)
        invariant changed <==> extra != removed
        invariant !changed ==> log' == log
        decreases |removed|
      {
        var key :| key in removed;
        RemovingStep(was, extra, removed, key);
        var fact := Instruction(Some(key), true, recorded[key]);
        log' := Commit(log', fact, others(count), count == failAt);
        if count == failAt { return log', false, changed; }
        count, changed, removed := count + 1, true, removed - {key};
      }
      assert extra - {} == extra;
    }

    /** Records the notes of a request. `others(k)` is committed by others before the change number k,
        and the change number `failAt` cannot be committed. Whatever happens, the kept notes are what the
        log says; and unless a commit failed, they match the request key by key, and something was
        appended exactly when they did not match before. */
    method Record(log: seq<Fact>, notes: seq<Note>, others: nat -> seq<Fact>, failAt: nat)
      returns (log': seq<Fact>, ok: bool, changed: bool)
      requires next <= |log| ==> Usable(recorded, next, log)
      requires forall k :: Bystanders(others(k))
      modifies this
      ensures log <= log' && recorded == Replay(log') && Usable(recorded, next, log')
      ensures ok ==> Matches(Replay(log'), Merge(notes)) && (changed <==> !Matches(Replay(log), Merge(notes)))
      ensures ok && !changed ==> log' == log
    {
      hide Replay, Bystanders, Usable, Merge, Matches;
      Refresh(log);
      var current := MergeNotes(notes);
      ghost var was := recorded;
      var count;
      log', ok, changed, count := SetAll(log, current, others, failAt);
      if !ok {
        CurrentIsUsable(recorded, next, log');
        return;
      }
      ghost var set1 := recorded;
      WhatChanged(was, set1, current);
      var more;
      log', ok, more := RemoveRest(log', current, others, failAt, count);
      changed := changed || more;
      CurrentIsUsable(recorded, next, log');
      if ok { TakenAway(set1, recorded, set1.Keys - current.Keys, current); }
    }
  }

  /** The same request again appends nothing. */
  method RecordTwice(state: InstructionState, log: seq<Fact>, notes: seq<Note>, others: nat -> seq<Fact>, failAt: nat)
    returns (once: seq<Fact>, twice: seq<Fact>, ok: bool)
    requires state.next <= |log| ==> Usable(state.recorded, state.next, log)
    requires forall k :: Bystanders(others(k))
    modifies state
    ensures ok ==> twice == once && Matches(Replay(twice), Merge(notes))
  {
    hide Usable, Bystanders, Replay, Matches;
    var changed;
    once, ok, changed := state.Record(log, notes, others, failAt);
    twice := once;
    if ok { twice, ok, changed := state.Record(once, notes, others, failAt); }
  }

  // ----- what the diff relies on -----

  /** Commits of others: no instruction changes, which all go through the one shared state. */
  ghost predicate Bystanders(facts: seq<Fact>) {
    forall i :: 0 <= i < |facts| ==> !facts[i].Instruction?
  }

  lemma {:induction false} BystandersPass(m: Notes, facts: seq<Fact>)
    requires Bystanders(facts)
    ensures ReplayFrom(m, facts) == m
    decreases |facts|
  {
    if facts != [] { BystandersPass(m, Front(facts)); }
  }

  predicate Differs(m: Notes, wanted: Notes, k: string) {
    k in wanted && !(k in m && SameContent(m[k], wanted[k]))
  }

  /** `a` and `b` agree outside `keys`. */
  ghost predicate Apart(a: Notes, b: Notes, keys: set<string>) {
    forall k :: k !in keys ==> AgreeAt(a, b, k)
  }

  ghost predicate AllSet(m: Notes, wanted: Notes) {
    forall k :: k in wanted ==> k in m && SameContent(m[k], wanted[k])
  }

  function Without(m: Notes, keys: set<string>): Notes {
    m - keys
  }

  lemma WithoutNone(m: Notes)
    ensures Without(m, {}) == m
  {
  }

  lemma RemovingStep(was: Notes, extra: set<string>, removed: set<string>, key: string)
    requires key in removed && removed <= extra <= was.Keys
    ensures key in Without(was, extra - removed)
    ensures Without(was, extra - removed) - {key} == Without(was, extra - (removed - {key}))
    ensures extra != removed - {key}
  {
    assert extra - (removed - {key}) == (extra - removed) + {key};
  }

  /** What holds between two keys: those done are set, the others are as they were. */
  ghost predicate Setting(now: Notes, was: Notes, wanted: Notes, todo: set<string>, changed: bool) {
    && (forall k :: k in wanted && k !in todo ==> k in now && SameContent(now[k], wanted[k]))
    && (forall k :: k in todo || k !in wanted ==> AgreeAt(now, was, k))
    && (changed <==> exists k :: Differs(was, wanted, k) && k !in todo)
  }

  lemma SettingBegins(was: Notes, wanted: Notes)
    ensures Setting(was, was, wanted, wanted.Keys, false)
  {
  }

  lemma SettingStep(now: Notes, was: Notes, wanted: Notes, todo: set<string>, changed: bool, key: string)
    requires Setting(now, was, wanted, todo, changed) && key in todo && todo <= wanted.Keys
    ensures if key in now && SameContent(now[key], wanted[key]) then Setting(now, was, wanted, todo - {key}, changed)
            else Setting(now[key := wanted[key]], was, wanted, todo - {key}, true)
  {
    assert AgreeAt(now, was, key);
    if key in now && SameContent(now[key], wanted[key]) {
      assert !Differs(was, wanted, key);
    } else {
      assert Differs(was, wanted, key);
    }
  }

  lemma AllDone(now: Notes, was: Notes, wanted: Notes, changed: bool)
    requires Setting(now, was, wanted, {}, changed)
    ensures AllSet(now, wanted) && Apart(now, was, wanted.Keys)
    ensures changed <==> exists k :: Differs(was, wanted, k)
  {
  }

  lemma WhatChanged(was: Notes, now: Notes, wanted: Notes)
    requires AllSet(now, wanted) && Apart(now, was, wanted.Keys)
    ensures (exists k :: Differs(was, wanted, k)) || now.Keys - wanted.Keys != {} <==> !Matches(was, wanted)
  {
    if (exists k :: Differs(was, wanted, k)) {
      var k :| Differs(was, wanted, k);
    } else if now.Keys - wanted.Keys != {} {
      var k :| k in now.Keys - wanted.Keys;
      assert AgreeAt(now, was, k);
      assert k in was.Keys;
    } else {
      assert was.Keys == wanted.Keys by {
        forall k ensures k in was.Keys <==> k in wanted.Keys {
          if k in wanted {
            assert !Differs(was, wanted, k);
          } else {
            assert AgreeAt(now, was, k) && k !in now.Keys - wanted.Keys;
          }
        }
      }
      forall k | k in wanted ensures SameContent(was[k], wanted[k]) { assert !Differs(was, wanted, k); }
    }
  }

  lemma TakenAway(before: Notes, after: Notes, extra: set<string>, wanted: Notes)
    requires AllSet(before, wanted) && extra == before.Keys - wanted.Keys && after == Without(before, extra)
    ensures Matches(after, wanted)
  {
    assert after.Keys == wanted.Keys;
  }
}
