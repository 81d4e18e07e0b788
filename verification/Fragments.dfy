/** What an interrupted reply leaves for the context: of the blocks it was cut off in, those that can be
    sent back, with a result for every tool call kept.

    Models `src/protocol/model_use/stream/partial.rs`. A protocol's rules for reasoning and the parsing of
    a call's arguments are arbitrary functions. */
module Fragments {
  import opened Prelude
  import opened Sessions
  import opened SessionPairs

  datatype Disposition = Replayable | Incomplete | NotReplayable | InvalidToolCall | MissingSignedPart

  /** A streamed block as the interruption found it. */
  datatype Block =
    | TextBlock(text: string)
    | ReasoningBlock(complete: bool, plaintext: string, signature: string, ciphertext: string)
    | ToolBlock(complete: bool, id: Option<string>, name: Option<string>, arguments: string)

  /** One index of the reply: the block streamed there, and the item handed over whole. */
  datatype Place = Place(block: Option<Block>, item: Option<string>)

  datatype Rules = Rules(
    reasoning: (bool, string, string, string) -> Disposition,
    isObject: string -> bool,
    sealsNext: bool)

  datatype Content =
    | Text(text: string)
    | Thought(plaintext: string, signature: string)
    | Item(content: string)
    | Call(id: Option<string>, name: Option<string>, arguments: string)

  datatype Part = Part(content: Content, replay: Disposition)

  // ----- which parts go back -----

  /** The call ids a block takes, whatever becomes of it. */
  function IdsIn(b: Option<Block>): set<string> {
    if b.Some? && b.value.ToolBlock? && b.value.id.Some? && b.value.id.value != "" then {b.value.id.value} else {}
  }

  function IdsOf(places: seq<Place>): set<string> {
    if places == [] then {} else IdsOf(Front(places)) + IdsIn(Last(places).block)
  }

  function Classify(b: Block, taken: set<string>, rules: Rules): Part {
    match b
    case TextBlock(text) => Part(Text(text), Replayable)
    case ReasoningBlock(complete, plaintext, signature, ciphertext) =>
      Part(Thought(plaintext, signature), rules.reasoning(complete, plaintext, signature, ciphertext))
    case ToolBlock(complete, id, name, arguments) =>
      var valid := id.Some? && id.value != "" && id.value !in taken && name.Some? && name.value != ""
                   && rules.isObject(arguments);
      Part(Call(id, name, arguments),
           if !complete then Incomplete else if valid then Replayable else InvalidToolCall)
  }

  function Grade(place: Place, taken: set<string>, rules: Rules): seq<Part> {
    if place.item.Some? then [Part(Item(place.item.value), Replayable)]
    else if place.block.Some? then [Classify(place.block.value, taken, rules)]
    else []
  }

  function Graded(places: seq<Place>, rules: Rules): seq<Part> {
    if places == [] then []
    else Graded(Front(places), rules) + Grade(Last(places), IdsOf(Front(places)), rules)
  }

  /** A part that is only a signature, sealing the part right behind it. */
  predicate IsSeal(p: Part) {
    p.content.Thought? && p.content.plaintext == "" && p.content.signature != ""
  }

  predicate CanBeSealed(p: Part) {
    p.replay.Replayable? && (p.content.Call? || p.content.Text?)
  }

  predicate LosesPart(parts: seq<Part>, i: nat)
    requires i < |parts|
  {
    IsSeal(parts[i]) && !(i + 1 < |parts| && CanBeSealed(parts[i + 1]))
  }

  function SealsChecked(parts: seq<Part>): seq<Part> {
    seq(|parts|, i requires 0 <= i < |parts| =>
      if LosesPart(parts, i) then parts[i].(replay := MissingSignedPart) else parts[i])
  }

  function Parts(places: seq<Place>, rules: Rules): seq<Part> {
    if rules.sealsNext then SealsChecked(Graded(places, rules)) else Graded(places, rules)
  }

  // ----- the fragment -----

  predicate KeptCall(p: Part, rules: Rules) {
    p.replay.Replayable? && p.content.Call? && p.content.id.Some? && p.content.name.Some?
    && rules.isObject(p.content.arguments)
  }

  function CallOf(p: Part, rules: Rules): ToolCall
    requires KeptCall(p, rules)
  {
    ToolCall(p.content.id.value, p.content.name.value)
  }

  function Said(p: Part, rules: Rules): seq<Message> {
    if !p.replay.Replayable? then []
    else
      match p.content
      case Text(text) => [Assistant(text)]
      case Thought(plaintext, _) => [Reasoning(plaintext)]
      case Item(content) => [UpstreamCompaction(content)]
      case Call(_, _, _) => if KeptCall(p, rules) then [ToolUse(CallOf(p, rules), true)] else []
  }

  function AllSaid(parts: seq<Part>, rules: Rules): seq<Message> {
    if parts == [] then [] else AllSaid(Front(parts), rules) + Said(Last(parts), rules)
  }

  /** The calls kept, in order. */
  function Calls(parts: seq<Part>, rules: Rules): seq<ToolExecution> {
    if parts == [] then []
    else
      Calls(Front(parts), rules)
      + if KeptCall(Last(parts), rules) then [ToolExecution(CallOf(Last(parts), rules), false, None)] else []
  }

  /** Everything kept, then a result for each call. */
  function Fragment(parts: seq<Part>, rules: Rules): seq<Message> {
    AllSaid(parts, rules) + ResultsOf(Calls(parts, rules))
  }

  // ----- the loops -----

  method GradeBlocks(places: seq<Place>, rules: Rules) returns (parts: seq<Part>)
    ensures parts == Graded(places, rules)
  {
    parts := [];
    var taken: set<string> := {};
    for k := 0 to |places|
      invariant parts == Graded(places[..k], rules) && taken == IdsOf(places[..k])
    {
      assert Front(places[..k + 1]) == places[..k] && Last(places[..k + 1]) == places[k];
      parts := parts + Grade(places[k], taken, rules);
      taken := taken + IdsIn(places[k].block);
    }
    assert places[..|places|] == places;
  }

  /** Marks one part after the other; a mark never changes what a later check sees. */
  method CheckSeals(parts: seq<Part>) returns (checked: seq<Part>)
    ensures checked == SealsChecked(parts)
  {
    checked := parts;
    for k := 0 to |parts|
      invariant |checked| == |parts| && checked[k..] == parts[k..]
      invariant forall i :: 0 <= i < k ==> checked[i] == SealsChecked(parts)[i]
    {
      assert checked[k] == checked[k..][0] == parts[k];
      assert k + 1 < |parts| ==> checked[k + 1] == checked[k..][1] == parts[k + 1];
      if LosesPart(checked, k) {
        checked := checked[k := checked[k].(replay := MissingSignedPart)];
      }
    }
  }

  method BuildFragment(parts: seq<Part>, rules: Rules) returns (messages: seq<Message>)
    ensures messages == Fragment(parts, rules)
  {
    messages := [];
    var results: seq<Message> := [];
    for k := 0 to |parts|
      invariant messages == AllSaid(parts[..k], rules) && results == ResultsOf(Calls(parts[..k], rules))
    {
      assert Front(parts[..k + 1]) == parts[..k] && Last(parts[..k + 1]) == parts[k];
      messages := messages + Said(parts[k], rules);
      if KeptCall(parts[k], rules) {
        results := results + [ToolResult(CallOf(parts[k], rules))];
      }
    }
    assert parts[..|parts|] == parts;
    messages := messages + results;
  }

  // ----- the fragment is paired -----

  /** The calls that go back name themselves and their tool, and no two have one id. */
  ghost predicate CallsApart(parts: seq<Part>, rules: Rules) {
    && (forall i :: 0 <= i < |parts| && parts[i].content.Call? && parts[i].replay.Replayable? ==>
          KeptCall(parts[i], rules) && parts[i].content.id.value != "" && parts[i].content.name.value != "")
    && (forall i, j :: 0 <= i < j < |parts| && KeptCall(parts[i], rules) && KeptCall(parts[j], rules) ==>
          parts[i].content.id != parts[j].content.id)
  }

  ghost predicate IdsAmong(parts: seq<Part>, taken: set<string>, rules: Rules) {
    forall i :: 0 <= i < |parts| && KeptCall(parts[i], rules) ==> parts[i].content.id.value in taken
  }

  lemma {:induction false} GradedCallsApart(places: seq<Place>, rules: Rules)
    ensures CallsApart(Graded(places, rules), rules) && IdsAmong(Graded(places, rules), IdsOf(places), rules)
    decreases |places|
  {
    if places != [] {
      GradedCallsApart(Front(places), rules);
    }
  }

  lemma PartsCallsApart(places: seq<Place>, rules: Rules)
    ensures CallsApart(Parts(places, rules), rules)
  {
    GradedCallsApart(places, rules);
    var graded, parts := Graded(places, rules), Parts(places, rules);
    hide Graded;
    assert forall i :: 0 <= i < |parts| && parts[i].content.Call? ==> parts[i] == graded[i];
  }

  predicate SameCall(use: Message, x: ToolExecution) {
    ValidToolUse(use) && use.call == x.call
  }

  lemma ToolCallsGrow(ms: seq<Message>, said: seq<Message>)
    requires |said| <= 1
    ensures ToolCalls(ms + said) == ToolCalls(ms) + if |said| == 1 && said[0].ToolUse? then said else []
  {
    if said == [] {
      assert ms + said == ms && ToolCalls(ms) + [] == ToolCalls(ms);
    } else {
      assert Front(ms + said) == ms && Last(ms + said) == said[0];
    }
  }

  lemma SaidOnce(p: Part, rules: Rules)
    ensures var said := Said(p, rules);
            && |said| <= 1
            && (|said| == 1 ==> !IsInput(said[0]) && !said[0].ToolResult? && (said[0].ToolUse? <==> KeptCall(p, rules)))
            && (KeptCall(p, rules) ==> said == [ToolUse(CallOf(p, rules), true)])
  {
  }

  /** What a fragment says has the kept calls in order, and neither input nor results. */
  lemma {:induction false} CallsAreUses(parts: seq<Part>, rules: Rules)
    requires CallsApart(parts, rules)
    ensures var ms, batch := AllSaid(parts, rules), Calls(parts, rules);
            && |ToolCalls(ms)| == |batch|
            && (forall i :: 0 <= i < |batch| ==> SameCall(ToolCalls(ms)[i], batch[i]))
            && (forall i :: 0 <= i < |ms| ==> !IsInput(ms[i]) && !ms[i].ToolResult?)
    decreases |parts|
  {
    if parts != [] {
      hide ToolCalls, Said;
      var front, last := Front(parts), Last(parts);
      CallsAreUses(front, rules);
      SaidOnce(last, rules);
      ToolCallsGrow(AllSaid(front, rules), Said(last, rules));
      assert parts[|parts| - 1] == last;
    }
  }

  ghost predicate IsKept(parts: seq<Part>, rules: Rules, id: string) {
    exists k :: 0 <= k < |parts| && KeptCall(parts[k], rules) && parts[k].content.id == Some(id)
  }

  lemma {:induction false} CallsAreDistinct(parts: seq<Part>, rules: Rules)
    requires CallsApart(parts, rules)
    ensures forall i :: 0 <= i < |Calls(parts, rules)| ==> IsKept(parts, rules, Calls(parts, rules)[i].call.id)
    ensures DistinctCalls(Calls(parts, rules))
    decreases |parts|
  {
    if parts != [] {
      var front, last, batch := Front(parts), Last(parts), Calls(parts, rules);
      CallsAreDistinct(front, rules);
      assert forall id :: IsKept(front, rules, id) ==> IsKept(parts, rules, id);
      if KeptCall(last, rules) {
        assert parts[|parts| - 1] == last;
        assert IsKept(parts, rules, last.content.id.value);
        assert !IsKept(front, rules, last.content.id.value);
      }
    }
  }

  lemma FragmentIsPaired(parts: seq<Part>, rules: Rules)
    requires CallsApart(parts, rules)
    ensures Paired(Fragment(parts, rules))
  {
    var ms, batch := AllSaid(parts, rules), Calls(parts, rules);
    CallsAreUses(parts, rules);
    CallsAreDistinct(parts, rules);
    hide AllSaid, Calls, OpenCalls, OpenFrom;
    ResponseOpensBatch(ms, batch);
    OpenFromNothing(ms);
    ResultsCloseAll(batch);
    OpenSplits(ms, ResultsOf(batch));
  }

  // ----- what the session is given -----

  /** Text and reasoning of a segment cut off at its output limit, for the next one to go on from; a
      signature goes with the call it seals. */
  function Continued(ms: seq<Message>, seal: nat -> bool): seq<Message> {
    if ms == [] then []
    else
      Continued(Front(ms), seal)
      + if Last(ms).Assistant? || (Last(ms).Reasoning? && !seal(|ms| - 1)) then [Last(ms)] else []
  }

  predicate OnlySpoken(ms: seq<Message>) {
    forall i :: 0 <= i < |ms| ==> ms[i].Assistant? || ms[i].Reasoning?
  }

  lemma {:induction false} ContinuedIsSpoken(ms: seq<Message>, seal: nat -> bool)
    ensures OnlySpoken(Continued(ms, seal))
    decreases |ms|
  {
    if ms != [] { ContinuedIsSpoken(Front(ms), seal); }
  }

  lemma {:induction false} SpokenIsPaired(ms: seq<Message>)
    requires OnlySpoken(ms)
    ensures Paired(ms)
    decreases |ms|
  {
    if ms != [] { SpokenIsPaired(Front(ms)); }
  }

  /** However a reply was cut off, and whatever earlier segments of it were kept: what the session appends
      for it leaves no tool call without its result. */
  lemma ReplayIsPaired(earlier: seq<Message>, places: seq<Place>, rules: Rules)
    requires OnlySpoken(earlier)
    ensures Paired(earlier + Fragment(Parts(places, rules), rules))
  {
    var fragment := Fragment(Parts(places, rules), rules);
    PartsCallsApart(places, rules);
    FragmentIsPaired(Parts(places, rules), rules);
    SpokenIsPaired(earlier);
    hide OpenCalls, OpenFrom, Fragment, Parts;
    OpenSplits(earlier, fragment);
    OpenFromNothing(fragment);
  }

  /** Closing an interrupted reply. */
  method Interrupt(earlier: seq<Message>, places: seq<Place>, rules: Rules) returns (replay: seq<Message>)
    requires OnlySpoken(earlier)
    ensures replay == earlier + Fragment(Parts(places, rules), rules) && Paired(replay)
  {
    var parts := GradeBlocks(places, rules);
    if rules.sealsNext {
      parts := CheckSeals(parts);
    }
    replay := BuildFragment(parts, rules);
    replay := earlier + replay;
    ReplayIsPaired(earlier, places, rules);
  }

  // ----- a signature stays with its part -----

  lemma {:induction false} SaidSplits(parts: seq<Part>, k: nat, rules: Rules)
    requires k < |parts|
    ensures AllSaid(parts[..k], rules) + Said(parts[k], rules) <= AllSaid(parts, rules)
    decreases |parts|
  {
    if k == |parts| - 1 {
      assert parts[..k] == Front(parts);
    } else {
      SaidSplits(Front(parts), k, rules);
      assert Front(parts)[..k] == parts[..k];
    }
  }

  /** Where signatures seal the part behind them, one that goes back has its part right behind it in the
      fragment too: no dropped part lets it slide to a later one. */
  lemma SealKeepsItsPart(places: seq<Place>, rules: Rules, i: nat)
    requires rules.sealsNext
    requires var parts := Parts(places, rules); i < |parts| && IsSeal(parts[i]) && parts[i].replay.Replayable?
    ensures var parts := Parts(places, rules);
            var at := |AllSaid(parts[..i], rules)|;
            && i + 1 < |parts| && CanBeSealed(parts[i + 1])
            && at + 1 < |Fragment(parts, rules)|
            && Fragment(parts, rules)[at] == Reasoning("")
            && Said(parts[i + 1], rules) == [Fragment(parts, rules)[at + 1]]
  {
    var parts := Parts(places, rules);
    PartsCallsApart(places, rules);
    var graded := Graded(places, rules);
    hide Graded;
    assert !LosesPart(graded, i);
    assert parts[i + 1] == graded[i + 1];
    SaidSplits(parts, i, rules);
    SaidSplits(parts, i + 1, rules);
    assert Front(parts[..i + 1]) == parts[..i] && Last(parts[..i + 1]) == parts[i];
  }

  // ----- what goes back, and what does not -----

  /** The block at `i` is a complete call of that name with an object of arguments, the first to take its
      id, and not replaced by a whole item. */
  ghost predicate Returns(places: seq<Place>, rules: Rules, call: ToolCall, i: int) {
    && 0 <= i < |places| && places[i].item.None? && places[i].block.Some?
    && places[i].block.value.ToolBlock?
    && var b := places[i].block.value;
    && b.complete && b.id == Some(call.id) && b.name == Some(call.name) && call.id != "" && call.name != ""
    && rules.isObject(b.arguments)
    && forall j :: 0 <= j < i ==> !Takes(places[j], call.id)
  }

  predicate Takes(place: Place, id: string) {
    place.block.Some? && place.block.value.ToolBlock? && place.block.value.id == Some(id)
  }

  ghost predicate Keeps(parts: seq<Part>, rules: Rules, call: ToolCall) {
    exists k :: 0 <= k < |parts| && KeptCall(parts[k], rules) && CallOf(parts[k], rules) == call
  }

  lemma {:induction false} IdsTaken(places: seq<Place>, id: string)
    requires id != ""
    ensures id in IdsOf(places) <==> exists j :: 0 <= j < |places| && Takes(places[j], id)
    decreases |places|
  {
    if places != [] {
      IdsTaken(Front(places), id);
      assert forall j :: 0 <= j < |places| - 1 ==> places[j] == Front(places)[j];
      assert places[|places| - 1] == Last(places);
    }
  }

  lemma GradeKeepsIff(place: Place, taken: set<string>, rules: Rules, call: ToolCall)
    ensures Keeps(Grade(place, taken, rules), rules, call)
            <==> && place.item.None? && place.block.Some? && place.block.value.ToolBlock?
                 && var b := place.block.value;
                 && b.complete && b.id == Some(call.id) && b.name == Some(call.name) && call.id != "" && call.name != ""
                 && rules.isObject(b.arguments) && call.id !in taken
  {
    var g := Grade(place, taken, rules);
    if |g| == 1 && KeptCall(g[0], rules) && CallOf(g[0], rules) == call { assert Keeps(g, rules, call); }
  }

  lemma KeepsJoin(xs: seq<Part>, ys: seq<Part>, rules: Rules, call: ToolCall)
    ensures Keeps(xs + ys, rules, call) <==> Keeps(xs, rules, call) || Keeps(ys, rules, call)
  {
    if k :| 0 <= k < |xs| && KeptCall(xs[k], rules) && CallOf(xs[k], rules) == call { assert (xs + ys)[k] == xs[k]; }
    if k :| 0 <= k < |ys| && KeptCall(ys[k], rules) && CallOf(ys[k], rules) == call {
      assert (xs + ys)[|xs| + k] == ys[k];
    }
  }

  lemma ReturnsLast(places: seq<Place>, rules: Rules, call: ToolCall)
    requires places != []
    ensures (exists i :: Returns(places, rules, call, i))
            <==> (exists i :: Returns(Front(places), rules, call, i)) || Returns(places, rules, call, |places| - 1)
  {
    assert forall j :: 0 <= j < |places| - 1 ==> places[j] == Front(places)[j];
    if i :| Returns(Front(places), rules, call, i) { assert Returns(places, rules, call, i); }
    if i :| Returns(places, rules, call, i) {
      if i < |places| - 1 { assert Returns(Front(places), rules, call, i); }
    }
  }

  lemma {:induction false} GradedKeepsIff(places: seq<Place>, rules: Rules, call: ToolCall)
    ensures Keeps(Graded(places, rules), rules, call) <==> exists i :: Returns(places, rules, call, i)
    decreases |places|
  {
    if places != [] {
      hide Keeps, Returns, Grade, IdsOf;
      var front, last := Front(places), Last(places);
      GradedKeepsIff(front, rules, call);
      KeepsJoin(Graded(front, rules), Grade(last, IdsOf(front), rules), rules, call);
      GradeKeepsIff(last, IdsOf(front), rules, call);
      ReturnsLast(places, rules, call);
      LastReturnsIff(places, rules, call);
    } else {
      assert !Keeps([], rules, call);
    }
  }

  lemma LastReturnsIff(places: seq<Place>, rules: Rules, call: ToolCall)
    requires places != []
    ensures Returns(places, rules, call, |places| - 1)
            <==> && Last(places).item.None? && Last(places).block.Some? && Last(places).block.value.ToolBlock?
                 && var b := Last(places).block.value;
                 && b.complete && b.id == Some(call.id) && b.name == Some(call.name) && call.id != "" && call.name != ""
                 && rules.isObject(b.arguments) && call.id !in IdsOf(Front(places))
  {
    hide IdsOf;
    if call.id != "" { IdsTaken(Front(places), call.id); }
    assert forall j :: 0 <= j < |places| - 1 ==> places[j] == Front(places)[j];
  }

  lemma SealsKeepCalls(parts: seq<Part>, rules: Rules, call: ToolCall)
    ensures Keeps(SealsChecked(parts), rules, call) <==> Keeps(parts, rules, call)
  {
    var checked := SealsChecked(parts);
    assert forall k :: 0 <= k < |parts| && parts[k].content.Call? ==> checked[k] == parts[k];
    assert forall k :: 0 <= k < |parts| ==> checked[k].content == parts[k].content;
    if k :| 0 <= k < |parts| && KeptCall(parts[k], rules) && CallOf(parts[k], rules) == call {
      assert KeptCall(checked[k], rules) && CallOf(checked[k], rules) == call;
    }
    if k :| 0 <= k < |checked| && KeptCall(checked[k], rules) && CallOf(checked[k], rules) == call {
      assert KeptCall(parts[k], rules) && CallOf(parts[k], rules) == call;
    }
  }

  lemma {:induction false} SaidIff(parts: seq<Part>, rules: Rules, call: ToolCall)
    ensures ToolUse(call, true) in AllSaid(parts, rules) <==> Keeps(parts, rules, call)
    decreases |parts|
  {
    if parts != [] {
      SaidIff(Front(parts), rules, call);
      assert Front(parts) + [Last(parts)] == parts;
      KeepsJoin(Front(parts), [Last(parts)], rules, call);
      SaidOnce(Last(parts), rules);
      if KeptCall(Last(parts), rules) && CallOf(Last(parts), rules) == call {
        assert [Last(parts)][0] == Last(parts) && Keeps([Last(parts)], rules, call);
      }
    }
  }

  /** A tool call goes back if and only if it was streamed to its confirmed end, names itself and its tool,
      passes an object, and is the first of its id: a call cut off never does, whatever its arguments look
      like so far. */
  lemma CallReturnsIff(places: seq<Place>, rules: Rules, call: ToolCall)
    ensures ToolUse(call, true) in Fragment(Parts(places, rules), rules)
            <==> exists i :: Returns(places, rules, call, i)
  {
    hide Keeps, Returns, Graded, AllSaid, Calls, SealsChecked;
    GradedKeepsIff(places, rules, call);
    SealsKeepCalls(Graded(places, rules), rules, call);
    SaidIff(Parts(places, rules), rules, call);
  }

  /** Streamed text goes back always, and so do items handed over whole. */
  lemma TextReturns(places: seq<Place>, rules: Rules, i: nat)
    requires i < |places|
    ensures places[i].item.Some? ==>
              UpstreamCompaction(places[i].item.value) in Fragment(Parts(places, rules), rules)
    ensures places[i].item.None? && places[i].block.Some? && places[i].block.value.TextBlock? ==>
              Assistant(places[i].block.value.text) in Fragment(Parts(places, rules), rules)
  {
    var k := TextGraded(places, rules, i);
    hide Graded, Fragment;
    var parts, place := Parts(places, rules), places[i];
    if place.item.Some? {
      SaidIn(parts, k, rules, UpstreamCompaction(place.item.value));
    } else if place.block.Some? && place.block.value.TextBlock? {
      SaidIn(parts, k, rules, Assistant(place.block.value.text));
    }
  }

  lemma SaidIn(parts: seq<Part>, k: nat, rules: Rules, m: Message)
    requires k < |parts| && Said(parts[k], rules) == [m]
    ensures m in Fragment(parts, rules)
  {
    SaidSplits(parts, k, rules);
    var all := AllSaid(parts, rules);
    var at := |AllSaid(parts[..k], rules)|;
    assert all[at] == (AllSaid(parts[..k], rules) + [m])[at] == m;
    assert Fragment(parts, rules)[at] == m;
  }

  lemma {:induction false} TextGraded(places: seq<Place>, rules: Rules, i: nat) returns (k: nat)
    requires i < |places|
    ensures places[i].item.Some? ==>
              k < |Graded(places, rules)| && Graded(places, rules)[k] == Part(Item(places[i].item.value), Replayable)
    ensures places[i].item.None? && places[i].block.Some? && places[i].block.value.TextBlock? ==>
              && k < |Graded(places, rules)|
              && Graded(places, rules)[k] == Part(Text(places[i].block.value.text), Replayable)
    decreases |places|
  {
    if i == |places| - 1 {
      k := |Graded(Front(places), rules)|;
    } else {
      k := TextGraded(Front(places), rules, i);
    }
  }

  /** Checking the seals withholds a part if and only if it is a thought of no text with a signature and no
      text or call that goes back stands right behind it; it changes nothing else. */
  lemma SealsWithholdIff(parts: seq<Part>, i: nat)
    requires i < |parts|
    ensures |SealsChecked(parts)| == |parts| && SealsChecked(parts)[i].content == parts[i].content
    ensures var sealed := i + 1 < |parts| && parts[i + 1].replay.Replayable?
                          && (parts[i + 1].content.Text? || parts[i + 1].content.Call?);
            var bare := parts[i].content.Thought? && parts[i].content.plaintext == ""
                        && parts[i].content.signature != "";
            SealsChecked(parts)[i].replay == if bare && !sealed then MissingSignedPart else parts[i].replay
  {
  }

  /** Reasoning goes back as the protocol's rules say of it, but for a bare signature that is withheld. */
  lemma {:induction false} ThoughtGraded(places: seq<Place>, rules: Rules, i: nat) returns (k: nat)
    requires i < |places| && places[i].item.None? && places[i].block.Some? && places[i].block.value.ReasoningBlock?
    ensures var b := places[i].block.value;
            && k < |Graded(places, rules)|
            && Graded(places, rules)[k].content == Thought(b.plaintext, b.signature)
            && Graded(places, rules)[k].replay == rules.reasoning(b.complete, b.plaintext, b.signature, b.ciphertext)
    decreases |places|
  {
    if i == |places| - 1 {
      k := |Graded(Front(places), rules)|;
    } else {
      k := ThoughtGraded(Front(places), rules, i);
    }
  }
}
