/** Redacting a configuration's secrets for the settings page and putting them back in what the page
    sends (`src/application/config_file.rs`). */
module ConfigFile {
  import opened Prelude
  import opened ConfigTree

  datatype Secret = Secret(path: Path, shownEmpty: bool)
  datatype Secrets = Secrets(items: Path, each: bool, fields: seq<Secret>)

  const SECRETS: seq<Secrets> := [
    Secrets(["fetch", "providers"], true, [Secret(["headers", EVERY], false)]),
    Secrets(["accounts"], true,
            [Secret(["api_key"], false), Secret(["refresh_token"], false), Secret(["credentials", EVERY], false)]),
    Secrets(["providers"], true,
            [Secret(["api_key"], false), Secret(["refresh_token"], false), Secret(["credentials", EVERY], false),
             Secret(["headers", EVERY], false)]),
    Secrets([], false, [Secret(["proxy", "password"], true)]),
    Secrets(["mcp", "servers"], true, [Secret(["env", EVERY], false), Secret(["headers", EVERY], false)]),
    Secrets(["search", "providers"], true, [Secret(["api_key"], false), Secret(["headers", EVERY], false)])
  ]

  type Outcome = Result<Value, ConfigError>

  /** Where a secret is, from the root. */
  function Place(g: Secrets, s: Secret): Secret {
    Secret(g.items + (if g.each then [EVERY] else []) + s.path, s.shownEmpty)
  }

  // ----- redact and restore -----

  function RedactFields(v: Value, g: Secrets, fields: seq<Secret>): Value {
    if fields == [] then v
    else
      var place := Place(g, Last(fields));
      HideAt(RedactFields(v, g, Front(fields)), place.path, place.shownEmpty)
  }

  function RedactAll(v: Value, groups: seq<Secrets>): Outcome {
    if groups == [] then Ok(v)
    else
      var before := RedactAll(v, Front(groups));
      if before.Err? then before
      else
        var entered := Insert(before.value, Last(groups).items);
        if entered.Err? then entered else Ok(RedactFields(entered.value, Last(groups), Last(groups).fields))
  }

  function RestoreFields(v: Value, g: Secrets, fields: seq<Secret>, stored: Value): Outcome {
    if fields == [] then Ok(v)
    else
      var before := RestoreFields(v, g, Front(fields), stored);
      if before.Err? then before else RevealAt(before.value, Place(g, Last(fields)).path, Some(stored))
  }

  function RestoreAll(v: Value, groups: seq<Secrets>, stored: Value): Outcome {
    if groups == [] then Ok(v)
    else
      var before := RestoreAll(v, Front(groups), stored);
      if before.Err? then before
      else
        var entered := Insert(before.value, Last(groups).items);
        if entered.Err? then entered else RestoreFields(entered.value, Last(groups), Last(groups).fields, stored)
  }

  /** The configuration with every section there, null where it was missing. */
  function Sectioned(v: Value, groups: seq<Secrets>): Outcome {
    if groups == [] then Ok(v)
    else
      var before := Sectioned(v, Front(groups));
      if before.Err? then before else Insert(before.value, Last(groups).items)
  }

  method Redact(config: Value) returns (r: Outcome)
    ensures r == RedactAll(config, SECRETS)
  {
    var value := config;
    for i := 0 to |SECRETS|
      invariant RedactAll(config, SECRETS[..i]) == Ok(value)
    {
      hide RedactFields;
      var g := SECRETS[i];
      StepRedact(config, SECRETS, i);
      var entered := Insert(value, g.items);
      if entered.Err? {
        RedactStops(config, SECRETS, i + 1);
        return entered;
      }
      value := entered.value;
      for j := 0 to |g.fields|
        invariant value == RedactFields(entered.value, g, g.fields[..j])
      {
        var place := Place(g, g.fields[j]);
        NextField(entered.value, g, j);
        value := HideAt(value, place.path, place.shownEmpty);
      }
      assert g.fields[..|g.fields|] == g.fields;
    }
    assert SECRETS[..|SECRETS|] == SECRETS;
    return Ok(value);
  }

  method RestoreGroup(config: Value, g: Secrets, stored: Value) returns (r: Outcome)
    ensures r == RestoreFields(config, g, g.fields, stored)
  {
    hide RestoreFields;
    var value := config;
    NoneRestored(config, g, stored);
    for j := 0 to |g.fields|
      invariant RestoreFields(config, g, g.fields[..j], stored) == Ok(value)
    {
      NextRestored(config, g, j, stored);
      var revealed := RevealAt(value, Place(g, g.fields[j]).path, Some(stored));
      if revealed.Err? {
        FieldsStop(config, g, g.fields, j + 1, stored);
        return revealed;
      }
      value := revealed.value;
    }
    assert g.fields[..|g.fields|] == g.fields;
    return Ok(value);
  }

  lemma NoneRestored(v: Value, g: Secrets, stored: Value)
    ensures RestoreFields(v, g, g.fields[..0], stored) == Ok(v)
  {
  }

  method Restore(config: Value, stored: Value) returns (r: Outcome)
    ensures r == RestoreAll(config, SECRETS, stored)
  {
    var value := config;
    for i := 0 to |SECRETS|
      invariant RestoreAll(config, SECRETS[..i], stored) == Ok(value)
    {
      hide RestoreFields;
      var g := SECRETS[i];
      StepRestore(config, SECRETS, i, stored);
      var entered := Insert(value, g.items);
      if entered.Err? {
        RestoreStops(config, SECRETS, i + 1, stored);
        return entered;
      }
      var restored := RestoreGroup(entered.value, g, stored);
      if restored.Err? {
        RestoreStops(config, SECRETS, i + 1, stored);
        return restored;
      }
      value := restored.value;
    }
    assert SECRETS[..|SECRETS|] == SECRETS;
    return Ok(value);
  }

  lemma StepRedact(v: Value, groups: seq<Secrets>, i: nat)
    requires i < |groups|
    ensures RedactAll(v, groups[..i + 1])
            == if RedactAll(v, groups[..i]).Err? then RedactAll(v, groups[..i])
               else if Insert(RedactAll(v, groups[..i]).value, groups[i].items).Err?
               then Insert(RedactAll(v, groups[..i]).value, groups[i].items)
               else
                 var inserted := Insert(RedactAll(v, groups[..i]).value, groups[i].items).value;
                 Ok(RedactFields(inserted, groups[i], groups[i].fields))
  {
    assert Front(groups[..i + 1]) == groups[..i];
  }

  lemma NextField(v: Value, g: Secrets, j: nat)
    requires j < |g.fields|
    ensures RedactFields(v, g, g.fields[..j + 1])
            == HideAt(RedactFields(v, g, g.fields[..j]), Place(g, g.fields[j]).path, Place(g, g.fields[j]).shownEmpty)
  {
    assert Front(g.fields[..j + 1]) == g.fields[..j];
  }

  lemma {:induction false} RedactStops(v: Value, groups: seq<Secrets>, i: nat)
    requires i <= |groups| && RedactAll(v, groups[..i]).Err?
    ensures RedactAll(v, groups) == RedactAll(v, groups[..i])
    decreases |groups|
  {
    if i == |groups| {
      assert groups[..i] == groups;
    } else {
      assert Front(groups)[..i] == groups[..i];
      RedactStops(v, Front(groups), i);
    }
  }

  lemma StepRestore(v: Value, groups: seq<Secrets>, i: nat, stored: Value)
    requires i < |groups|
    ensures RestoreAll(v, groups[..i + 1], stored)
            == if RestoreAll(v, groups[..i], stored).Err? then RestoreAll(v, groups[..i], stored)
               else if Insert(RestoreAll(v, groups[..i], stored).value, groups[i].items).Err?
               then Insert(RestoreAll(v, groups[..i], stored).value, groups[i].items)
               else RestoreFields(Insert(RestoreAll(v, groups[..i], stored).value, groups[i].items).value, groups[i],
                                  groups[i].fields, stored)
  {
    assert Front(groups[..i + 1]) == groups[..i];
  }

  lemma NextRestored(v: Value, g: Secrets, j: nat, stored: Value)
    requires j < |g.fields|
    ensures var before := RestoreFields(v, g, g.fields[..j], stored);
            RestoreFields(v, g, g.fields[..j + 1], stored)
            == if before.Err? then before else RevealAt(before.value, Place(g, g.fields[j]).path, Some(stored))
  {
    assert Front(g.fields[..j + 1]) == g.fields[..j];
  }

  lemma {:induction false} RestoreStops(v: Value, groups: seq<Secrets>, i: nat, stored: Value)
    requires i <= |groups| && RestoreAll(v, groups[..i], stored).Err?
    ensures RestoreAll(v, groups, stored) == RestoreAll(v, groups[..i], stored)
    decreases |groups|
  {
    if i == |groups| {
      assert groups[..i] == groups;
    } else {
      assert Front(groups)[..i] == groups[..i];
      RestoreStops(v, Front(groups), i, stored);
    }
  }

  lemma {:induction false} FieldsStop(v: Value, g: Secrets, fields: seq<Secret>, j: nat, stored: Value)
    requires j <= |fields| && RestoreFields(v, g, fields[..j], stored).Err?
    ensures RestoreFields(v, g, fields, stored) == RestoreFields(v, g, fields[..j], stored)
    decreases |fields|
  {
    if j == |fields| {
      assert fields[..j] == fields;
    } else {
      assert Front(fields)[..j] == fields[..j];
      FieldsStop(v, g, Front(fields), j, stored);
    }
  }

  // ----- what masking is -----

  /** `r` is `v` with exactly the values at `places` hidden. */
  ghost predicate Masks(r: Value, v: Value, places: set<Secret>) {
    && (forall s, p :: s in places && Matches(s.path, p) ==> Lookup(r, p) == HideOption(Lookup(v, p), s.shownEmpty))
    && (forall p :: Clear(places, p) ==> SameShape(r, v, p))
  }

  /** Neither at nor below one of `places`. */
  ghost predicate Clear(places: set<Secret>, p: Path) {
    forall s :: s in places ==> !Under(s.path, p)
  }

  /** No place that one names is at or below one the other names. */
  predicate Diverge(a: Path, b: Path) {
    exists i :: 0 <= i < |a| && i < |b| && a[i] != EVERY && b[i] != EVERY && a[i] != b[i]
  }

  ghost predicate AllDiverge(a: Path, places: set<Secret>) {
    forall s :: s in places ==> Diverge(a, s.path)
  }

  lemma DivergeApart(a: Path, b: Path, p: Path)
    requires Diverge(a, b) && Under(a, p)
    ensures !Under(b, p) && Apart(b, p)
  {
    var i :| 0 <= i < |a| && i < |b| && a[i] != EVERY && b[i] != EVERY && a[i] != b[i];
    var q := p[..|a|];
    assert Fits(a[i], q[i]) && !Fits(b[i], p[i]);
    assert |b| <= |p| ==> !Fits(b[i], p[..|b|][i]);
  }

  lemma MatchesIsUnder(parts: Path, p: Path)
    requires Matches(parts, p)
    ensures Under(parts, p)
  {
    assert p[..|parts|] == p;
  }

  lemma MaskOne(r: Value, v: Value, places: set<Secret>, s: Secret)
    requires Masks(r, v, places) && AllDiverge(s.path, places)
    ensures Masks(HideAt(r, s.path, s.shownEmpty), v, places + {s})
  {
    var after := HideAt(r, s.path, s.shownEmpty);
    forall t, p | t in places + {s} && Matches(t.path, p)
      ensures Lookup(after, p) == HideOption(Lookup(v, p), t.shownEmpty)
    {
      HideLooks(r, s.path, s.shownEmpty, p);
      MatchesIsUnder(t.path, p);
      if t in places {
        DivergeSwap(s.path, t.path);
        DivergeApart(t.path, s.path, p);
      } else {
        ClearOf(s, places, p);
      }
    }
    forall p | Clear(places + {s}, p) ensures SameShape(after, v, p) {
      assert s in places + {s};
      HideLooks(r, s.path, s.shownEmpty, p);
      assert Clear(places, p);
    }
  }

  lemma DivergeSwap(a: Path, b: Path)
    requires Diverge(a, b)
    ensures Diverge(b, a)
  {
    var i :| 0 <= i < |a| && i < |b| && a[i] != EVERY && b[i] != EVERY && a[i] != b[i];
    assert b[i] != a[i];
  }

  lemma ClearOf(s: Secret, places: set<Secret>, p: Path)
    requires AllDiverge(s.path, places) && Under(s.path, p)
    ensures Clear(places, p)
  {
    forall t | t in places ensures !Under(t.path, p) { DivergeApart(s.path, t.path, p); }
  }

  /** Sections are inserted beside what is masked. */
  lemma MaskedInsert(r: Value, v: Value, places: set<Secret>, path: Path)
    requires Masks(r, v, places)
    requires path != [] ==> forall s :: s in places ==> s.path != [] && s.path[0] != EVERY && s.path[0] != path[0]
    ensures Insert(r, path).Ok? <==> Insert(v, path).Ok?
    ensures Insert(r, path).Ok? ==> Masks(Insert(r, path).value, Insert(v, path).value, places)
  {
    if path != [] {
      forall q | q <= path ensures Clear(places, q) && SameShape(r, v, q) {
        OffPath(places, path, q);
      }
      InsertByShape(r, v, path);
      if Insert(r, path).Ok? {
        var r', v' := Insert(r, path).value, Insert(v, path).value;
        forall s, p | s in places && Matches(s.path, p)
          ensures Lookup(r', p) == HideOption(Lookup(v', p), s.shownEmpty)
        {
          assert Fits(s.path[0], p[0]);
          assert !(p <= path);
          InsertElsewhere(r, path, p);
          InsertElsewhere(v, path, p);
        }
        forall p | Clear(places, p) ensures SameShape(r', v', p) {
          if !(p <= path) {
            InsertElsewhere(r, path, p);
            InsertElsewhere(v, path, p);
            assert SameShape(r, v, p);
          }
        }
      }
    }
  }

  lemma OffPath(places: set<Secret>, path: Path, q: Path)
    requires path != [] && q <= path
    requires forall s :: s in places ==> s.path != [] && s.path[0] != EVERY && s.path[0] != path[0]
    ensures Clear(places, q)
  {
    forall s | s in places ensures !Under(s.path, q) {
      assert |s.path| <= |q| ==> !Fits(s.path[0], q[..|s.path|][0]);
    }
  }

  ghost predicate Stored(stored: Value, v: Value, s: Secret) {
    forall p :: Matches(s.path, p) ==> Lookup(stored, p) == Lookup(v, p)
  }

  /** Where a secret is masked, the stored value comes back. */
  lemma RevealsPlace(r: Value, v: Value, places: set<Secret>, s: Secret, stored: Value)
    requires Masks(r, v, places) && s in places && Stored(stored, v, s)
    ensures RevealAt(r, s.path, Some(stored)).Ok?
    ensures forall p :: Matches(s.path, p) ==> Lookup(RevealAt(r, s.path, Some(stored)).value, p) == Lookup(v, p)
  {
    forall p | Matches(s.path, p) && Lookup(r, p) == Some(REDACTED) ensures IsKept(LookupIn(Some(stored), p)) {
      assert Lookup(stored, p) == Lookup(v, p);
    }
    RevealOkIff(r, s.path, Some(stored));
    forall p | Matches(s.path, p) ensures Lookup(RevealAt(r, s.path, Some(stored)).value, p) == Lookup(v, p) {
      assert Lookup(stored, p) == Lookup(v, p);
      RevealLooks(r, s.path, Some(stored), p);
    }
  }

  lemma BelowPlace(a: Value, v: Value, s: Secret, p: Path)
    requires Under(s.path, p) && forall q :: Matches(s.path, q) ==> Lookup(a, q) == Lookup(v, q)
    ensures SameShape(a, v, p)
  {
    var q := p[..|s.path|];
    assert Lookup(a, q) == Lookup(v, q);
    assert p == q + p[|s.path|..];
    LookupSplits(a, q, p[|s.path|..]);
    LookupSplits(v, q, p[|s.path|..]);
  }

  lemma UnmaskOne(r: Value, v: Value, places: set<Secret>, s: Secret, stored: Value)
    requires Masks(r, v, places + {s}) && AllDiverge(s.path, places) && Stored(stored, v, s)
    ensures RevealAt(r, s.path, Some(stored)).Ok? && Masks(RevealAt(r, s.path, Some(stored)).value, v, places)
  {
    hide RevealAt, Matches, Apart, Stored;
    RevealsPlace(r, v, places + {s}, s, stored);
    var after := RevealAt(r, s.path, Some(stored)).value;
    forall t, p | t in places && Matches(t.path, p)
      ensures Lookup(after, p) == HideOption(Lookup(v, p), t.shownEmpty)
    {
      MatchesIsUnder(t.path, p);
      DivergeSwap(s.path, t.path);
      DivergeApart(t.path, s.path, p);
      RevealLooks(r, s.path, Some(stored), p);
    }
    forall p | Clear(places, p) ensures SameShape(after, v, p) {
      if Under(s.path, p) {
        BelowPlace(after, v, s, p);
      } else {
        RevealLooks(r, s.path, Some(stored), p);
        assert Clear(places + {s}, p);
      }
    }
  }

  lemma Unmasked(r: Value, v: Value)
    requires Masks(r, v, {})
    ensures r == v
  {
    forall p ensures SameShape(r, v, p) { assert Clear({}, p); }
    SameEverywhere(r, v);
  }

  // ----- the whole table -----

  function Head(g: Secrets): string {
    if g.items != [] then g.items[0]
    else if g.fields != [] && g.fields[0].path != [] then g.fields[0].path[0]
    else EVERY
  }

  /** Groups sit under names of their own, and the fields of a group lead apart. */
  ghost predicate TableOk(groups: seq<Secrets>) {
    && (forall i :: 0 <= i < |groups| ==> GroupOk(groups[i]))
    && (forall i, j :: 0 <= i < j < |groups| ==> Head(groups[i]) != Head(groups[j]))
  }

  ghost predicate GroupOk(g: Secrets) {
    && Head(g) != EVERY
    && (forall i :: 0 <= i < |g.fields| ==>
          |Place(g, g.fields[i]).path| > |g.items| && Place(g, g.fields[i]).path[0] == Head(g))
    && (forall i, j :: 0 <= i < j < |g.fields| ==> Diverge(Place(g, g.fields[i]).path, Place(g, g.fields[j]).path))
  }

  function Places(g: Secrets, fields: seq<Secret>): set<Secret> {
    set s <- fields :: Place(g, s)
  }

  function AllPlaces(groups: seq<Secrets>): set<Secret> {
    if groups == [] then {} else Places(groups[0], groups[0].fields) + AllPlaces(groups[1..])
  }

  lemma {:induction false} PlacesGrow(groups: seq<Secrets>, g: Secrets)
    ensures AllPlaces(groups + [g]) == AllPlaces(groups) + Places(g, g.fields)
    decreases |groups|
  {
    if groups == [] {
      assert groups + [g] == [g];
      assert AllPlaces([g][1..]) == {};
    } else {
      assert (groups + [g])[0] == groups[0] && (groups + [g])[1..] == groups[1..] + [g];
      PlacesGrow(groups[1..], g);
    }
  }

  lemma {:induction false} PlacesFrom(groups: seq<Secrets>, s: Secret)
    requires s in AllPlaces(groups)
    ensures exists i, j ::
              0 <= i < |groups| && 0 <= j < |groups[i].fields| && s == Place(groups[i], groups[i].fields[j])
    decreases |groups|
  {
    if s in Places(groups[0], groups[0].fields) {
      var f :| f in groups[0].fields && s == Place(groups[0], f);
      var j :| 0 <= j < |groups[0].fields| && groups[0].fields[j] == f;
      assert s == Place(groups[0], groups[0].fields[j]);
    } else {
      PlacesFrom(groups[1..], s);
      var i, j :| 0 <= i < |groups[1..]| && 0 <= j < |groups[1..][i].fields|
                  && s == Place(groups[1..][i], groups[1..][i].fields[j]);
      assert s == Place(groups[i + 1], groups[i + 1].fields[j]);
    }
  }

  /** Every place of `groups` begins with another name than `g`'s. */
  ghost predicate Beside(g: Secrets, places: set<Secret>) {
    forall s :: s in places ==> s.path != [] && s.path[0] != EVERY && s.path[0] != Head(g)
  }

  lemma OthersBeside(groups: seq<Secrets>, g: Secrets)
    requires TableOk(groups) && forall i :: 0 <= i < |groups| ==> Head(groups[i]) != Head(g)
    ensures Beside(g, AllPlaces(groups))
  {
    forall s | s in AllPlaces(groups) ensures s.path != [] && s.path[0] != EVERY && s.path[0] != Head(g) {
      PlacesFrom(groups, s);
      var i, j :| 0 <= i < |groups| && 0 <= j < |groups[i].fields| && s == Place(groups[i], groups[i].fields[j]);
      assert GroupOk(groups[i]);
    }
  }

  lemma {:induction false} FieldsMask(r: Value, v: Value, g: Secrets, others: set<Secret>, j: nat)
    requires GroupOk(g) && Beside(g, others) && Masks(r, v, others) && j <= |g.fields|
    ensures Masks(RedactFields(r, g, g.fields[..j]), v, Places(g, g.fields[..j]) + others)
    decreases j
  {
    hide Masks, HideAt, Places, Place, GroupOk, Beside, AllDiverge;
    if j == 0 {
      NoPlaces(g);
      assert g.fields[..0] == [] && Places(g, []) + others == others;
    } else {
      FieldsMask(r, v, g, others, j - 1);
      NextField(r, g, j - 1);
      var before, s := g.fields[..j - 1], g.fields[j - 1];
      NextPlace(g, j - 1, others);
      MaskOne(RedactFields(r, g, before), v, Places(g, before) + others, Place(g, s));
    }
  }

  lemma NextPlace(g: Secrets, j: nat, others: set<Secret>)
    requires GroupOk(g) && Beside(g, others) && j < |g.fields|
    ensures AllDiverge(Place(g, g.fields[j]).path, Places(g, g.fields[..j]) + others)
    ensures Places(g, g.fields[..j + 1]) + others == Places(g, g.fields[..j]) + others + {Place(g, g.fields[j])}
    ensures AllDiverge(Place(g, g.fields[j]).path, Places(g, g.fields[j + 1..]) + others)
    ensures Places(g, g.fields[j..]) + others == Places(g, g.fields[j + 1..]) + others + {Place(g, g.fields[j])}
  {
    FieldsApart(g, j);
    hide Places, Diverge, AllDiverge;
    var before, s, after := g.fields[..j], g.fields[j], g.fields[j + 1..];
    assert g.fields[..j + 1] == before + [s] && g.fields[j..] == [s] + after;
  }

  lemma FieldsApart(g: Secrets, j: nat)
    requires GroupOk(g) && j < |g.fields|
    ensures forall f :: f in g.fields[..j] ==> Diverge(Place(g, g.fields[j]).path, Place(g, f).path)
    ensures forall f :: f in g.fields[j + 1..] ==> Diverge(Place(g, g.fields[j]).path, Place(g, f).path)
  {
    hide Diverge, Place;
    forall f | f in g.fields[..j] ensures Diverge(Place(g, g.fields[j]).path, Place(g, f).path) {
      var i :| 0 <= i < j && g.fields[i] == f;
      DivergeSwap(Place(g, f).path, Place(g, g.fields[j]).path);
    }
    forall f | f in g.fields[j + 1..] ensures Diverge(Place(g, g.fields[j]).path, Place(g, f).path) {
      var i :| j + 1 <= i < |g.fields| && g.fields[i] == f;
    }
  }

  lemma TablePrefix(groups: seq<Secrets>, i: nat)
    requires TableOk(groups) && i <= |groups|
    ensures TableOk(groups[..i]) && TableOk(groups[i..])
    ensures i < |groups| ==> GroupOk(groups[i]) && Beside(groups[i], AllPlaces(groups[..i]))
                             && Beside(groups[i], AllPlaces(groups[i + 1..]))
  {
    if i < |groups| {
      assert TableOk(groups[i + 1..]);
      assert TableOk(groups[..i]);
      OthersBeside(groups[..i], groups[i]);
      OthersBeside(groups[i + 1..], groups[i]);
    }
  }

  /** Redacting is hiding exactly the secrets, after the sections were opened; it fails only where a
      section cannot be. */
  lemma {:induction false} RedactMasks(v: Value, groups: seq<Secrets>)
    requires TableOk(groups)
    ensures RedactAll(v, groups).Ok? <==> Sectioned(v, groups).Ok?
    ensures RedactAll(v, groups).Ok? ==>
              Masks(RedactAll(v, groups).value, Sectioned(v, groups).value, AllPlaces(groups))
    decreases |groups|
  {
    hide Masks, RedactFields, Insert;
    if groups == [] {
      NothingMasked(v);
    } else {
      var front, g := Front(groups), Last(groups);
      TablePrefix(groups, |groups| - 1);
      RedactMasks(v, front);
      assert groups == front + [g];
      PlacesGrow(front, g);
      if RedactAll(v, front).Ok? {
        var r, s := RedactAll(v, front).value, Sectioned(v, front).value;
        MaskedInsert(r, s, AllPlaces(front), g.items);
        if Insert(r, g.items).Ok? {
          FieldsMask(Insert(r, g.items).value, Insert(s, g.items).value, g, AllPlaces(front), |g.fields|);
          assert g.fields[..|g.fields|] == g.fields;
          assert Places(g, g.fields) + AllPlaces(front) == AllPlaces(groups);
        }
      }
    }
  }

  lemma NoPlaces(g: Secrets)
    ensures Places(g, []) == {}
  {
  }

  lemma NothingMasked(v: Value)
    ensures Masks(v, v, {})
  {
  }

  // ----- and back -----

  lemma {:induction false} SectionsStay(v: Value, groups: seq<Secrets>, p: Path)
    requires Sectioned(v, groups).Ok? && Lookup(v, p).Some?
    ensures Lookup(Sectioned(v, groups).value, p).Some?
    decreases |groups|
  {
    if groups != [] {
      SectionsStay(v, Front(groups), p);
      InsertKeeps(Sectioned(v, Front(groups)).value, Last(groups).items, p);
    }
  }

  lemma {:induction false} SectionsThere(v: Value, groups: seq<Secrets>, i: nat)
    requires Sectioned(v, groups).Ok? && i < |groups|
    ensures Lookup(Sectioned(v, groups).value, groups[i].items).Some?
    decreases |groups|
  {
    var before := Sectioned(v, Front(groups)).value;
    InsertPresent(before, Last(groups).items);
    if i < |groups| - 1 {
      SectionsThere(v, Front(groups), i);
      InsertKeeps(before, Last(groups).items, groups[i].items);
    }
  }

  lemma {:induction false} SectionsElsewhere(v: Value, groups: seq<Secrets>, p: Path)
    requires Sectioned(v, groups).Ok? && forall i :: 0 <= i < |groups| ==> !(p <= groups[i].items)
    ensures Lookup(Sectioned(v, groups).value, p) == Lookup(v, p)
    decreases |groups|
  {
    if groups != [] {
      assert forall i :: 0 <= i < |Front(groups)| ==> Front(groups)[i] == groups[i];
      SectionsElsewhere(v, Front(groups), p);
      assert !(p <= groups[|groups| - 1].items);
      InsertElsewhere(Sectioned(v, Front(groups)).value, Last(groups).items, p);
    }
  }

  /** No section is at a secret's place, so the stored values are those of the opened configuration. */
  lemma StoredAgrees(v: Value, groups: seq<Secrets>, i: nat, s: Secret, p: Path)
    requires TableOk(groups) && Sectioned(v, groups).Ok? && i < |groups| && s in groups[i].fields
    requires Matches(Place(groups[i], s).path, p)
    ensures Lookup(v, p) == Lookup(Sectioned(v, groups).value, p)
  {
    assert GroupOk(groups[i]);
    var j :| 0 <= j < |groups[i].fields| && groups[i].fields[j] == s;
    var path := Place(groups[i], groups[i].fields[j]).path;
    assert Fits(path[0], p[0]);
    forall k | 0 <= k < |groups| ensures !(p <= groups[k].items) {
      if k != i { assert Head(groups[k]) != Head(groups[i]); }
    }
    SectionsElsewhere(v, groups, p);
  }

  lemma {:induction false} FieldsUnmask(r: Value, s: Value, g: Secrets, others: set<Secret>, stored: Value, j: nat)
    requires GroupOk(g) && Beside(g, others) && Masks(r, s, Places(g, g.fields) + others) && j <= |g.fields|
    requires forall f :: f in g.fields ==> Stored(stored, s, Place(g, f))
    ensures RestoreFields(r, g, g.fields[..j], stored).Ok?
    ensures Masks(RestoreFields(r, g, g.fields[..j], stored).value, s, Places(g, g.fields[j..]) + others)
    decreases j
  {
    hide Masks, RevealAt, Places, Place, GroupOk, Beside, AllDiverge, Matches, Lookup;
    if j == 0 {
      assert g.fields[0..] == g.fields;
    } else {
      FieldsUnmask(r, s, g, others, stored, j - 1);
      NextRestored(r, g, j - 1, stored);
      var rest, f := g.fields[j..], g.fields[j - 1];
      NextPlace(g, j - 1, others);
      assert f in g.fields;
      UnmaskOne(RestoreFields(r, g, g.fields[..j - 1], stored).value, s, Places(g, rest) + others, Place(g, f), stored);
    }
  }

  lemma {:induction false} RestoreUnmasks(r: Value, v: Value, groups: seq<Secrets>, i: nat)
    requires TableOk(groups) && Sectioned(v, groups).Ok? && i <= |groups|
    requires Masks(r, Sectioned(v, groups).value, AllPlaces(groups))
    ensures RestoreAll(r, groups[..i], v).Ok?
    ensures Masks(RestoreAll(r, groups[..i], v).value, Sectioned(v, groups).value, AllPlaces(groups[i..]))
    decreases i
  {
    hide Masks, RestoreFields, Insert, Sectioned, TableOk;
    if i == 0 {
      assert groups[0..] == groups;
    } else {
      RestoreUnmasks(r, v, groups, i - 1);
      var s, g, others := Sectioned(v, groups).value, groups[i - 1], AllPlaces(groups[i..]);
      var before := RestoreAll(r, groups[..i - 1], v).value;
      StepRestore(r, groups, i - 1, v);
      TablePrefix(groups, i - 1);
      assert groups[i - 1..][1..] == groups[i..];
      assert AllPlaces(groups[i - 1..]) == Places(g, g.fields) + others;
      SectionsThere(v, groups, i - 1);
      SectionPresent(before, s, Places(g, g.fields) + others, g.items);
      forall f | f in g.fields ensures Stored(v, s, Place(g, f)) {
        forall p | Matches(Place(g, f).path, p) ensures Lookup(v, p) == Lookup(s, p) {
          StoredAgrees(v, groups, i - 1, f, p);
        }
      }
      FieldsUnmask(before, s, g, others, v, |g.fields|);
      assert g.fields[..|g.fields|] == g.fields && g.fields[|g.fields|..] == [];
      assert Places(g, []) + others == others;
    }
  }

  lemma SectionPresent(r: Value, s: Value, places: set<Secret>, items: Path)
    requires Masks(r, s, places) && Clear(places, items) && Lookup(s, items).Some?
    ensures Insert(r, items) == Ok(r)
  {
    assert SameShape(r, s, items);
    InsertPresent(r, items);
  }

  lemma SecretsAreTable()
    ensures TableOk(SECRETS)
  {
    assert SECRETS[0].items[0] == "fetch" && SECRETS[1].items[0] == "accounts" && SECRETS[2].items[0] == "providers";
    assert SECRETS[3].fields[0].path[0] == "proxy" && SECRETS[4].items[0] == "mcp" && SECRETS[5].items[0] == "search";
    GroupsOk();
  }

  lemma GroupsOk()
    ensures forall i :: 0 <= i < |SECRETS| ==> GroupOk(SECRETS[i])
  {
    forall i | 0 <= i < |SECRETS| ensures GroupOk(SECRETS[i]) { OneGroupOk(SECRETS[i]); }
  }

  lemma OneGroupOk(g: Secrets)
    requires Head(g) != EVERY && (g.items == [] ==> |g.fields| == 1 && !g.each)
    requires forall i :: 0 <= i < |g.fields| ==> g.fields[i].path != [] && g.fields[i].path[0] != EVERY
    requires forall i, j :: 0 <= i < j < |g.fields| ==> g.fields[i].path[0] != g.fields[j].path[0]
    ensures GroupOk(g)
  {
    var at := |g.items| + if g.each then 1 else 0;
    forall i, j | 0 <= i < j < |g.fields| ensures Diverge(Place(g, g.fields[i]).path, Place(g, g.fields[j]).path) {
      assert Place(g, g.fields[i]).path[at] == g.fields[i].path[0];
      assert Place(g, g.fields[j]).path[at] == g.fields[j].path[0];
    }
  }

  /** Putting the secrets back into the redacted configuration gives the configuration with its sections
      opened; that is the configuration itself if and only if no section was missing. */
  lemma RestoreUndoesRedact(v: Value)
    requires RedactAll(v, SECRETS).Ok?
    ensures RestoreAll(RedactAll(v, SECRETS).value, SECRETS, v) == Sectioned(v, SECRETS)
    ensures RestoreAll(RedactAll(v, SECRETS).value, SECRETS, v) == Ok(v)
            <==> forall i :: 0 <= i < |SECRETS| ==> Lookup(v, SECRETS[i].items).Some?
  {
    hide Masks, RedactAll, RestoreAll, TableOk;
    SecretsAreTable();
    RedactMasks(v, SECRETS);
    var r := RedactAll(v, SECRETS).value;
    RestoreUnmasks(r, v, SECRETS, |SECRETS|);
    assert SECRETS[..|SECRETS|] == SECRETS && SECRETS[|SECRETS|..] == [];
    Unmasked(RestoreAll(r, SECRETS, v).value, Sectioned(v, SECRETS).value);
    SectionedIff(v, SECRETS);
  }

  lemma {:induction false} AllPresent(v: Value, groups: seq<Secrets>)
    requires forall i :: 0 <= i < |groups| ==> Lookup(v, groups[i].items).Some?
    ensures Sectioned(v, groups) == Ok(v)
    decreases |groups|
  {
    if groups != [] {
      assert forall i :: 0 <= i < |Front(groups)| ==> Front(groups)[i] == groups[i];
      AllPresent(v, Front(groups));
      assert Lookup(v, groups[|groups| - 1].items).Some?;
      InsertPresent(v, Last(groups).items);
    }
  }

  lemma SectionedIff(v: Value, groups: seq<Secrets>)
    ensures Sectioned(v, groups) == Ok(v) <==> forall i :: 0 <= i < |groups| ==> Lookup(v, groups[i].items).Some?
  {
    if Sectioned(v, groups) == Ok(v) {
      forall i | 0 <= i < |groups| ensures Lookup(v, groups[i].items).Some? { SectionsThere(v, groups, i); }
    } else if forall i :: 0 <= i < |groups| ==> Lookup(v, groups[i].items).Some? {
      AllPresent(v, groups);
    }
  }

  /** The page sees of a secret only whether there is one, or an empty one where that is no secret; of
      everything else it sees what is there. */
  lemma RedactedShowsNoSecret(v: Value, p: Path)
    requires RedactAll(v, SECRETS).Ok?
    ensures Sectioned(v, SECRETS).Ok?
    ensures var r, s := RedactAll(v, SECRETS).value, Sectioned(v, SECRETS).value;
            && (forall t :: t in AllPlaces(SECRETS) && Matches(t.path, p) ==>
                  Lookup(r, p) in {None, Some(Null), Some(REDACTED)} || (t.shownEmpty && Lookup(r, p) == Some(Str(""))))
            && (Clear(AllPlaces(SECRETS), p) ==> SameShape(r, s, p))
  {
    hide RedactAll, TableOk, Sectioned, AllPlaces;
    SecretsAreTable();
    RedactMasks(v, SECRETS);
  }

  // ----- when the sections can be opened -----

  lemma {:induction false} OpensFresh(path: Path)
    ensures Insert(Null, path).Ok?
    decreases |path|
  {
    if path != [] { OpensFresh(path[1..]); }
  }

  lemma OpensAlike(a: Value, b: Value, path: Path)
    requires a.Obj? && b.Obj? && (path != [] ==> Lookup(a, [path[0]]) == Lookup(b, [path[0]]))
    ensures Insert(a, path).Ok? <==> Insert(b, path).Ok?
  {
    if path != [] {
      assert path[0] in a.fields <==> path[0] in b.fields;
      if path[0] in a.fields {
        assert Lookup(a, [path[0]]) == Some(a.fields[path[0]]) by { assert [path[0]][1..] == []; }
        assert Lookup(b, [path[0]]) == Some(b.fields[path[0]]) by { assert [path[0]][1..] == []; }
      }
    }
  }

  lemma {:induction false} StaysObject(v: Value, groups: seq<Secrets>)
    requires v.Obj? && Sectioned(v, groups).Ok?
    ensures Sectioned(v, groups).value.Obj?
    decreases |groups|
  {
    if groups != [] { StaysObject(v, Front(groups)); }
  }

  lemma OpensAsBefore(v: Value, groups: seq<Secrets>)
    requires TableOk(groups) && v.Obj? && groups != [] && Sectioned(v, Front(groups)).Ok?
    ensures Insert(Sectioned(v, Front(groups)).value, Last(groups).items).Ok? <==> Insert(v, Last(groups).items).Ok?
  {
    hide Insert;
    var front, g := Front(groups), Last(groups);
    StaysObject(v, front);
    if g.items != [] {
      var p := [g.items[0]];
      forall i | 0 <= i < |front| ensures !(p <= front[i].items) {
        assert Head(groups[i]) != Head(groups[|groups| - 1]);
      }
      SectionsElsewhere(v, front, p);
    }
    OpensAlike(Sectioned(v, front).value, v, g.items);
  }

  lemma {:induction false} ObjectRedactsIff(v: Value, groups: seq<Secrets>)
    requires TableOk(groups) && v.Obj?
    ensures RedactAll(v, groups).Ok? <==> forall i :: 0 <= i < |groups| ==> Insert(v, groups[i].items).Ok?
    decreases |groups|
  {
    hide Insert, RedactAll, TableOk;
    RedactMasks(v, groups);
    if groups != [] {
      var front := Front(groups);
      TablePrefix(groups, |groups| - 1);
      assert groups[..|groups| - 1] == front;
      ObjectRedactsIff(v, front);
      RedactMasks(v, front);
      assert forall i :: 0 <= i < |front| ==> front[i] == groups[i];
      assert groups[|groups| - 1] == Last(groups);
      if Sectioned(v, front).Ok? { OpensAsBefore(v, groups); }
    }
  }

  /** A null configuration is opened like an empty one. */
  lemma {:induction false} NullOpensEmpty(groups: seq<Secrets>)
    ensures if forall i :: 0 <= i < |groups| ==> groups[i].items == []
            then Sectioned(Null, groups) == Ok(Null) && Sectioned(Obj(map[]), groups) == Ok(Obj(map[]))
            else Sectioned(Null, groups) == Sectioned(Obj(map[]), groups)
    decreases |groups|
  {
    if groups != [] {
      NullOpensEmpty(Front(groups));
      assert groups[|groups| - 1] == Last(groups);
      assert forall i :: 0 <= i < |Front(groups)| ==> Front(groups)[i] == groups[i];
    }
  }

  /** Anything else has no sections to open. */
  lemma {:induction false} NothingToOpen(v: Value, groups: seq<Secrets>)
    requires !v.Obj? && !v.Null?
    ensures Sectioned(v, groups).Ok? <==> forall i :: 0 <= i < |groups| ==> groups[i].items == []
    ensures Sectioned(v, groups).Ok? ==> Sectioned(v, groups).value == v
    decreases |groups|
  {
    if groups != [] {
      NothingToOpen(v, Front(groups));
      assert groups[|groups| - 1] == Last(groups);
      assert forall i :: 0 <= i < |Front(groups)| ==> Front(groups)[i] == groups[i];
    }
  }

  lemma NullRedacts(groups: seq<Secrets>)
    requires TableOk(groups)
    ensures RedactAll(Null, groups).Ok? && forall i :: 0 <= i < |groups| ==> Insert(Null, groups[i].items).Ok?
  {
    hide TableOk, RedactAll, Insert;
    forall i | 0 <= i < |groups|
      ensures Insert(Null, groups[i].items).Ok? && Insert(Obj(map[]), groups[i].items).Ok?
    {
      OpensFresh(groups[i].items);
      EmptyOpens(groups[i].items);
    }
    ObjectRedactsIff(Obj(map[]), groups);
    RedactMasks(Obj(map[]), groups);
    RedactMasks(Null, groups);
    NullOpensEmpty(groups);
  }

  lemma EmptyOpens(path: Path)
    ensures Insert(Obj(map[]), path).Ok?
  {
    if path != [] { OpensFresh(path[1..]); }
  }

  /** A configuration can be redacted if and only if none of its sections runs through something that is
      neither an object, nor null, nor missing. */
  lemma RedactsIff(v: Value, groups: seq<Secrets>)
    requires TableOk(groups)
    ensures RedactAll(v, groups).Ok? <==> forall i :: 0 <= i < |groups| ==> Insert(v, groups[i].items).Ok?
  {
    hide TableOk, RedactAll;
    if v.Obj? {
      ObjectRedactsIff(v, groups);
    } else if v.Null? {
      NullRedacts(groups);
    } else {
      RedactMasks(v, groups);
      NothingToOpen(v, groups);
    }
  }

  /** A section that was missing comes back null. */
  lemma MissingSectionReturnsNull()
    ensures RedactAll(Obj(map[]), SECRETS).Ok?
    ensures RestoreAll(RedactAll(Obj(map[]), SECRETS).value, SECRETS, Obj(map[])) != Ok(Obj(map[]))
  {
    hide RedactAll, RestoreAll, TableOk;
    var v := Obj(map[]);
    SecretsAreTable();
    forall i | 0 <= i < |SECRETS| ensures Insert(v, SECRETS[i].items).Ok? {
      EmptyOpens(SECRETS[i].items);
    }
    RedactsIff(v, SECRETS);
    RestoreUndoesRedact(v);
    assert Lookup(v, SECRETS[0].items).None?;
  }
}
