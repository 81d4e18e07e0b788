/** What restoring makes of any configuration a page sends, not only of a redacted one: when it fails, and
    what is at every place when it does not (`src/application/config_file.rs`). */
module ConfigRestore {
  import opened Prelude
  import opened ConfigTree
  import opened ConfigFile

  function RevealOption(sent: Option<Value>, stored: Option<Value>): Option<Value> {
    if sent == Some(REDACTED) then stored else sent
  }

  /** `r` is `v` with the stored values where `places` were redacted, and nothing else changed. */
  ghost predicate Fills(r: Value, v: Value, places: set<Secret>, stored: Value) {
    && (forall s, p :: s in places && Matches(s.path, p) ==>
          Lookup(r, p) == RevealOption(Lookup(v, p), Lookup(stored, p)))
    && SameBeside(r, v, places)
  }

  ghost predicate SameBeside(r: Value, v: Value, places: set<Secret>) {
    forall p :: Clear(places, p) ==> SameShape(r, v, p)
  }

  /** Something sent back redacted has nothing stored, or null. */
  ghost predicate Lacks(v: Value, s: Secret, stored: Value) {
    exists p ::
      && Matches(s.path, p) && Lookup(v, p) == Some(REDACTED)
      && (Lookup(stored, p).None? || Lookup(stored, p).value.Null?)
  }

  lemma SameAt(r: Value, v: Value, places: set<Secret>, s: Secret, p: Path)
    requires SameBeside(r, v, places) && AllDiverge(s.path, places) && Matches(s.path, p)
    ensures Lookup(r, p) == Lookup(v, p)
  {
    MatchesIsUnder(s.path, p);
    ClearOf(s, places, p);
    assert SameShape(r, v, p);
    if Lookup(r, p).Some? {
      forall q ensures SameShape(Lookup(r, p).value, Lookup(v, p).value, q) {
        assert (p + q)[..|p|] == p;
        ClearOf(s, places, p + q);
        assert SameShape(r, v, p + q);
        LookupSplits(r, p, q);
        LookupSplits(v, p, q);
      }
      SameEverywhere(Lookup(r, p).value, Lookup(v, p).value);
    }
  }

  lemma FillOneIff(r: Value, v: Value, places: set<Secret>, s: Secret, stored: Value)
    requires SameBeside(r, v, places) && AllDiverge(s.path, places)
    ensures RevealAt(r, s.path, Some(stored)).Ok? <==> !Lacks(v, s, stored)
  {
    RevealOkIff(r, s.path, Some(stored));
    forall p | Matches(s.path, p) ensures Lookup(r, p) == Lookup(v, p) { SameAt(r, v, places, s, p); }
  }

  lemma FillOne(r: Value, v: Value, places: set<Secret>, s: Secret, stored: Value)
    requires Fills(r, v, places, stored) && AllDiverge(s.path, places) && RevealAt(r, s.path, Some(stored)).Ok?
    ensures Fills(RevealAt(r, s.path, Some(stored)).value, v, places + {s}, stored)
  {
    hide RevealAt, Matches, Apart;
    var after := RevealAt(r, s.path, Some(stored)).value;
    forall t, p | t in places + {s} && Matches(t.path, p)
      ensures Lookup(after, p) == RevealOption(Lookup(v, p), Lookup(stored, p))
    {
      RevealLooks(r, s.path, Some(stored), p);
      if t in places {
        MatchesIsUnder(t.path, p);
        DivergeSwap(s.path, t.path);
        DivergeApart(t.path, s.path, p);
      } else {
        SameAt(r, v, places, s, p);
      }
    }
    forall p | Clear(places + {s}, p) ensures SameShape(after, v, p) {
      assert s in places + {s};
      RevealLooks(r, s.path, Some(stored), p);
      assert Clear(places, p);
    }
  }

  /** Sections are inserted beside what is filled. */
  lemma FilledInsert(r: Value, v: Value, places: set<Secret>, path: Path, stored: Value)
    requires Fills(r, v, places, stored)
    requires path != [] ==> forall s :: s in places ==> s.path != [] && s.path[0] != EVERY && s.path[0] != path[0]
    ensures Insert(r, path).Ok? <==> Insert(v, path).Ok?
    ensures Insert(r, path).Ok? ==> Fills(Insert(r, path).value, Insert(v, path).value, places, stored)
  {
    if path != [] {
      forall q | q <= path ensures Clear(places, q) && SameShape(r, v, q) {
        OffPath(places, path, q);
      }
      InsertByShape(r, v, path);
      if Insert(r, path).Ok? {
        var filled, entered := Insert(r, path).value, Insert(v, path).value;
        forall s, p | s in places && Matches(s.path, p)
          ensures Lookup(filled, p) == RevealOption(Lookup(entered, p), Lookup(stored, p))
        {
          assert Fits(s.path[0], p[0]);
          assert !(p <= path);
          InsertElsewhere(r, path, p);
          InsertElsewhere(v, path, p);
        }
        forall p | Clear(places, p) ensures SameShape(filled, entered, p) {
          if !(p <= path) {
            InsertElsewhere(r, path, p);
            InsertElsewhere(v, path, p);
            assert SameShape(r, v, p);
          }
        }
      }
    }
  }

  ghost predicate NoneLacks(v: Value, g: Secrets, fields: seq<Secret>, stored: Value) {
    forall i :: 0 <= i < |fields| ==> !Lacks(v, Place(g, fields[i]), stored)
  }

  lemma NextLacks(v: Value, g: Secrets, j: nat, stored: Value)
    requires j < |g.fields|
    ensures NoneLacks(v, g, g.fields[..j + 1], stored)
            <==> NoneLacks(v, g, g.fields[..j], stored) && !Lacks(v, Place(g, g.fields[j]), stored)
  {
    hide Lacks, Place;
  }

  lemma {:induction false} FieldsFill(
    r: Value, v: Value, g: Secrets, others: set<Secret>, stored: Value, j: nat)
    requires GroupOk(g) && Beside(g, others) && Fills(r, v, others, stored) && j <= |g.fields|
    ensures RestoreFields(r, g, g.fields[..j], stored).Ok? <==> NoneLacks(v, g, g.fields[..j], stored)
    ensures RestoreFields(r, g, g.fields[..j], stored).Ok? ==>
              Fills(RestoreFields(r, g, g.fields[..j], stored).value, v, Places(g, g.fields[..j]) + others, stored)
    decreases j
  {
    hide Fills, RevealAt, Places, Place, GroupOk, Beside, AllDiverge, NoneLacks, RestoreFields, Lacks;
    if j == 0 {
      NothingFilled(r, v, g, others, stored);
    } else {
      FieldsFill(r, v, g, others, stored, j - 1);
      NextRestored(r, g, j - 1, stored);
      NextPlace(g, j - 1, others);
      NextLacks(v, g, j - 1, stored);
      if RestoreFields(r, g, g.fields[..j - 1], stored).Ok? {
        var before := RestoreFields(r, g, g.fields[..j - 1], stored).value;
        var places := Places(g, g.fields[..j - 1]) + others;
        assert SameBeside(before, v, places) by { FillsBeside(before, v, places, stored); }
        FillOneIff(before, v, places, Place(g, g.fields[j - 1]), stored);
        if RevealAt(before, Place(g, g.fields[j - 1]).path, Some(stored)).Ok? {
          FillOne(before, v, places, Place(g, g.fields[j - 1]), stored);
        }
      }
    }
  }

  lemma FillsBeside(r: Value, v: Value, places: set<Secret>, stored: Value)
    requires Fills(r, v, places, stored)
    ensures SameBeside(r, v, places)
  {
  }

  lemma NothingFilled(r: Value, v: Value, g: Secrets, others: set<Secret>, stored: Value)
    requires Fills(r, v, others, stored)
    ensures RestoreFields(r, g, g.fields[..0], stored) == Ok(r) && NoneLacks(v, g, g.fields[..0], stored)
    ensures Fills(r, v, Places(g, g.fields[..0]) + others, stored)
  {
    hide Fills;
    assert Places(g, g.fields[..0]) + others == others;
  }

  /** A section is at no secret's place. */
  lemma LacksAsSent(v: Value, groups: seq<Secrets>, stored: Value)
    requires TableOk(groups) && groups != [] && Sectioned(v, groups).Ok?
    ensures var g := Last(groups);
            NoneLacks(v, g, g.fields, stored) <==> NoneLacks(Sectioned(v, groups).value, g, g.fields, stored)
  {
    hide TableOk, Sectioned;
    var g := Last(groups);
    forall i, p | 0 <= i < |g.fields| && Matches(Place(g, g.fields[i]).path, p)
      ensures Lookup(v, p) == Lookup(Sectioned(v, groups).value, p)
    {
      StoredAgrees(v, groups, |groups| - 1, g.fields[i], p);
    }
  }

  ghost predicate AllHave(v: Value, groups: seq<Secrets>, stored: Value) {
    forall i :: 0 <= i < |groups| ==> NoneLacks(v, groups[i], groups[i].fields, stored)
  }

  lemma LastHas(v: Value, groups: seq<Secrets>, stored: Value)
    requires groups != []
    ensures AllHave(v, groups, stored)
            <==> AllHave(v, Front(groups), stored) && NoneLacks(v, Last(groups), Last(groups).fields, stored)
  {
    hide NoneLacks;
    assert forall i :: 0 <= i < |Front(groups)| ==> Front(groups)[i] == groups[i];
    assert groups[|groups| - 1] == Last(groups);
  }

  /** Whatever is sent, and whatever is stored: restoring succeeds if and only if every section can be
      opened and everything redacted has a stored value; it then gives the opened configuration with the
      stored values at the redacted places and everything else as it was sent. */
  lemma {:induction false} RestoreFillsIff(v: Value, groups: seq<Secrets>, stored: Value)
    requires TableOk(groups)
    ensures RestoreAll(v, groups, stored).Ok? <==> Sectioned(v, groups).Ok? && AllHave(v, groups, stored)
    ensures RestoreAll(v, groups, stored).Ok? ==>
              Fills(RestoreAll(v, groups, stored).value, Sectioned(v, groups).value, AllPlaces(groups), stored)
    decreases |groups|
  {
    hide Fills, RestoreFields, Insert, TableOk, AllHave, NoneLacks, AllPlaces, Places;
    if groups == [] {
      NothingSent(v, groups, stored);
    } else {
      var front, g := Front(groups), Last(groups);
      TablePrefix(groups, |groups| - 1);
      assert groups[..|groups| - 1] == front && groups == front + [g];
      RestoreFillsIff(v, front, stored);
      PlacesGrow(front, g);
      LastHas(v, groups, stored);
      if RestoreAll(v, front, stored).Ok? {
        GroupFills(v, groups, stored);
      }
    }
  }

  lemma NothingSent(v: Value, groups: seq<Secrets>, stored: Value)
    requires groups == []
    ensures AllHave(v, groups, stored) && Fills(v, v, AllPlaces(groups), stored)
  {
  }

  lemma GroupFills(v: Value, groups: seq<Secrets>, stored: Value)
    requires TableOk(groups) && groups != []
    requires RestoreAll(v, Front(groups), stored).Ok? && Sectioned(v, Front(groups)).Ok?
    requires var r, s := RestoreAll(v, Front(groups), stored).value, Sectioned(v, Front(groups)).value;
             Fills(r, s, AllPlaces(Front(groups)), stored)
    ensures RestoreAll(v, groups, stored).Ok?
            <==> Sectioned(v, groups).Ok? && NoneLacks(v, Last(groups), Last(groups).fields, stored)
    ensures RestoreAll(v, groups, stored).Ok? ==>
              Fills(RestoreAll(v, groups, stored).value, Sectioned(v, groups).value,
                    AllPlaces(Front(groups)) + Places(Last(groups), Last(groups).fields), stored)
  {
    hide Fills, RestoreFields, Insert, NoneLacks, AllPlaces, Places, TableOk;
    var front, g := Front(groups), Last(groups);
    var r, s := RestoreAll(v, front, stored).value, Sectioned(v, front).value;
    TablePrefix(groups, |groups| - 1);
    assert groups[..|groups| - 1] == front && groups[|groups| - 1] == g;
    FilledInsert(r, s, AllPlaces(front), g.items, stored);
    if Insert(r, g.items).Ok? {
      FieldsFill(Insert(r, g.items).value, Insert(s, g.items).value, g, AllPlaces(front), stored, |g.fields|);
      assert g.fields[..|g.fields|] == g.fields;
      assert Places(g, g.fields) + AllPlaces(front) == AllPlaces(front) + Places(g, g.fields);
      LacksAsSent(v, groups, stored);
    }
  }

  /** And so of the table of secrets. */
  lemma RestoresIff(v: Value, stored: Value)
    ensures RestoreAll(v, SECRETS, stored).Ok? <==> Sectioned(v, SECRETS).Ok? && AllHave(v, SECRETS, stored)
    ensures RestoreAll(v, SECRETS, stored).Ok? ==>
              Fills(RestoreAll(v, SECRETS, stored).value, Sectioned(v, SECRETS).value, AllPlaces(SECRETS), stored)
  {
    hide *;
    SecretsAreTable();
    RestoreFillsIff(v, SECRETS, stored);
  }
}
