/** The places secrets are at, spelled out, and what redacting and restoring do at each of them
    (`src/application/config_file.rs`). */
module ConfigSecrets {
  import opened Prelude
  import opened ConfigTree
  import opened ConfigFile
  import opened ConfigRestore

  /** The keys, tokens, passwords, credentials, environments and headers a configuration keeps. */
  predicate IsSecret(p: Path) {
    || p == ["proxy", "password"]
    || (|p| == 3 && p[0] in {"accounts", "providers"} && p[2] in {"api_key", "refresh_token"})
    || (|p| == 4 && p[0] in {"accounts", "providers"} && p[2] == "credentials")
    || (|p| == 4 && p[0] == "providers" && p[2] == "headers")
    || (|p| == 4 && p[0] == "search" && p[1] == "providers" && p[3] == "api_key")
    || (|p| == 5 && p[0] in {"search", "fetch"} && p[1] == "providers" && p[3] == "headers")
    || (|p| == 5 && p[0] == "mcp" && p[1] == "servers" && p[3] in {"env", "headers"})
  }

  ghost predicate At(i: nat, j: nat, p: Path) {
    i < |SECRETS| && j < |SECRETS[i].fields| && Matches(Place(SECRETS[i], SECRETS[i].fields[j]).path, p)
  }

  lemma PlaceIn(groups: seq<Secrets>, i: nat, j: nat)
    requires i < |groups| && j < |groups[i].fields|
    ensures Place(groups[i], groups[i].fields[j]) in AllPlaces(groups)
    decreases i
  {
    if i > 0 { PlaceIn(groups[1..], i - 1, j); }
  }

  lemma SecretAt(p: Path) returns (i: nat, j: nat)
    requires IsSecret(p)
    ensures At(i, j, p) && (SECRETS[i].fields[j].shownEmpty <==> p == ["proxy", "password"])
  {
    i, j :=
      if p[0] == "fetch" then 0 else if p[0] == "accounts" then 1 else if p[0] == "providers" then 2
      else if p[0] == "proxy" then 3 else if p[0] == "mcp" then 4 else 5,
      if p[0] in {"accounts", "providers"} then
        (if p[2] == "api_key" then 0 else if p[2] == "refresh_token" then 1 else if p[2] == "credentials" then 2 else 3)
      else if p[0] in {"mcp", "search"} && p[3] == "headers" then 1
      else 0;
  }

  lemma AtSecret(i: nat, j: nat, p: Path)
    requires At(i, j, p)
    ensures IsSecret(p)
  {
    var parts := Place(SECRETS[i], SECRETS[i].fields[j]).path;
    assert forall k :: 0 <= k < |p| ==> Fits(parts[k], p[k]);
    if i == 3 { assert p == ["proxy", "password"]; }
  }

  /** Nowhere at or below a secret. */
  ghost predicate IsOpen(p: Path) {
    forall n :: 0 <= n <= |p| ==> !IsSecret(p[..n])
  }

  lemma OpenIsClear(p: Path)
    requires IsOpen(p)
    ensures Clear(AllPlaces(SECRETS), p)
  {
    hide AllPlaces, IsSecret, Matches;
    forall s | s in AllPlaces(SECRETS) ensures !Under(s.path, p) {
      PlacesFrom(SECRETS, s);
      var i, j :| 0 <= i < |SECRETS| && 0 <= j < |SECRETS[i].fields| && s == Place(SECRETS[i], SECRETS[i].fields[j]);
      if Under(s.path, p) { AtSecret(i, j, p[..|s.path|]); }
    }
  }

  lemma SecretPlace(v: Value, p: Path) returns (s: Secret)
    requires IsSecret(p) && Sectioned(v, SECRETS).Ok?
    ensures s in AllPlaces(SECRETS) && Matches(s.path, p) && (s.shownEmpty <==> p == ["proxy", "password"])
    ensures Lookup(Sectioned(v, SECRETS).value, p) == Lookup(v, p)
  {
    hide AllPlaces, IsSecret, Matches, TableOk, Sectioned;
    var i, j := SecretAt(p);
    s := Place(SECRETS[i], SECRETS[i].fields[j]);
    PlaceIn(SECRETS, i, j);
    SecretsAreTable();
    StoredAgrees(v, SECRETS, i, SECRETS[i].fields[j], p);
  }

  /** Of every secret the page is shown a mark, unless there is none or it is the empty proxy password; where
      nothing is secret it is shown what is there. */
  lemma SecretsAreMarked(v: Value)
    requires RedactAll(v, SECRETS).Ok?
    ensures var shown := RedactAll(v, SECRETS).value;
            forall p :: IsSecret(p) ==>
              Lookup(shown, p) ==
                match Lookup(v, p)
                case None => None
                case Some(secret) =>
                  if secret == Null || (secret == Str("") && p == ["proxy", "password"]) then Some(secret)
                  else Some(Str("<redacted>"))
    ensures Sectioned(v, SECRETS).Ok?
    ensures forall p :: IsOpen(p) ==> SameShape(RedactAll(v, SECRETS).value, Sectioned(v, SECRETS).value, p)
  {
    hide RedactAll, TableOk, Sectioned, AllPlaces, IsSecret, Matches, IsOpen, Clear;
    SecretsAreTable();
    RedactMasks(v, SECRETS);
    forall p | IsSecret(p)
      ensures Lookup(RedactAll(v, SECRETS).value, p) == HideOption(Lookup(v, p), p == ["proxy", "password"])
    {
      var s := SecretPlace(v, p);
    }
    forall p | IsOpen(p) ensures SameShape(RedactAll(v, SECRETS).value, Sectioned(v, SECRETS).value, p) {
      OpenIsClear(p);
    }
  }

  /** A save succeeds exactly where the sections open and every mark it sends back stands for a secret that
      is stored. It then has that secret in place of the mark, every other secret as it was sent, and
      where nothing is secret what was sent. */
  lemma MarksAreFilled(sent: Value, stored: Value)
    ensures RestoreAll(sent, SECRETS, stored).Ok? <==>
            && Sectioned(sent, SECRETS).Ok?
            && forall p :: IsSecret(p) && Lookup(sent, p) == Some(Str("<redacted>")) ==>
                 Lookup(stored, p).Some? && Lookup(stored, p) != Some(Null)
    ensures RestoreAll(sent, SECRETS, stored).Ok? ==>
              var saved := RestoreAll(sent, SECRETS, stored).value;
              && (forall p :: IsSecret(p) ==>
                    Lookup(saved, p)
                    == if Lookup(sent, p) == Some(Str("<redacted>")) then Lookup(stored, p) else Lookup(sent, p))
              && (forall p :: IsOpen(p) ==> SameShape(saved, Sectioned(sent, SECRETS).value, p))
  {
    hide RestoreAll, Sectioned, AllPlaces, IsSecret, Matches, IsOpen, Clear, AllHave;
    RestoresIff(sent, stored);
    AllHaveIff(sent, stored);
    if RestoreAll(sent, SECRETS, stored).Ok? {
      forall p | IsSecret(p)
        ensures Lookup(RestoreAll(sent, SECRETS, stored).value, p) == RevealOption(Lookup(sent, p), Lookup(stored, p))
      {
        var s := SecretPlace(sent, p);
      }
      forall p | IsOpen(p) ensures Clear(AllPlaces(SECRETS), p) { OpenIsClear(p); }
    }
  }

  lemma AllHaveIff(sent: Value, stored: Value)
    ensures AllHave(sent, SECRETS, stored) <==>
            forall p :: IsSecret(p) && Lookup(sent, p) == Some(Str("<redacted>")) ==>
              Lookup(stored, p).Some? && Lookup(stored, p) != Some(Null)
  {
    hide IsSecret, Matches, Place;
    if AllHave(sent, SECRETS, stored) {
      forall p | IsSecret(p) && Lookup(sent, p) == Some(Str("<redacted>"))
        ensures Lookup(stored, p).Some? && Lookup(stored, p) != Some(Null)
      {
        SecretIsStored(sent, stored, p);
      }
    } else {
      var p := SomethingLacks(sent, stored);
    }
  }

  lemma SecretIsStored(sent: Value, stored: Value, p: Path)
    requires AllHave(sent, SECRETS, stored) && IsSecret(p) && Lookup(sent, p) == Some(REDACTED)
    ensures Lookup(stored, p).Some? && Lookup(stored, p) != Some(Null)
  {
    hide IsSecret, Matches, Place, Lookup;
    var i, j := SecretAt(p);
    assert NoneLacks(sent, SECRETS[i], SECRETS[i].fields, stored);
    assert !Lacks(sent, Place(SECRETS[i], SECRETS[i].fields[j]), stored);
  }

  lemma SomethingLacks(sent: Value, stored: Value) returns (p: Path)
    requires !AllHave(sent, SECRETS, stored)
    ensures IsSecret(p) && Lookup(sent, p) == Some(REDACTED)
    ensures Lookup(stored, p).None? || Lookup(stored, p) == Some(Null)
  {
    hide IsSecret, Matches, Place, Lookup;
    var i :| 0 <= i < |SECRETS| && !NoneLacks(sent, SECRETS[i], SECRETS[i].fields, stored);
    var j :| 0 <= j < |SECRETS[i].fields| && Lacks(sent, Place(SECRETS[i], SECRETS[i].fields[j]), stored);
    p :| Matches(Place(SECRETS[i], SECRETS[i].fields[j]).path, p) && Lookup(sent, p) == Some(REDACTED)
         && (Lookup(stored, p).None? || Lookup(stored, p).value.Null?);
    AtSecret(i, j, p);
  }
}
