/** Configuration trees, paths into them, and what hiding, revealing and inserting do at every path.
    The vocabulary of `src/application/config_file.rs`. */
module ConfigTree {
  import opened Prelude

  datatype Value =
    | Null | Bool(b: bool) | Number(spelling: string) | Str(text: string)
    | Arr(items: seq<Value>) | Obj(fields: map<string, Value>)

  datatype ConfigError = Missing | NotAnObject

  const REDACTED := Str("<redacted>")
  const EVERY: string := "*"

  type Path = seq<string>

  // ----- looking -----

  function Lookup(v: Value, p: Path): Option<Value> {
    if p == [] then Some(v)
    else if v.Obj? && p[0] in v.fields then Lookup(v.fields[p[0]], p[1..])
    else None
  }

  /** What is at a place, without what lies deeper. */
  datatype Shape = Gone | Keys(keys: set<string>) | Leaf(value: Value)

  function ShapeOf(v: Option<Value>): Shape {
    match v
    case None => Gone
    case Some(Obj(fields)) => Keys(fields.Keys)
    case Some(leaf) => Leaf(leaf)
  }

  ghost predicate SameShape(a: Value, b: Value, p: Path) {
    ShapeOf(Lookup(a, p)) == ShapeOf(Lookup(b, p))
  }

  lemma {:induction false} LookupSplits(v: Value, p: Path, q: Path)
    ensures Lookup(v, p + q) == if Lookup(v, p).None? then None else Lookup(Lookup(v, p).value, q)
    decreases |p|
  {
    if p == [] {
      assert p + q == q;
    } else if v.Obj? && p[0] in v.fields {
      assert (p + q)[1..] == p[1..] + q;
      LookupSplits(v.fields[p[0]], p[1..], q);
    }
  }

  /** Trees that look the same at every place are the same. */
  lemma {:induction false} SameEverywhere(a: Value, b: Value)
    requires forall p :: SameShape(a, b, p)
    ensures a == b
    decreases a
  {
    assert SameShape(a, b, []);
    if a.Obj? {
      assert a.fields.Keys == b.fields.Keys;
      forall k | k in a.fields
        ensures a.fields[k] == b.fields[k]
      {
        assert k in a.fields.Keys && k in b.fields;
        forall p ensures SameShape(a.fields[k], b.fields[k], p) {
          assert SameShape(a, b, [k] + p);
        }
        SameEverywhere(a.fields[k], b.fields[k]);
      }
      assert a.fields == b.fields;
    }
  }

  // ----- paths with `*` -----

  predicate Fits(part: string, name: string) {
    part == EVERY || part == name
  }

  predicate Matches(parts: Path, p: Path) {
    |parts| == |p| && forall i :: 0 <= i < |p| ==> Fits(parts[i], p[i])
  }

  /** At or below a place `parts` names. */
  predicate Under(parts: Path, p: Path) {
    |parts| <= |p| && Matches(parts, p[..|parts|])
  }

  /** `p` leads away from every place `parts` names. */
  predicate Apart(parts: Path, p: Path) {
    exists i :: 0 <= i < |parts| && i < |p| && !Fits(parts[i], p[i])
  }

  lemma MatchesTail(parts: Path, p: Path)
    requires parts != [] && p != []
    ensures Matches(parts, p) <==> Fits(parts[0], p[0]) && Matches(parts[1..], p[1..])
    ensures Under(parts, p) <==> Fits(parts[0], p[0]) && Under(parts[1..], p[1..])
    ensures Apart(parts, p) <==> !Fits(parts[0], p[0]) || Apart(parts[1..], p[1..])
  {
    if |parts| <= |p| {
      var q := p[..|parts|];
      assert q[1..] == p[1..][..|parts[1..]|];
    }
    if Apart(parts, p) && Fits(parts[0], p[0]) {
      var i :| 0 <= i < |parts| && i < |p| && !Fits(parts[i], p[i]);
      assert !Fits(parts[1..][i - 1], p[1..][i - 1]);
    }
    if Apart(parts[1..], p[1..]) {
      var i :| 0 <= i < |parts[1..]| && i < |p[1..]| && !Fits(parts[1..][i], p[1..][i]);
      assert !Fits(parts[i + 1], p[i + 1]);
    }
  }

  // ----- hiding -----

  function Hide(v: Value, shownEmpty: bool): Value {
    if v.Null? || (v == Str("") && shownEmpty) then v else REDACTED
  }

  function HideOption(v: Option<Value>, shownEmpty: bool): Option<Value> {
    if v.Some? then Some(Hide(v.value, shownEmpty)) else None
  }

  /** Hides every value at the places `parts` names. */
  function HideAt(v: Value, parts: Path, shownEmpty: bool): Value
    decreases |parts|
  {
    if parts == [] then Hide(v, shownEmpty)
    else if !v.Obj? then v
    else if parts[0] == EVERY then Obj(map k <- v.fields.Keys :: HideAt(v.fields[k], parts[1..], shownEmpty))
    else if parts[0] in v.fields then
      Obj(v.fields[parts[0] := HideAt(v.fields[parts[0]], parts[1..], shownEmpty)])
    else v
  }

  lemma {:induction false} HideLooks(v: Value, parts: Path, shownEmpty: bool, p: Path)
    ensures Matches(parts, p) ==> Lookup(HideAt(v, parts, shownEmpty), p) == HideOption(Lookup(v, p), shownEmpty)
    ensures Apart(parts, p) ==> Lookup(HideAt(v, parts, shownEmpty), p) == Lookup(v, p)
    ensures !Under(parts, p) ==> SameShape(HideAt(v, parts, shownEmpty), v, p)
    decreases |parts|
  {
    if parts == [] {
      assert p[..0] == [];
    } else if p != [] && v.Obj? {
      MatchesTail(parts, p);
      if p[0] in v.fields { HideLooks(v.fields[p[0]], parts[1..], shownEmpty, p[1..]); }
    }
  }

  // ----- revealing -----

  function Child(v: Option<Value>, k: string): Option<Value> {
    if v.Some? && v.value.Obj? && k in v.value.fields then Some(v.value.fields[k]) else None
  }

  function LookupIn(v: Option<Value>, p: Path): Option<Value> {
    if v.None? then None else Lookup(v.value, p)
  }

  predicate IsKept(v: Option<Value>) {
    v.Some? && !v.value.Null?
  }

  /** Puts back what `stored` has at the places `parts` names and `v` has redacted. */
  function RevealAt(v: Value, parts: Path, stored: Option<Value>): Result<Value, ConfigError>
    decreases |parts|
  {
    if parts == [] then
      if v != REDACTED then Ok(v) else if IsKept(stored) then Ok(stored.value) else Err(Missing)
    else if !v.Obj? then Ok(v)
    else if parts[0] == EVERY then
      if forall k :: k in v.fields ==> RevealAt(v.fields[k], parts[1..], Child(stored, k)).Ok? then
        Ok(Obj(map k <- v.fields.Keys :: RevealAt(v.fields[k], parts[1..], Child(stored, k)).value))
      else Err(Missing)
    else if parts[0] in v.fields then
      var r := RevealAt(v.fields[parts[0]], parts[1..], Child(stored, parts[0]));
      if r.Ok? then Ok(Obj(v.fields[parts[0] := r.value])) else Err(r.error)
    else Ok(v)
  }

  lemma {:induction false} RevealLooks(v: Value, parts: Path, stored: Option<Value>, p: Path)
    requires RevealAt(v, parts, stored).Ok?
    ensures var r := RevealAt(v, parts, stored).value;
            && (Matches(parts, p) ==>
                  Lookup(r, p) == if Lookup(v, p) == Some(REDACTED) then LookupIn(stored, p) else Lookup(v, p))
            && (Apart(parts, p) ==> Lookup(r, p) == Lookup(v, p))
            && (!Under(parts, p) ==> SameShape(r, v, p))
    decreases |parts|
  {
    if parts == [] {
      assert p[..0] == [];
    } else if p != [] && v.Obj? {
      MatchesTail(parts, p);
      if p[0] in v.fields && (parts[0] == EVERY || parts[0] == p[0]) {
        RevealLooks(v.fields[p[0]], parts[1..], Child(stored, p[0]), p[1..]);
      }
    }
  }

  /** Revealing fails exactly when something redacted has nothing stored. */
  lemma {:induction false} RevealOkIff(v: Value, parts: Path, stored: Option<Value>)
    ensures RevealAt(v, parts, stored).Ok?
            <==> forall p :: Matches(parts, p) && Lookup(v, p) == Some(REDACTED) ==> IsKept(LookupIn(stored, p))
    decreases |parts|
  {
    if parts == [] {
      assert Matches(parts, []);
    } else if v.Obj? {
      if RevealAt(v, parts, stored).Ok? {
        forall p | Matches(parts, p) && Lookup(v, p) == Some(REDACTED)
          ensures IsKept(LookupIn(stored, p))
        {
          MatchesTail(parts, p);
          RevealOkIff(v.fields[p[0]], parts[1..], Child(stored, p[0]));
        }
      } else if parts[0] == EVERY {
        var k :| k in v.fields && !RevealAt(v.fields[k], parts[1..], Child(stored, k)).Ok?;
        RevealFails(v, parts, stored, k);
      } else {
        RevealFails(v, parts, stored, parts[0]);
      }
    } else {
      forall p | Matches(parts, p) ensures Lookup(v, p) != Some(REDACTED) { assert p != []; }
    }
  }

  lemma {:induction false} RevealFails(v: Value, parts: Path, stored: Option<Value>, k: string)
    requires parts != [] && v.Obj? && k in v.fields && Fits(parts[0], k)
    requires !RevealAt(v.fields[k], parts[1..], Child(stored, k)).Ok?
    ensures exists p :: Matches(parts, p) && Lookup(v, p) == Some(REDACTED) && !IsKept(LookupIn(stored, p))
    decreases |parts|, 0
  {
    RevealOkIff(v.fields[k], parts[1..], Child(stored, k));
    var q :| Matches(parts[1..], q) && Lookup(v.fields[k], q) == Some(REDACTED)
             && !IsKept(LookupIn(Child(stored, k), q));
    var p := [k] + q;
    assert p[1..] == q;
    MatchesTail(parts, p);
    assert Matches(parts, p);
  }

  // ----- inserting sections -----

  /** Indexing for update: a missing or null section becomes an object, a missing value null, and
      anything else on the way is an error. */
  function Insert(v: Value, path: Path): Result<Value, ConfigError>
    decreases |path|
  {
    if path == [] then Ok(v)
    else if !v.Obj? && !v.Null? then Err(NotAnObject)
    else
      var fields := if v.Obj? then v.fields else map[];
      var r := Insert(if path[0] in fields then fields[path[0]] else Null, path[1..]);
      if r.Ok? then Ok(Obj(fields[path[0] := r.value])) else Err(r.error)
  }

  lemma {:induction false} InsertElsewhere(v: Value, path: Path, p: Path)
    requires Insert(v, path).Ok? && !(p <= path)
    ensures Lookup(Insert(v, path).value, p) == Lookup(v, p)
    decreases |path|
  {
    if path != [] {
      assert p != [];
      var fields := if v.Obj? then v.fields else map[];
      var child := if path[0] in fields then fields[path[0]] else Null;
      if p[0] == path[0] {
        InsertElsewhere(child, path[1..], p[1..]);
      }
    }
  }

  lemma {:induction false} InsertPresent(v: Value, path: Path)
    ensures Insert(v, path) == Ok(v) <==> Lookup(v, path).Some?
    ensures Insert(v, path).Ok? ==> Lookup(Insert(v, path).value, path).Some?
    decreases |path|
  {
    if path != [] && (v.Obj? || v.Null?) {
      var fields := if v.Obj? then v.fields else map[];
      var child := if path[0] in fields then fields[path[0]] else Null;
      InsertPresent(child, path[1..]);
      if v.Obj? && path[0] in fields {
        if Insert(child, path[1..]) == Ok(child) { assert fields[path[0] := child] == fields; }
        if Insert(v, path) == Ok(v) {
          assert fields[path[0] := Insert(child, path[1..]).value][path[0]] == fields[path[0]];
        }
      } else if v.Obj? && Insert(v, path).Ok? {
        assert path[0] in Insert(v, path).value.fields;
      }
    }
  }

  lemma {:induction false} InsertKeeps(v: Value, path: Path, p: Path)
    requires Insert(v, path).Ok? && Lookup(v, p).Some?
    ensures Lookup(Insert(v, path).value, p).Some?
    decreases |path|
  {
    if path != [] && p != [] && p[0] == path[0] {
      InsertKeeps(v.fields[p[0]], path[1..], p[1..]);
    }
  }

  /** Inserting goes by the shapes along its path alone. */
  lemma {:induction false} InsertByShape(a: Value, b: Value, path: Path)
    requires forall q :: q <= path ==> SameShape(a, b, q)
    ensures Insert(a, path).Ok? <==> Insert(b, path).Ok?
    ensures Insert(a, path).Ok? ==> forall p :: p <= path ==> SameShape(Insert(a, path).value, Insert(b, path).value, p)
    decreases |path|
  {
    assert SameShape(a, b, []);
    if path != [] && (a.Obj? || a.Null?) {
      var k := path[0];
      var fa := if a.Obj? then a.fields else map[];
      var fb := if b.Obj? then b.fields else map[];
      var ca := if k in fa then fa[k] else Null;
      var cb := if k in fb then fb[k] else Null;
      assert fa.Keys == fb.Keys;
      assert k in fa <==> k in fa.Keys;
      assert k in fb <==> k in fb.Keys;
      forall q | q <= path[1..] ensures SameShape(ca, cb, q) {
        if k in fa {
          assert [k] + q <= path;
          assert SameShape(a, b, [k] + q);
        }
      }
      InsertByShape(ca, cb, path[1..]);
      if Insert(a, path).Ok? {
        var ra, rb := Insert(a, path).value, Insert(b, path).value;
        forall p | p <= path ensures SameShape(ra, rb, p) {
          if p == [] {
            assert ra.fields.Keys == fa.Keys + {k} && rb.fields.Keys == fb.Keys + {k};
          } else {
            assert p[1..] <= path[1..];
            assert SameShape(Insert(ca, path[1..]).value, Insert(cb, path[1..]).value, p[1..]);
          }
        }
      }
    }
  }
}
