/** JSON trees over bytes, their compact serialization, and a reader for it.

    The serializer is the one of serde_json as `src/client/image_payload.rs` uses it: strings are
    escaped as section 7 of RFC 8259 requires, with the short escapes where there is one. Strings are
    UTF-8 byte sequences. */
module Json {
  import opened Prelude

  newtype Byte = x: int | 0 <= x < 256

  type Bytes = seq<Byte>

  /** A number is kept as it is spelled. */
  datatype Value =
    | Null | Bool(b: bool) | Number(spelling: Bytes) | Str(text: Bytes)
    | Arr(items: seq<Value>) | Obj(fields: seq<Field>)
  datatype Field = Field(key: Bytes, value: Value)

  const QUOTE: Byte := 0x22
  const BACKSLASH: Byte := 0x5c
  const COMMA: Byte := 0x2c
  const COLON: Byte := 0x3a
  const OPEN: Byte := 0x5b
  const CLOSE: Byte := 0x5d
  const BEGIN: Byte := 0x7b
  const END: Byte := 0x7d
  const NULL: Bytes := [0x6e, 0x75, 0x6c, 0x6c]
  const TRUE: Bytes := [0x74, 0x72, 0x75, 0x65]
  const FALSE: Bytes := [0x66, 0x61, 0x6c, 0x73, 0x65]

  // ----- strings -----

  function HexDigit(n: Byte): Byte
    requires n < 16
  {
    if n < 10 then 0x30 + n else 0x61 + (n - 10)
  }

  predicate IsClean(b: Byte) {
    b >= 0x20 && b != QUOTE && b != BACKSLASH
  }

  predicate AllClean(s: Bytes) {
    forall i :: 0 <= i < |s| ==> IsClean(s[i])
  }

  function EscapeByte(b: Byte): Bytes {
    if b == QUOTE then [BACKSLASH, QUOTE]
    else if b == BACKSLASH then [BACKSLASH, BACKSLASH]
    else if b == 8 then [BACKSLASH, 0x62]
    else if b == 9 then [BACKSLASH, 0x74]
    else if b == 10 then [BACKSLASH, 0x6e]
    else if b == 12 then [BACKSLASH, 0x66]
    else if b == 13 then [BACKSLASH, 0x72]
    else if b < 0x20 then [BACKSLASH, 0x75, 0x30, 0x30, HexDigit(b / 16), HexDigit(b % 16)]
    else [b]
  }

  function Escape(s: Bytes): Bytes {
    if s == [] then [] else EscapeByte(s[0]) + Escape(s[1..])
  }

  /** Escaping goes through concatenation, so a string may be escaped piece by piece. */
  lemma {:induction false} EscapeConcat(s: Bytes, t: Bytes)
    ensures Escape(s + t) == Escape(s) + Escape(t)
    decreases |s|
  {
    if s == [] {
      assert s + t == t;
    } else {
      assert (s + t)[1..] == s[1..] + t;
      EscapeConcat(s[1..], t);
    }
  }

  /** Escaping is the identity exactly on strings with nothing to escape. */
  lemma {:induction false} EscapeClean(s: Bytes)
    ensures |Escape(s)| >= |s|
    ensures Escape(s) == s <==> AllClean(s)
    decreases |s|
  {
    if s != [] {
      EscapeClean(s[1..]);
      if IsClean(s[0]) {
        assert Escape(s)[1..] == Escape(s[1..]);
        assert AllClean(s) <==> AllClean(s[1..]);
      } else {
        assert |Escape(s)| > |s|;
      }
    }
  }

  // ----- serialization -----

  function EncodeText(s: Bytes): Bytes {
    [QUOTE] + Escape(s) + [QUOTE]
  }

  function Encode(v: Value): Bytes
    decreases v
  {
    match v
    case Null => NULL
    case Bool(b) => if b then TRUE else FALSE
    case Number(spelling) => spelling
    case Str(text) => EncodeText(text)
    case Arr(items) => [OPEN] + EncodeItems(items) + [CLOSE]
    case Obj(fields) => [BEGIN] + EncodeFields(fields) + [END]
  }

  function EncodeItems(items: seq<Value>): Bytes
    decreases items
  {
    if items == [] then []
    else if |items| == 1 then Encode(items[0])
    else Encode(items[0]) + [COMMA] + EncodeItems(items[1..])
  }

  function EncodeField(f: Field): Bytes
    decreases f
  {
    EncodeText(f.key) + [COLON] + Encode(f.value)
  }

  function EncodeFields(fields: seq<Field>): Bytes
    decreases fields
  {
    if fields == [] then []
    else if |fields| == 1 then EncodeField(fields[0])
    else EncodeField(fields[0]) + [COMMA] + EncodeFields(fields[1..])
  }

  lemma {:induction false} ItemsGrow(items: seq<Value>, v: Value)
    ensures EncodeItems(items + [v]) == if items == [] then Encode(v) else EncodeItems(items) + [COMMA] + Encode(v)
    decreases |items|
  {
    if items != [] {
      assert (items + [v])[1..] == items[1..] + [v];
      ItemsGrow(items[1..], v);
    }
  }

  lemma {:induction false} FieldsGrow(fields: seq<Field>, f: Field)
    ensures EncodeFields(fields + [f])
            == if fields == [] then EncodeField(f) else EncodeFields(fields) + [COMMA] + EncodeField(f)
    decreases |fields|
  {
    if fields != [] {
      assert (fields + [f])[1..] == fields[1..] + [f];
      FieldsGrow(fields[1..], f);
    }
  }

  // ----- reading back -----

  datatype Read<T> = Read(what: T, rest: Bytes)

  /** What the escape `\c` stands for. */
  function Unescape(c: Byte): Option<Byte> {
    if c == QUOTE || c == BACKSLASH then Some(c)
    else if c == 0x62 then Some(8)
    else if c == 0x74 then Some(9)
    else if c == 0x6e then Some(10)
    else if c == 0x66 then Some(12)
    else if c == 0x72 then Some(13)
    else None
  }

  function HexValue(c: Byte): Option<Byte> {
    if 0x30 <= c <= 0x39 then Some(c - 0x30) else if 0x61 <= c <= 0x66 then Some(c - 0x61 + 10) else None
  }

  /** The rest of a string whose opening quote was read; of `\u` escapes, those of control characters. */
  function ReadText(s: Bytes): (r: Option<Read<Bytes>>)
    ensures r.Some? ==> |r.value.rest| < |s|
    decreases |s|
  {
    if s == [] || s[0] < 0x20 then None
    else if s[0] == QUOTE then Some(Read([], s[1..]))
    else if s[0] != BACKSLASH then Prefix(s[0], ReadText(s[1..]))
    else if |s| >= 2 && Unescape(s[1]).Some? then Prefix(Unescape(s[1]).value, ReadText(s[2..]))
    else if |s| >= 6 && s[1] == 0x75 && s[2] == 0x30 && s[3] == 0x30 && 0x30 <= s[4] <= 0x31 && HexValue(s[5]).Some?
    then Prefix((s[4] - 0x30) * 16 + HexValue(s[5]).value, ReadText(s[6..]))
    else None
  }

  function Prefix(b: Byte, r: Option<Read<Bytes>>): Option<Read<Bytes>> {
    if r.Some? then Some(Read([b] + r.value.what, r.value.rest)) else None
  }

  predicate InNumber(b: Byte) {
    0x30 <= b <= 0x39 || b == 0x2b || b == 0x2d || b == 0x2e || b == 0x45 || b == 0x65
  }

  function NumberLength(s: Bytes): (n: nat)
    ensures n <= |s|
  {
    if s == [] || !InNumber(s[0]) then 0 else 1 + NumberLength(s[1..])
  }

  predicate Starts(s: Bytes, p: Bytes) {
    |p| <= |s| && s[..|p|] == p
  }

  function ReadValue(s: Bytes): (r: Option<Read<Value>>)
    ensures r.Some? ==> |r.value.rest| < |s|
    decreases |s|, 0
  {
    if s == [] then None
    else if Starts(s, NULL) then Some(Read(Null, s[4..]))
    else if Starts(s, TRUE) then Some(Read(Bool(true), s[4..]))
    else if Starts(s, FALSE) then Some(Read(Bool(false), s[5..]))
    else if s[0] == QUOTE then
      var text := ReadText(s[1..]);
      if text.Some? then Some(Read(Str(text.value.what), text.value.rest)) else None
    else if s[0] == OPEN then
      if |s| > 1 && s[1] == CLOSE then Some(Read(Arr([]), s[2..]))
      else
        var items := ReadItems(s[1..]);
        if items.Some? then Some(Read(Arr(items.value.what), items.value.rest)) else None
    else if s[0] == BEGIN then
      if |s| > 1 && s[1] == END then Some(Read(Obj([]), s[2..]))
      else
        var fields := ReadFields(s[1..]);
        if fields.Some? then Some(Read(Obj(fields.value.what), fields.value.rest)) else None
    else
      var n := NumberLength(s);
      if n > 0 then Some(Read(Number(s[..n]), s[n..])) else None
  }

  function ReadItems(s: Bytes): (r: Option<Read<seq<Value>>>)
    ensures r.Some? ==> |r.value.rest| < |s|
    decreases |s|, 1
  {
    var first := ReadValue(s);
    if first.None? || first.value.rest == [] then None
    else if first.value.rest[0] == CLOSE then Some(Read([first.value.what], first.value.rest[1..]))
    else if first.value.rest[0] == COMMA then
      var more := ReadItems(first.value.rest[1..]);
      if more.Some? then Some(Read([first.value.what] + more.value.what, more.value.rest)) else None
    else None
  }

  function ReadField(s: Bytes): (r: Option<Read<Field>>)
    ensures r.Some? ==> |r.value.rest| < |s|
    decreases |s|, 1
  {
    if s == [] || s[0] != QUOTE then None
    else
      var key := ReadText(s[1..]);
      if key.None? || key.value.rest == [] || key.value.rest[0] != COLON then None
      else
        var value := ReadValue(key.value.rest[1..]);
        if value.None? then None else Some(Read(Field(key.value.what, value.value.what), value.value.rest))
  }

  function ReadFields(s: Bytes): (r: Option<Read<seq<Field>>>)
    ensures r.Some? ==> |r.value.rest| < |s|
    decreases |s|, 2
  {
    var first := ReadField(s);
    if first.None? || first.value.rest == [] then None
    else if first.value.rest[0] == END then Some(Read([first.value.what], first.value.rest[1..]))
    else if first.value.rest[0] == COMMA then
      var more := ReadFields(first.value.rest[1..]);
      if more.Some? then Some(Read([first.value.what] + more.value.what, more.value.rest)) else None
    else None
  }

  // ----- every serialized tree reads back as itself -----

  /** Numbers are spelled with the characters of numbers. */
  predicate Spelled(v: Value)
    decreases v
  {
    match v
    case Number(spelling) => spelling != [] && forall i :: 0 <= i < |spelling| ==> InNumber(spelling[i])
    case Arr(items) => forall i :: 0 <= i < |items| ==> Spelled(items[i])
    case Obj(fields) => forall i :: 0 <= i < |fields| ==> Spelled(fields[i].value)
    case _ => true
  }

  /** Nothing that would lengthen a number. */
  predicate Parted(rest: Bytes) {
    rest == [] || !InNumber(rest[0])
  }

  lemma ReadEscaped(b: Byte, rest: Bytes)
    ensures ReadText(EscapeByte(b) + rest) == Prefix(b, ReadText(rest))
  {
    var s := EscapeByte(b) + rest;
    if |EscapeByte(b)| == 6 {
      assert s[6..] == rest;
    } else if |EscapeByte(b)| == 2 {
      assert s[2..] == rest;
    } else {
      assert s[1..] == rest;
    }
  }

  /** Whatever bytes a string holds, its escaped form ends exactly at the closing quote. */
  lemma {:induction false} TextReadsBack(s: Bytes, rest: Bytes)
    ensures ReadText(Escape(s) + [QUOTE] + rest) == Some(Read(s, rest))
    decreases |s|
  {
    if s == [] {
      assert Escape(s) + [QUOTE] + rest == [QUOTE] + rest;
    } else {
      var tail := Escape(s[1..]) + [QUOTE] + rest;
      assert Escape(s) + [QUOTE] + rest == EscapeByte(s[0]) + tail;
      ReadEscaped(s[0], tail);
      TextReadsBack(s[1..], rest);
      assert [s[0]] + s[1..] == s;
    }
  }

  lemma {:induction false} NumberReadsBack(spelling: Bytes, rest: Bytes)
    requires Parted(rest) && forall i :: 0 <= i < |spelling| ==> InNumber(spelling[i])
    ensures NumberLength(spelling + rest) == |spelling|
    decreases |spelling|
  {
    if spelling == [] {
      assert spelling + rest == rest;
    } else {
      assert (spelling + rest)[1..] == spelling[1..] + rest;
      NumberReadsBack(spelling[1..], rest);
    }
  }

  /** The first byte of a value, which tells what it is and never ends a list. */
  lemma EncodeFirst(v: Value)
    requires Spelled(v)
    ensures Encode(v) != [] && Encode(v)[0] != CLOSE && Encode(v)[0] != END
  {
  }

  lemma NoKeyword(s: Bytes)
    requires s != [] && s[0] != NULL[0] && s[0] != TRUE[0] && s[0] != FALSE[0]
    ensures !Starts(s, NULL) && !Starts(s, TRUE) && !Starts(s, FALSE)
  {
  }

  lemma ScalarReadsBack(v: Value, rest: Bytes)
    requires Spelled(v) && Parted(rest) && !v.Arr? && !v.Obj?
    ensures ReadValue(Encode(v) + rest) == Some(Read(v, rest))
  {
    hide ReadText, ReadItems, ReadFields, Escape;
    var s := Encode(v) + rest;
    match v
    case Null => assert s[..4] == NULL && s[4..] == rest;
    case Bool(b) =>
      if b { assert s[..4] == TRUE && s[4..] == rest; }
      else { assert s[..5] == FALSE && s[5..] == rest && s[..4][0] == 0x66; }
    case Number(spelling) =>
      NumberReadsBack(spelling, rest);
      NoKeyword(s);
      assert s[0] == spelling[0] && s[..|spelling|] == spelling && s[|spelling|..] == rest;
    case Str(text) =>
      NoKeyword(s);
      assert s[1..] == Escape(text) + [QUOTE] + rest;
      TextReadsBack(text, rest);
  }

  lemma {:induction false} ValueReadsBack(v: Value, rest: Bytes)
    requires Spelled(v) && Parted(rest)
    ensures ReadValue(Encode(v) + rest) == Some(Read(v, rest))
    decreases v
  {
    hide ReadText, ReadItems, ReadFields, EncodeItems, EncodeFields, Starts, NumberLength, EncodeText;
    var s := Encode(v) + rest;
    if v.Arr? {
      NoKeyword(s);
      assert s[1..] == EncodeItems(v.items) + [CLOSE] + rest;
      if v.items == [] {
        NothingEncodes();
        assert s == [OPEN, CLOSE] + rest;
      } else {
        ItemsFirst(v.items);
        assert s[1] == EncodeItems(v.items)[0];
        ItemsReadBack(v.items, rest);
      }
    } else if v.Obj? {
      NoKeyword(s);
      assert s[1..] == EncodeFields(v.fields) + [END] + rest;
      if v.fields == [] {
        NothingEncodes();
        assert s == [BEGIN, END] + rest;
      } else {
        FieldsFirst(v.fields);
        assert s[1] == EncodeFields(v.fields)[0];
        FieldsReadBack(v.fields, rest);
      }
    } else {
      ScalarReadsBack(v, rest);
    }
  }

  lemma NothingEncodes()
    ensures EncodeItems([]) == [] && EncodeFields([]) == []
  {
  }

  lemma ItemsFirst(items: seq<Value>)
    requires items != [] && Spelled(items[0])
    ensures EncodeItems(items) != [] && EncodeItems(items)[0] != CLOSE
  {
    EncodeFirst(items[0]);
  }

  lemma FieldsFirst(fields: seq<Field>)
    requires fields != []
    ensures EncodeFields(fields) != [] && EncodeFields(fields)[0] != END
  {
  }

  lemma {:induction false} ItemsReadBack(items: seq<Value>, rest: Bytes)
    requires items != [] && forall i :: 0 <= i < |items| ==> Spelled(items[i])
    ensures ReadItems(EncodeItems(items) + [CLOSE] + rest) == Some(Read(items, rest))
    decreases items
  {
    hide ReadValue, Encode, Spelled;
    if |items| == 1 {
      assert EncodeItems(items) + [CLOSE] + rest == Encode(items[0]) + ([CLOSE] + rest);
      ValueReadsBack(items[0], [CLOSE] + rest);
      assert items == [items[0]] && ([CLOSE] + rest)[1..] == rest;
    } else {
      var tail := EncodeItems(items[1..]) + [CLOSE] + rest;
      assert EncodeItems(items) + [CLOSE] + rest == Encode(items[0]) + ([COMMA] + tail);
      ValueReadsBack(items[0], [COMMA] + tail);
      ItemsReadBack(items[1..], rest);
      assert ([COMMA] + tail)[1..] == tail && [items[0]] + items[1..] == items;
    }
  }

  lemma {:induction false} FieldReadsBack(f: Field, rest: Bytes)
    requires Spelled(f.value) && Parted(rest)
    ensures ReadField(EncodeField(f) + rest) == Some(Read(f, rest))
    decreases f
  {
    hide ReadText, Escape, Encode, ReadValue, Spelled, Parted;
    var s := EncodeField(f) + rest;
    var tail := [COLON] + Encode(f.value) + rest;
    assert s[1..] == Escape(f.key) + [QUOTE] + tail;
    TextReadsBack(f.key, tail);
    assert tail[1..] == Encode(f.value) + rest;
    ValueReadsBack(f.value, rest);
  }

  lemma {:induction false} FieldsReadBack(fields: seq<Field>, rest: Bytes)
    requires fields != [] && forall i :: 0 <= i < |fields| ==> Spelled(fields[i].value)
    ensures ReadFields(EncodeFields(fields) + [END] + rest) == Some(Read(fields, rest))
    decreases fields
  {
    hide ReadField, EncodeField, Spelled;
    if |fields| == 1 {
      assert EncodeFields(fields) + [END] + rest == EncodeField(fields[0]) + ([END] + rest);
      FieldReadsBack(fields[0], [END] + rest);
      assert fields == [fields[0]] && ([END] + rest)[1..] == rest;
    } else {
      var tail := EncodeFields(fields[1..]) + [END] + rest;
      assert EncodeFields(fields) + [END] + rest == EncodeField(fields[0]) + ([COMMA] + tail);
      FieldReadsBack(fields[0], [COMMA] + tail);
      FieldsReadBack(fields[1..], rest);
      assert ([COMMA] + tail)[1..] == tail && [fields[0]] + fields[1..] == fields;
    }
  }
}
