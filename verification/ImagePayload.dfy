/** Images kept out of the provider's JSON tree and spliced into its bytes
    (`src/client/image_payload.rs`): a conversation's images are bound to tokens, the tree is rendered
    from the tokens, and the writer puts the data back as it serializes. */
module ImagePayload {
  import opened Prelude
  import opened Json

  const MAX_WIRE_BYTES: nat := 24 * 1024 * 1024
  const DATA: Bytes := [0x64, 0x61, 0x74, 0x61, 0x3a]
  const BASE64: Bytes := [0x3b, 0x62, 0x61, 0x73, 0x65, 0x36, 0x34, 0x2c]

  datatype Image = Image(token: Bytes, data: Bytes)

  predicate EndsWith(s: Bytes, p: Bytes) {
    |p| <= |s| && s[|s| - |p|..] == p
  }

  // ----- the tree the bytes must stand for -----

  /** What `text` has before the token: nothing, or the head of a data URL. */
  function Head(text: Bytes, token: Bytes): Option<Bytes> {
    if text == token then Some([])
    else if !EndsWith(text, token) then None
    else
      var head := text[..|text| - |token|];
      if Starts(head, DATA) && EndsWith(head, BASE64) then Some(head) else None
  }

  /** `text` with the first token it carries replaced by its data. */
  function Expand(text: Bytes, images: seq<Image>): Bytes {
    if images == [] then text
    else
      var head := Head(text, images[0].token);
      if head.Some? then head.value + images[0].data else Expand(text, images[1..])
  }

  function Substitute(v: Value, images: seq<Image>): Value
    decreases v
  {
    match v
    case Str(text) => Str(Expand(text, images))
    case Arr(items) => Arr(SubstituteItems(items, images))
    case Obj(fields) => Obj(SubstituteFields(fields, images))
    case _ => v
  }

  function SubstituteItems(items: seq<Value>, images: seq<Image>): (r: seq<Value>)
    ensures |r| == |items|
    ensures forall i :: 0 <= i < |items| ==> r[i] == Substitute(items[i], images)
    decreases items
  {
    if items == [] then [] else [Substitute(items[0], images)] + SubstituteItems(items[1..], images)
  }

  function SubstituteFields(fields: seq<Field>, images: seq<Image>): (r: seq<Field>)
    ensures |r| == |fields|
    ensures forall i :: 0 <= i < |fields| ==>
              r[i].key == fields[i].key && r[i].value == Substitute(fields[i].value, images)
    decreases fields
  {
    if fields == [] then []
    else [Field(fields[0].key, Substitute(fields[0].value, images))] + SubstituteFields(fields[1..], images)
  }

  // ----- the writer -----

  class Output {
    var bytes: Bytes

    constructor ()
      ensures bytes == []
    {
      bytes := [];
    }

    method Push(b: Byte)
      modifies this
      ensures bytes == old(bytes) + [b]
    {
      bytes := bytes + [b];
    }

    /** Escapes `segment`, or copies it whole where there is nothing to escape. */
    method WriteSegment(segment: Bytes)
      modifies this
      ensures bytes == old(bytes) + Escape(segment)
    {
      var clean, i := true, 0;
      while clean && i < |segment|
        invariant i <= |segment| && (clean ==> AllClean(segment[..i])) && (!clean ==> !AllClean(segment))
      {
        clean := IsClean(segment[i]);
        i := i + 1;
      }
      EscapeClean(segment);
      if clean {
        assert segment[..|segment|] == segment;
        bytes := bytes + segment;
      } else {
        var encoded := EncodeText(segment);
        assert encoded[1..|encoded| - 1] == Escape(segment);
        bytes := bytes + encoded[1..|encoded| - 1];
      }
    }

    /** A string in two segments, each escaped on its own. */
    method WriteSpliced(head: Bytes, data: Bytes)
      modifies this
      ensures bytes == old(bytes) + EncodeText(head + data)
    {
      hide Escape;
      Push(QUOTE);
      WriteSegment(head);
      WriteSegment(data);
      Push(QUOTE);
      EscapeConcat(head, data);
    }

    method WriteText(text: Bytes, images: seq<Image>)
      modifies this
      ensures bytes == old(bytes) + EncodeText(Expand(text, images))
    {
      hide Head, EncodeText;
      for i := 0 to |images|
        invariant bytes == old(bytes) && Expand(text, images) == Expand(text, images[i..])
      {
        var head := Head(text, images[i].token);
        if head.Some? {
          assert images[i..][0] == images[i];
          WriteSpliced(head.value, images[i].data);
          return;
        }
        assert images[i..][1..] == images[i + 1..];
      }
      bytes := bytes + EncodeText(text);
    }

    method WriteItems(items: seq<Value>, images: seq<Image>)
      modifies this
      ensures bytes == old(bytes) + EncodeItems(SubstituteItems(items, images))
      decreases items, 0
    {
      hide Encode, EncodeItems, Substitute;
      ghost var all := SubstituteItems(items, images);
      NothingEncodes();
      assert all[..0] == [];
      for i := 0 to |items|
        invariant bytes == old(bytes) + EncodeItems(all[..i])
      {
        if i > 0 { Push(COMMA); }
        Write(items[i], images);
        ItemsGrow(all[..i], all[i]);
        assert all[..i + 1] == all[..i] + [all[i]];
      }
      assert all[..|items|] == all;
    }

    method WriteFields(fields: seq<Field>, images: seq<Image>)
      modifies this
      ensures bytes == old(bytes) + EncodeFields(SubstituteFields(fields, images))
      decreases fields, 0
    {
      hide Encode, EncodeField, EncodeFields, Substitute, EncodeText;
      ghost var all := SubstituteFields(fields, images);
      NothingEncodes();
      assert all[..0] == [];
      for i := 0 to |fields|
        invariant bytes == old(bytes) + EncodeFields(all[..i])
      {
        if i > 0 { Push(COMMA); }
        bytes := bytes + EncodeText(fields[i].key);
        Push(COLON);
        Write(fields[i].value, images);
        FieldWritten(old(bytes), all[..i], all[i]);
        assert all[..i + 1] == all[..i] + [all[i]];
      }
      assert all[..|fields|] == all;
    }

    /** Appends exactly the plain serialization of the substituted tree. */
    method Write(v: Value, images: seq<Image>)
      modifies this
      ensures bytes == old(bytes) + Encode(Substitute(v, images))
      decreases v, 1
    {
      match v
      case Str(text) => WriteText(text, images);
      case Arr(items) =>
        Push(OPEN);
        WriteItems(items, images);
        Push(CLOSE);
      case Obj(fields) =>
        Push(BEGIN);
        WriteFields(fields, images);
        Push(END);
      case _ => bytes := bytes + Encode(v);
    }
  }

  lemma FieldWritten(bytes: Bytes, done: seq<Field>, f: Field)
    ensures bytes + EncodeFields(done) + (if done == [] then [] else [COMMA]) + EncodeText(f.key) + [COLON]
            + Encode(f.value) == bytes + EncodeFields(done + [f])
  {
    hide Encode, EncodeFields, EncodeText;
    FieldsGrow(done, f);
    NothingEncodes();
    var before := EncodeFields(done) + if done == [] then [] else [COMMA];
    assert EncodeFields(done + [f]) == before + (EncodeText(f.key) + [COLON] + Encode(f.value));
  }

  lemma {:induction false} NothingToSubstitute(v: Value)
    ensures Substitute(v, []) == v
    decreases v
  {
    match v
    case Arr(items) =>
      forall i | 0 <= i < |items| ensures SubstituteItems(items, [])[i] == items[i] { NothingToSubstitute(items[i]); }
      assert SubstituteItems(items, []) == items;
    case Obj(fields) =>
      forall i | 0 <= i < |fields| ensures SubstituteFields(fields, [])[i] == fields[i] {
        NothingToSubstitute(fields[i].value);
      }
      assert SubstituteFields(fields, []) == fields;
    case _ =>
  }

  method Serialize(v: Value, images: seq<Image>) returns (bytes: Bytes)
    ensures bytes == Encode(Substitute(v, images))
  {
    if images == [] {
      NothingToSubstitute(v);
      return Encode(v);
    }
    var output := new Output();
    output.Write(v, images);
    bytes := output.bytes;
    assert [] + Encode(Substitute(v, images)) == Encode(Substitute(v, images));
  }

  // ----- which strings carry an image -----

  /** `text` is a token behind `head`: nothing, or a data URL up to its data. */
  ghost predicate Carries(text: Bytes, token: Bytes, head: Bytes) {
    && text == head + token
    && (head == [] || exists mime: Bytes :: head == DATA + mime + BASE64)
  }

  ghost predicate CarriesNone(text: Bytes, images: seq<Image>) {
    forall i, head :: 0 <= i < |images| ==> !Carries(text, images[i].token, head)
  }

  ghost predicate CarriesFirst(text: Bytes, images: seq<Image>, i: nat, head: Bytes)
    requires i < |images|
  {
    Carries(text, images[i].token, head) && CarriesNone(text, images[..i])
  }

  lemma HeadIff(text: Bytes, token: Bytes, head: Bytes)
    ensures Head(text, token) == Some(head) <==> Carries(text, token, head)
  {
    if Head(text, token) == Some(head) && head != [] {
      var mime := HeadOfUrl(head);
      assert text == text[..|text| - |token|] + text[|text| - |token|..];
    }
    if Carries(text, token, head) {
      assert text[|text| - |token|..] == token && text[..|text| - |token|] == head;
      if head != [] {
        var mime: Bytes :| head == DATA + mime + BASE64;
        assert head[..|DATA|] == DATA && head[|head| - |BASE64|..] == BASE64;
      }
    }
  }

  /** The two ends of a data URL's head do not overlap. */
  lemma HeadOfUrl(head: Bytes) returns (mime: Bytes)
    requires Starts(head, DATA) && EndsWith(head, BASE64)
    ensures head == DATA + mime + BASE64
  {
    var n := |head| - |BASE64|;
    assert head[n] == head[n..][0] == 0x3b;
    assert forall k :: 0 <= k < |DATA| ==> head[k] == head[..|DATA|][k] == DATA[k];
    mime := head[|DATA|..n];
    assert head == head[..|DATA|] + head[|DATA|..n] + head[n..];
  }

  /** A string is sent as it is exactly where it carries no token, and with the first token it carries
      replaced by that image's data otherwise. */
  lemma {:induction false} ExpandsIff(text: Bytes, images: seq<Image>)
    ensures CarriesNone(text, images) ==> Expand(text, images) == text
    ensures forall i, head :: 0 <= i < |images| && CarriesFirst(text, images, i, head)
              ==> Expand(text, images) == head + images[i].data
    decreases |images|
  {
    hide Head, Carries;
    if images != [] {
      forall head ensures Head(text, images[0].token) == Some(head) <==> Carries(text, images[0].token, head) {
        HeadIff(text, images[0].token, head);
      }
      ExpandsIff(text, images[1..]);
      forall i, head | 0 < i < |images| && CarriesFirst(text, images, i, head)
        ensures Head(text, images[0].token).None? && CarriesFirst(text, images[1..], i - 1, head)
      {
        FirstInTail(text, images, i, head);
      }
    }
  }

  lemma FirstInTail(text: Bytes, images: seq<Image>, i: nat, head: Bytes)
    requires 0 < i < |images| && CarriesFirst(text, images, i, head)
    ensures forall other :: !Carries(text, images[0].token, other)
    ensures CarriesFirst(text, images[1..], i - 1, head)
  {
    hide Carries;
    var before, rest := images[..i], images[1..][..i - 1];
    assert before[0] == images[0];
    forall k, other | 0 <= k < |rest| ensures !Carries(text, rest[k].token, other) {
      assert rest[k] == before[k + 1];
    }
  }

  // ----- no token hides another -----

  /** Tokens of one kind: a fixed prefix and a random identifier each, so distinct and equally long. */
  ghost predicate Tokens(images: seq<Image>) {
    && (forall i, j :: 0 <= i < j < |images| ==> images[i].token != images[j].token)
    && (forall i, j :: 0 <= i < |images| && 0 <= j < |images| ==> |images[i].token| == |images[j].token|)
  }

  /** A string carries at most one token, so the order of the bindings does not matter. */
  lemma {:induction false} ExpandsTheOne(text: Bytes, images: seq<Image>, i: nat)
    requires Tokens(images) && i < |images| && Head(text, images[i].token).Some?
    ensures Expand(text, images) == Head(text, images[i].token).value + images[i].data
    decreases |images|
  {
    hide EndsWith, Starts;
    if i > 0 {
      OneHead(text, images[0].token, images[i].token);
      assert images[1..][i - 1] == images[i];
      assert Tokens(images[1..]);
      ExpandsTheOne(text, images[1..], i - 1);
    }
  }

  lemma OneHead(text: Bytes, a: Bytes, b: Bytes)
    requires |a| == |b| && a != b && Head(text, b).Some?
    ensures Head(text, a).None?
  {
    assert text == b ==> text[0..] == b;
    assert text[|text| - |b|..] == b;
  }

  // ----- the whole way: bind, render, write -----

  /** A renderer's output as far as images go: what is not an image, an image's data alone, or a data
      URL of it. */
  datatype Shape =
    | Plain(v: Value)
    | Data(image: nat)
    | DataUrl(mime: Bytes, image: nat)
    | List(shapes: seq<Shape>)
    | Record(entries: seq<Entry>)
  datatype Entry = Entry(key: Bytes, shape: Shape)

  /** The tree of `shape` with `data` in the places of its images. */
  function Fill(shape: Shape, data: seq<Bytes>): Value
    decreases shape
  {
    match shape
    case Plain(v) => v
    case Data(image) => if image < |data| then Str(data[image]) else Null
    case DataUrl(mime, image) => if image < |data| then Str(DATA + mime + BASE64 + data[image]) else Null
    case List(shapes) => Arr(FillAll(shapes, data))
    case Record(entries) => Obj(FillEntries(entries, data))
  }

  function FillAll(shapes: seq<Shape>, data: seq<Bytes>): (r: seq<Value>)
    ensures |r| == |shapes| && forall i :: 0 <= i < |shapes| ==> r[i] == Fill(shapes[i], data)
    decreases shapes
  {
    if shapes == [] then [] else [Fill(shapes[0], data)] + FillAll(shapes[1..], data)
  }

  function FillEntries(entries: seq<Entry>, data: seq<Bytes>): (r: seq<Field>)
    ensures |r| == |entries|
    ensures forall i :: 0 <= i < |entries| ==> r[i].key == entries[i].key && r[i].value == Fill(entries[i].shape, data)
    decreases entries
  {
    if entries == [] then []
    else [Field(entries[0].key, Fill(entries[0].shape, data))] + FillEntries(entries[1..], data)
  }

  function TokensOf(images: seq<Image>): seq<Bytes> {
    seq(|images|, i requires 0 <= i < |images| => images[i].token)
  }

  function DataOf(images: seq<Image>): seq<Bytes> {
    seq(|images|, i requires 0 <= i < |images| => images[i].data)
  }

  /** No string of the tree happens to carry a token: they are unpredictable. */
  ghost predicate Untouched(v: Value, images: seq<Image>) {
    Substitute(v, images) == v
  }

  ghost predicate Innocent(shape: Shape, images: seq<Image>)
    decreases shape
  {
    match shape
    case Plain(v) => Untouched(v, images)
    case List(shapes) => forall i :: 0 <= i < |shapes| ==> Innocent(shapes[i], images)
    case Record(entries) => forall i :: 0 <= i < |entries| ==> Innocent(entries[i].shape, images)
    case _ => true
  }

  /** Rendering the tokens and substituting is rendering the data. */
  lemma {:induction false} SubstituteFills(shape: Shape, images: seq<Image>)
    requires Tokens(images) && Innocent(shape, images) && forall i :: 0 <= i < |images| ==> images[i].token != []
    ensures Substitute(Fill(shape, TokensOf(images)), images) == Fill(shape, DataOf(images))
    decreases shape
  {
    hide Expand, Head, Tokens;
    match shape
    case Plain(v) =>
    case Data(image) => if image < |images| { DataFills(images, image); }
    case DataUrl(mime, image) => if image < |images| { UrlFills(mime, images, image); }
    case List(shapes) =>
      forall i | 0 <= i < |shapes|
        ensures SubstituteItems(FillAll(shapes, TokensOf(images)), images)[i] == FillAll(shapes, DataOf(images))[i]
      {
        SubstituteFills(shapes[i], images);
      }
      assert SubstituteItems(FillAll(shapes, TokensOf(images)), images) == FillAll(shapes, DataOf(images));
    case Record(entries) =>
      forall i | 0 <= i < |entries|
        ensures SubstituteFields(FillEntries(entries, TokensOf(images)), images)[i]
             == FillEntries(entries, DataOf(images))[i]
      {
        SubstituteFills(entries[i].shape, images);
      }
      assert SubstituteFields(FillEntries(entries, TokensOf(images)), images) == FillEntries(entries, DataOf(images));
  }

  lemma DataFills(images: seq<Image>, i: nat)
    requires Tokens(images) && i < |images|
    ensures Expand(images[i].token, images) == images[i].data
  {
    ExpandsTheOne(images[i].token, images, i);
    assert [] + images[i].data == images[i].data;
  }

  lemma UrlFills(mime: Bytes, images: seq<Image>, i: nat)
    requires Tokens(images) && i < |images| && images[i].token != []
    ensures Expand(DATA + mime + BASE64 + images[i].token, images) == DATA + mime + BASE64 + images[i].data
  {
    ExpandsTheOne(DATA + mime + BASE64 + images[i].token, images, i);
  }

  /** What is sent is, byte for byte, the plain serialization of the request rendered with its images in
      place, and a receiver reads that tree from it, whatever bytes the images hold. */
  lemma SentAsRendered(shape: Shape, images: seq<Image>)
    requires Tokens(images) && Innocent(shape, images) && forall i :: 0 <= i < |images| ==> images[i].token != []
    requires Spelled(Fill(shape, DataOf(images)))
    ensures var sent := Encode(Substitute(Fill(shape, TokensOf(images)), images));
            && sent == Encode(Fill(shape, DataOf(images)))
            && ReadValue(sent) == Some(Read(Fill(shape, DataOf(images)), []))
  {
    SubstituteFills(shape, images);
    var sent := Encode(Fill(shape, DataOf(images)));
    ValueReadsBack(Fill(shape, DataOf(images)), []);
    assert sent + [] == sent;
  }
}
