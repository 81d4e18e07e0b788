/** Binding the images of a conversation to tokens (`src/client/image_payload.rs`, `bind_conversation`),
    and the whole way from a conversation to the bytes sent. */
module ImageBinding {
  import opened Prelude
  import opened Json
  import opened ImagePayload

  const USIZE_MAX: nat := 0xffff_ffff_ffff_ffff

  datatype Block = Picture(mime: Bytes, data: Bytes) | OtherBlock(body: Bytes)
  datatype Role = User | Assistant | System | Developer
  datatype Message = Speech(role: Role, blocks: seq<Block>) | OtherMessage(body: Bytes)

  // ----- the images of a conversation, in order -----

  function PicturesIn(blocks: seq<Block>): seq<Bytes> {
    if blocks == [] then []
    else if Last(blocks).Picture? then PicturesIn(Front(blocks)) + [Last(blocks).data]
    else PicturesIn(Front(blocks))
  }

  function Pictures(ms: seq<Message>): seq<Bytes> {
    if ms == [] then []
    else if Last(ms).Speech? then Pictures(Front(ms)) + PicturesIn(Last(ms).blocks)
    else Pictures(Front(ms))
  }

  function Size(data: seq<Bytes>): nat {
    if data == [] then 0 else Size(Front(data)) + |Last(data)|
  }

  /** `blocks` with the data of their images replaced, the first one's by `data(from)`. */
  function RedrawBlocks(blocks: seq<Block>, from: nat, data: nat -> Bytes): seq<Block> {
    if blocks == [] then []
    else
      var last := Last(blocks);
      RedrawBlocks(Front(blocks), from, data) + [RedrawBlock(last, data(from + |PicturesIn(Front(blocks))|))]
  }

  function RedrawMessage(m: Message, from: nat, data: nat -> Bytes): Message {
    if m.Speech? then Speech(m.role, RedrawBlocks(m.blocks, from, data)) else m
  }

  function Redraw(ms: seq<Message>, data: nat -> Bytes): seq<Message> {
    if ms == [] then []
    else Redraw(Front(ms), data) + [RedrawMessage(Last(ms), |Pictures(Front(ms))|, data)]
  }

  function At(data: seq<Bytes>): nat -> Bytes {
    (i: nat) => if i < |data| then data[i] else []
  }

  lemma {:induction false} SizeGrows(data: seq<Bytes>, more: seq<Bytes>)
    ensures Size(data + more) == Size(data) + Size(more)
    decreases |more|
  {
    if more == [] {
      assert data + more == data;
    } else {
      assert Front(data + more) == data + Front(more);
      SizeGrows(data, Front(more));
    }
  }

  function RedrawBlock(block: Block, data: Bytes): Block {
    if block.Picture? then Picture(block.mime, data) else block
  }

  lemma BlocksGrow(blocks: seq<Block>, b: Block, from: nat, data: nat -> Bytes)
    ensures PicturesIn(blocks + [b]) == if b.Picture? then PicturesIn(blocks) + [b.data] else PicturesIn(blocks)
    ensures RedrawBlocks(blocks + [b], from, data)
            == RedrawBlocks(blocks, from, data) + [RedrawBlock(b, data(from + |PicturesIn(blocks)|))]
  {
    assert Front(blocks + [b]) == blocks;
  }

  /** A redrawn block is the one it was but for its data. */
  lemma BlockRedrawn(b: Block, x: Bytes, y: Bytes)
    ensures var drawn := RedrawBlock(b, x);
            && (drawn.Picture? <==> b.Picture?) && (drawn.Picture? ==> drawn.data == x)
            && RedrawBlock(drawn, y) == RedrawBlock(b, y)
            && (b.Picture? && x == b.data ==> drawn == b) && (!b.Picture? ==> drawn == b)
  {
  }

  lemma {:induction false} PicturesRedrawn(blocks: seq<Block>, from: nat, f: nat -> Bytes)
    ensures |PicturesIn(RedrawBlocks(blocks, from, f))| == |PicturesIn(blocks)|
    ensures forall i :: 0 <= i < |PicturesIn(blocks)| ==> PicturesIn(RedrawBlocks(blocks, from, f))[i] == f(from + i)
    decreases |blocks|
  {
    if blocks != [] {
      hide PicturesIn, RedrawBlocks, RedrawBlock;
      var front, b := Front(blocks), Last(blocks);
      PicturesRedrawn(front, from, f);
      assert blocks == front + [b];
      var drawn := RedrawBlock(b, f(from + |PicturesIn(front)|));
      BlockRedrawn(b, f(from + |PicturesIn(front)|), []);
      BlocksGrow(front, b, from, f);
      BlocksGrow(RedrawBlocks(front, from, f), drawn, from, f);
    }
  }

  lemma {:induction false} BlocksRedrawn(blocks: seq<Block>, from: nat, f: nat -> Bytes, g: nat -> Bytes)
    ensures RedrawBlocks(RedrawBlocks(blocks, from, f), from, g) == RedrawBlocks(blocks, from, g)
    decreases |blocks|
  {
    if blocks != [] {
      hide PicturesIn, RedrawBlocks, RedrawBlock;
      var front, b := Front(blocks), Last(blocks);
      var n := from + |PicturesIn(front)|;
      BlocksRedrawn(front, from, f, g);
      PicturesRedrawn(front, from, f);
      assert blocks == front + [b];
      BlockRedrawn(b, f(n), g(n));
      var once := RedrawBlocks(front, from, f);
      BlocksGrow(front, b, from, f);
      BlocksGrow(front, b, from, g);
      BlocksGrow(once, RedrawBlock(b, f(n)), from, g);
      assert RedrawBlocks(blocks, from, f) == once + [RedrawBlock(b, f(n))];
      assert from + |PicturesIn(once)| == n;
    }
  }

  lemma {:induction false} BlocksRestored(blocks: seq<Block>, from: nat, data: nat -> Bytes)
    requires forall i :: 0 <= i < |PicturesIn(blocks)| ==> data(from + i) == PicturesIn(blocks)[i]
    ensures RedrawBlocks(blocks, from, data) == blocks
    decreases |blocks|
  {
    if blocks != [] {
      hide PicturesIn, RedrawBlocks, RedrawBlock;
      var front, b := Front(blocks), Last(blocks);
      var n := |PicturesIn(front)|;
      assert blocks == front + [b];
      BlocksGrow(front, b, from, data);
      forall i | 0 <= i < n ensures data(from + i) == PicturesIn(front)[i] {
        assert PicturesIn(blocks)[i] == PicturesIn(front)[i];
      }
      BlocksRestored(front, from, data);
      assert b.Picture? ==> PicturesIn(blocks)[n] == b.data;
      BlockRedrawn(b, data(from + n), []);
    }
  }

  lemma MessagesGrow(ms: seq<Message>, m: Message, data: nat -> Bytes)
    ensures Pictures(ms + [m]) == Pictures(ms) + PicturesOf(m)
    ensures Redraw(ms + [m], data) == Redraw(ms, data) + [RedrawMessage(m, |Pictures(ms)|, data)]
  {
    hide PicturesIn, RedrawBlocks;
    assert Front(ms + [m]) == ms;
  }

  function PicturesOf(m: Message): seq<Bytes> {
    if m.Speech? then PicturesIn(m.blocks) else []
  }

  lemma MessageRedrawn(m: Message, from: nat, f: nat -> Bytes, g: nat -> Bytes)
    ensures var drawn := RedrawMessage(m, from, f);
            && |PicturesOf(drawn)| == |PicturesOf(m)|
            && (forall i :: 0 <= i < |PicturesOf(m)| ==> PicturesOf(drawn)[i] == f(from + i))
            && RedrawMessage(drawn, from, g) == RedrawMessage(m, from, g)
  {
    hide PicturesIn, RedrawBlocks;
    if m.Speech? {
      PicturesRedrawn(m.blocks, from, f);
      BlocksRedrawn(m.blocks, from, f, g);
    }
  }

  /** Redrawing changes the images' data and nothing else. */
  lemma {:induction false} Redrawn(ms: seq<Message>, f: nat -> Bytes, g: nat -> Bytes)
    ensures |Pictures(Redraw(ms, f))| == |Pictures(ms)|
    ensures forall i :: 0 <= i < |Pictures(ms)| ==> Pictures(Redraw(ms, f))[i] == f(i)
    ensures Redraw(Redraw(ms, f), g) == Redraw(ms, g)
    decreases |ms|
  {
    if ms != [] {
      hide Pictures, PicturesOf, Redraw, RedrawMessage;
      var front, m := Front(ms), Last(ms);
      Redrawn(front, f, g);
      assert ms == front + [m];
      var n := |Pictures(front)|;
      MessagesGrow(front, m, f);
      MessagesGrow(front, m, g);
      MessagesGrow(Redraw(front, f), RedrawMessage(m, n, f), g);
      MessageRedrawn(m, n, f, g);
    }
  }

  lemma MessageRestored(m: Message, seen: seq<Bytes>, data: nat -> Bytes)
    requires var all := seen + PicturesOf(m); forall i :: 0 <= i < |all| ==> data(i) == all[i]
    ensures RedrawMessage(m, |seen|, data) == m
  {
    hide PicturesIn, RedrawBlocks;
    if m.Speech? {
      var own := PicturesIn(m.blocks);
      forall i | 0 <= i < |own| ensures data(|seen| + i) == own[i] {
        assert (seen + own)[|seen| + i] == own[i];
      }
      BlocksRestored(m.blocks, |seen|, data);
    }
  }

  lemma {:induction false} Restored(ms: seq<Message>, data: nat -> Bytes)
    requires forall i :: 0 <= i < |Pictures(ms)| ==> data(i) == Pictures(ms)[i]
    ensures Redraw(ms, data) == ms
    decreases |ms|
  {
    if ms != [] {
      hide Pictures, PicturesOf, Redraw, RedrawMessage;
      var front, m := Front(ms), Last(ms);
      assert ms == front + [m];
      MessagesGrow(front, m, data);
      forall i | 0 <= i < |Pictures(front)| ensures data(i) == Pictures(front)[i] {
        assert Pictures(ms)[i] == Pictures(front)[i];
      }
      Restored(front, data);
      MessageRestored(m, Pictures(front), data);
    }
  }

  // ----- bind_conversation -----

  datatype Bound = Bound(messages: seq<Message>, images: seq<Image>)
  datatype BindError = TooLarge

  /** The images bound so far: the data seen, each under the next token. */
  ghost predicate Binds(images: seq<Image>, data: seq<Bytes>, token: nat -> Bytes) {
    |images| == |data| && forall i :: 0 <= i < |data| ==> images[i] == Image(token(i), data[i])
  }

  predicate HasImages(ms: seq<Message>) {
    exists i :: 0 <= i < |ms| && ms[i].Speech? && exists j :: 0 <= j < |ms[i].blocks| && ms[i].blocks[j].Picture?
  }

  lemma {:induction false} NoPicturesIn(blocks: seq<Block>)
    requires forall j :: 0 <= j < |blocks| ==> !blocks[j].Picture?
    ensures PicturesIn(blocks) == []
    decreases |blocks|
  {
    if blocks != [] { NoPicturesIn(Front(blocks)); }
  }

  lemma {:induction false} NoPictures(ms: seq<Message>)
    requires !HasImages(ms)
    ensures Pictures(ms) == []
    decreases |ms|
  {
    if ms != [] {
      NoPictures(Front(ms));
      if Last(ms).Speech? { NoPicturesIn(ms[|ms| - 1].blocks); }
    }
  }

  method BindBlocks(blocks: seq<Block>, token: nat -> Bytes, images: seq<Image>, total: nat, ghost seen: seq<Bytes>)
    returns (ok: bool, projected: seq<Block>, images': seq<Image>, total': nat)
    requires Binds(images, seen, token) && total == Size(seen) <= MAX_WIRE_BYTES
    ensures ok <==> Size(seen + PicturesIn(blocks)) <= MAX_WIRE_BYTES
    ensures ok ==> total' == Size(seen + PicturesIn(blocks)) && Binds(images', seen + PicturesIn(blocks), token)
    ensures ok ==> projected == RedrawBlocks(blocks, |seen|, token)
  {
    hide RedrawBlocks, Size, PicturesIn, Binds;
    projected, images', total' := [], images, total;
    ghost var all := seen;
    NoBlocks(|seen|, token);
    assert seen + [] == seen && blocks[..0] == [];
    for i := 0 to |blocks|
      invariant total' == Size(all) <= MAX_WIRE_BYTES && all == seen + PicturesIn(blocks[..i])
      invariant Binds(images', all, token)
      invariant projected == RedrawBlocks(blocks[..i], |seen|, token)
    {
      var block := blocks[i];
      OneBlock(blocks, i, |seen|, token);
      if block.Picture? {
        SizeOne(all, block.data);
        all := all + [block.data];
        total' := if total' + |block.data| > USIZE_MAX then USIZE_MAX else total' + |block.data|;
        if total' > MAX_WIRE_BYTES {
          assert all == seen + PicturesIn(blocks[..i + 1]);
          Exceeded(blocks, i + 1, seen);
          return false, [], [], 0;
        }
        var name := token(|images'|);
        assert Front(all) == seen + PicturesIn(blocks[..i]);
        BindOne(images', all, block.data, token);
        images' := images' + [Image(name, block.data)];
        projected := projected + [Picture(block.mime, name)];
      } else {
        projected := projected + [block];
      }
    }
    assert blocks[..|blocks|] == blocks;
    ok := true;
  }

  lemma NoBlocks(from: nat, token: nat -> Bytes)
    ensures PicturesIn([]) == [] && RedrawBlocks([], from, token) == []
  {
  }

  lemma BindOne(images: seq<Image>, all: seq<Bytes>, data: Bytes, token: nat -> Bytes)
    requires all != [] && Binds(images, Front(all), token) && Last(all) == data
    ensures |images| == |all| - 1 && Binds(images + [Image(token(|images|), data)], all, token)
  {
  }

  lemma SizeOne(data: seq<Bytes>, more: Bytes)
    ensures Size(data + [more]) == Size(data) + |more|
  {
    assert Front(data + [more]) == data;
  }

  lemma OneBlock(blocks: seq<Block>, i: nat, from: nat, token: nat -> Bytes)
    requires i < |blocks|
    ensures PicturesIn(blocks[..i + 1])
            == if blocks[i].Picture? then PicturesIn(blocks[..i]) + [blocks[i].data] else PicturesIn(blocks[..i])
    ensures RedrawBlocks(blocks[..i + 1], from, token)
            == RedrawBlocks(blocks[..i], from, token)
               + [RedrawBlock(blocks[i], token(from + |PicturesIn(blocks[..i])|))]
  {
    assert Front(blocks[..i + 1]) == blocks[..i];
  }

  /** Once too large, always too large. */
  lemma {:induction false} Exceeded(blocks: seq<Block>, i: nat, seen: seq<Bytes>)
    requires i <= |blocks|
    ensures Size(seen + PicturesIn(blocks[..i])) <= Size(seen + PicturesIn(blocks))
    decreases |blocks|
  {
    if i == |blocks| {
      assert blocks[..i] == blocks;
    } else {
      Exceeded(Front(blocks), i, seen);
      assert Front(blocks)[..i] == blocks[..i];
      if Last(blocks).Picture? {
        SizeOne(seen + PicturesIn(Front(blocks)), Last(blocks).data);
        assert seen + PicturesIn(blocks) == seen + PicturesIn(Front(blocks)) + [Last(blocks).data];
      }
    }
  }

  lemma {:induction false} ExceededOverall(ms: seq<Message>, i: nat)
    requires i <= |ms|
    ensures Size(Pictures(ms[..i])) <= Size(Pictures(ms))
    decreases |ms|
  {
    if i == |ms| {
      assert ms[..i] == ms;
    } else {
      ExceededOverall(Front(ms), i);
      assert Front(ms)[..i] == ms[..i];
      if Last(ms).Speech? { SizeGrows(Pictures(Front(ms)), PicturesIn(Last(ms).blocks)); }
    }
  }

  /** Binding fails exactly when the images are too large together; otherwise every image, in order, is
      bound to a token of its own that stands in its place, and nothing else changes. */
  method BindConversation(messages: seq<Message>, token: nat -> Bytes) returns (r: Result<Bound, BindError>)
    ensures r.Err? <==> Size(Pictures(messages)) > MAX_WIRE_BYTES
    ensures r.Ok? ==> Binds(r.value.images, Pictures(messages), token) && r.value.messages == Redraw(messages, token)
  {
    if !HasImages(messages) {
      NoPictures(messages);
      Restored(messages, token);
      return Ok(Bound(messages, []));
    }
    var projected, images, total := [], [], 0;
    for i := 0 to |messages|
      invariant total == Size(Pictures(messages[..i])) <= MAX_WIRE_BYTES
      invariant Binds(images, Pictures(messages[..i]), token)
      invariant projected == Redraw(messages[..i], token)
    {
      assert Front(messages[..i + 1]) == messages[..i];
      if messages[i].Speech? {
        var ok, blocks;
        ok, blocks, images, total := BindBlocks(messages[i].blocks, token, images, total, Pictures(messages[..i]));
        if !ok {
          ExceededOverall(messages, i + 1);
          return Err(TooLarge);
        }
        projected := projected + [Speech(messages[i].role, blocks)];
      } else {
        projected := projected + [messages[i]];
      }
    }
    assert messages[..|messages|] == messages;
    return Ok(Bound(projected, images));
  }

  // ----- what binding does, place by place -----

  datatype Place = Place(message: nat, block: nat)

  ghost predicate Pictured(ms: seq<Message>, p: Place) {
    && p.message < |ms| && ms[p.message].Speech?
    && p.block < |ms[p.message].blocks| && ms[p.message].blocks[p.block].Picture?
  }

  ghost predicate InOrder(places: seq<Place>) {
    forall k, l :: 0 <= k < l < |places| ==>
      || places[k].message < places[l].message
      || (places[k].message == places[l].message && places[k].block < places[l].block)
  }

  /** `drawn` is `ms` but for its pictures. */
  ghost predicate SameElsewhere(ms: seq<Message>, drawn: seq<Message>) {
    && |drawn| == |ms|
    && (forall i :: 0 <= i < |ms| && !ms[i].Speech? ==> drawn[i] == ms[i])
    && (forall i :: 0 <= i < |ms| && ms[i].Speech? ==>
          drawn[i].Speech? && drawn[i].role == ms[i].role && SameBut(ms[i].blocks, drawn[i].blocks))
  }

  ghost predicate SameBut(blocks: seq<Block>, drawn: seq<Block>) {
    |drawn| == |blocks| && forall j :: 0 <= j < |blocks| && !blocks[j].Picture? ==> drawn[j] == blocks[j]
  }

  ghost function PlacesIn(message: nat, blocks: seq<Block>): seq<Place> {
    if blocks == [] then []
    else if Last(blocks).Picture? then PlacesIn(message, Front(blocks)) + [Place(message, |blocks| - 1)]
    else PlacesIn(message, Front(blocks))
  }

  ghost function Places(ms: seq<Message>): seq<Place> {
    if ms == [] then []
    else if Last(ms).Speech? then Places(Front(ms)) + PlacesIn(|ms| - 1, Last(ms).blocks)
    else Places(Front(ms))
  }

  lemma {:induction false} BlockAt(blocks: seq<Block>, from: nat, f: nat -> Bytes, j: nat)
    ensures |RedrawBlocks(blocks, from, f)| == |blocks|
    ensures j < |blocks| ==>
              RedrawBlocks(blocks, from, f)[j] == RedrawBlock(blocks[j], f(from + |PicturesIn(blocks[..j])|))
    decreases |blocks|
  {
    if blocks != [] {
      BlockAt(Front(blocks), from, f, j);
      assert j < |blocks| ==> Front(blocks)[..j] == blocks[..j];
    }
  }

  lemma {:induction false} BlockPlaces(m: nat, blocks: seq<Block>)
    ensures |PlacesIn(m, blocks)| == |PicturesIn(blocks)|
    ensures forall k :: 0 <= k < |PlacesIn(m, blocks)| ==>
              PlacesIn(m, blocks)[k].message == m && PlacesIn(m, blocks)[k].block < |blocks|
    ensures forall k, l :: 0 <= k < l < |PlacesIn(m, blocks)| ==>
              PlacesIn(m, blocks)[k].block < PlacesIn(m, blocks)[l].block
    decreases |blocks|
  {
    if blocks != [] { BlockPlaces(m, Front(blocks)); }
  }

  lemma {:induction false} BlockPlace(m: nat, blocks: seq<Block>, k: nat)
    requires k < |PicturesIn(blocks)|
    ensures k < |PlacesIn(m, blocks)| && PlacesIn(m, blocks)[k].block < |blocks|
    ensures var j := PlacesIn(m, blocks)[k].block;
            blocks[j].Picture? && blocks[j].data == PicturesIn(blocks)[k] && |PicturesIn(blocks[..j])| == k
    decreases |blocks|
  {
    BlockPlaces(m, blocks);
    BlockPlaces(m, Front(blocks));
    if k < |PicturesIn(Front(blocks))| {
      BlockPlace(m, Front(blocks), k);
      var j := PlacesIn(m, Front(blocks))[k].block;
      assert PlacesIn(m, blocks)[k].block == j;
      assert Front(blocks)[..j] == blocks[..j];
    }
  }

  lemma {:induction false} BlockPlaced(m: nat, blocks: seq<Block>, j: nat)
    requires j < |blocks| && blocks[j].Picture?
    ensures Place(m, j) in PlacesIn(m, blocks)
    decreases |blocks|
  {
    if j < |blocks| - 1 {
      BlockPlaced(m, Front(blocks), j);
    } else {
      assert Last(PlacesIn(m, blocks)) == Place(m, j);
    }
  }

  ghost predicate BoundAt(ms: seq<Message>, drawn: seq<Message>, p: Place, data: Bytes, name: Bytes) {
    && Pictured(ms, p) && Pictured(drawn, p)
    && ms[p.message].blocks[p.block].data == data
    && drawn[p.message].blocks[p.block] == Picture(ms[p.message].blocks[p.block].mime, name)
  }

  lemma {:induction false} MessageAt(ms: seq<Message>, f: nat -> Bytes, i: nat)
    ensures |Redraw(ms, f)| == |ms|
    ensures i < |ms| ==> Redraw(ms, f)[i] == RedrawMessage(ms[i], |Pictures(ms[..i])|, f)
    decreases |ms|
  {
    if ms != [] {
      MessageAt(Front(ms), f, i);
      assert i < |ms| ==> Front(ms)[..i] == ms[..i];
    }
  }

  lemma RedrawnElsewhere(ms: seq<Message>, f: nat -> Bytes)
    ensures SameElsewhere(ms, Redraw(ms, f))
  {
    hide Redraw, RedrawBlocks, Pictures, PicturesIn;
    MessageAt(ms, f, 0);
    forall i | 0 <= i < |ms| ensures Redraw(ms, f)[i] == RedrawMessage(ms[i], |Pictures(ms[..i])|, f) {
      MessageAt(ms, f, i);
    }
    forall i | 0 <= i < |ms| && ms[i].Speech?
      ensures SameBut(ms[i].blocks, RedrawBlocks(ms[i].blocks, |Pictures(ms[..i])|, f))
    {
      SameButPictures(ms[i].blocks, |Pictures(ms[..i])|, f);
    }
  }

  lemma SameButPictures(blocks: seq<Block>, from: nat, f: nat -> Bytes)
    ensures SameBut(blocks, RedrawBlocks(blocks, from, f))
  {
    BlockAt(blocks, from, f, 0);
    forall j | 0 <= j < |blocks| && !blocks[j].Picture? ensures RedrawBlocks(blocks, from, f)[j] == blocks[j] {
      BlockAt(blocks, from, f, j);
    }
  }

  lemma {:induction false} PlacesInOrder(ms: seq<Message>)
    ensures |Places(ms)| == |Pictures(ms)| && InOrder(Places(ms))
    ensures forall k :: 0 <= k < |Places(ms)| ==> Places(ms)[k].message < |ms|
    decreases |ms|
  {
    if ms != [] {
      hide PicturesIn, PlacesIn;
      PlacesInOrder(Front(ms));
      if Last(ms).Speech? { BlockPlaces(|ms| - 1, Last(ms).blocks); }
    }
  }

  lemma {:induction false} PlaceBound(ms: seq<Message>, f: nat -> Bytes, k: nat)
    requires k < |Pictures(ms)|
    ensures k < |Places(ms)| && BoundAt(ms, Redraw(ms, f), Places(ms)[k], Pictures(ms)[k], f(k))
    decreases |ms|
  {
    hide PicturesIn, PlacesIn, RedrawBlocks;
    var front, last := Front(ms), Last(ms);
    PlacesInOrder(front);
    MessageAt(front, f, 0);
    if k < |Pictures(front)| {
      PlaceBound(front, f, k);
      var p := Places(front)[k];
      assert Redraw(ms, f)[p.message] == Redraw(front, f)[p.message] && ms[p.message] == front[p.message];
    } else {
      var n, at := |Pictures(front)|, k - |Pictures(front)|;
      BlockPlaces(|front|, last.blocks);
      BlockPlace(|front|, last.blocks, at);
      assert Redraw(ms, f)[|front|] == RedrawMessage(last, n, f);
      BlockAt(last.blocks, n, f, PlacesIn(|front|, last.blocks)[at].block);
      assert Places(ms)[k] == PlacesIn(|front|, last.blocks)[at];
    }
  }

  lemma {:induction false} PicturePlaced(ms: seq<Message>, p: Place)
    requires Pictured(ms, p)
    ensures p in Places(ms)
    decreases |ms|
  {
    hide PlacesIn;
    if p.message < |ms| - 1 {
      PicturePlaced(Front(ms), p);
    } else {
      BlockPlaced(p.message, Last(ms).blocks, p.block);
    }
  }

  /** The bound images are the pictures of the conversation, in order and each once: in the place of
      each stands the token its data is kept under, and nothing else is changed. */
  lemma PicturesAreBound(ms: seq<Message>, bound: Bound, token: nat -> Bytes) returns (places: seq<Place>)
    requires Binds(bound.images, Pictures(ms), token) && bound.messages == Redraw(ms, token)
    ensures SameElsewhere(ms, bound.messages)
    ensures |places| == |bound.images| && InOrder(places) && forall p :: Pictured(ms, p) <==> p in places
    ensures forall k :: 0 <= k < |places| ==>
              && BoundAt(ms, bound.messages, places[k], bound.images[k].data, bound.images[k].token)
              && bound.images[k].token == token(k)
  {
    hide Redraw, Pictures, Places, Pictured, SameElsewhere;
    places := Places(ms);
    PlacesInOrder(ms);
    RedrawnElsewhere(ms, token);
    forall k | 0 <= k < |places| ensures BoundAt(ms, bound.messages, places[k], Pictures(ms)[k], token(k)) {
      PlaceBound(ms, token, k);
    }
    forall p | Pictured(ms, p) ensures p in places { PicturePlaced(ms, p); }
  }

  function Joined(data: seq<Bytes>): Bytes {
    if data == [] then [] else data[0] + Joined(data[1..])
  }

  /** The size that is limited is the length of all the data end to end. */
  lemma {:induction false} SizeIsLength(data: seq<Bytes>)
    ensures Size(data) == |Joined(data)|
    decreases |data|
  {
    if data != [] {
      SizeIsLength(data[1..]);
      SizeGrows([data[0]], data[1..]);
      assert data == [data[0]] + data[1..] && Front([data[0]]) == [];
    }
  }

  // ----- the whole way -----

  /** A renderer sees the conversation and puts each image's data where its shape says; the shape does
      not depend on the data. */
  ghost predicate Renders(render: seq<Message> -> Shape, ms: seq<Message>, data: nat -> Bytes) {
    render(Redraw(ms, data)) == render(ms)
  }

  ghost predicate Fresh(token: nat -> Bytes, n: nat) {
    && (forall i, j :: 0 <= i < j < n ==> token(i) != token(j))
    && (forall i, j :: 0 <= i < n && 0 <= j < n ==> |token(i)| == |token(j)| > 0)
  }

  /** From a conversation to the wire: rendering the bound conversation and writing it with its images
      sends exactly what rendering the conversation itself and serializing it plainly would. */
  lemma SentWhole(ms: seq<Message>, bound: Bound, token: nat -> Bytes, render: seq<Message> -> Shape)
    requires Binds(bound.images, Pictures(ms), token) && bound.messages == Redraw(ms, token)
    requires Fresh(token, |bound.images|) && Renders(render, ms, token) && Innocent(render(ms), bound.images)
    ensures Encode(Substitute(Fill(render(bound.messages), Pictures(bound.messages)), bound.images))
            == Encode(Fill(render(ms), Pictures(ms)))
  {
    Redrawn(ms, token, token);
    assert Pictures(bound.messages) == TokensOf(bound.images);
    assert Pictures(ms) == DataOf(bound.images);
    SubstituteFills(render(ms), bound.images);
  }

  /** Nothing is lost in binding: putting the data back gives the conversation. */
  lemma BindingRestores(ms: seq<Message>, bound: Bound, token: nat -> Bytes)
    requires Binds(bound.images, Pictures(ms), token) && bound.messages == Redraw(ms, token)
    ensures Redraw(bound.messages, At(DataOf(bound.images))) == ms
  {
    Redrawn(ms, token, At(DataOf(bound.images)));
    Restored(ms, At(DataOf(bound.images)));
  }
}
