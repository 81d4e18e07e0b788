/** Splitting a user's text at the placeholders of its attachments (`src/application/input.rs`). */
module Input {
  import opened Prelude

  datatype Attachment = Attachment(id: string, kind: string, placeholder: Option<string>)
  datatype Part = Text(text: string) | Attached(index: nat)
  datatype InputError = InvalidPlaceholder

  datatype Occurrence = Occurrence(start: nat, length: nat, index: nat)

  // ----- placeholders -----

  predicate IsHexDigit(c: char) {
    '0' <= c <= '9' || 'a' <= c <= 'f' || 'A' <= c <= 'F'
  }

  predicate IsBlobId(id: string) {
    |id| == 64 && forall i :: 0 <= i < |id| ==> IsHexDigit(id[i])
  }

  function Token(a: Attachment): string {
    "<" + a.kind + "-" + a.id + ">"
  }

  predicate ValidPlaceholder(a: Attachment)
    requires a.placeholder.Some?
  {
    (a.kind == "image" || a.kind == "file") && IsBlobId(a.id) && a.placeholder.value == Token(a)
  }

  /** What an input must satisfy: every placeholder is its attachment's own, and none comes twice. */
  predicate Accepted(attachments: seq<Attachment>) {
    && (forall i :: 0 <= i < |attachments| && attachments[i].placeholder.Some? ==> ValidPlaceholder(attachments[i]))
    && (forall i, j :: 0 <= i < j < |attachments| && attachments[i].placeholder.Some? ==>
          attachments[j].placeholder != attachments[i].placeholder)
  }

  /** `t` names the attachment `a`, and `a` may be named. */
  ghost predicate Names(t: string, a: Attachment) {
    && ((a.kind == "image" && t == "<image-" + a.id + ">") || (a.kind == "file" && t == "<file-" + a.id + ">"))
    && |a.id| == 64 && forall c :: c in a.id ==> c in "0123456789abcdefABCDEF"
  }

  /** An input is accepted exactly where each placeholder names its attachment by its digest and no two
      are the same. */
  lemma AcceptedIff(attachments: seq<Attachment>)
    ensures Accepted(attachments) <==>
            && (forall i, t :: 0 <= i < |attachments| && attachments[i].placeholder == Some(t)
                  ==> Names(t, attachments[i]))
            && (forall i, j, t :: 0 <= i < j < |attachments| && attachments[i].placeholder == Some(t)
                  ==> attachments[j].placeholder != Some(t))
  {
    hide ValidPlaceholder, Names;
    forall i, t | 0 <= i < |attachments| && attachments[i].placeholder == Some(t)
      ensures ValidPlaceholder(attachments[i]) <==> Names(t, attachments[i])
    {
      NamesIff(attachments[i], t);
    }
  }

  lemma NamesIff(a: Attachment, t: string)
    requires a.placeholder == Some(t)
    ensures ValidPlaceholder(a) <==> Names(t, a)
  {
    forall c: char ensures IsHexDigit(c) <==> c in "0123456789abcdefABCDEF" { Digits(c); }
    hide IsHexDigit;
    assert "<" + "image" + "-" == "<image-" && "<" + "file" + "-" == "<file-";
    assert (forall i :: 0 <= i < |a.id| ==> IsHexDigit(a.id[i])) <==> (forall c :: c in a.id ==> IsHexDigit(c));
  }

  lemma Digits(c: char)
    ensures IsHexDigit(c) <==> c in "0123456789abcdefABCDEF"
  {
    assert "0123456789abcdefABCDEF" == "0123456789" + "abcdef" + "ABCDEF";
    var n := c as int;
    if '0' <= c <= '9' { assert "0123456789"[n - '0' as int] == c; }
    if 'a' <= c <= 'f' { assert "abcdef"[n - 'a' as int] == c; }
    if 'A' <= c <= 'F' { assert "ABCDEF"[n - 'A' as int] == c; }
  }

  /** Angle brackets at the ends and nowhere else. */
  predicate Sealed(t: string) {
    && |t| >= 2 && t[0] == '<' && t[|t| - 1] == '>'
    && (forall i :: 0 < i < |t| ==> t[i] != '<')
    && (forall i :: 0 <= i < |t| - 1 ==> t[i] != '>')
  }

  lemma TokensAreSealed(a: Attachment)
    requires a.placeholder.Some? && ValidPlaceholder(a)
    ensures Sealed(a.placeholder.value)
  {
    var t, k := Token(a), |a.kind|;
    assert t[0] == '<' && t[k + 1] == '-' && t[k + 66] == '>' && |t| == k + 67;
    assert forall i :: 1 <= i <= k ==> t[i] == a.kind[i - 1];
    assert forall i :: k + 2 <= i < k + 66 ==> t[i] == a.id[i - k - 2];
    assert forall i :: 0 <= i < k ==> a.kind[i] != '<' && a.kind[i] != '>';
    assert forall i :: 0 <= i < 64 ==> IsHexDigit(a.id[i]);
  }

  predicate MatchesAt(text: string, t: string, i: nat) {
    i + |t| <= |text| && text[i..i + |t|] == t
  }

  /** Occurrences of placeholders never overlap, and those of different ones never begin together. */
  lemma OccurrencesApart(text: string, s: string, t: string, i: nat, j: nat)
    requires Sealed(s) && Sealed(t) && MatchesAt(text, s, i) && MatchesAt(text, t, j)
    ensures i < j ==> i + |s| <= j
    ensures i == j ==> s == t
  {
    assert forall x :: i <= x < i + |s| ==> text[x] == text[i..i + |s|][x - i] == s[x - i];
    assert forall x :: j <= x < j + |t| ==> text[x] == text[j..j + |t|][x - j] == t[x - j];
    assert text[j] == '<' && text[i + |s| - 1] == '>' && text[j + |t| - 1] == '>';
  }

  /** Where `t` occurs in `text`, from left to right, going on after each match. */
  method MatchIndices(text: string, t: string) returns (at: seq<nat>)
    requires Sealed(t)
    ensures forall i :: 0 <= i < |at| ==> MatchesAt(text, t, at[i])
    ensures forall i, j :: 0 <= i < j < |at| ==> at[i] < at[j]
    ensures forall i: nat :: MatchesAt(text, t, i) ==> i in at
  {
    at := [];
    var i: nat := 0;
    while i + |t| <= |text|
      invariant forall k :: 0 <= k < |at| ==> MatchesAt(text, t, at[k]) && at[k] < i
      invariant forall k, l :: 0 <= k < l < |at| ==> at[k] < at[l]
      invariant forall j: nat :: MatchesAt(text, t, j) && j < i ==> j in at
      decreases |text| - i
    {
      if text[i..i + |t|] == t {
        forall j: nat | MatchesAt(text, t, j) && i < j ensures i + |t| <= j { OccurrencesApart(text, t, t, i, j); }
        at := at + [i];
        i := i + |t|;
      } else {
        i := i + 1;
      }
    }
  }

  // ----- collecting and sorting the occurrences -----

  ghost predicate IsOccurrence(text: string, attachments: seq<Attachment>, o: Occurrence) {
    && o.index < |attachments| && attachments[o.index].placeholder.Some?
    && o.length == |attachments[o.index].placeholder.value|
    && MatchesAt(text, attachments[o.index].placeholder.value, o.start)
  }

  /** Exactly the occurrences of the placeholders, each once. */
  ghost predicate Collected(text: string, attachments: seq<Attachment>, found: seq<Occurrence>) {
    && (forall o :: o in found <==> IsOccurrence(text, attachments, o))
    && Distinct(found)
  }

  function Insert(o: Occurrence, s: seq<Occurrence>): seq<Occurrence> {
    if s == [] || o.start <= s[0].start then [o] + s else [s[0]] + Insert(o, s[1..])
  }

  predicate Ordered(s: seq<Occurrence>) {
    forall i, j :: 0 <= i < j < |s| ==> s[i].start <= s[j].start
  }

  /** The occurrences from left to right. */
  function SortByStart(s: seq<Occurrence>): seq<Occurrence> {
    if s == [] then [] else Insert(Last(s), SortByStart(Front(s)))
  }

  lemma {:induction false} InsertAdds(o: Occurrence, s: seq<Occurrence>)
    ensures multiset(Insert(o, s)) == multiset(s) + multiset{o}
    decreases |s|
  {
    if s != [] && o.start > s[0].start {
      InsertAdds(o, s[1..]);
      assert s == [s[0]] + s[1..];
    }
  }

  lemma {:induction false} InsertOrders(o: Occurrence, s: seq<Occurrence>)
    requires Ordered(s)
    ensures Ordered(Insert(o, s))
    decreases |s|
  {
    if s != [] && o.start > s[0].start {
      var rest := Insert(o, s[1..]);
      InsertOrders(o, s[1..]);
      InsertAdds(o, s[1..]);
      forall i | 0 <= i < |rest| ensures s[0].start <= rest[i].start {
        assert rest[i] in multiset(rest);
        assert rest[i] == o || rest[i] in s[1..];
      }
    }
  }

  lemma {:induction false} Sorts(s: seq<Occurrence>)
    ensures Ordered(SortByStart(s)) && multiset(SortByStart(s)) == multiset(s)
    decreases |s|
  {
    if s != [] {
      assert s == Front(s) + [Last(s)];
      Sorts(Front(s));
      InsertOrders(Last(s), SortByStart(Front(s)));
      InsertAdds(Last(s), SortByStart(Front(s)));
    }
  }

  ghost predicate Separate(s: seq<Occurrence>) {
    forall i, j :: 0 <= i < j < |s| ==> s[i].start + s[i].length <= s[j].start
  }

  lemma DistinctByMultiset(s: seq<Occurrence>)
    requires Distinct(s)
    ensures forall o :: multiset(s)[o] <= 1
    decreases |s|
  {
    if s != [] {
      assert s == Front(s) + [Last(s)];
      DistinctByMultiset(Front(s));
      assert Last(s) !in Front(s);
    }
  }

  lemma SortedApart(text: string, attachments: seq<Attachment>, found: seq<Occurrence>)
    requires Accepted(attachments) && Collected(text, attachments, found)
    ensures var s := SortByStart(found);
            && (forall o :: o in s <==> IsOccurrence(text, attachments, o))
            && Separate(s)
  {
    hide SortByStart;
    Sorts(found);
    var s := SortByStart(found);
    forall o ensures o in s <==> IsOccurrence(text, attachments, o) {
      assert o in s <==> o in multiset(s);
      assert o in found <==> o in multiset(found);
    }
    DistinctByMultiset(found);
    forall i, j | 0 <= i < j < |s| ensures s[i].start + s[i].length <= s[j].start {
      var a, b := s[i], s[j];
      assert IsOccurrence(text, attachments, a) && IsOccurrence(text, attachments, b);
      TokensAreSealed(attachments[a.index]);
      TokensAreSealed(attachments[b.index]);
      OccurrencesApart(text, attachments[a.index].placeholder.value, attachments[b.index].placeholder.value,
                       a.start, b.start);
      if a.start == b.start {
        assert a.index == b.index;
        TwiceInMultiset(s, i, j);
      }
    }
  }

  method Collect(text: string, attachments: seq<Attachment>) returns (r: Result<seq<Occurrence>, InputError>)
    ensures r.Ok? <==> Accepted(attachments)
    ensures r.Ok? ==> Collected(text, attachments, r.value)
  {
    var tokens: set<string> := {};
    var found: seq<Occurrence> := [];
    for index := 0 to |attachments|
      invariant Accepted(attachments[..index]) && Collected(text, attachments[..index], found)
      invariant forall t :: t in tokens <==> exists i :: 0 <= i < index && attachments[i].placeholder == Some(t)
    {
      var a := attachments[index];
      assert attachments[..index + 1] == attachments[..index] + [a];
      if a.placeholder.Some? {
        var token := a.placeholder.value;
        if !ValidPlaceholder(a) || token in tokens {
          assert !Accepted(attachments);
          return Err(InvalidPlaceholder);
        }
        tokens := tokens + {token};
        TokensAreSealed(a);
        var at := MatchIndices(text, token);
        var more := seq(|at|, i requires 0 <= i < |at| => Occurrence(at[i], |token|, index));
        CollectMore(text, attachments, index, found, at, more);
        found := found + more;
      } else {
        CollectNone(text, attachments, index, found);
      }
    }
    assert attachments[..|attachments|] == attachments;
    return Ok(found);
  }

  lemma CollectMore(
    text: string, attachments: seq<Attachment>, index: nat, found: seq<Occurrence>, at: seq<nat>,
    more: seq<Occurrence>)
    requires index < |attachments| && attachments[index].placeholder.Some?
    requires Collected(text, attachments[..index], found)
    requires |more| == |at|
    requires forall i :: 0 <= i < |at| ==> more[i] == Occurrence(at[i], |attachments[index].placeholder.value|, index)
    requires forall i :: 0 <= i < |at| ==> MatchesAt(text, attachments[index].placeholder.value, at[i])
    requires forall i, j :: 0 <= i < j < |at| ==> at[i] < at[j]
    requires forall i: nat :: MatchesAt(text, attachments[index].placeholder.value, i) ==> i in at
    ensures Collected(text, attachments[..index + 1], found + more)
  {
    forall o ensures o in found + more <==> IsOccurrence(text, attachments[..index + 1], o) {
      if o.index == index && IsOccurrence(text, attachments[..index + 1], o) {
        var i :| 0 <= i < |at| && at[i] == o.start;
        assert more[i] == o;
      }
      if o in found { assert IsOccurrence(text, attachments[..index], o); }
      if o.index < index && IsOccurrence(text, attachments[..index + 1], o) {
        assert IsOccurrence(text, attachments[..index], o);
      }
    }
    forall i, j | 0 <= i < j < |found + more| ensures (found + more)[i] != (found + more)[j] {
      if i < |found| <= j { assert IsOccurrence(text, attachments[..index], found[i]); }
    }
  }

  lemma CollectNone(text: string, attachments: seq<Attachment>, index: nat, found: seq<Occurrence>)
    requires index < |attachments| && attachments[index].placeholder.None?
    requires Collected(text, attachments[..index], found)
    ensures Collected(text, attachments[..index + 1], found)
  {
    forall o ensures o in found <==> IsOccurrence(text, attachments[..index + 1], o) {
      assert IsOccurrence(text, attachments[..index], o) <==> IsOccurrence(text, attachments[..index + 1], o);
    }
  }

  // ----- the parts -----

  function Spelling(p: Part, attachments: seq<Attachment>): string {
    match p
    case Text(text) => text
    case Attached(index) => if index < |attachments| then attachments[index].placeholder.GetOr("") else ""
  }

  /** The text the parts stand for. */
  function Joined(parts: seq<Part>, attachments: seq<Attachment>): string {
    if parts == [] then "" else Joined(Front(parts), attachments) + Spelling(Last(parts), attachments)
  }

  lemma JoinOne(parts: seq<Part>, p: Part, attachments: seq<Attachment>)
    ensures Joined(parts + [p], attachments) == Joined(parts, attachments) + Spelling(p, attachments)
  {
    assert Front(parts + [p]) == parts;
  }

  ghost predicate HoldsNone(s: string, attachments: seq<Attachment>) {
    forall k: nat, i: nat ::
      k < |attachments| && attachments[k].placeholder.Some? ==> !MatchesAt(s, attachments[k].placeholder.value, i)
  }

  /** Every text part is some text and holds no placeholder. */
  ghost predicate PlainTexts(parts: seq<Part>, attachments: seq<Attachment>) {
    forall i :: 0 <= i < |parts| && parts[i].Text? ==> parts[i].text != "" && HoldsNone(parts[i].text, attachments)
  }

  predicate IsPlaced(p: Part, attachments: seq<Attachment>) {
    p.Attached? ==> p.index < |attachments| && attachments[p.index].placeholder.Some?
  }

  /** Attachments stand only for placeholders, and text is not cut without need. */
  ghost predicate Tight(parts: seq<Part>, attachments: seq<Attachment>) {
    && (forall i :: 0 <= i < |parts| ==> IsPlaced(parts[i], attachments))
    && (forall i, j :: 0 <= i < j < |parts| && j == i + 1 ==> parts[i].Attached? || parts[j].Attached?)
  }

  lemma MatchInSlice(text: string, from: nat, to: nat, t: string, i: nat)
    requires from <= to <= |text| && MatchesAt(text[from..to], t, i)
    ensures MatchesAt(text, t, from + i) && from + i + |t| <= to
  {
    var slice := text[from..to];
    assert |slice| == to - from;
    var window := text[from + i..from + i + |t|];
    forall k | 0 <= k < |t| ensures window[k] == t[k] {
      assert slice[i..i + |t|][k] == slice[i + k] == text[from + i + k];
    }
    assert window == t;
  }

  /** Between two neighbouring occurrences there is no other. */
  lemma GapHoldsNone(text: string, attachments: seq<Attachment>, s: seq<Occurrence>, n: nat, from: nat, to: nat)
    requires forall o :: o in s <==> IsOccurrence(text, attachments, o)
    requires n <= |s| && from <= to <= |text|
    requires forall i :: 0 <= i < n ==> s[i].start < from
    requires forall i :: n <= i < |s| ==> to <= s[i].start
    requires Accepted(attachments)
    ensures HoldsNone(text[from..to], attachments)
  {
    forall k: nat, i: nat | k < |attachments| && attachments[k].placeholder.Some?
      ensures !MatchesAt(text[from..to], attachments[k].placeholder.value, i)
    {
      var t := attachments[k].placeholder.value;
      if MatchesAt(text[from..to], t, i) {
        MatchInSlice(text, from, to, t, i);
        assert IsOccurrence(text, attachments, Occurrence(from + i, |t|, k)) && |t| > 0;
      }
    }
  }

  /** What holds after the occurrence number n: the parts so far join to the text up to `offset`. */
  ghost predicate SplitTo(parts: seq<Part>, text: string, attachments: seq<Attachment>, offset: nat) {
    && offset <= |text| && Joined(parts, attachments) == text[..offset]
    && PlainTexts(parts, attachments) && Tight(parts, attachments)
  }

  lemma SplitText(parts: seq<Part>, text: string, attachments: seq<Attachment>, from: nat, to: nat)
    requires SplitTo(parts, text, attachments, from) && from < to <= |text| && HoldsNone(text[from..to], attachments)
    requires parts == [] || Last(parts).Attached?
    ensures SplitTo(parts + [Text(text[from..to])], text, attachments, to)
  {
    hide HoldsNone, Joined;
    JoinOne(parts, Text(text[from..to]), attachments);
    assert text[..from] + text[from..to] == text[..to];
  }

  lemma SplitToken(parts: seq<Part>, text: string, attachments: seq<Attachment>, o: Occurrence)
    requires SplitTo(parts, text, attachments, o.start) && IsOccurrence(text, attachments, o)
    ensures SplitTo(parts + [Attached(o.index)], text, attachments, o.start + o.length)
  {
    hide HoldsNone, Joined;
    JoinOne(parts, Attached(o.index), attachments);
    assert Spelling(Attached(o.index), attachments) == text[o.start..o.start + o.length];
    assert text[..o.start] + text[o.start..o.start + o.length] == text[..o.start + o.length];
  }

  method Split(text: string, attachments: seq<Attachment>, s: seq<Occurrence>) returns (parts: seq<Part>)
    requires Accepted(attachments)
    requires forall o :: o in s <==> IsOccurrence(text, attachments, o)
    requires Separate(s)
    ensures SplitTo(parts, text, attachments, |text|)
  {
    hide SplitTo, HoldsNone, Accepted, IsOccurrence, Joined;
    parts := [];
    var offset: nat := 0;
    NothingSplit(text, attachments);
    forall n | 0 <= n < |s| ensures 0 < s[n].length && s[n].start + s[n].length <= |text| {
      assert s[n] in s;
      Extent(text, attachments, s[n]);
    }
    for n := 0 to |s|
      invariant SplitTo(parts, text, attachments, offset) && offset <= |text|
      invariant parts == [] || Last(parts).Attached?
      invariant forall i :: 0 <= i < n ==> s[i].start < offset
      invariant forall i :: n <= i < |s| ==> offset <= s[i].start
    {
      var o := s[n];
      assert IsOccurrence(text, attachments, o);
      if o.start > offset {
        GapHoldsNone(text, attachments, s, n, offset, o.start);
        SplitText(parts, text, attachments, offset, o.start);
        parts := parts + [Text(text[offset..o.start])];
      }
      SplitToken(parts, text, attachments, o);
      parts := parts + [Attached(o.index)];
      offset := o.start + o.length;
    }
    if offset < |text| {
      GapHoldsNone(text, attachments, s, |s|, offset, |text|);
      SplitText(parts, text, attachments, offset, |text|);
      assert text[offset..|text|] == text[offset..];
      parts := parts + [Text(text[offset..])];
    }
  }

  lemma NothingSplit(text: string, attachments: seq<Attachment>)
    ensures SplitTo([], text, attachments, 0)
  {
  }

  lemma Extent(text: string, attachments: seq<Attachment>, o: Occurrence)
    requires Accepted(attachments) && IsOccurrence(text, attachments, o)
    ensures 0 < o.length && o.start + o.length <= |text|
  {
  }

  /** The attachments without a placeholder, in order. */
  function Loose(attachments: seq<Attachment>, n: nat): seq<Part>
    requires n <= |attachments|
  {
    if n == 0 then []
    else if attachments[n - 1].placeholder.None? then Loose(attachments, n - 1) + [Attached(n - 1)]
    else Loose(attachments, n - 1)
  }

  // ----- there is one way to split -----

  /** What the parts before the loose attachments are. */
  ghost predicate Splits(parts: seq<Part>, text: string, attachments: seq<Attachment>) {
    Joined(parts, attachments) == text && PlainTexts(parts, attachments) && Tight(parts, attachments)
  }

  lemma SplitsFront(parts: seq<Part>, text: string, attachments: seq<Attachment>)
    requires Splits(parts, text, attachments) && parts != []
    ensures var x := Spelling(Last(parts), attachments);
            && |x| <= |text| && text[|text| - |x|..] == x && Splits(Front(parts), text[..|text| - |x|], attachments)
  {
    var x, before := Spelling(Last(parts), attachments), Joined(Front(parts), attachments);
    assert text == before + x && text[..|text| - |x|] == before;
  }

  ghost predicate IsToken(attachments: seq<Attachment>, t: string) {
    exists k :: 0 <= k < |attachments| && attachments[k].placeholder == Some(t)
  }

  lemma TokenIsSealed(attachments: seq<Attachment>, t: string)
    requires Accepted(attachments) && IsToken(attachments, t)
    ensures Sealed(t)
  {
    var k :| 0 <= k < |attachments| && attachments[k].placeholder == Some(t);
    TokensAreSealed(attachments[k]);
  }

  /** Parts that end in an attachment end the text in its placeholder. */
  lemma EndsInToken(parts: seq<Part>, text: string, attachments: seq<Attachment>)
    requires Splits(parts, text, attachments) && parts != [] && Last(parts).Attached?
    ensures var t := Spelling(Last(parts), attachments);
            IsToken(attachments, t) && |t| <= |text| && MatchesAt(text, t, |text| - |t|)
  {
    hide PlainTexts;
    SplitsFront(parts, text, attachments);
    assert IsPlaced(parts[|parts| - 1], attachments);
  }

  /** Before a last text part there is a placeholder, or nothing. */
  lemma TokenBeforeText(parts: seq<Part>, text: string, attachments: seq<Attachment>) returns (t: string)
    requires Splits(parts, text, attachments) && parts != [] && Last(parts).Text?
    ensures var x := Last(parts).text;
            && |x| <= |text| && text[|text| - |x|..] == x
            && (x == text || (IsToken(attachments, t) && |t| + |x| <= |text| && MatchesAt(text, t, |text| - |x| - |t|)))
  {
    SplitsFront(parts, text, attachments);
    var front, rest := Front(parts), text[..|text| - |Last(parts).text|];
    if front == [] {
      t := "";
      assert rest == "";
    } else {
      assert parts[|parts| - 1].Text?;
      assert parts[|parts| - 2].Attached?;
      t := Spelling(Last(front), attachments);
      EndsInToken(front, rest, attachments);
      var at := |rest| - |t|;
      assert rest[at..at + |t|] == text[at..at + |t|];
    }
  }

  lemma MatchInEnd(text: string, x: string, t: string, i: nat)
    requires |x| <= |text| && text[|text| - |x|..] == x && MatchesAt(text, t, i) && |text| - |x| <= i
    ensures MatchesAt(x, t, i - (|text| - |x|))
  {
    var from := |text| - |x|;
    assert text[from..][i - from..i - from + |t|] == text[i..i + |t|];
  }

  /** A placeholder in the text begins before a last text part. */
  lemma BeginsBefore(text: string, attachments: seq<Attachment>, x: string, t: string, i: nat)
    requires |x| <= |text| && text[|text| - |x|..] == x && HoldsNone(x, attachments)
    requires IsToken(attachments, t) && MatchesAt(text, t, i)
    ensures i < |text| - |x|
  {
    var k: nat :| k < |attachments| && attachments[k].placeholder == Some(t);
    if |text| - |x| <= i {
      assert !MatchesAt(x, attachments[k].placeholder.value, i - (|text| - |x|));
      MatchInEnd(text, x, t, i);
      assert false;
    }
  }

  /** The last parts agree: two attachments are the same, two texts equally long, and an attachment and a
      text cannot both come last. */
  lemma LastAgree(p: seq<Part>, q: seq<Part>, text: string, attachments: seq<Attachment>)
    requires Accepted(attachments) && Splits(p, text, attachments) && Splits(q, text, attachments)
    requires p != [] && q != [] && Last(p).Attached?
    ensures Last(p) == Last(q)
  {
    hide Joined, Tight, HoldsNone, Accepted;
    EndsInToken(p, text, attachments);
    var s := Spelling(Last(p), attachments);
    TokenIsSealed(attachments, s);
    if Last(q).Attached? {
      EndsInToken(q, text, attachments);
      var t := Spelling(Last(q), attachments);
      TokenIsSealed(attachments, t);
      OccurrencesApart(text, s, t, |text| - |s|, |text| - |t|);
      OccurrencesApart(text, t, s, |text| - |t|, |text| - |s|);
      SameIndex(p, q, text, attachments);
    } else {
      TokenOrText(p, q, text, attachments);
      assert false;
    }
  }

  lemma TokenOrText(p: seq<Part>, q: seq<Part>, text: string, attachments: seq<Attachment>)
    requires Accepted(attachments) && Splits(p, text, attachments) && Splits(q, text, attachments)
    requires p != [] && q != []
    ensures Last(p).Text? || Last(q).Attached?
  {
    hide Joined, Tight, HoldsNone, Accepted;
    if Last(p).Attached? && Last(q).Text? {
      EndsInToken(p, text, attachments);
      var s, x := Spelling(Last(p), attachments), q[|q| - 1].text;
      assert HoldsNone(x, attachments) && x != "";
      var t := TokenBeforeText(q, text, attachments);
      TokenIsSealed(attachments, s);
      BeginsBefore(text, attachments, x, s, |text| - |s|);
      TokenIsSealed(attachments, t);
      OccurrencesApart(text, s, t, |text| - |s|, |text| - |x| - |t|);
      OccurrencesApart(text, t, s, |text| - |x| - |t|, |text| - |s|);
      assert false;
    }
  }

  lemma SameIndex(p: seq<Part>, q: seq<Part>, text: string, attachments: seq<Attachment>)
    requires Accepted(attachments) && Splits(p, text, attachments) && Splits(q, text, attachments)
    requires p != [] && q != [] && Last(p).Attached? && Last(q).Attached?
    requires Spelling(Last(p), attachments) == Spelling(Last(q), attachments)
    ensures Last(p) == Last(q)
  {
    assert IsPlaced(p[|p| - 1], attachments) && IsPlaced(q[|q| - 1], attachments);
  }

  lemma TextsAgree(p: seq<Part>, q: seq<Part>, text: string, attachments: seq<Attachment>)
    requires Accepted(attachments) && Splits(p, text, attachments) && Splits(q, text, attachments)
    requires p != [] && q != [] && Last(p).Text? && Last(q).Text?
    ensures |Last(p).text| >= |Last(q).text|
  {
    hide Joined, Tight, HoldsNone, Accepted;
    var x, y := p[|p| - 1].text, q[|q| - 1].text;
    var t := TokenBeforeText(p, text, attachments);
    var u := TokenBeforeText(q, text, attachments);
    assert HoldsNone(y, attachments);
    if |x| < |y| {
      var i: nat := |text| - |x| - |t|;
      BeginsBefore(text, attachments, y, t, i);
      TokenIsSealed(attachments, t);
      TokenIsSealed(attachments, u);
      var j: nat := |text| - |y| - |u|;
      OccurrencesApart(text, u, t, j, i);
      OccurrencesApart(text, t, u, i, j);
      assert false;
    }
  }

  /** Text, placeholders and tightness leave one way to split: any two agree part by part. */
  lemma {:induction false} OneSplit(p: seq<Part>, q: seq<Part>, text: string, attachments: seq<Attachment>)
    requires Accepted(attachments) && Splits(p, text, attachments) && Splits(q, text, attachments)
    ensures p == q
    decreases |p|
  {
    hide Accepted, Splits;
    if p == [] || q == [] {
      NothingToSplit(p, text, attachments);
      NothingToSplit(q, text, attachments);
    } else {
      LastIsOne(p, q, text, attachments);
      SplitsFront(p, text, attachments);
      SplitsFront(q, text, attachments);
      OneSplit(Front(p), Front(q), text[..|text| - |Spelling(Last(p), attachments)|], attachments);
      assert p == Front(p) + [Last(p)] && q == Front(q) + [Last(q)];
    }
  }

  lemma LastIsOne(p: seq<Part>, q: seq<Part>, text: string, attachments: seq<Attachment>)
    requires Accepted(attachments) && Splits(p, text, attachments) && Splits(q, text, attachments)
    requires p != [] && q != []
    ensures Last(p) == Last(q)
  {
    hide Accepted, Splits;
    if Last(p).Attached? {
      LastAgree(p, q, text, attachments);
    } else if Last(q).Attached? {
      LastAgree(q, p, text, attachments);
    } else {
      TextsAgree(p, q, text, attachments);
      TextsAgree(q, p, text, attachments);
      SplitsFront(p, text, attachments);
      SplitsFront(q, text, attachments);
    }
  }

  lemma NothingToSplit(p: seq<Part>, text: string, attachments: seq<Attachment>)
    requires Accepted(attachments) && Splits(p, text, attachments)
    ensures p == [] <==> text == ""
  {
    if p != [] {
      SplitsFront(p, text, attachments);
      if Last(p).Attached? {
        EndsInToken(p, text, attachments);
        TokenIsSealed(attachments, Spelling(Last(p), attachments));
      } else {
        assert p[|p| - 1].text != "";
      }
    }
  }

  /** An input is refused exactly for a placeholder that is not its attachment's or comes twice. Otherwise
      its parts are the one split of the text at its placeholders, and the attachments without a
      placeholder follow in order. */
  method OrderedParts(text: string, attachments: seq<Attachment>) returns (r: Result<seq<Part>, InputError>)
    ensures r.Ok? <==> Accepted(attachments)
    ensures r.Ok? ==> Joined(r.value, attachments) == text && PlainTexts(r.value, attachments)
    ensures r.Ok? ==> var loose := Loose(attachments, |attachments|);
                      && |loose| <= |r.value| && r.value[|r.value| - |loose|..] == loose
                      && Splits(r.value[..|r.value| - |loose|], text, attachments)
  {
    hide SortByStart, HoldsNone, Joined;
    var found := Collect(text, attachments);
    if found.Err? { return Err(InvalidPlaceholder); }
    SortedApart(text, attachments, found.value);
    var sorted := SortByStart(found.value);
    var parts := Split(text, attachments, sorted);
    ghost var inText := parts;
    assert text[..|text|] == text;
    for index := 0 to |attachments|
      invariant parts == inText + Loose(attachments, index)
      invariant Joined(parts, attachments) == text && PlainTexts(parts, attachments)
    {
      if attachments[index].placeholder.None? {
        JoinOne(parts, Attached(index), attachments);
        parts := parts + [Attached(index)];
      }
    }
    assert parts[..|parts| - |Loose(attachments, |attachments|)|] == inText;
    return Ok(parts);
  }
}
