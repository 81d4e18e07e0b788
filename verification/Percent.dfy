/** A ratio spelled as a percentage by moving its point (`src/protocol/json_read.rs`). */
module Percent {
  import opened Prelude

  datatype Decimal = Decimal(negative: bool, whole: string, fraction: string)

  predicate IsDigit(c: char) {
    '0' <= c <= '9'
  }

  predicate AllDigits(s: string) {
    forall i :: 0 <= i < |s| ==> IsDigit(s[i])
  }

  function Signed(negative: bool, s: string): string {
    if negative then "-" + s else s
  }

  function Unsigned(d: Decimal, point: bool): string {
    if point then d.whole + "." + d.fraction else d.whole
  }

  predicate IsDecimal(d: Decimal) {
    AllDigits(d.whole) && AllDigits(d.fraction) && (d.whole != "" || d.fraction != "")
  }

  /** `s` spells `d`: a sign, digits, and digits after a point; a digit somewhere. */
  predicate Spells(s: string, d: Decimal, point: bool) {
    IsDecimal(d) && (!point ==> d.fraction == "") && s == Signed(d.negative, Unsigned(d, point))
  }

  // ----- values -----

  function Pow10(n: nat): nat {
    if n == 0 then 1 else 10 * Pow10(n - 1)
  }

  function DigitValue(c: char): nat {
    if IsDigit(c) then (c as int) - ('0' as int) else 0
  }

  function Number(s: string): nat {
    if s == "" then 0 else 10 * Number(Front(s)) + DigitValue(Last(s))
  }

  /** `e` is a hundred times `d`: their values are `Number(whole + fraction)` over a power of ten. */
  predicate Hundredfold(d: Decimal, e: Decimal) {
    && e.negative == d.negative
    && Number(e.whole + e.fraction) * Pow10(|d.fraction|) == 100 * Number(d.whole + d.fraction) * Pow10(|e.fraction|)
  }

  /** No redundant zero at either end. */
  predicate Normal(e: Decimal) {
    && e.whole != "" && (e.whole == "0" || e.whole[0] != '0')
    && (e.fraction == "" || Last(e.fraction) != '0')
  }

  function Zeros(n: nat): string {
    seq(n, _ => '0')
  }

  lemma {:induction false} Pow10Adds(a: nat, b: nat)
    ensures Pow10(a + b) == Pow10(a) * Pow10(b)
    decreases a
  {
    if a > 0 {
      Pow10Adds(a - 1, b);
      assert Pow10(a) * Pow10(b) == 10 * (Pow10(a - 1) * Pow10(b));
    }
  }

  lemma Carry(a: nat, p: nat, b: nat)
    ensures 10 * (a * p + b) == a * (10 * p) + 10 * b
  {
  }

  lemma Swap(n: nat, d: nat, r: nat)
    ensures n * (100 * r * d) == 100 * (n * d) * r
  {
  }

  lemma {:induction false} NumberSplits(a: string, b: string)
    ensures Number(a + b) == Number(a) * Pow10(|b|) + Number(b)
    decreases |b|
  {
    if b == "" {
      assert a + b == a;
    } else {
      assert Front(a + b) == a + Front(b) && Last(a + b) == Last(b);
      NumberSplits(a, Front(b));
      Carry(Number(a), Pow10(|b| - 1), Number(Front(b)));
    }
  }

  lemma {:induction false} ZerosAreNothing(n: nat)
    ensures Number(Zeros(n)) == 0
    decreases n
  {
    if n > 0 {
      assert Front(Zeros(n)) == Zeros(n - 1);
      ZerosAreNothing(n - 1);
    }
  }

  // ----- the conversion -----

  method Trimmed(s: string) returns (t: string)
    ensures exists n: nat :: n <= |s| && s == Zeros(n) + t
    ensures t == "" || t[0] != '0'
  {
    var n := 0;
    while n < |s| && s[n] == '0'
      invariant n <= |s| && forall i :: 0 <= i < n ==> s[i] == '0'
    {
      n := n + 1;
    }
    t := s[n..];
    assert s == Zeros(n) + t;
  }

  method TrimmedEnd(s: string) returns (t: string)
    ensures exists n: nat :: n <= |s| && s == t + Zeros(n)
    ensures t == "" || Last(t) != '0'
  {
    var n: nat := |s|;
    while n > 0 && s[n - 1] == '0'
      invariant n <= |s| && forall i :: n <= i < |s| ==> s[i] == '0'
    {
      n := n - 1;
    }
    t := s[..n];
    assert s == t + Zeros(|s| - n);
  }

  /** Where `c` first is in `s`. */
  method FindChar(s: string, c: char) returns (at: Option<nat>)
    ensures at.None? ==> c !in s
    ensures at.Some? ==> at.value < |s| && s[at.value] == c && c !in s[..at.value]
  {
    for i := 0 to |s|
      invariant c !in s[..i]
    {
      if s[i] == c { return Some(i); }
      assert s[..i + 1] == s[..i] + [s[i]];
    }
    assert s[..|s|] == s;
    return None;
  }

  /** What a string must spell, if it spells a decimal: its sign, then up to its first point, then the rest. */
  method Divide(ratio: string) returns (d: Decimal, point: bool)
    ensures forall e, p :: Spells(ratio, e, p) ==> e == d && p == point
    ensures IsDecimal(d) ==> Spells(ratio, d, point)
  {
    hide AllDigits;
    var negative := |ratio| > 0 && ratio[0] == '-';
    var digits := if negative then ratio[1..] else ratio;
    assert ratio == Signed(negative, digits);
    var at := FindChar(digits, '.');
    if at.None? {
      d, point := Decimal(negative, digits, ""), false;
    } else {
      d, point := Decimal(negative, digits[..at.value], digits[at.value + 1..]), true;
      assert digits == d.whole + "." + d.fraction;
    }
    forall e, p | Spells(ratio, e, p) ensures e == d && p == point { SpellsOnce(ratio, d, point, e, p); }
  }

  lemma SpellsOnce(s: string, d: Decimal, point: bool, e: Decimal, p: bool)
    requires s == Signed(d.negative, Unsigned(d, point)) && (d.negative <==> |s| > 0 && s[0] == '-')
    requires '.' !in d.whole && (!point ==> d.fraction == "")
    requires Spells(s, e, p)
    ensures e == d && p == point
  {
    var x, y := Unsigned(d, point), Unsigned(e, p);
    assert e.negative == d.negative;
    assert x == y by {
      if e.negative { assert ("-" + x)[1..] == x && ("-" + y)[1..] == y; }
    }
    FirstPoint(d, point, e, p);
  }

  lemma FirstPoint(d: Decimal, point: bool, e: Decimal, p: bool)
    requires Unsigned(d, point) == Unsigned(e, p) && '.' !in d.whole && '.' !in e.whole
    requires (!point ==> d.fraction == "") && (!p ==> e.fraction == "")
    ensures point == p && d.whole == e.whole && d.fraction == e.fraction
  {
    var x := Unsigned(d, point);
    assert x[..|d.whole|] == d.whole && x[..|e.whole|] == e.whole;
    assert point ==> x[|d.whole|] == '.' && x[|d.whole| + 1..] == d.fraction;
    assert p ==> x[|e.whole|] == '.' && x[|e.whole| + 1..] == e.fraction;
  }

  /** What the moved point gives: `w` and `f` are the digits before and after it, `padding` and `dropped`
      count the zeros added and trimmed. */
  lemma PointMoves(w: string, f: string, padding: nat, integer: string, trimmed: nat, rest: string, dropped: nat)
    requires |f| + padding >= 2 && (padding > 0 ==> |f| + padding == 2)
    requires w + (f + Zeros(padding))[..2] == Zeros(trimmed) + integer
    requires (f + Zeros(padding))[2..] == rest + Zeros(dropped)
    ensures Number(integer + rest) * Pow10(|f|) == 100 * Number(w + f) * Pow10(|rest|)
  {
    var kept := integer + rest;
    SameDigits(w, f, padding, integer, trimmed, rest, dropped);
    ZerosAfter(w + f, padding);
    ZerosAfter(Zeros(trimmed) + kept, dropped);
    ZerosBefore(trimmed, kept);
    hide Number, Pow10, Zeros;
    assert Number(kept) * Pow10(dropped) == Number(w + f) * Pow10(padding);
    Scaled(Number(kept), Number(w + f), |f|, padding, |rest|, dropped);
  }

  lemma SameDigits(w: string, f: string, padding: nat, integer: string, trimmed: nat, rest: string, dropped: nat)
    requires |f| + padding >= 2
    requires w + (f + Zeros(padding))[..2] == Zeros(trimmed) + integer
    requires (f + Zeros(padding))[2..] == rest + Zeros(dropped)
    ensures w + f + Zeros(padding) == Zeros(trimmed) + (integer + rest) + Zeros(dropped)
    ensures |f| + padding == 2 + |rest| + dropped
  {
    var padded := f + Zeros(padding);
    assert |padded| == |f| + padding && |padded[2..]| == |rest| + dropped;
    assert padded == padded[..2] + padded[2..];
    assert w + f + Zeros(padding) == (w + padded[..2]) + padded[2..];
  }

  lemma ZerosAfter(s: string, n: nat)
    ensures Number(s + Zeros(n)) == Number(s) * Pow10(n)
  {
    NumberSplits(s, Zeros(n));
    ZerosAreNothing(n);
  }

  lemma ZerosBefore(n: nat, s: string)
    ensures Number(Zeros(n) + s) == Number(s)
  {
    NumberSplits(Zeros(n), s);
    ZerosAreNothing(n);
  }

  lemma Scaled(n: nat, m: nat, f: nat, padding: nat, rest: nat, dropped: nat)
    requires n * Pow10(dropped) == m * Pow10(padding) && f + padding == 2 + rest + dropped
    requires padding > 0 ==> rest + dropped == 0
    ensures n * Pow10(f) == 100 * m * Pow10(rest)
  {
    SmallPowers();
    hide Pow10;
    if padding == 0 {
      assert n * Pow10(dropped) == m;
      PowersOf(rest, dropped);
      Dropped(n, m, Pow10(dropped), Pow10(rest), Pow10(f));
    } else {
      assert rest == 0 && dropped == 0 && n == m * Pow10(padding);
      Pow10Adds(padding, f);
    }
  }

  lemma SmallPowers()
    ensures Pow10(0) == 1 && Pow10(2) == 100
  {
    assert Pow10(1) == 10;
  }

  lemma PowersOf(rest: nat, dropped: nat)
    ensures Pow10(2 + rest + dropped) == 100 * Pow10(rest) * Pow10(dropped)
  {
    SmallPowers();
    hide Pow10;
    Pow10Adds(2 + rest, dropped);
    Pow10Adds(2, rest);
  }

  lemma Dropped(n: nat, m: nat, d: nat, r: nat, f: nat)
    requires n * d == m && f == 100 * r * d
    ensures n * f == 100 * m * r
  {
    Swap(n, d, r);
  }

  /** Converts exactly the strings that spell a decimal, and each to the one a hundred times as large,
      spelled without a redundant zero. */
  method ConvertRatioToPercent(ratio: string) returns (r: Option<string>)
    ensures r.Some? <==> exists d, p :: Spells(ratio, d, p)
    ensures forall d, p :: Spells(ratio, d, p) ==>
              r.Some? && exists e: Decimal :: Spells(r.value, e, e.fraction != "") && Hundredfold(d, e) && Normal(e)
  {
    hide Spells, Hundredfold, Number, Pow10;
    var d, point := Divide(ratio);
    if d.whole == "" && d.fraction == "" {
      NotDecimal(ratio, d, point);
      return None;
    }
    if !(AllDigits(d.whole) && AllDigits(d.fraction)) {
      NotDecimal(ratio, d, point);
      return None;
    }
    assert Spells(ratio, d, point);
    var e := MovePoint(d);
    var percent := if d.negative then "-" else "";
    percent := percent + e.whole;
    if e.fraction != "" { percent := percent + "." + e.fraction; }
    assert percent == Signed(d.negative, Unsigned(e, e.fraction != ""));
    SpelledOut(percent, e);
    return Some(percent);
  }

  lemma SpelledOut(s: string, e: Decimal)
    requires IsDecimal(e) && s == Signed(e.negative, Unsigned(e, e.fraction != ""))
    ensures Spells(s, e, e.fraction != "")
  {
  }

  lemma NotDecimal(ratio: string, d: Decimal, point: bool)
    requires !IsDecimal(d) && forall e, p :: Spells(ratio, e, p) ==> e == d && p == point
    ensures !exists e, p :: Spells(ratio, e, p)
  {
  }

  /** The point two places on, with no redundant zeros. */
  method MovePoint(d: Decimal) returns (e: Decimal)
    requires IsDecimal(d)
    ensures IsDecimal(e) && Hundredfold(d, e) && Normal(e) && e.negative == d.negative
  {
    hide Number, Pow10;
    var padding: nat, fraction := 0, d.fraction;
    while |fraction| < 2
      invariant fraction == d.fraction + Zeros(padding) && (padding > 0 ==> |fraction| <= 2)
    {
      fraction := fraction + "0";
      padding := padding + 1;
    }
    var integer := Trimmed(d.whole + fraction[..2]);
    ghost var trimmed: nat :| trimmed <= |d.whole + fraction[..2]|
                              && d.whole + fraction[..2] == Zeros(trimmed) + integer;
    if integer == "" {
      integer := "0";
      trimmed := trimmed - 1;
      assert d.whole + fraction[..2] == Zeros(trimmed) + integer;
    }
    var rest := TrimmedEnd(fraction[2..]);
    ghost var dropped: nat :| dropped <= |fraction[2..]| && fraction[2..] == rest + Zeros(dropped);
    PointMoves(d.whole, d.fraction, padding, integer, trimmed, rest, dropped);
    e := Decimal(d.negative, integer, rest);
    DigitsStay(d, padding, fraction, trimmed, dropped, e);
  }

  lemma DigitsStay(d: Decimal, padding: nat, fraction: string, trimmed: nat, dropped: nat, e: Decimal)
    requires AllDigits(d.whole) && AllDigits(d.fraction) && fraction == d.fraction + Zeros(padding) && |fraction| >= 2
    requires d.whole + fraction[..2] == Zeros(trimmed) + e.whole && fraction[2..] == e.fraction + Zeros(dropped)
    ensures AllDigits(e.whole) && AllDigits(e.fraction)
  {
    assert AllDigits(fraction);
    assert AllDigits(d.whole + fraction[..2]);
    assert e.whole == (d.whole + fraction[..2])[trimmed..];
    assert e.fraction == fraction[2..][..|e.fraction|];
  }
}
