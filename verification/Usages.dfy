/** Token usage of one model call, and the way usage is added over the hops of a recovered stream.

    Models `src/protocol/model_use/recovery.rs`: usage is cumulative inside one hop and additive
    between committed hops; a field a service never reported stays absent, and a sum that would
    pass 64 bits stays at the largest value. */
module Usages {
  import opened Prelude

  const U64_MAX := 0xFFFF_FFFF_FFFF_FFFF

  type u64 = x: int | 0 <= x <= U64_MAX

  datatype Usage = Usage(
    input: Option<u64>, cachedInput: Option<u64>, cacheWriteInput: Option<u64>,
    output: Option<u64>, reasoning: Option<u64>, total: Option<u64>)

  const NO_USAGE := Usage(None, None, None, None, None, None)

  function SaturatingAdd(a: u64, b: u64): u64 {
    if a + b > U64_MAX then U64_MAX else a + b
  }

  function AddField(a: Option<u64>, b: Option<u64>): Option<u64> {
    if a.Some? && b.Some? then Some(SaturatingAdd(a.value, b.value))
    else if a.Some? then a else b
  }

  function SumUsage(a: Usage, b: Usage): Usage {
    Usage(
      AddField(a.input, b.input), AddField(a.cachedInput, b.cachedInput),
      AddField(a.cacheWriteInput, b.cacheWriteInput), AddField(a.output, b.output),
      AddField(a.reasoning, b.reasoning), AddField(a.total, b.total))
  }

  /** The total of the hops of one call, in order. */
  function TotalUsage(hops: seq<Usage>): Usage {
    if hops == [] then NO_USAGE else SumUsage(TotalUsage(Front(hops)), Last(hops))
  }

  lemma AddFieldAssociates(a: Option<u64>, b: Option<u64>, c: Option<u64>)
    ensures AddField(AddField(a, b), c) == AddField(a, AddField(b, c))
  {
  }

  /** Usage sums form a monoid whose identity is the usage nobody reported, in spite of saturation. */
  lemma SumUsageMonoid(a: Usage, b: Usage, c: Usage)
    ensures SumUsage(NO_USAGE, a) == a == SumUsage(a, NO_USAGE)
    ensures SumUsage(SumUsage(a, b), c) == SumUsage(a, SumUsage(b, c))
  {
    hide SaturatingAdd;
    AddFieldAssociates(a.input, b.input, c.input);
    AddFieldAssociates(a.cachedInput, b.cachedInput, c.cachedInput);
    AddFieldAssociates(a.cacheWriteInput, b.cacheWriteInput, c.cacheWriteInput);
    AddFieldAssociates(a.output, b.output, c.output);
    AddFieldAssociates(a.reasoning, b.reasoning, c.reasoning);
    AddFieldAssociates(a.total, b.total, c.total);
  }

  /** A total may be taken over any grouping of the hops. */
  lemma {:induction false} TotalUsageAppend(xs: seq<Usage>, ys: seq<Usage>)
    ensures TotalUsage(xs + ys) == SumUsage(TotalUsage(xs), TotalUsage(ys))
    decreases |ys|
  {
    if ys == [] {
      assert xs + ys == xs;
      SumUsageMonoid(TotalUsage(xs), NO_USAGE, NO_USAGE);
    } else {
      assert Front(xs + ys) == xs + Front(ys);
      TotalUsageAppend(xs, Front(ys));
      SumUsageMonoid(TotalUsage(xs), TotalUsage(Front(ys)), Last(ys));
    }
  }
}
