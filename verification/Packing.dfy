/** The stress tool's block packer, its closed-form capacity estimate, and the waves it uploads. */
module Packing {
  import opened Types

  datatype Limits = Limits(
    maxNormalWeight: nat,
    normalBlockLength: nat,
    maxBlockTransactions: nat,
    storeWeightBase: nat,
    storeWeightPerByte: nat,
    lengthOverhead: nat)
  {
    function TxWeight(len: nat): nat { storeWeightBase + storeWeightPerByte * len }
    function TxLength(len: nat): nat { len + lengthOverhead }
  }

  // ---------------------------------------------------------------- what fits in a block

  function Weight(l: Limits, lens: seq<nat>): nat {
    if lens == [] then 0 else Weight(l, lens[..|lens| - 1]) + l.TxWeight(lens[|lens| - 1])
  }

  function Length(l: Limits, lens: seq<nat>): nat {
    if lens == [] then 0 else Length(l, lens[..|lens| - 1]) + l.TxLength(lens[|lens| - 1])
  }

  function Sum(lens: seq<nat>): nat {
    if lens == [] then 0 else Sum(lens[..|lens| - 1]) + lens[|lens| - 1]
  }

  /** A run weighs and measures a fixed amount per transaction plus an amount per byte. */
  lemma {:induction false} RunCosts(l: Limits, lens: seq<nat>)
    ensures Weight(l, lens) == |lens| * l.storeWeightBase + l.storeWeightPerByte * Sum(lens)
    ensures Length(l, lens) == |lens| * l.lengthOverhead + Sum(lens)
  {
    if lens != [] {
      var n, last := |lens| - 1, lens[|lens| - 1];
      RunCosts(l, lens[..n]);
      assert (n + 1) * l.storeWeightBase == n * l.storeWeightBase + l.storeWeightBase;
      assert (n + 1) * l.lengthOverhead == n * l.lengthOverhead + l.lengthOverhead;
      assert l.storeWeightPerByte * (Sum(lens[..n]) + last)
          == l.storeWeightPerByte * Sum(lens[..n]) + l.storeWeightPerByte * last;
    }
  }

  /** A run of payloads fits one block: weight, length and count are all within the limits. */
  predicate Fits(l: Limits, lens: seq<nat>) {
    && Weight(l, lens) <= l.maxNormalWeight
    && Length(l, lens) <= l.normalBlockLength
    && |lens| <= l.maxBlockTransactions
  }

  lemma {:induction false} PrefixFits(l: Limits, lens: seq<nat>, k: nat)
    requires k <= |lens| && Fits(l, lens)
    ensures Fits(l, lens[..k])
  {
    if k < |lens| {
      PrefixFits(l, lens[..|lens| - 1], k);
      assert lens[..|lens| - 1][..k] == lens[..k];
    } else {
      assert lens[..k] == lens;
    }
  }

  lemma {:induction false} SuffixIsLighter(l: Limits, lens: seq<nat>, k: nat)
    requires k <= |lens|
    ensures Weight(l, lens[k..]) <= Weight(l, lens) && Length(l, lens[k..]) <= Length(l, lens)
  {
    if k < |lens| {
      SuffixIsLighter(l, lens[..|lens| - 1], k);
      assert lens[k..][..|lens| - k - 1] == lens[..|lens| - 1][k..];
    }
  }

  /** Any contiguous part of a fitting run fits. */
  lemma PartFits(l: Limits, lens: seq<nat>, a: nat, b: nat, c: nat, d: nat)
    requires a <= c <= d <= b <= |lens| && Fits(l, lens[a..b])
    ensures Fits(l, lens[c..d])
  {
    PrefixFits(l, lens[a..b], d - a);
    assert lens[a..b][..d - a] == lens[a..d];
    SuffixIsLighter(l, lens[a..d], c - a);
    assert lens[a..d][c - a..] == lens[c..d];
  }

  /** `compute_batch_end`: `end` is where the longest fitting run from `from` stops. */
  ghost predicate IsBatchEnd(l: Limits, lens: seq<nat>, from: nat, end: nat)
    requires from <= |lens|
  {
    && from <= end <= |lens|
    && forall j :: from <= j <= |lens| ==> (Fits(l, lens[from..j]) <==> j <= end)
  }

  method ComputeBatchEnd(l: Limits, lens: seq<nat>, from: nat) returns (idx: nat)
    ensures from <= |lens| ==> IsBatchEnd(l, lens, from, idx)
    ensures |lens| < from ==> idx == from
  {
    var weight, length, count := 0, 0, 0;
    idx := from;
    while idx < |lens|
      invariant from <= idx && (from <= |lens| ==> idx <= |lens|) && (|lens| < from ==> idx == from)
      invariant from <= |lens| ==>
        weight == Weight(l, lens[from..idx]) && length == Length(l, lens[from..idx]) && count == idx - from
      invariant from <= |lens| ==> Fits(l, lens[from..idx])
    {
      var txWeight, txLength := l.TxWeight(lens[idx]), l.TxLength(lens[idx]);
      assert lens[from..idx + 1][..idx - from] == lens[from..idx];
      if weight + txWeight > l.maxNormalWeight { break; }
      if length + txLength > l.normalBlockLength { break; }
      if count + 1 > l.maxBlockTransactions { break; }
      weight, length, count, idx := weight + txWeight, length + txLength, count + 1, idx + 1;
    }
    if from <= |lens| {
      LongestRun(l, lens, from, idx);
    }
  }

  lemma LongestRun(l: Limits, lens: seq<nat>, from: nat, end: nat)
    requires from <= end <= |lens| && Fits(l, lens[from..end])
    requires end == |lens| || !Fits(l, lens[from..end + 1])
    ensures IsBatchEnd(l, lens, from, end)
  {
    forall j | from <= j <= |lens|
      ensures Fits(l, lens[from..j]) <==> j <= end
    {
      if j <= end {
        PartFits(l, lens, from, end, from, j);
      } else if Fits(l, lens[from..j]) {
        PartFits(l, lens, from, j, from, end + 1);
      }
    }
  }

  /** A later start never ends earlier. */
  lemma BatchEndIsMonotone(l: Limits, lens: seq<nat>, f: nat, g: nat, endF: nat, endG: nat)
    requires f <= g <= |lens| && IsBatchEnd(l, lens, f, endF) && IsBatchEnd(l, lens, g, endG)
    ensures endF <= endG
  {
    if g <= endF {
      assert Fits(l, lens[f..endF]);
      PartFits(l, lens, f, endF, g, endF);
    }
  }

  // ---------------------------------------------------------------- fewest batches

  /** `cuts` splits the payloads in order into fitting batches, from index `from` to the end. */
  ghost predicate Covers(l: Limits, lens: seq<nat>, from: nat, cuts: seq<nat>)
    requires from <= |lens|
    decreases |cuts|
  {
    if cuts == [] then from == |lens|
    else from <= cuts[0] <= |lens| && Fits(l, lens[from..cuts[0]]) && Covers(l, lens, cuts[0], cuts[1..])
  }

  /** Every batch of `cuts` is as long as it can be. */
  ghost predicate Greedy(l: Limits, lens: seq<nat>, from: nat, cuts: seq<nat>)
    requires from <= |lens|
    decreases |cuts|
  {
    if cuts == [] then from == |lens|
    else from < |lens| && IsBatchEnd(l, lens, from, cuts[0]) && Greedy(l, lens, cuts[0], cuts[1..])
  }

  ghost predicate EachFitsAlone(l: Limits, lens: seq<nat>) {
    forall i :: 0 <= i < |lens| ==> Fits(l, [lens[i]])
  }

  /** Greedy cutting that reaches the end covers everything. */
  lemma {:induction false} GreedyCovers(l: Limits, lens: seq<nat>, from: nat, cuts: seq<nat>)
    requires from <= |lens| && Greedy(l, lens, from, cuts)
    ensures Covers(l, lens, from, cuts)
    decreases |cuts|
  {
    if cuts != [] {
      assert Fits(l, lens[from..cuts[0]]);
      GreedyCovers(l, lens, cuts[0], cuts[1..]);
    }
  }

  /** No in-order split from an earlier start uses fewer batches than greedy cutting. */
  lemma {:induction false} GreedyIsFewest(l: Limits, lens: seq<nat>, g: nat, greedy: seq<nat>, c: nat, cuts: seq<nat>)
    requires c <= g <= |lens| && Greedy(l, lens, g, greedy) && Covers(l, lens, c, cuts)
    ensures |greedy| <= |cuts|
    decreases |cuts|
  {
    if greedy != [] {
      if g <= cuts[0] { PartFits(l, lens, c, cuts[0], g, cuts[0]); }
      GreedyIsFewest(l, lens, greedy[0], greedy[1..], cuts[0], cuts[1..]);
    }
  }

  // ---------------------------------------------------------------- upload waves

  /** A wave signs the nonces from `first` up to but not including `next`. */
  datatype Wave = Wave(first: nat, next: nat)

  /** A nonce, and an index into the payloads, are `u64`. */
  type Nonce = n: nat | n <= U64_MAX

  /** Unchecked `u64` subtraction. */
  function WrapSub(a: Nonce, b: Nonce): Nonce {
    if a < b then a + U64_MAX + 1 - b else a - b
  }

  /** Unchecked `u64` addition. */
  function WrapAdd(a: Nonce, b: Nonce): Nonce {
    if a + b > U64_MAX then a + b - U64_MAX - 1 else a + b
  }

  /** The index of an observed nonce lies within the payloads exactly when the nonce lies within the upload. */
  lemma IndexInRangeIff(start: Nonce, best: Nonce, len: nat)
    requires start + len <= U64_MAX
    ensures WrapSub(best, start) <= len <==> start <= best <= start + len
  {
  }

  /** A reorg below the start nonce: the index wraps far past the three payloads. */
  lemma ReorgBelowStart()
    ensures WrapSub(4, 5) == U64_MAX && WrapSub(4, 5) > 3
  {
  }

  /** The observations up to the first one below the start nonce. */
  function Sound(observed: seq<Nonce>, start: Nonce): seq<Nonce> {
    if observed == [] || observed[0] < start then [] else [observed[0]] + Sound(observed[1..], start)
  }

  lemma {:induction false} SoundPrefix(observed: seq<Nonce>, start: Nonce, k: nat)
    requires k <= |observed| && forall i :: 0 <= i < k ==> start <= observed[i]
    requires k < |observed| ==> observed[k] < start
    ensures Sound(observed, start) == observed[..k]
    decreases k
  {
    if k > 0 {
      SoundPrefix(observed[1..], start, k - 1);
      assert observed[..k] == [observed[0]] + observed[1..][..k - 1];
    }
  }

  /** The observed nonces at which something is left to submit. */
  function Unfinished(observed: seq<Nonce>, final: nat): seq<Nonce> {
    if observed == [] then []
    else
      var rest := Unfinished(observed[..|observed| - 1], final);
      if observed[|observed| - 1] < final then rest + [observed[|observed| - 1]] else rest
  }

  function Firsts(waves: seq<Wave>): seq<nat> {
    seq(|waves|, i requires 0 <= i < |waves| => waves[i].first)
  }

  /** A wave within the upload that is as long as a block allows. */
  ghost predicate FullWave(l: Limits, lens: seq<nat>, start: nat, w: Wave) {
    && start <= w.first <= start + |lens| && start <= w.next
    && IsBatchEnd(l, lens, w.first - start, w.next - start)
  }

  ghost predicate FullWaves(l: Limits, lens: seq<nat>, start: nat, waves: seq<Wave>) {
    forall w :: w in waves ==> FullWave(l, lens, start, w)
  }

  /** One wave from an observed nonce; `None` is a panic on a payload slice out of range. */
  method SignWave(l: Limits, lens: seq<nat>, start: Nonce, bestNonce: Nonce) returns (wave: Option<Wave>)
    requires start + |lens| <= U64_MAX && bestNonce <= start + |lens|
    ensures wave.None? <==> bestNonce < start
    ensures wave.Some? ==> wave.value.first == bestNonce && FullWave(l, lens, start, wave.value)
  {
    IndexInRangeIff(start, bestNonce, |lens|);
    var fromIdx := WrapSub(bestNonce, start);
    var endIdx := ComputeBatchEnd(l, lens, fromIdx);
    var feedTo := WrapAdd(start, endIdx);
    var toIdx := WrapSub(feedTo, start);
    if !(fromIdx <= toIdx <= |lens|) { return None; }
    return Some(Wave(bestNonce, feedTo));
  }

  /**
   The upload loop: an initial wave from the start nonce, then on every best block it reads the
   account nonce, which a reorg may have moved back, and feeds one block's worth of payloads from
   there. It panics exactly at a nonce below the start nonce.
   */
  method FeedPool(l: Limits, lens: seq<nat>, start: Nonce, observed: seq<Nonce>)
    returns (waves: seq<Wave>, panics: bool)
    requires start + |lens| <= U64_MAX
    ensures panics <==> exists i :: 0 <= i < |observed| && observed[i] < start
    ensures Firsts(waves) == [start] + Unfinished(Sound(observed, start), start + |lens|)
    ensures FullWaves(l, lens, start, waves)
  {
    var expectedFinal := start + |lens|;
    var initialEnd := ComputeBatchEnd(l, lens, 0);
    waves, panics := [Wave(start, start + initialEnd)], false;
    for i := 0 to |observed|
      invariant forall j :: 0 <= j < i ==> start <= observed[j]
      invariant !panics && Firsts(waves) == [start] + Unfinished(observed[..i], expectedFinal)
      invariant FullWaves(l, lens, start, waves)
    {
      assert observed[..i + 1][..i] == observed[..i];
      if observed[i] >= expectedFinal { continue; }
      var wave := SignWave(l, lens, start, observed[i]);
      if wave.None? {
        SoundPrefix(observed, start, i);
        return waves, true;
      }
      FirstsSnoc(waves, wave.value);
      waves := waves + [wave.value];
    }
    SoundPrefix(observed, start, |observed|);
    assert observed[..|observed|] == observed;
  }

  lemma FirstsSnoc(waves: seq<Wave>, w: Wave)
    ensures Firsts(waves + [w]) == Firsts(waves) + [w.first]
  {
  }

  /** Waves each confirmed in full before the next, from `nonce` to the end of the upload. */
  ghost predicate Confirmed(l: Limits, lens: seq<nat>, start: nat, nonce: nat, waves: seq<Wave>)
    decreases |waves|
  {
    if waves == [] then nonce == start + |lens|
    else
      && nonce < start + |lens| && waves[0].first == nonce
      && FullWave(l, lens, start, waves[0])
      && Confirmed(l, lens, start, waves[0].next, waves[1..])
  }

  /** Where the waves cut the payloads. */
  ghost function Ends(start: nat, waves: seq<Wave>): seq<nat> {
    if waves == [] then [] else [SatSub(waves[0].next, start)] + Ends(start, waves[1..])
  }

  /** Every wave starts, short of the end, where the one before ended, and the last one ends the upload. */
  ghost predicate Chained(waves: seq<Wave>, final: nat)
    decreases |waves|
  {
    && waves != [] && waves[0].first < final
    && if |waves| == 1 then waves[0].next == final
       else waves[1].first == waves[0].next && Chained(waves[1..], final)
  }

  /** The waves of `FeedPool` are confirmed in full when each nonce it reads is the end of its last wave. */
  lemma {:induction false} ChainedIsConfirmed(l: Limits, lens: seq<nat>, start: nat, waves: seq<Wave>)
    requires FullWaves(l, lens, start, waves) && Chained(waves, start + |lens|)
    ensures Confirmed(l, lens, start, waves[0].first, waves)
    decreases |waves|
  {
    assert waves[0] in waves;
    if |waves| > 1 {
      ChainedIsConfirmed(l, lens, start, waves[1..]);
    } else {
      assert waves[1..] == [];
    }
  }

  lemma GreedyCons(l: Limits, lens: seq<nat>, from: nat, end: nat, rest: seq<nat>)
    requires from < |lens| && IsBatchEnd(l, lens, from, end) && Greedy(l, lens, end, rest)
    ensures Greedy(l, lens, from, [end] + rest)
  {
    assert ([end] + rest)[1..] == rest;
  }

  lemma {:induction false} ConfirmedIsGreedy(l: Limits, lens: seq<nat>, start: nat, nonce: nat, waves: seq<Wave>)
    requires start <= nonce <= start + |lens| && Confirmed(l, lens, start, nonce, waves)
    ensures Greedy(l, lens, nonce - start, Ends(start, waves)) && |Ends(start, waves)| == |waves|
    decreases |waves|
  {
    if waves != [] {
      var end, rest := waves[0].next - start, Ends(start, waves[1..]);
      ConfirmedIsGreedy(l, lens, start, waves[0].next, waves[1..]);
      GreedyCons(l, lens, nonce - start, end, rest);
    }
  }

  /** Waves confirmed in full upload everything, and no in-order split into blocks needs fewer. */
  lemma ConfirmedWavesAreFewest(l: Limits, lens: seq<nat>, start: nat, waves: seq<Wave>, other: seq<nat>)
    requires Confirmed(l, lens, start, start, waves) && Covers(l, lens, 0, other)
    ensures Covers(l, lens, 0, Ends(start, waves)) && |waves| <= |other|
  {
    ConfirmedIsGreedy(l, lens, start, start, waves);
    GreedyCovers(l, lens, 0, Ends(start, waves));
    GreedyIsFewest(l, lens, 0, Ends(start, waves), 0, other);
  }

  /** What `FeedPool` sends is the fewest blocks possible when each nonce it reads is the end of its last wave. */
  lemma FedWavesAreFewest(l: Limits, lens: seq<nat>, start: nat, waves: seq<Wave>, other: seq<nat>)
    requires FullWaves(l, lens, start, waves) && Chained(waves, start + |lens|) && waves[0].first == start
    requires Covers(l, lens, 0, other)
    ensures |waves| <= |other| && Covers(l, lens, 0, Ends(start, waves))
  {
    ChainedIsConfirmed(l, lens, start, waves);
    ConfirmedWavesAreFewest(l, lens, start, waves, other);
  }

  /** A wave makes progress exactly when its first payload fits a block alone. */
  lemma WaveProgressesIff(l: Limits, lens: seq<nat>, from: nat, end: nat)
    requires from < |lens| && IsBatchEnd(l, lens, from, end)
    ensures from < end <==> Fits(l, [lens[from]])
  {
    assert lens[from..from + 1] == [lens[from]];
  }

  /** Fully confirmed waves reach the end whenever each payload fits alone. */
  lemma {:induction false} ConfirmedWavesExist(l: Limits, lens: seq<nat>, start: nat, nonce: nat)
    returns (waves: seq<Wave>)
    requires start <= nonce <= start + |lens| && EachFitsAlone(l, lens)
    ensures Confirmed(l, lens, start, nonce, waves)
    decreases start + |lens| - nonce
  {
    var from := nonce - start;
    if from == |lens| {
      waves := [];
    } else {
      assert lens[from..from + 1] == [lens[from]];
      var end := BatchEndExists(l, lens, from, from + 1);
      WaveProgressesIff(l, lens, from, end);
      var rest := ConfirmedWavesExist(l, lens, start, start + end);
      waves := [Wave(nonce, start + end)] + rest;
      assert waves[1..] == rest;
    }
  }

  lemma {:induction false} BatchEndExists(l: Limits, lens: seq<nat>, from: nat, at: nat) returns (end: nat)
    requires from < at <= |lens| && Fits(l, lens[from..at])
    ensures IsBatchEnd(l, lens, from, end)
    decreases |lens| - at
  {
    if at == |lens| || !Fits(l, lens[from..at + 1]) {
      LongestRun(l, lens, from, at);
      end := at;
    } else {
      end := BatchEndExists(l, lens, from, at + 1);
    }
  }

  // ---------------------------------------------------------------- the closed form

  datatype Bottleneck = MaxBlockTxs | BlockLength | BlockWeight

  datatype Theoretical = Theoretical(weightCap: nat, lengthCap: nat, countCap: nat, effectiveCap: nat,
                                     bottleneck: Bottleneck)

  function Min(a: nat, b: nat): nat { if a < b then a else b }

  /** `compute_theoretical_limits`; dividing by a zero per-transaction cost is a caller's error. */
  function TheoreticalLimits(l: Limits, len: nat): Theoretical
    requires 0 < l.TxWeight(len) && 0 < l.TxLength(len)
  {
    var weightCap, lengthCap, countCap :=
      l.maxNormalWeight / l.TxWeight(len), l.normalBlockLength / l.TxLength(len), l.maxBlockTransactions;
    var effectiveCap := Min(Min(weightCap, lengthCap), countCap);
    Theoretical(weightCap, lengthCap, countCap, effectiveCap,
                if effectiveCap == countCap then MaxBlockTxs
                else if effectiveCap == lengthCap then BlockLength else BlockWeight)
  }

  lemma {:induction false} EqualPayloads(l: Limits, lens: seq<nat>, len: nat)
    requires forall i :: 0 <= i < |lens| ==> lens[i] == len
    ensures Weight(l, lens) == |lens| * l.TxWeight(len) && Length(l, lens) == |lens| * l.TxLength(len)
  {
    if lens != [] {
      EqualPayloads(l, lens[..|lens| - 1], len);
      assert |lens| * l.TxWeight(len) == (|lens| - 1) * l.TxWeight(len) + l.TxWeight(len);
      assert |lens| * l.TxLength(len) == (|lens| - 1) * l.TxLength(len) + l.TxLength(len);
    }
  }

  /** Multiples of `d` up to `n` are those up to the quotient. */
  lemma MultipleFits(k: nat, d: nat, n: nat)
    requires 0 < d
    ensures k * d <= n <==> k <= n / d
  {
    var q, r := n / d, n % d;
    assert n == q * d + r;
    if k <= q {
      assert k * d <= q * d;
    } else {
      assert (q + 1) * d <= k * d;
    }
  }

  /** For equal payloads the looped packer stops exactly where the closed form says. */
  lemma ClosedFormAgrees(l: Limits, lens: seq<nat>, from: nat, end: nat, len: nat)
    requires 0 < l.TxWeight(len) && 0 < l.TxLength(len)
    requires from <= |lens| && IsBatchEnd(l, lens, from, end)
    requires forall i :: 0 <= i < |lens| ==> lens[i] == len
    ensures end - from == Min(|lens| - from, TheoreticalLimits(l, len).effectiveCap)
  {
    var cap := TheoreticalLimits(l, len).effectiveCap;
    var n := Min(|lens| - from, cap);
    FitsIffWithinCap(l, lens[from..from + n], len);
    assert Fits(l, lens[from..from + n]);
    if from + n < |lens| {
      FitsIffWithinCap(l, lens[from..from + n + 1], len);
      assert !Fits(l, lens[from..from + n + 1]);
    }
  }

  lemma FitsIffWithinCap(l: Limits, lens: seq<nat>, len: nat)
    requires 0 < l.TxWeight(len) && 0 < l.TxLength(len)
    requires forall i :: 0 <= i < |lens| ==> lens[i] == len
    ensures Fits(l, lens) <==> |lens| <= TheoreticalLimits(l, len).effectiveCap
  {
    EqualPayloads(l, lens, len);
    MultipleFits(|lens|, l.TxWeight(len), l.maxNormalWeight);
    MultipleFits(|lens|, l.TxLength(len), l.normalBlockLength);
  }

  /** The named bottleneck is a limit that one more payload would break. */
  lemma BottleneckBinds(l: Limits, len: nat)
    requires 0 < l.TxWeight(len) && 0 < l.TxLength(len)
    ensures
      var t := TheoreticalLimits(l, len);
      var n := t.effectiveCap + 1;
      match t.bottleneck
      case MaxBlockTxs => n > l.maxBlockTransactions
      case BlockLength => n * l.TxLength(len) > l.normalBlockLength
      case BlockWeight => n * l.TxWeight(len) > l.maxNormalWeight
  {
  }

  /** Each cap is the largest count within its limit; the bottleneck is the first least of count, length and weight. */
  lemma BottleneckIs(l: Limits, len: nat, k: nat)
    requires 0 < l.TxWeight(len) && 0 < l.TxLength(len)
    ensures
      var t, most := TheoreticalLimits(l, len), l.maxBlockTransactions;
      && (k <= t.weightCap <==> k * l.TxWeight(len) <= l.maxNormalWeight)
      && (k <= t.lengthCap <==> k * l.TxLength(len) <= l.normalBlockLength)
      && t.countCap == most
      && (t.bottleneck.MaxBlockTxs? <==>
            most * l.TxWeight(len) <= l.maxNormalWeight && most * l.TxLength(len) <= l.normalBlockLength)
      && (t.bottleneck.BlockLength? <==>
            !t.bottleneck.MaxBlockTxs? && t.lengthCap <= most && t.lengthCap * l.TxWeight(len) <= l.maxNormalWeight)
  {
    var t := TheoreticalLimits(l, len);
    MultipleFits(k, l.TxWeight(len), l.maxNormalWeight);
    MultipleFits(k, l.TxLength(len), l.normalBlockLength);
    MultipleFits(l.maxBlockTransactions, l.TxWeight(len), l.maxNormalWeight);
    MultipleFits(l.maxBlockTransactions, l.TxLength(len), l.normalBlockLength);
    MultipleFits(t.lengthCap, l.TxWeight(len), l.maxNormalWeight);
  }
}
