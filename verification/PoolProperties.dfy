/** What the buffer pool keeps across growth, eviction and shrinking. */
module PoolProperties {
  import opened Prelude
  import opened Arithmetic
  import opened SeqNumbers
  import opened Fragmentation
  import opened Reassembly
  import opened DefragPool
  import opened RxModel

  /** The index found lies in the pool and names the packet's own buffer or a free one,
      except for one case. */
  lemma IndexInPool(h: RxState, p: Params, s: SeqNum, canGrow: bool)
    requires h.bufs != []
    ensures var (h', i) := FindBuf(h, p, s, canGrow);
            if OutOfRange(h, p, s, canGrow) then i == Some(2) && |h'.bufs| == 2
            else i.Some? ==>
              && i.value < |h'.bufs|
              && var b := h'.bufs[i.value]; !b.inUse || (b.pcktSeq == s && Found(h.bufs, s) == Some(b))
  {
    if |h.bufs| == 1 {
      OneBuffer(h, p, s, canGrow);
    } else {
      ManyBuffers(h, p, s, canGrow);
    }
  }

  /** The pool is one buffer, within reach and held by another packet, the number was not
      given a buffer before, and the pool can grow. */
  predicate OutOfRange(h: RxState, p: Params, s: SeqNum, canGrow: bool)
    requires h.bufs != []
  {
    var rx := if h.rx == 0 then s else h.rx;
    var b := h.bufs[0];
    && |h.bufs| == 1 && b.inUse && b.pcktSeq != s && !TooOld(rx, Reach(p, 1), b.pcktSeq)
    && !(InRing(rx, s) && h.seenDefrag[s % 4096])
    && p.maxBufs > 1 && canGrow
  }

  lemma OneBuffer(h: RxState, p: Params, s: SeqNum, canGrow: bool)
    requires |h.bufs| == 1
    ensures var (h', i) := FindBuf(h, p, s, canGrow);
            if OutOfRange(h, p, s, canGrow) then i == Some(2) && |h'.bufs| == 2
            else i.Some? ==>
              && i.value < |h'.bufs|
              && var b := h'.bufs[i.value]; !b.inUse || (b.pcktSeq == s && Found(h.bufs, s) == Some(b))
  {
    if FirstMatch(h.bufs, s) == 1 {
      assert !Match(s)(h.bufs[0]);
      var h1 := Lookup(h, p, s, true, false).0;
      assert |h1.bufs| == 1;
      assert FirstFree(h1.bufs) == if h1.bufs[0].inUse then 1 else 0;
    }
  }

  lemma ManyBuffers(h: RxState, p: Params, s: SeqNum, canGrow: bool)
    requires |h.bufs| >= 2
    ensures var (h', i) := FindBuf(h, p, s, canGrow);
            i.Some? ==>
              && i.value < |h'.bufs|
              && var b := h'.bufs[i.value]; !b.inUse || (b.pcktSeq == s && Found(h.bufs, s) == Some(b))
  {
  }

  ghost predicate IndexAlwaysInPool(p: Params, n: nat)
    requires n > 0
  {
    forall h: RxState, s: SeqNum, canGrow: bool | |h.bufs| == n ::
      var (h', i) := FindBuf(h, p, s, canGrow); i.Some? ==> i.value < |h'.bufs|
  }

  /** For a pool of `n` buffers the index is always in range if and only if there are two
      at least or the pool can never grow. */
  lemma InPoolIff(p: Params, n: nat)
    requires n > 0
    ensures IndexAlwaysInPool(p, n) <==> n >= 2 || p.maxBufs <= 1
  {
    if n >= 2 || p.maxBufs <= 1 {
      forall h: RxState, s: SeqNum, canGrow: bool | |h.bufs| == n
        ensures var (h', i) := FindBuf(h, p, s, canGrow); i.Some? ==> i.value < |h'.bufs|
      {
        IndexInPool(h, p, s, canGrow);
      }
    } else {
      var b := Zeroed().(inUse := true, pcktSeq := 1);
      var h := Initial(p).(rx := 1, bufs := [b]);
      IndexInPool(h, p, 2, true);
    }
  }

  /** A host that starts with one buffer gets there with its second packet: the first
      fragments of packets 1 and 2. */
  lemma SecondPacketOutOfRange(p: Params, m: DataMsg, now: nat)
    requires p.minBufs == 1 && p.maxBufs > 1
    requires m.seqNum == 1 && m.fragNum == 2 && m.fragSeq == 1 && |m.body| <= 1000
    ensures var h1 := Lookup(Initial(p), p, 1, false, false).0;
            var (h2, i) := FindBuf(h1, p, 1, true);
            && i == Some(0) && |h2.bufs| == 1
            && Fits(Open(h2.bufs[0], 1, now), m.body, 2, 1)
            && var h3 := h2.(bufs := [Absorb(h2.bufs[0], m, now).0]);
               OutOfRange(Lookup(h3, p, 2, false, false).0, p, 2, true)
  {
    var h1 := Lookup(Initial(p), p, 1, false, false).0;
    assert h1.bufs == [Zeroed()] && h1.rx == 1;
    var h2 := FindBuf(h1, p, 1, true).0;
    assert h2.bufs == [Zeroed()] && h2.rx == 1;
    assert Fits(Open(h2.bufs[0], 1, now), m.body, 2, 1);
    var b := Absorb(h2.bufs[0], m, now).0;
    assert b.inUse && b.pcktSeq == 1;
    var h3 := h2.(bufs := [b]);
    var h4 := Lookup(h3, p, 2, false, false).0;
    assert h4.rx == 2 && h4.bufs == [b];
    assert h4.seenDefrag[2] == false;
  }

  /** Allocating a buffer changes at most the one handed out: every other packet
      keeps its buffer, and the packet given up is the one idle for longest. */
  lemma AllocateSparesOthers(h: RxState, p: Params, canGrow: bool)
    requires Roomy(h)
    ensures var (h', j) := Allocate(h, p, canGrow);
            && (forall k :: 0 <= k < |h.bufs| && k != j ==> h'.bufs[k] == h.bufs[k])
            && (j < |h.bufs| && h.bufs[j].inUse ==>
                  && (forall k :: 0 <= k < |h.bufs| ==> h.bufs[k].inUse)
                  && (canGrow ==> |h.bufs| >= p.maxBufs)
                  && (forall k :: 0 <= k < |h.bufs| ==> h.bufs[j].lastUpdate <= h.bufs[k].lastUpdate))
  {
  }

  // ----- shrinking

  /** The largest latest sample that does not forbid shrinking when all others are 0. */
  function Limit(p: Params): int {
    if p.average then p.samples * (p.threshold + 1) - 1 else p.threshold
  }

  /** A pool of `n` buffers is not halved while one buffer more than half is in use. */
  predicate Careful(p: Params, n: nat) {
    n <= p.minBufs || Limit(p) < Percent(n / 2 + 1, n)
  }

  lemma {:induction false} SumAtLeast(t: seq<nat>, i: nat)
    requires i < |t|
    ensures t[i] <= Sum(t)
  {
    if i < |t| - 1 {
      SumAtLeast(t[..|t| - 1], i);
    }
  }

  lemma AboveThreshold(sum: nat, samples: nat, threshold: nat)
    requires samples >= 1
    ensures sum / samples > threshold <==> sum > samples * (threshold + 1) - 1
  {
    var q := sum / samples;
    assert q * samples <= sum < q * samples + samples;
    if q > threshold {
      MulMono(threshold + 1, q, samples);
    } else {
      MulMono(q + 1, threshold + 1, samples);
      Distribute(q, 1, samples);
    }
  }

  /** A sample above the limit forbids shrinking, whatever the others are. */
  lemma BusyAbove(h: RxState, p: Params)
    requires Accepted(p) && GoodUsage(p, h.usage) && h.bufs != []
    requires Limit(p) < Percent(|InUse(h.bufs)|, |h.bufs|)
    ensures Busy(p, Sampled(h, p).table)
  {
    var t := Sampled(h, p).table;
    assert t[h.usage.index] == Percent(|InUse(h.bufs)|, |h.bufs|);
    if p.average {
      SumAtLeast(t[..p.samples], h.usage.index);
      AboveThreshold(Sum(t[..p.samples]), p.samples, p.threshold);
    }
  }

  /** A sample up to the limit does not, after a quiet time. */
  lemma QuietBelow(h: RxState, p: Params)
    requires Accepted(p) && GoodUsage(p, h.usage) && h.bufs != []
    requires Percent(|InUse(h.bufs)|, |h.bufs|) <= Limit(p)
    requires forall k :: 0 <= k < |h.usage.table| ==> h.usage.table[k] == 0
    ensures !Busy(p, Sampled(h, p).table)
  {
    var t := Sampled(h, p).table;
    if p.average {
      SumOfOne(t[..p.samples], h.usage.index);
      AboveThreshold(Sum(t[..p.samples]), p.samples, p.threshold);
    }
  }

  lemma {:induction false} SumOfOne(t: seq<nat>, i: nat)
    requires i < |t| && forall k :: 0 <= k < |t| && k != i ==> t[k] == 0
    ensures Sum(t) == t[i]
  {
    var front := t[..|t| - 1];
    if i == |t| - 1 {
      SumOfZeros(front);
    } else {
      SumOfOne(front, i);
    }
  }

  lemma {:induction false} SumOfZeros(t: seq<nat>)
    requires forall k :: 0 <= k < |t| ==> t[k] == 0
    ensures Sum(t) == 0
  {
    if t != [] {
      SumOfZeros(t[..|t| - 1]);
    }
  }

  lemma PercentMono(a: nat, b: nat, n: nat)
    requires n > 0 && a <= b
    ensures Percent(a, n) <= Percent(b, n)
  {
    PercentBelow(b, n, Percent(b, n));
    PercentBelow(a, n, Percent(b, n));
  }

  /** Housekeeping of a careful pool loses no packet in reassembly and revives none:
      every scan finds what it found. */
  lemma TickLosesNothing(h: RxState, p: Params, canShrink: bool, s: SeqNum)
    requires Accepted(p) && GoodSize(p, |h.bufs|) && GoodUsage(p, h.usage) && Careful(p, |h.bufs|)
    ensures Found(Tick(h, p, canShrink).bufs, s) == Found(h.bufs, s)
  {
    var n := |h.bufs|;
    if MayShrink(h, p) {
      if |InUse(h.bufs)| > n / 2 {
        PercentMono(n / 2 + 1, |InUse(h.bufs)|, n);
        BusyAbove(h, p);
        assert false;
      }
      ShrinkLosesNothing(h.bufs, n / 2, s);
      ShrinkLosesNothing(h.bufs, n, s);
      assert Compact(h.bufs)[..n] == Compact(h.bufs);
    }
  }

  /** No state of a pool of `n` buffers loses anything to housekeeping. */
  ghost predicate SafeSize(p: Params, n: nat)
    requires n > 0
  {
    forall h: RxState, canShrink: bool, s: SeqNum | |h.bufs| == n && GoodUsage(p, h.usage) ::
      Found(Tick(h, p, canShrink).bufs, s) == Found(h.bufs, s)
  }

  /** The first `k` buffers hold the packets with the numbers after `from`, in order. */
  ghost predicate InOrder(bufs: seq<DefragBuf>, from: int, k: nat) {
    forall i :: 0 <= i < |bufs| ==> bufs[i].inUse == (i < k) && (i < k ==> bufs[i].pcktSeq == from + 1 + i)
  }

  lemma {:induction false} InUsePrefix(bufs: seq<DefragBuf>, used: nat)
    requires used <= |bufs| && forall i :: 0 <= i < |bufs| ==> bufs[i].inUse == (i < used)
    ensures InUse(bufs) == bufs[..used]
  {
    if bufs != [] {
      var front := bufs[..|bufs| - 1];
      InUsePrefix(front, if used == |bufs| then used - 1 else used);
      if used < |bufs| {
        assert front[..used] == bufs[..used];
      } else {
        assert front[..used - 1] + [bufs[used - 1]] == bufs[..used];
      }
    }
  }

  lemma {:induction false} InOrderInUse(bufs: seq<DefragBuf>, from: int, k: nat)
    requires InOrder(bufs, from, k) && k <= |bufs|
    ensures |InUse(bufs)| == k
    ensures forall i :: 0 <= i < k ==> InUse(bufs)[i].pcktSeq == from + 1 + i
  {
    InUsePrefix(bufs, k);
  }

  /** In a pool that is not careful, half and one more in use after a quiet time are
      halved, and the last of them is lost. */
  lemma CrowdedLoses(h: RxState, p: Params, from: int)
    requires Accepted(p) && GoodUsage(p, h.usage) && h.usage.samples >= p.samples
    requires forall k :: 0 <= k < |h.usage.table| ==> h.usage.table[k] == 0
    requires GoodSize(p, |h.bufs|) && !Careful(p, |h.bufs|) && InOrder(h.bufs, from, |h.bufs| / 2 + 1)
    ensures 0 <= from + |h.bufs| / 2 + 1 <= 65535
    ensures var s := from + |h.bufs| / 2 + 1;
            Found(h.bufs, s).Some? && Found(Tick(h, p, true).bufs, s) == None
  {
    var n := |h.bufs|;
    NextPower(p.minBufs, n);
    assert h.bufs[n / 2].pcktSeq == from + n / 2 + 1;
    InOrderInUse(h.bufs, from, n / 2 + 1);
    QuietBelow(h, p);
    TickHalves(h, p);
    LastIsLost(h.bufs, from, n / 2);
  }

  lemma TickHalves(h: RxState, p: Params)
    requires GoodUsage(p, h.usage) && h.bufs != [] && MayShrink(h, p)
    ensures Tick(h, p, true).bufs == Compact(h.bufs)[..|h.bufs| / 2]
  {
  }

  lemma LastIsLost(bufs: seq<DefragBuf>, from: int, k: nat)
    requires InOrder(bufs, from, k + 1) && k < |bufs| && 0 <= from + k + 1 <= 65535
    ensures Found(bufs, from + k + 1).Some? && Found(Compact(bufs)[..k], from + k + 1) == None
  {
    InOrderInUse(bufs, from, k + 1);
    ShrinkTooFarLoses(bufs, k);
  }

  /** Housekeeping is safe in every state of a pool if and only if the pool is
      careful. */
  lemma SafeIffCareful(p: Params, n: nat)
    requires Accepted(p) && GoodSize(p, n) && n > 0
    ensures SafeSize(p, n) <==> Careful(p, n)
  {
    if Careful(p, n) {
      forall h: RxState, canShrink: bool, s: SeqNum | |h.bufs| == n && GoodUsage(p, h.usage)
        ensures Found(Tick(h, p, canShrink).bufs, s) == Found(h.bufs, s)
      {
        TickLosesNothing(h, p, canShrink, s);
      }
    } else {
      NextPower(p.minBufs, n);
      LargestPower(n);
      var bufs := seq(n, i requires 0 <= i < n => Zeroed().(inUse := i < n / 2 + 1, pcktSeq := i + 1));
      CrowdedLoses(Initial(p).(bufs := bufs, usage := NoUsage().(samples := p.samples)), p, 0);
    }
  }

  /** Under the absolute policy that means a threshold of at most 49, or at most 64
      buffers, or the smallest pool. */
  lemma AbsoluteIsCareful(p: Params, n: nat)
    requires Accepted(p) && GoodSize(p, n) && !p.average
    ensures Careful(p, n) <==> n == p.minBufs || p.threshold <= 49 || n <= 64
  {
    if n > p.minBufs {
      NextPower(p.minBufs, n);
      PercentBelow(n / 2 + 1, n, 49);
      PercentBelow(n / 2 + 1, n, 50);
      if n > 64 {
        SixtyFour();
        NextPower(64, n);
      }
    }
  }

  /** Under the averaging policy, with the 255 samples the library takes, only the
      smallest pool is safe. */
  lemma AverageIsNotCareful(p: Params, n: nat)
    requires Accepted(p) && GoodSize(p, n) && p.average && p.samples == 255
    ensures Careful(p, n) <==> n == p.minBufs
  {
    if n > p.minBufs {
      NextPower(p.minBufs, n);
      PercentBelow(n / 2 + 1, n, 100);
    }
  }
}
