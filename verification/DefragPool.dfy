/** The per-host pool of reassembly buffers (libknet/threads_rx.c, libknet/host.c). */
module DefragPool {
  import opened Prelude
  import opened SeqNumbers
  import opened Reassembly

  // ----- pool parameters (libknet/handle_api.c)

  /** Limits and shrinking policy, as checked when they are set. */
  datatype Params = Params(minBufs: nat, maxBufs: nat, threshold: nat, samples: nat, average: bool)

  predicate PowerOfTwo(n: nat) {
    n == 1 || (n > 1 && n % 2 == 0 && PowerOfTwo(n / 2))
  }

  /** The test made on 16-bit numbers. */
  predicate IsPowerOfTwo(num: bv16) {
    num != 0 && num & (num - 1) == 0
  }

  /** The number a 16-bit word stands for. */
  function Value(x: bv16): nat
    decreases x
  {
    if x == 0 then 0 else 2 * Value(x >> 1) + if x & 1 == 1 then 1 else 0
  }

  lemma OddWord(x: bv16)
    requires x & 1 == 1
    ensures IsPowerOfTwo(x) <==> x >> 1 == 0
  {
  }

  lemma EvenWord(x: bv16)
    requires x & 1 != 1 && x != 0
    ensures x >> 1 != 0 && (IsPowerOfTwo(x) <==> IsPowerOfTwo(x >> 1))
  {
  }

  lemma {:induction false} NonZeroValue(x: bv16)
    requires x != 0
    ensures Value(x) > 0
    decreases x
  {
    if x & 1 != 1 {
      EvenWord(x);
      NonZeroValue(x >> 1);
    }
  }

  lemma PowerOfDouble(n: nat, odd: bool)
    requires n > 0
    ensures PowerOfTwo(2 * n + if odd then 1 else 0) <==> !odd && PowerOfTwo(n)
  {
    assert !odd ==> (2 * n) / 2 == n;
  }

  /** The test finds exactly the powers of two. */
  lemma {:induction false} PowerOfTwoTest(x: bv16)
    ensures IsPowerOfTwo(x) <==> PowerOfTwo(Value(x))
    decreases x
  {
    if x >> 1 == 0 {
      SmallWord(x);
    } else {
      var half := Value(x >> 1);
      NonZeroValue(x >> 1);
      PowerOfDouble(half, x & 1 == 1);
      if x & 1 == 1 {
        OddWord(x);
      } else {
        EvenWord(x);
        PowerOfTwoTest(x >> 1);
      }
    }
  }

  lemma {:induction false} SmallWord(x: bv16)
    requires x >> 1 == 0
    ensures x == 0 || x == 1
    ensures Value(x) == (if x == 0 then 0 else 1) && (IsPowerOfTwo(x) <==> x == 1)
  {
  }

  predicate Accepted(p: Params) {
    && PowerOfTwo(p.minBufs) && PowerOfTwo(p.maxBufs) && p.minBufs <= p.maxBufs <= 65535
    && 1 <= p.threshold <= 50
    && 1 <= p.samples <= 255
  }

  /** The size of a pool: a power of two within the limits. */
  predicate GoodSize(p: Params, n: nat) {
    PowerOfTwo(n) && p.minBufs <= n <= p.maxBufs
  }

  /** A power of two below another is at most half of it. */
  lemma {:induction false} NextPower(a: nat, b: nat)
    requires PowerOfTwo(a) && PowerOfTwo(b) && a < b
    ensures 2 * a <= b && PowerOfTwo(2 * a) && PowerOfTwo(b / 2) && a <= b / 2
  {
    if a > 1 {
      NextPower(a / 2, b / 2);
    }
  }

  lemma {:induction false} LargestPower(n: nat)
    requires PowerOfTwo(n) && n <= 65535
    ensures n <= 32768
  {
    if n > 32768 {
      PowerAt15();
      NextPower(32768, n);
    }
  }

  lemma PowerAt15()
    ensures PowerOfTwo(32768)
  {
    assert PowerOfTwo(8) && PowerOfTwo(64) by { assert PowerOfTwo(2) && PowerOfTwo(4) && PowerOfTwo(16) && PowerOfTwo(32); }
    assert PowerOfTwo(512) by { assert PowerOfTwo(128) && PowerOfTwo(256); }
    assert PowerOfTwo(4096) by { assert PowerOfTwo(1024) && PowerOfTwo(2048); }
    assert PowerOfTwo(8192) && PowerOfTwo(16384);
  }

  // ----- searching

  /** The least index from `i` on that satisfies `f`; the length if there is none. */
  function FirstFrom(bufs: seq<DefragBuf>, i: nat, f: DefragBuf -> bool): (r: nat)
    requires i <= |bufs|
    ensures i <= r <= |bufs|
    ensures forall j :: i <= j < r ==> !f(bufs[j])
    ensures r < |bufs| ==> f(bufs[r])
    decreases |bufs| - i
  {
    if i == |bufs| || f(bufs[i]) then i else FirstFrom(bufs, i + 1, f)
  }

  function Match(s: SeqNum): DefragBuf -> bool {
    (b: DefragBuf) => b.inUse && b.pcktSeq == s
  }

  function FirstMatch(bufs: seq<DefragBuf>, s: SeqNum): nat {
    FirstFrom(bufs, 0, Match(s))
  }

  function FirstFree(bufs: seq<DefragBuf>): nat {
    FirstFrom(bufs, 0, (b: DefragBuf) => !b.inUse)
  }

  /** The least index among those with the oldest timestamp in `bufs[..n]`. */
  function OldestOf(bufs: seq<DefragBuf>, n: nat): (o: nat)
    requires 1 <= n <= |bufs|
    ensures o < n
    ensures forall j :: 0 <= j < n ==> bufs[o].lastUpdate <= bufs[j].lastUpdate
    ensures forall j :: 0 <= j < o ==> bufs[o].lastUpdate < bufs[j].lastUpdate
  {
    if n == 1 then 0 else
    var o := OldestOf(bufs, n - 1);
    if bufs[n - 1].lastUpdate < bufs[o].lastUpdate then n - 1 else o
  }

  // ----- expiry by distance

  /** How far behind the newest number a buffer may be and stay. */
  function Reach(p: Params, n: nat): nat {
    if p.maxBufs > n then p.maxBufs else n
  }

  /** The comparison made for each buffer: outside `[tail + 1, head - 1]`, on the
      16-bit circle. */
  predicate Outside(head: SeqNum, tail: SeqNum, q: SeqNum) {
    if tail > head then head <= q <= tail else q >= head || q <= tail
  }

  predicate Expired(newest: SeqNum, reach: nat, q: SeqNum) {
    Outside((newest + 1) % 65536, (newest - (reach + 1)) % 65536, q)
  }

  predicate TooOld(newest: SeqNum, reach: nat, q: SeqNum) {
    (newest - q) % 65536 > reach
  }

  /** The comparison is exact for every number if and only if the reach leaves
      more than one number outside. */
  lemma ExpiredExactly(newest: SeqNum, reach: nat)
    requires reach <= 65535
    ensures (forall q: SeqNum :: Expired(newest, reach, q) <==> TooOld(newest, reach, q)) <==> reach <= 65533
  {
    if reach <= 65533 {
      forall q: SeqNum
        ensures Expired(newest, reach, q) <==> TooOld(newest, reach, q)
      {
        ExpiredIsTooOld(newest, reach, q);
      }
    } else {
      assert !TooOld(newest, reach, newest);
      assert Expired(newest, reach, newest);
    }
  }

  lemma ExpiredIsTooOld(newest: SeqNum, reach: nat, q: SeqNum)
    requires reach <= 65533
    ensures Expired(newest, reach, q) <==> TooOld(newest, reach, q)
  {
  }

  function Release(b: DefragBuf): DefragBuf {
    b.(inUse := false)
  }

  /** Every buffer too far behind is released, every other is untouched. */
  function Reclaim(bufs: seq<DefragBuf>, newest: SeqNum, reach: nat): (r: seq<DefragBuf>)
    ensures |r| == |bufs|
  {
    seq(|bufs|, i requires 0 <= i < |bufs| =>
      if bufs[i].inUse && TooOld(newest, reach, bufs[i].pcktSeq) then Release(bufs[i]) else bufs[i])
  }

  // ----- growing and shrinking

  function Grow(bufs: seq<DefragBuf>): (r: seq<DefragBuf>)
    ensures |r| == 2 * |bufs|
  {
    bufs + seq(|bufs|, _ => Zeroed())
  }

  function InUse(bufs: seq<DefragBuf>): (r: seq<DefragBuf>)
    ensures |r| <= |bufs|
  {
    if bufs == [] then [] else
    var rest := InUse(bufs[..|bufs| - 1]);
    if bufs[|bufs| - 1].inUse then rest + [bufs[|bufs| - 1]] else rest
  }

  lemma {:induction false} InUseAreUsed(bufs: seq<DefragBuf>)
    ensures forall b :: b in InUse(bufs) ==> b in bufs && b.inUse
  {
    if bufs != [] {
      InUseAreUsed(bufs[..|bufs| - 1]);
    }
  }

  /** In-place compaction: used buffers move to the front in order; what was
      beyond them stays, so copies can remain. */
  function Compact(bufs: seq<DefragBuf>): (r: seq<DefragBuf>)
    ensures |r| == |bufs|
  {
    InUse(bufs) + bufs[|InUse(bufs)|..]
  }

  /** The contents the scan for `s` finds, if any. */
  function Found(bufs: seq<DefragBuf>, s: SeqNum): Option<DefragBuf> {
    var i := FirstMatch(bufs, s);
    if i < |bufs| then Some(bufs[i]) else None
  }

  lemma FoundIs(bufs: seq<DefragBuf>, s: SeqNum, i: nat)
    requires i < |bufs| && Match(s)(bufs[i]) && forall j :: 0 <= j < i ==> !Match(s)(bufs[j])
    ensures Found(bufs, s) == Some(bufs[i])
  {
  }

  lemma FoundAppend(a: seq<DefragBuf>, b: seq<DefragBuf>, s: SeqNum)
    ensures Found(a + b, s) == if Found(a, s).Some? then Found(a, s) else Found(b, s)
  {
    var i := FirstMatch(a, s);
    if i < |a| {
      FoundIs(a + b, s, i);
    } else {
      var j := FirstMatch(b, s);
      if j < |b| {
        FoundIs(a + b, s, |a| + j);
      }
    }
  }

  lemma {:induction false} FoundInUse(bufs: seq<DefragBuf>, s: SeqNum)
    ensures Found(InUse(bufs), s) == Found(bufs, s)
  {
    if bufs != [] {
      var front, last := bufs[..|bufs| - 1], bufs[|bufs| - 1];
      assert bufs == front + [last];
      FoundInUse(front, s);
      FoundAppend(front, [last], s);
      FoundAppend(InUse(front), [last], s);
    }
  }

  /** Keeping any prefix of the compacted pool that has room for the used buffers
      loses no packet and revives none: each scan finds the same contents as
      before, or nothing as before. */
  lemma {:induction false} ShrinkLosesNothing(bufs: seq<DefragBuf>, n: nat, s: SeqNum)
    requires |InUse(bufs)| <= n <= |bufs|
    ensures Found(Compact(bufs)[..n], s) == Found(bufs, s)
  {
    var used := InUse(bufs);
    var stale := bufs[|used|..n];
    assert Compact(bufs)[..n] == used + stale;
    FoundAppend(used, stale, s);
    FoundInUse(bufs, s);
    if Found(bufs, s) == None {
      forall j | 0 <= j < |stale|
        ensures !Match(s)(stale[j])
      {
        assert stale[j] == bufs[|used| + j];
      }
    }
  }

  /** With less room, the first used buffer cut off is lost for good when its
      number is unique. */
  lemma {:induction false} ShrinkTooFarLoses(bufs: seq<DefragBuf>, n: nat)
    requires n < |InUse(bufs)|
    requires forall i, j :: 0 <= i < j < |InUse(bufs)| ==> InUse(bufs)[i].pcktSeq != InUse(bufs)[j].pcktSeq
    ensures var s := InUse(bufs)[n].pcktSeq;
            Found(bufs, s).Some? && Found(Compact(bufs)[..n], s) == None
  {
    var used := InUse(bufs);
    var s := used[n].pcktSeq;
    FoundInUse(bufs, s);
    InUseAreUsed(bufs);
    assert used[n] in used;
    FoundIs(used, s, n);
    assert Compact(bufs)[..n] == used[..n];
  }

  // ----- the shrinking threshold

  /** The recorded usage: a truncated percentage. */
  function Percent(used: nat, n: nat): nat
    requires n > 0
  {
    used * 100 / n
  }

  /** Every usage at or below the threshold fits in half the pool exactly for
      thresholds below 50, or pools of at most 64 buffers at 50. */
  lemma {:induction false} ThresholdIsSafe(threshold: nat, n: nat)
    requires 1 <= threshold <= 50 && PowerOfTwo(n) && n > 1
    ensures (forall used: nat | used <= n :: Percent(used, n) <= threshold ==> used <= n / 2)
       <==> (threshold <= 49 || n <= 64)
  {
    if threshold <= 49 || n <= 64 {
      forall used: nat | used <= n && Percent(used, n) <= threshold
        ensures used <= n / 2
      {
        HalfFits(used, n, threshold);
      }
    } else {
      SixtyFour();
      NextPower(64, n);
      var used := n / 2 + 1;
      HalfOverflows(n);
      assert used <= n && Percent(used, n) <= threshold;
    }
  }

  lemma HalfFits(used: nat, n: nat, threshold: nat)
    requires n > 1 && n % 2 == 0 && threshold <= 50 && Percent(used, n) <= threshold
    requires threshold <= 49 || n <= 64
    ensures used <= n / 2
  {
    PercentBelow(used, n, 49);
    PercentBelow(used, n, 50);
    var half := n / 2;
    assert n == 2 * half;
  }

  lemma HalfOverflows(n: nat)
    requires n > 100 && n % 2 == 0
    ensures Percent(n / 2 + 1, n) <= 50
  {
    PercentBelow(n / 2 + 1, n, 50);
  }

  lemma PercentBelow(used: nat, n: nat, t: nat)
    requires n > 0
    ensures Percent(used, n) <= t <==> used * 100 < (t + 1) * n
  {
    var q := Percent(used, n);
    assert q * n <= used * 100 < q * n + n;
    assert q * n + n == (q + 1) * n;
    if q <= t {
      assert (q + 1) * n <= (t + 1) * n;
    } else {
      assert (t + 1) * n <= q * n;
    }
  }

  lemma SixtyFour()
    ensures PowerOfTwo(64)
  {
    assert PowerOfTwo(8) by { assert PowerOfTwo(2) && PowerOfTwo(4); }
    assert PowerOfTwo(16) && PowerOfTwo(32);
  }
}
