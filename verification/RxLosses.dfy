/** What shrinking loses in a run: a pool that is not careful can be brought, from the
    start, to lose a packet in reassembly, and the packet is lost for good. */
module RxLosses {
  import opened Prelude
  import opened SeqNumbers
  import opened Fragmentation
  import opened Reassembly
  import opened DefragPool
  import opened RxModel
  import opened RxRuns
  import opened PoolProperties

  // ----- the first fragment of a packet

  ghost predicate AllSplit(sent: Sent) {
    forall v :: Splits(sent(v))
  }

  /** The numbers in use lie after `lo` and up to `hi`. */
  ghost predicate Within(bufs: seq<DefragBuf>, lo: int, hi: int) {
    forall i :: 0 <= i < |bufs| && bufs[i].inUse ==> lo < bufs[i].pcktSeq <= hi
  }

  lemma ReclaimKeeps(bufs: seq<DefragBuf>, newest: SeqNum, reach: nat, lo: int)
    requires Within(bufs, lo, newest) && newest - lo <= reach + 1
    ensures Reclaim(bufs, newest, reach) == bufs
  {
    forall i | 0 <= i < |bufs|
      ensures Reclaim(bufs, newest, reach)[i] == bufs[i]
    {
      if bufs[i].inUse {
        assert (newest - bufs[i].pcktSeq) % 65536 == newest - bufs[i].pcktSeq;
      }
    }
  }

  /** Where a packet not heard of before is put, and in which pool. */
  function PlaceOf(bufs: seq<DefragBuf>): nat {
    if FirstFree(bufs) < |bufs| then FirstFree(bufs) else |bufs| + 1
  }

  function PoolFor(bufs: seq<DefragBuf>): (r: seq<DefragBuf>)
    requires |bufs| >= 2
    ensures PlaceOf(bufs) < |r| && !r[PlaceOf(bufs)].inUse
  {
    if FirstFree(bufs) < |bufs| then bufs else Grow(bufs)
  }

  /** The pool with `b` there. */
  function Placing(bufs: seq<DefragBuf>, b: DefragBuf): (r: seq<DefragBuf>)
    requires |bufs| >= 2
  {
    PoolFor(bufs)[PlaceOf(bufs) := b]
  }

  /** What a lookup of the next number does to pool and samples: nothing. */
  lemma NextLookup(h: RxState, p: Params, v: SeqNum, from: int, defrag: bool)
    requires Settled(p) && GoodSize(p, |h.bufs|) && 1 <= v && (h.rx == v - 1 != 0 || h.rx == v)
    requires Within(h.bufs, from, v - 1) && v - from <= p.maxBufs
    ensures var h' := Lookup(h, p, v, defrag, false).0; h'.bufs == h.bufs && h'.usage == h.usage && h'.rx == v
  {
    ReachIsMax(p, |h.bufs|);
    ReclaimKeeps(h.bufs, h.rx, p.maxBufs, from);
  }

  /** The packet `v` has got `b`, and no other buffer has changed. */
  ghost predicate FirstPlaced(h: RxState, h': RxState, v: SeqNum, b: DefragBuf) {
    && b.inUse && b.pcktSeq == v && h'.rx == v && |h.bufs| >= 2 && h'.bufs == Placing(h.bufs, b)
    && (FirstFree(h.bufs) < |h.bufs| ==> h'.usage == h.usage)
  }

  lemma LooksNew(h: RxState, p: Params, newest: int, done: set<int>, tried: set<int>, sent: Sent, v: SeqNum, from: int)
    returns (h1: RxState)
    requires Settled(p) && Live(h, p, newest, done, tried, sent) && 1 <= v && (newest == v - 1 || newest == v)
    requires Within(h.bufs, from, v - 1) && v - from <= p.maxBufs && v !in done && v !in tried
    ensures Lookup(h.(gotData := true), p, v, false, false) == (h1, true)
    ensures Live(h1, p, v, done, tried, sent) && h1.bufs == h.bufs && h1.usage == h.usage && h1.rx == v
    ensures Lookup(h1, p, v, true, false).1 && GoodSize(p, |h.bufs|)
  {
    assert Num(v) == v;
    var h0 := h.(gotData := true);
    assert Live(h0, p, newest, done, tried, sent);
    LargestPower(p.maxBufs);
    LookupLive(h0, p, newest, done, tried, sent, v, false);
    NextLookup(h0, p, v, from, false);
    h1 := Lookup(h0, p, v, false, false).0;
    LooksNewAgain(h1, p, done, tried, sent, v);
  }

  lemma LooksNewAgain(h: RxState, p: Params, done: set<int>, tried: set<int>, sent: Sent, v: SeqNum)
    requires Settled(p) && Live(h, p, v, done, tried, sent) && v !in tried
    ensures Lookup(h, p, v, true, false).1
  {
    assert Num(v) == v;
    LargestPower(p.maxBufs);
    LookupLive(h, p, v, done, tried, sent, v, true);
  }

  lemma FirstStorable(h: RxState, p: Params, done: set<int>, tried: set<int>, sent: Sent, v: SeqNum)
    requires Settled(p) && Live(h, p, v, done, tried, sent) && Splits(sent(v))
    ensures Roomy(h) && Storable(h.bufs, Msg(sent(v), v, 1))
  {
    assert Num(v) == v;
    LiveStorable(h, p, v, done, tried, sent, v, 1);
  }

  /** A fragment that completes nothing, put together from its lookup and its storing. */
  lemma NewFragment(h: RxState, p: Params, m: DataMsg, env: Env, h1: RxState)
    requires Lookup(h.(gotData := true), p, m.seqNum, false, false) == (h1, true)
    requires m.fragNum > 1 && Roomy(h1) && Storable(h1.bufs, m)
    requires Defrag(h1, p, m, env.canGrow, env.now).1 == None
    ensures Processable(h, p, m) && ProcessData(h, p, m, env) == (Defrag(h1, p, m, env.canGrow, env.now).0, None)
  {
  }

  lemma FindFirst(h: RxState, p: Params, v: SeqNum, from: int)
    requires Settled(p) && GoodSize(p, |h.bufs|) && |h.bufs| >= 2 && 1 <= v && h.rx == v
    requires Within(h.bufs, from, v - 1) && v - from <= p.maxBufs && Lookup(h, p, v, true, false).1
    requires FirstFree(h.bufs) == |h.bufs| ==> |h.bufs| < p.maxBufs
    ensures var (h', i) := FindBuf(h, p, v, true);
            && i == Some(PlaceOf(h.bufs)) && h'.bufs == PoolFor(h.bufs) && h'.rx == v
            && (FirstFree(h.bufs) < |h.bufs| ==> h'.usage == h.usage)
  {
    NextLookup(h, p, v, from, true);
    assert FirstMatch(h.bufs, v) == |h.bufs|;
  }

  lemma AbsorbFirst(b: DefragBuf, x: Packet, v: SeqNum, now: nat)
    requires Splits(x) && !b.inUse
    ensures Fits(Open(b, v, now), x.Piece(1), x.Frags(), 1)
    ensures var (b', out) := Absorb(b, Msg(x, v, 1), now); b'.inUse && b'.pcktSeq == v && out == None
  {
    AbsorbStep(b, x, v, 1, now);
    OneFragmentIsNotAll(x, 1);
  }

  lemma DefragFirst(h: RxState, p: Params, x: Packet, v: SeqNum, env: Env, from: int) returns (b: DefragBuf, h': RxState)
    requires Settled(p) && GoodSize(p, |h.bufs|) && Roomy(h) && 1 <= v && h.rx == v && Splits(x)
    requires Within(h.bufs, from, v - 1) && v - from <= p.maxBufs && Lookup(h, p, v, true, false).1
    requires env.canGrow && (FirstFree(h.bufs) == |h.bufs| ==> |h.bufs| < p.maxBufs)
    requires Storable(h.bufs, Msg(x, v, 1))
    ensures Defrag(h, p, Msg(x, v, 1), env.canGrow, env.now) == (h', None) && FirstPlaced(h, h', v, b)
  {
    FoundIsUsable(h, p, Msg(x, v, 1), env.canGrow, env.now);
    FindFirst(h, p, v, from);
    var free := PoolFor(h.bufs)[PlaceOf(h.bufs)];
    AbsorbFirst(free, x, v, env.now);
    b := Absorb(free, Msg(x, v, 1), env.now).0;
    h' := Defrag(h, p, Msg(x, v, 1), env.canGrow, env.now).0;
  }

  // ----- runs put together

  /** First fragments of the packets after `from` have arrived, `k` of them, and nothing
      else since the start or a wipe. */
  ghost predicate Opened(r: Run, p: Params, from: int, k: nat) {
    && 0 <= from && from + k <= 32770
    && (if k == 0 then r.h.rx == 0 else r.h.rx != 0 && r.newest == from + k)
    && r.done == {} && (forall u :: u in r.tried <==> from < u <= from + k)
    && Within(r.h.bufs, from, from + k)
  }

  function FirstFragment(v: int): Event {
    Data(v, 1, Env(true, true, 0))
  }

  /** Packet `v` is the next one to open, and there is room or the pool can grow. */
  ghost predicate Next(r: Run, p: Params, v: int, from: int) {
    && 1 <= v <= 32770 && Within(r.h.bufs, from, v - 1) && v - from <= p.maxBufs && v !in r.done && v !in r.tried
    && (r.h.rx != 0 ==> r.newest == v - 1) && (FirstFree(r.h.bufs) == |r.h.bufs| ==> |r.h.bufs| < p.maxBufs)
  }

  lemma OpenedIsNext(r: Run, p: Params, from: int, k: nat)
    requires Opened(r, p, from, k) && from + k + 1 <= 32770 && k < p.maxBufs
    requires FirstFree(r.h.bufs) == |r.h.bufs| ==> |r.h.bufs| < p.maxBufs
    ensures Next(r, p, from + k + 1, from)
  {
  }

  lemma CanOpen(r: Run, p: Params, sent: Sent, v: int, from: int)
    requires Settled(p) && Next(r, p, v, from) && Splits(sent(v))
    ensures Allowed(r, p, sent, FirstFragment(v))
  {
    LargestPower(p.maxBufs);
  }

  lemma OpenNext(r: Run, p: Params, sent: Sent, v: SeqNum, from: int) returns (b: DefragBuf, r': Run)
    requires RunOk(r, p, sent) && Next(r, p, v, from) && Splits(sent(v))
    ensures Allowed(r, p, sent, FirstFragment(v)) && r' == Step(r, p, sent, FirstFragment(v)) && RunOk(r', p, sent)
    ensures r'.newest == v && r'.done == r.done && r'.tried == r.tried + {v} && FirstPlaced(r.h, r'.h, v, b)
  {
    CanOpen(r, p, sent, v, from);
    StepOk(r, p, sent, FirstFragment(v));
    b, r' := OpenBuffer(r, p, sent, v, from);
  }

  lemma OpenedOneMore(r: Run, p: Params, from: int, k: nat, b: DefragBuf, r': Run)
    requires Opened(r, p, from, k) && from + k + 1 <= 32770 && FirstPlaced(r.h, r'.h, from + k + 1, b)
    requires r'.newest == from + k + 1 && r'.done == r.done && r'.tried == r.tried + {from + k + 1}
    ensures Opened(r', p, from, k + 1)
  {
    PlacedWithin(r.h.bufs, b, from, from + k);
  }

  lemma OpenBuffer(r: Run, p: Params, sent: Sent, v: SeqNum, from: int) returns (b: DefragBuf, r': Run)
    requires RunOk(r, p, sent) && Allowed(r, p, sent, FirstFragment(v)) && Splits(sent(v)) && Next(r, p, v, from)
    ensures r' == Step(r, p, sent, FirstFragment(v))
    ensures r'.newest == v && r'.done == r.done && r'.tried == r.tried + {v} && FirstPlaced(r.h, r'.h, v, b)
  {
    var env := FirstFragment(v).env;
    var h1 := FirstLook(r, p, sent, v, from);
    var h';
    b, h' := FirstBuffer(h1, p, r.done, r.tried, sent, v, env, from);
    TriedIs(h1, sent(v), v, r.tried, from);
    r' := StepIs(r, p, sent, v, env, h1, h');
  }

  lemma FirstLook(r: Run, p: Params, sent: Sent, v: SeqNum, from: int) returns (h1: RxState)
    requires Settled(p) && InStep(r, p, sent) && Placed(r, p, v) && 1 <= v
    requires Within(r.h.bufs, from, v - 1) && v - from <= p.maxBufs && v !in r.done && v !in r.tried
    requires r.h.rx != 0 ==> r.newest == v - 1
    ensures Lookup(r.h.(gotData := true), p, v, false, false) == (h1, true)
    ensures Live(h1, p, v, r.done, r.tried, sent) && h1.bufs == r.h.bufs && h1.usage == r.h.usage && h1.rx == v
    ensures Lookup(h1, p, v, true, false).1
  {
    BegunInStep(r, p, sent, v);
    BegunLooks(r, p, v);
    var g := Begun(r, v);
    h1 := LooksNew(g.h, p, g.newest, r.done, r.tried, sent, v, from);
  }

  lemma BegunLooks(r: Run, p: Params, v: SeqNum)
    ensures Lookup(r.h.(gotData := true), p, v, false, false) == Lookup(Begun(r, v).h.(gotData := true), p, v, false, false)
    ensures Begun(r, v).h.bufs == r.h.bufs && Begun(r, v).h.usage == r.h.usage
  {
    assert Num(v) == v;
  }

  lemma FirstBuffer(h: RxState, p: Params, done: set<int>, tried: set<int>, sent: Sent, v: SeqNum, env: Env, from: int)
    returns (b: DefragBuf, h': RxState)
    requires Settled(p) && Live(h, p, v, done, tried, sent) && h.rx == v && 1 <= v && Splits(sent(v)) && env.canGrow
    requires Within(h.bufs, from, v - 1) && v - from <= p.maxBufs && Lookup(h, p, v, true, false).1
    requires FirstFree(h.bufs) == |h.bufs| ==> |h.bufs| < p.maxBufs
    ensures Roomy(h) && Storable(h.bufs, Msg(sent(v), v, 1))
    ensures Defrag(h, p, Msg(sent(v), v, 1), env.canGrow, env.now) == (h', None) && FirstPlaced(h, h', v, b)
  {
    FirstStorable(h, p, done, tried, sent, v);
    b, h' := DefragFirst(h, p, sent(v), v, env, from);
  }

  /** A fragment that is new and completes nothing. */
  lemma StepIs(r: Run, p: Params, sent: Sent, v: SeqNum, env: Env, h1: RxState, h': RxState) returns (r': Run)
    requires RunOk(r, p, sent) && Allowed(r, p, sent, Data(v, 1, env)) && Splits(sent(v)) && v !in r.done
    requires Lookup(r.h.(gotData := true), p, v, false, false) == (h1, true)
    requires Roomy(h1) && Storable(h1.bufs, Msg(sent(v), v, 1))
    requires Defrag(h1, p, Msg(sent(v), v, 1), env.canGrow, env.now) == (h', None)
    ensures r' == Step(r, p, sent, Data(v, 1, env))
    ensures r' == Run(h', if r.h.rx == 0 then v else Max(r.newest, v), r.done, TriedAfter(h1, sent(v), v, r.tried), r.epoch, r.log)
  {
    CarriesIs(sent(v), v);
    NewFragment(r.h, p, Msg(sent(v), v, 1), env, h1);
    r' := DataStep(r, p, sent, v, 1, env);
  }

  lemma CarriesIs(x: Packet, v: SeqNum)
    requires Splits(x)
    ensures Num(v) == v && Carries(x, Num(v), 1) == Msg(x, v, 1)
  {
  }

  lemma TriedIs(h: RxState, x: Packet, v: SeqNum, tried: set<int>, from: int)
    requires Splits(x) && v !in tried && Within(h.bufs, from, v - 1)
    ensures TriedAfter(h, x, v, tried) == tried + {v}
  {
    assert Num(v) == v;
    assert FirstMatch(h.bufs, v) == |h.bufs|;
  }

  lemma PlacedWithin(bufs: seq<DefragBuf>, b: DefragBuf, lo: int, hi: int)
    requires |bufs| >= 2 && Within(bufs, lo, hi) && lo <= hi && b.pcktSeq == hi + 1
    ensures Within(Placing(bufs, b), lo, hi + 1)
  {
  }

  // ----- growing the pool

  lemma {:induction false} CountOneMore(bufs: seq<DefragBuf>, i: nat, b: DefragBuf)
    requires i < |bufs| && !bufs[i].inUse && b.inUse
    ensures |InUse(bufs[i := b])| == |InUse(bufs)| + 1
  {
    var n := |bufs| - 1;
    var after := bufs[i := b];
    if i == n {
      assert after[..n] == bufs[..n];
    } else {
      assert after[..n] == bufs[..n][i := b];
      CountOneMore(bufs[..n], i, b);
    }
  }

  lemma {:induction false} CountFree(bufs: seq<DefragBuf>, free: seq<DefragBuf>)
    requires forall i :: 0 <= i < |free| ==> !free[i].inUse
    ensures |InUse(bufs + free)| == |InUse(bufs)|
    decreases |free|
  {
    if free == [] {
      assert bufs + free == bufs;
    } else {
      var n := |free| - 1;
      assert (bufs + free)[..|bufs| + n] == bufs + free[..n];
      CountFree(bufs, free[..n]);
    }
  }

  lemma {:induction false} CountPlaced(bufs: seq<DefragBuf>, b: DefragBuf)
    requires |bufs| >= 2 && b.inUse
    ensures |InUse(Placing(bufs, b))| == |InUse(bufs)| + 1
    ensures FirstFree(bufs) == |bufs| ==> |InUse(bufs)| == |bufs|
  {
    CountOneMore(PoolFor(bufs), PlaceOf(bufs), b);
    if FirstFree(bufs) == |bufs| {
      CountFree(bufs, seq(|bufs|, _ => Zeroed()));
      InUsePrefix(bufs, |bufs|);
    }
  }

  /** A pool of up to `n` buffers, `k` of them in use, has grown by no more than it needs
      with one packet more. */
  lemma {:induction false} PlacedSize(bufs: seq<DefragBuf>, b: DefragBuf, n: nat, k: nat)
    requires |bufs| >= 2 && b.inUse && |InUse(bufs)| == k <= n / 2 && |bufs| <= n
    ensures |InUse(Placing(bufs, b))| == k + 1 && |Placing(bufs, b)| <= n
  {
    CountPlaced(bufs, b);
  }

  /** The pool has not grown beyond `n`, and each packet opened has its buffer. */
  ghost predicate Growing(r: Run, p: Params, n: nat, k: nat) {
    Opened(r, p, 0, k) && |InUse(r.h.bufs)| == k && |r.h.bufs| <= n <= 32768
  }

  /** With one packet more than half of `n` opened, the pool has `n` buffers. */
  lemma {:induction false} GrownTo(bufs: seq<DefragBuf>, p: Params, n: nat)
    requires |InUse(bufs)| == n / 2 + 1 && |bufs| <= n && GoodSize(p, |bufs|) && GoodSize(p, n)
    ensures |bufs| == n
  {
    if |bufs| < n {
      NextPower(|bufs|, n);
    }
  }

  lemma SizeIsGood(r: Run, p: Params, sent: Sent)
    requires RunOk(r, p, sent)
    ensures Settled(p) && GoodSize(p, |r.h.bufs|) && GoodUsage(p, r.h.usage) && |r.h.bufs| >= 2
  {
  }

  lemma GrowMore(r: Run, p: Params, n: nat, k: nat, b: DefragBuf, r': Run)
    requires Growing(r, p, n, k) && k < n / 2 + 1 && FirstPlaced(r.h, r'.h, k + 1, b)
    requires r'.newest == k + 1 && r'.done == r.done && r'.tried == r.tried + {k + 1}
    ensures Growing(r', p, n, k + 1)
  {
    PlacedSize(r.h.bufs, b, n, k);
    OpenedOneMore(r, p, 0, k, b, r');
  }

  lemma GrowNext(r: Run, p: Params, sent: Sent, n: nat, k: nat) returns (r': Run)
    requires RunOk(r, p, sent) && Growing(r, p, n, k) && k < n / 2 + 1 && Splits(sent(k + 1)) && Next(r, p, k + 1, 0)
    ensures Allowed(r, p, sent, FirstFragment(k + 1)) && r' == Step(r, p, sent, FirstFragment(k + 1)) && RunOk(r', p, sent)
    ensures Growing(r', p, n, k + 1)
  {
    var b;
    b, r' := OpenNext(r, p, sent, k + 1, 0);
    GrowMore(r, p, n, k, b, r');
  }

  lemma GrowingIsNext(r: Run, p: Params, n: nat, k: nat)
    requires Growing(r, p, n, k) && k < n / 2 + 1 && GoodSize(p, n) && |r.h.bufs| >= 2
    ensures Next(r, p, k + 1, 0)
  {
    CanGrow(r.h.bufs, p, n);
    OpenedIsNext(r, p, 0, k);
  }

  lemma {:induction false} CanGrow(bufs: seq<DefragBuf>, p: Params, n: nat)
    requires |bufs| >= 2 && |InUse(bufs)| <= n / 2 && GoodSize(p, n)
    ensures FirstFree(bufs) == |bufs| ==> |bufs| < p.maxBufs
  {
    if FirstFree(bufs) == |bufs| {
      InUsePrefix(bufs, |bufs|);
    }
  }

  lemma GrowStep(r: Run, p: Params, sent: Sent, n: nat, k: nat) returns (e: Event, r': Run)
    requires RunOk(r, p, sent) && Growing(r, p, n, k) && GoodSize(p, n) && k < n / 2 + 1 && AllSplit(sent)
    ensures Allowed(r, p, sent, e) && r' == Step(r, p, sent, e) && RunOk(r', p, sent) && Growing(r', p, n, k + 1)
  {
    assert Splits(sent(k + 1));
    SizeIsGood(r, p, sent);
    GrowingIsNext(r, p, n, k);
    e := FirstFragment(k + 1);
    r' := GrowNext(r, p, sent, n, k);
  }

  /** First fragments until the pool has `n` buffers, and then what follows. */
  lemma {:induction false} GrowPool(r: Run, p: Params, sent: Sent, n: nat, k: nat) returns (events: seq<Event>, end: Run)
    requires RunOk(r, p, sent) && Growing(r, p, n, k) && GoodSize(p, n) && k <= n / 2 + 1 && AllSplit(sent)
    ensures Leads(r, p, sent, events, end) && Filling(end, p, n, n / 2 + 1, n / 2 + 1)
    decreases n / 2 + 1 - k
  {
    if k < n / 2 + 1 {
      var e, r' := GrowStep(r, p, sent, n, k);
      events, end := GrowPool(r', p, sent, n, k + 1);
      LeadsOn(r, p, sent, e, events, end);
      events := [e] + events;
    } else {
      SizeIsGood(r, p, sent);
      GrownTo(r.h.bufs, p, n);
      events, end := Disconnect(r, p, sent, n);
    }
  }

  // ----- a quiet time

  ghost predicate AllZero(t: seq<nat>) {
    forall k :: 0 <= k < |t| ==> t[k] == 0
  }

  /** Nothing has been heard since a wipe, and `j` samples have been taken. */
  ghost predicate Quiet(r: Run, n: nat, j: nat) {
    && r.h.rx == 0 && |r.h.bufs| == n && r.done == {} && r.tried == {}
    && (forall i :: 0 <= i < n ==> !r.h.bufs[i].inUse)
    && AllZero(r.h.usage.table) && r.h.usage.samples == j
  }

  lemma Disconnect(r: Run, p: Params, sent: Sent, n: nat) returns (events: seq<Event>, end: Run)
    requires RunOk(r, p, sent) && |r.h.bufs| == n && GoodSize(p, n) && n <= 32768 && AllSplit(sent)
    ensures Leads(r, p, sent, events, end) && Filling(end, p, n, n / 2 + 1, n / 2 + 1)
  {
    StepOk(r, p, sent, Disconnected);
    var r' := Step(r, p, sent, Disconnected);
    ClearedIsQuiet(r, n);
    events, end := QuietTime(r', p, sent, n, 0);
    LeadsOn(r, p, sent, Disconnected, events, end);
    events := [Disconnected] + events;
  }

  lemma ClearedIsQuiet(r: Run, n: nat)
    requires |r.h.bufs| == n
    ensures Quiet(Wiped(r, Cleared(r.h, 0), 0), n, 0)
  {
  }

  lemma QuietTick(r: Run, p: Params, n: nat, j: nat)
    requires GoodUsage(p, r.h.usage) && Quiet(r, n, j) && j < p.samples && n > 0
    ensures Quiet(r.(h := Tick(r.h, p, true)), n, j + 1)
  {
    InUsePrefix(r.h.bufs, 0);
    assert Percent(0, n) == 0;
  }

  lemma {:induction false} QuietTime(r: Run, p: Params, sent: Sent, n: nat, j: nat) returns (events: seq<Event>, end: Run)
    requires RunOk(r, p, sent) && Quiet(r, n, j) && j <= p.samples && GoodSize(p, n) && n <= 32768 && AllSplit(sent)
    ensures Leads(r, p, sent, events, end) && Filling(end, p, n, n / 2 + 1, n / 2 + 1)
    decreases p.samples - j
  {
    SizeIsGood(r, p, sent);
    if j < p.samples {
      var e := Housekeeping(true);
      QuietTick(r, p, n, j);
      StepOk(r, p, sent, e);
      events, end := QuietTime(Step(r, p, sent, e), p, sent, n, j + 1);
      LeadsOn(r, p, sent, e, events, end);
      events := [e] + events;
    } else {
      QuietIsEmpty(r, p, n, n / 2 + 1);
      events, end := Fill(r, p, sent, n, n / 2 + 1, 0, n / 2 + 1);
    }
  }

  // ----- filling the pool again

  ghost predicate Filling(r: Run, p: Params, n: nat, from: int, k: nat) {
    && Opened(r, p, from, k) && |r.h.bufs| == n && InOrder(r.h.bufs, from, k)
    && AllZero(r.h.usage.table) && r.h.usage.samples == p.samples
  }

  lemma QuietIsEmpty(r: Run, p: Params, n: nat, from: nat)
    requires Quiet(r, n, p.samples) && from <= 32770
    ensures Filling(r, p, n, from, 0)
  {
  }

  lemma NextFree(bufs: seq<DefragBuf>, from: int, k: nat)
    requires InOrder(bufs, from, k) && k < |bufs|
    ensures FirstFree(bufs) == k
  {
    assert !bufs[k].inUse;
  }

  lemma InOrderNext(bufs: seq<DefragBuf>, from: int, k: nat, b: DefragBuf)
    requires InOrder(bufs, from, k) && k < |bufs| && |bufs| >= 2 && b.inUse && b.pcktSeq == from + k + 1
    ensures |Placing(bufs, b)| == |bufs| && InOrder(Placing(bufs, b), from, k + 1)
  {
    NextFree(bufs, from, k);
  }

  lemma FillMore(r: Run, p: Params, n: nat, from: int, k: nat, v: SeqNum, b: DefragBuf, r': Run)
    requires Filling(r, p, n, from, k) && k < n && v == from + k + 1 <= 32770 && FirstPlaced(r.h, r'.h, v, b)
    requires r'.newest == v && r'.done == r.done && r'.tried == r.tried + {v}
    ensures Filling(r', p, n, from, k + 1)
  {
    OpenedOneMore(r, p, from, k, b, r');
    NextFree(r.h.bufs, from, k);
    InOrderNext(r.h.bufs, from, k, b);
  }

  lemma FillingIsNext(r: Run, p: Params, n: nat, from: int, k: nat)
    requires Filling(r, p, n, from, k) && k < n <= p.maxBufs && from + k + 1 <= 32770
    ensures Next(r, p, from + k + 1, from)
  {
    NextFree(r.h.bufs, from, k);
    OpenedIsNext(r, p, from, k);
  }

  lemma FillNext(r: Run, p: Params, sent: Sent, n: nat, from: int, k: nat, v: SeqNum) returns (r': Run)
    requires RunOk(r, p, sent) && Filling(r, p, n, from, k) && k < n && v == from + k + 1 && Next(r, p, v, from) && Splits(sent(v))
    ensures Allowed(r, p, sent, FirstFragment(v)) && r' == Step(r, p, sent, FirstFragment(v)) && RunOk(r', p, sent)
    ensures Filling(r', p, n, from, k + 1)
  {
    var b;
    b, r' := OpenNext(r, p, sent, v, from);
    FillMore(r, p, n, from, k, v, b, r');
  }

  lemma FillStep(r: Run, p: Params, sent: Sent, n: nat, from: int, k: nat) returns (e: Event, r': Run)
    requires RunOk(r, p, sent) && Filling(r, p, n, from, k) && k < n <= p.maxBufs && from + k + 1 <= 32770 && AllSplit(sent)
    ensures Allowed(r, p, sent, e) && r' == Step(r, p, sent, e) && RunOk(r', p, sent) && Filling(r', p, n, from, k + 1)
  {
    var v: SeqNum := from + k + 1;
    assert Splits(sent(v));
    FillingIsNext(r, p, n, from, k);
    e := FirstFragment(v);
    r' := FillNext(r, p, sent, n, from, k, v);
  }

  lemma {:induction false} Fill(r: Run, p: Params, sent: Sent, n: nat, from: int, k: nat, total: nat) returns (events: seq<Event>, end: Run)
    requires RunOk(r, p, sent) && Filling(r, p, n, from, k) && k <= total <= n <= p.maxBufs && from + total <= 32770 && AllSplit(sent)
    ensures Leads(r, p, sent, events, end) && Filling(end, p, n, from, total)
    decreases total - k
  {
    if k < total {
      var e, r' := FillStep(r, p, sent, n, from, k);
      events, end := Fill(r', p, sent, n, from, k + 1, total);
      LeadsOn(r, p, sent, e, events, end);
      events := [e] + events;
    } else {
      LeadsNowhere(r, p, sent, r);
      events, end := [], r;
    }
  }

  // ----- the loss

  /** Packet `v` was given a buffer and is not delivered. */
  ghost predicate UnderWay(r: Run, sent: Sent, v: int) {
    r.h.rx != 0 && v <= r.newest && Splits(sent(v)) && v in r.tried && v !in r.done
  }

  /** And it has no buffer as long as it can arrive. */
  ghost predicate Lost(r: Run, sent: Sent, v: int) {
    && UnderWay(r, sent, v)
    && (r.newest - 4095 <= v ==> Found(r.h.bufs, Num(v)) == None)
  }

  /** Housekeeping takes the buffer of `s` away. */
  ghost predicate TickLoses(h: RxState, p: Params, s: SeqNum) {
    && GoodUsage(p, h.usage) && h.bufs != []
    && Found(h.bufs, s).Some? && Found(Tick(h, p, true).bufs, s) == None
  }

  /** Half of the pool and one more buffer are in use after a quiet time, the last of
      them by packet `v`. */
  ghost predicate Brimful(h: RxState, p: Params, v: int) {
    && GoodUsage(p, h.usage) && h.usage.samples >= p.samples && AllZero(h.usage.table)
    && GoodSize(p, |h.bufs|) && InOrder(h.bufs, v - |h.bufs| / 2 - 1, |h.bufs| / 2 + 1) && 1 <= v <= 32770
  }

  /** Then housekeeping of a pool that is not careful loses it. */
  lemma BrimfulLoses(h: RxState, p: Params, v: int)
    requires Accepted(p) && Brimful(h, p, v) && !Careful(p, |h.bufs|)
    ensures TickLoses(h, p, Num(v))
  {
    CrowdedLoses(h, p, v - |h.bufs| / 2 - 1);
  }

  lemma FilledIsBrimful(r: Run, p: Params, sent: Sent, n: nat, from: int)
    requires RunOk(r, p, sent) && Filling(r, p, n, from, n / 2 + 1) && Splits(sent(from + n / 2 + 1))
    ensures Brimful(r.h, p, from + n / 2 + 1) && UnderWay(r, sent, from + n / 2 + 1)
  {
    SizeIsGood(r, p, sent);
  }

  lemma TickLosesLoses(r: Run, p: Params, sent: Sent, v: int)
    requires RunOk(r, p, sent) && TickLoses(r.h, p, Num(v)) && UnderWay(r, sent, v)
    ensures Lost(Step(r, p, sent, Housekeeping(true)), sent, v)
  {
    TickKeepsNumber(r.h, p);
    LostByTick(r, sent, Tick(r.h, p, true), v);
  }

  lemma TickKeepsNumber(h: RxState, p: Params)
    requires GoodUsage(p, h.usage) && h.bufs != []
    ensures Tick(h, p, true).rx == h.rx
  {
  }

  lemma LostByTick(r: Run, sent: Sent, h: RxState, v: int)
    requires UnderWay(r, sent, v)
    requires h.rx == r.h.rx && Found(h.bufs, Num(v)) == None
    ensures Lost(r.(h := h), sent, v)
  {
  }

  /** From the start: first fragments until the pool has `n` buffers, loss of
      connectivity, a quiet time, and first fragments of the next packets. */
  lemma RunToTheBrink(p: Params, sent: Sent, n: nat) returns (events: seq<Event>, r: Run)
    requires Settled(p) && GoodSize(p, n) && n > p.minBufs && Wellformed(sent) && AllSplit(sent)
    ensures Leads(Start(p), p, sent, events, r) && Filling(r, p, n, n / 2 + 1, n / 2 + 1)
  {
    StartOk(p, sent);
    LargestPower(n);
    StartIsGrowing(p, n);
    events, r := GrowPool(Start(p), p, sent, n, 0);
  }

  lemma StartIsGrowing(p: Params, n: nat)
    requires p.minBufs <= n <= 32768
    ensures Growing(Start(p), p, n, 0)
  {
    InUsePrefix(Start(p).h.bufs, 0);
  }

  // ----- for good

  ghost predicate NoneFor(bufs: seq<DefragBuf>, s: SeqNum) {
    forall i :: 0 <= i < |bufs| ==> !Match(s)(bufs[i])
  }

  lemma NoneForIs(bufs: seq<DefragBuf>, s: SeqNum)
    ensures NoneFor(bufs, s) <==> Found(bufs, s) == None
  {
  }

  lemma LookupRevivesNone(h: RxState, p: Params, u: SeqNum, defrag: bool, s: SeqNum)
    requires NoneFor(h.bufs, s)
    ensures NoneFor(Lookup(h, p, u, defrag, false).0.bufs, s)
  {
  }

  lemma AllocateRevivesNone(h: RxState, p: Params, canGrow: bool, s: SeqNum)
    requires h.bufs != [] && NoneFor(h.bufs, s)
    ensures NoneFor(Allocate(h, p, canGrow).0.bufs, s)
  {
  }

  lemma FindRevivesNone(h: RxState, p: Params, u: SeqNum, canGrow: bool, s: SeqNum)
    requires h.bufs != [] && NoneFor(h.bufs, s)
    ensures NoneFor(FindBuf(h, p, u, canGrow).0.bufs, s)
  {
    LookupRevivesNone(h, p, u, true, s);
    var h1 := Lookup(h, p, u, true, false).0;
    AllocateRevivesNone(Marked(h1, u, true), p, canGrow, s);
  }

  /** A fragment opens no buffer but that of its own number. */
  lemma DefragRevivesNone(h: RxState, p: Params, m: DataMsg, canGrow: bool, now: nat, s: SeqNum)
    requires Roomy(h) && Storable(h.bufs, m) && NoneFor(h.bufs, s) && m.seqNum != s
    ensures NoneFor(Defrag(h, p, m, canGrow, now).0.bufs, s)
  {
    FindRevivesNone(h, p, m.seqNum, canGrow, s);
    FoundIsUsable(h, p, m, canGrow, now);
    var (h1, i) := FindBuf(h, p, m.seqNum, canGrow);
    if i.Some? {
      AbsorbKeepsNumber(h1.bufs[i.value], m, now, s);
    }
  }

  lemma AbsorbKeepsNumber(b: DefragBuf, m: DataMsg, now: nat, s: SeqNum)
    requires Fits(Open(b, m.seqNum, now), m.body, m.fragNum, m.fragSeq) && !Match(s)(b) && m.seqNum != s
    ensures !Match(s)(Absorb(b, m, now).0)
  {
  }

  lemma OtherRevivesNone(h: RxState, p: Params, m: DataMsg, env: Env, s: SeqNum)
    requires Processable(h, p, m) && NoneFor(h.bufs, s) && m.seqNum != s
    ensures NoneFor(ProcessData(h, p, m, env).0.bufs, s)
  {
    var h1 := Lookup(h.(gotData := true), p, m.seqNum, false, false).0;
    LookupRevivesNone(h.(gotData := true), p, m.seqNum, false, s);
    if m.fragNum > 1 {
      DefragRevivesNone(h1, p, m, env.canGrow, env.now, s);
    }
  }

  /** A packet that was given a buffer before and has none is turned away. */
  lemma TurnedAway(h: RxState, p: Params, env: Env, newest: int, done: set<int>, tried: set<int>, sent: Sent, v: int, frag: nat)
    requires Settled(p) && Live(h, p, newest, done, tried, sent) && newest - 4095 <= v <= newest && Num(v) != 0
    requires Splits(sent(v)) && FragmentOf(sent(v), frag) && v in tried && NoneFor(h.bufs, Num(v))
    ensures Processable(h, p, Carries(sent(v), Num(v), frag))
    ensures var (h', out) := ProcessData(h, p, Carries(sent(v), Num(v), frag), env);
            out == None && NoneFor(h'.bufs, Num(v))
  {
    var h0 := h.(gotData := true);
    assert Live(h0, p, newest, done, tried, sent);
    LargestPower(p.maxBufs);
    LookupLive(h0, p, newest, done, tried, sent, v, false);
    LookupRevivesNone(h0, p, Num(v), false, Num(v));
    var h1 := Lookup(h0, p, Num(v), false, false).0;
    LiveStorable(h1, p, newest, done, tried, sent, v, frag);
    NotFound(h1, p, env, newest, done, tried, sent, v);
  }

  lemma NotFound(h: RxState, p: Params, env: Env, newest: int, done: set<int>, tried: set<int>, sent: Sent, v: int)
    requires Settled(p) && Live(h, p, newest, done, tried, sent) && newest - 4095 <= v <= newest && Num(v) != 0
    requires Splits(sent(v)) && v in tried && NoneFor(h.bufs, Num(v))
    ensures var (h', i) := FindBuf(h, p, Num(v), env.canGrow); i == None && NoneFor(h'.bufs, Num(v))
  {
    NoneForIs(h.bufs, Num(v));
    FindLive(h, p, env.canGrow, newest, done, tried, sent, v);
    FindRevivesNone(h, p, Num(v), env.canGrow, Num(v));
  }

  lemma DifferentInWindow(p: Params, newest: int, u: int, v: int)
    requires InWindow(p, newest, u) && newest - 4095 <= v <= newest && u != v
    ensures Num(u) != Num(v)
  {
    NumDifference(u, v);
  }

  lemma LostDataBufs(r: Run, p: Params, sent: Sent, u: int, frag: nat, env: Env, v: int)
    requires RunOk(r, p, sent) && Allowed(r, p, sent, Data(u, frag, env)) && Lost(r, sent, v) && r.newest - 4095 <= v
    ensures NoneFor(DataStep(r, p, sent, u, frag, env).h.bufs, Num(v))
    ensures v !in DataStep(r, p, sent, u, frag, env).done
  {
    NoneForIs(r.h.bufs, Num(v));
    DataWorks(r, p, sent, u, frag, env);
    if u == v {
      TurnedAway(r.h, p, env, r.newest, r.done, r.tried, sent, v, frag);
    } else {
      DifferentInWindow(p, r.newest, u, v);
      OtherRevivesNone(r.h, p, Carries(sent(u), Num(u), frag), env, Num(v));
    }
  }

  lemma LostData(r: Run, p: Params, sent: Sent, u: int, frag: nat, env: Env, v: int)
    requires RunOk(r, p, sent) && Allowed(r, p, sent, Data(u, frag, env)) && Lost(r, sent, v)
    ensures Lost(DataStep(r, p, sent, u, frag, env), sent, v)
  {
    var r' := DataStep(r, p, sent, u, frag, env);
    DataMovesOn(r, p, sent, u, frag, env);
    if r.newest - 4095 <= v {
      LostDataBufs(r, p, sent, u, frag, env, v);
      NoneForIs(r'.h.bufs, Num(v));
    }
  }

  lemma DataMovesOn(r: Run, p: Params, sent: Sent, u: int, frag: nat, env: Env)
    requires RunOk(r, p, sent) && Allowed(r, p, sent, Data(u, frag, env)) && r.h.rx != 0
    ensures var r' := DataStep(r, p, sent, u, frag, env);
            r'.h.rx != 0 && r'.newest == Max(r.newest, u) && r.tried <= r'.tried && r'.done <= r.done + {u}
  {
    DataLive(r.h, p, env, r.newest, r.done, r.tried, sent, u, frag);
  }

  lemma LostPing(r: Run, p: Params, sent: Sent, u: int, timed: bool, v: int)
    requires RunOk(r, p, sent) && Allowed(r, p, sent, Ping(u, timed)) && Lost(r, sent, v) && !Wiping(r, Ping(u, timed))
    ensures Lost(Step(r, p, sent, Ping(u, timed)), sent, v)
  {
    if !timed {
      var h1 := if Num(u) != r.h.untimedRx then r.h.(untimedRx := Num(u), gotData := false) else r.h;
      assert Live(h1, p, r.newest, r.done, r.tried, sent);
      LookupLive(h1, p, r.newest, r.done, r.tried, sent, u, false);
      NoneForIs(h1.bufs, Num(v));
      if r.newest - 4095 <= v {
        LookupRevivesNone(h1, p, Num(u), false, Num(v));
      }
      NoneForIs(Lookup(h1, p, Num(u), false, false).0.bufs, Num(v));
    }
  }

  lemma TickRevivesNone(h: RxState, p: Params, canShrink: bool, s: SeqNum)
    requires GoodUsage(p, h.usage) && h.bufs != [] && NoneFor(h.bufs, s)
    ensures NoneFor(Tick(h, p, canShrink).bufs, s) && Tick(h, p, canShrink).rx == h.rx
  {
    CompactRevivesNone(h.bufs, s);
  }

  lemma CompactRevivesNone(bufs: seq<DefragBuf>, s: SeqNum)
    requires NoneFor(bufs, s)
    ensures NoneFor(Compact(bufs), s)
  {
    InUseAreUsed(bufs);
    var used := InUse(bufs);
    forall i | 0 <= i < |bufs|
      ensures !Match(s)(Compact(bufs)[i])
    {
      if i < |used| {
        assert used[i] in used;
      }
    }
  }

  lemma LostTick(r: Run, p: Params, sent: Sent, canShrink: bool, v: int)
    requires RunOk(r, p, sent) && Lost(r, sent, v)
    ensures Lost(Step(r, p, sent, Housekeeping(canShrink)), sent, v)
  {
    SizeIsGood(r, p, sent);
    LostTickBufs(r.h, p, canShrink, r.newest - 4095 <= v, Num(v));
  }

  lemma LostTickBufs(h: RxState, p: Params, canShrink: bool, near: bool, s: SeqNum)
    requires GoodUsage(p, h.usage) && h.bufs != [] && (near ==> Found(h.bufs, s) == None)
    ensures Tick(h, p, canShrink).rx == h.rx && (near ==> Found(Tick(h, p, canShrink).bufs, s) == None)
  {
    if near {
      NoneForIs(h.bufs, s);
      TickRevivesNone(h, p, canShrink, s);
      NoneForIs(Tick(h, p, canShrink).bufs, s);
    }
  }

  lemma LostStep(r: Run, p: Params, sent: Sent, e: Event, v: int)
    requires RunOk(r, p, sent) && Allowed(r, p, sent, e) && !Wiping(r, e) && Lost(r, sent, v)
    ensures Lost(Step(r, p, sent, e), sent, v)
  {
    match e
    case Data(u, frag, env) => LostData(r, p, sent, u, frag, env, v);
    case Ping(u, timed) => LostPing(r, p, sent, u, timed, v);
    case Housekeeping(canShrink) => LostTick(r, p, sent, canShrink, v);
  }

  /** Whatever arrives afterwards, all fragments of the packet included, it is not
      delivered before the next wipe. */
  lemma {:induction false} LostForGood(r: Run, p: Params, sent: Sent, events: seq<Event>, v: int)
    requires RunOk(r, p, sent) && Lost(r, sent, v) && Runs(r, p, sent, events) && NoWipe(r, p, sent, events)
    ensures Lost(Exec(r, p, sent, events), sent, v)
    ensures !Logged(Exec(r, p, sent, events).log, v, r.epoch)
    decreases |events|
  {
    if events != [] {
      LostStep(r, p, sent, events[0], v);
      var r' := LeadsFirst(r, p, sent, events, Exec(r, p, sent, events));
      SameEpoch(r, p, sent, events);
      LostForGood(r', p, sent, events[1..], v);
    }
  }

  // ----- exactly

  /** No packet is lost to housekeeping in any run with a pool of `n` buffers. */
  ghost predicate SafeInRuns(p: Params, n: nat) {
    forall sent: Sent, events: seq<Event> | Possible(p, sent, events) && |Final(p, sent, events).h.bufs| == n ::
      ScansSurvive(Final(p, sent, events).h, p)
  }

  ghost predicate ScansSurvive(h: RxState, p: Params) {
    GoodUsage(p, h.usage) && h.bufs != [] ==>
      forall canShrink: bool, s: SeqNum :: Found(Tick(h, p, canShrink).bufs, s) == Found(h.bufs, s)
  }

  /** In a pool that is not careful some run from the start loses a packet to
      housekeeping, for good. */
  lemma SomeRunLoses(p: Params, sent: Sent, n: nat) returns (events: seq<Event>, v: int)
    requires Settled(p) && GoodSize(p, n) && !Careful(p, n) && Wellformed(sent) && AllSplit(sent)
    ensures Possible(p, sent, events)
    ensures var r := Final(p, sent, events);
            |r.h.bufs| == n && TickLoses(r.h, p, Num(v)) && Lost(Step(r, p, sent, Housekeeping(true)), sent, v)
  {
    var r;
    events, r := RunToTheBrink(p, sent, n);
    v := n / 2 + 1 + n / 2 + 1;
    FilledIsBrimful(r, p, sent, n, n / 2 + 1);
    LeadsIsFinal(p, sent, events, r);
    BrinkLoses(r, p, sent, v);
  }

  lemma BrinkLoses(r: Run, p: Params, sent: Sent, v: int)
    requires RunOk(r, p, sent) && Brimful(r.h, p, v) && UnderWay(r, sent, v) && !Careful(p, |r.h.bufs|)
    ensures TickLoses(r.h, p, Num(v)) && Lost(Step(r, p, sent, Housekeeping(true)), sent, v)
  {
    BrimfulLoses(r.h, p, v);
    TickLosesLoses(r, p, sent, v);
  }

  lemma LeadsIsFinal(p: Params, sent: Sent, events: seq<Event>, r: Run)
    requires Settled(p) && Wellformed(sent) && Leads(Start(p), p, sent, events, r)
    ensures Possible(p, sent, events) && Final(p, sent, events) == r && RunOk(r, p, sent)
  {
    StartOk(p, sent);
  }

  function TwoPieces(): Sent {
    (v: int) => Packet([0, 0], 1)
  }

  lemma TwoPiecesSplit()
    ensures Wellformed(TwoPieces()) && AllSplit(TwoPieces())
  {
    forall v
      ensures Splits(TwoPieces()(v))
    {
      var x := TwoPieces()(v);
      assert x == Packet([0, 0], 1) && x.Frags() == 2;
    }
  }

  /** Over all runs from the start: housekeeping never loses a packet with a pool of `n`
      buffers if and only if the pool is careful. */
  lemma SafeInRunsIffCareful(p: Params, n: nat)
    requires Settled(p) && GoodSize(p, n)
    ensures SafeInRuns(p, n) <==> Careful(p, n)
  {
    if Careful(p, n) {
      CarefulIsSafe(p, n);
    } else {
      TwoPiecesSplit();
      var events, v := SomeRunLoses(p, TwoPieces(), n);
      LosingRunIsUnsafe(p, TwoPieces(), n, events, v);
    }
  }

  lemma LosingRunIsUnsafe(p: Params, sent: Sent, n: nat, events: seq<Event>, v: int)
    requires Possible(p, sent, events) && |Final(p, sent, events).h.bufs| == n
    requires TickLoses(Final(p, sent, events).h, p, Num(v))
    ensures !SafeInRuns(p, n)
  {
    LossIsSeen(Final(p, sent, events).h, p, Num(v));
  }

  lemma CarefulIsSafe(p: Params, n: nat)
    requires Settled(p) && GoodSize(p, n) && Careful(p, n)
    ensures SafeInRuns(p, n)
  {
    forall sent: Sent, events: seq<Event> | Possible(p, sent, events) && |Final(p, sent, events).h.bufs| == n
      ensures ScansSurvive(Final(p, sent, events).h, p)
    {
      CarefulSurvives(Final(p, sent, events).h, p);
    }
  }

  lemma CarefulSurvives(h: RxState, p: Params)
    requires Settled(p) && GoodSize(p, |h.bufs|) && Careful(p, |h.bufs|)
    ensures ScansSurvive(h, p)
  {
    if GoodUsage(p, h.usage) {
      forall canShrink: bool, s: SeqNum
        ensures Found(Tick(h, p, canShrink).bufs, s) == Found(h.bufs, s)
      {
        TickLosesNothing(h, p, canShrink, s);
      }
    }
  }

  lemma LossIsSeen(h: RxState, p: Params, s: SeqNum)
    requires TickLoses(h, p, s)
    ensures !ScansSurvive(h, p)
  {
  }
}
