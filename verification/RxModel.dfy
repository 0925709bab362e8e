/** What the receiver knows of one sending host, as a value, and what each entry
    point of the receive path makes of it (libknet/host.c, libknet/threads_rx.c,
    libknet/onwire_v1.c). */
module RxModel {
  import opened Prelude
  import opened SeqNumbers
  import opened Fragmentation
  import opened Reassembly
  import opened DefragPool

  /** Sampled usage of the buffer pool. */
  datatype Usage = Usage(table: seq<nat>, samples: nat, index: nat)

  const TABLE_SIZE := 255

  datatype RxState = RxState(
    rx: SeqNum,
    seen: Ring,
    seenDefrag: Ring,
    bufs: seq<DefragBuf>,
    usage: Usage,
    gotData: bool,
    untimedRx: SeqNum,
    timedRx: SeqNum)

  function EmptyRing(): Ring {
    seq(4096, _ => false)
  }

  function NoUsage(): Usage {
    Usage(seq(TABLE_SIZE, _ => 0), 0, 0)
  }

  function Initial(p: Params): RxState {
    RxState(0, EmptyRing(), EmptyRing(), seq(p.minBufs, _ => Zeroed()), NoUsage(), false, 0, 0)
  }

  // ----- duplicate window

  /** Forget everything heard so far. */
  function Cleared(h: RxState, s: SeqNum): RxState {
    h.(rx := s, seen := EmptyRing(), seenDefrag := EmptyRing(),
       bufs := seq(|h.bufs|, _ => Zeroed()), usage := NoUsage())
  }

  /** The state a number is compared with: the first number ever heard is its own
      reference, a wipe may come first, and old buffers are released. */
  function Prepared(h: RxState, p: Params, s: SeqNum, clear: bool): RxState {
    var h1 := if clear then Cleared(h, s) else if h.rx == 0 then h.(rx := s) else h;
    h1.(bufs := Reclaim(h1.bufs, h1.rx, Reach(p, |h1.bufs|)))
  }

  function Moved(h: RxState, s: SeqNum): RxState {
    h.(rx := s, seen := Advance(h.seen, h.rx, s), seenDefrag := Advance(h.seenDefrag, h.rx, s))
  }

  /** Look a number up, moving the window on when it is new. */
  function Lookup(h: RxState, p: Params, s: SeqNum, defrag: bool, clear: bool): (r: (RxState, bool)) {
    var h1 := Prepared(h, p, s, clear);
    if InRing(h1.rx, s) then (h1, !(if defrag then h1.seenDefrag else h1.seen)[s % 4096])
    else (Moved(h1, s), true)
  }

  function Marked(h: RxState, s: SeqNum, defrag: bool): RxState {
    if defrag then h.(seenDefrag := h.seenDefrag[s % 4096 := true])
    else h.(seen := h.seen[s % 4096 := true])
  }

  // ----- choosing a buffer

  /** The buffer for a packet first heard of: a free one, else one of the new half
      of a doubled pool, else the one not touched for longest. */
  function Allocate(h: RxState, p: Params, canGrow: bool): (r: (RxState, nat))
    requires h.bufs != []
  {
    var free := FirstFree(h.bufs);
    if free < |h.bufs| then (h, free)
    else if |h.bufs| < p.maxBufs && canGrow then
      (h.(bufs := Grow(h.bufs), usage := NoUsage()), |h.bufs| + 1)
    else
      var o := OldestOf(h.bufs, |h.bufs|);
      (h.(bufs := h.bufs[o := Release(h.bufs[o])]), o)
  }

  /** The buffer for packet `s`, unless the packet was given up before. */
  function FindBuf(h: RxState, p: Params, s: SeqNum, canGrow: bool): (r: (RxState, Option<nat>))
    requires h.bufs != []
  {
    var i := FirstMatch(h.bufs, s);
    if i < |h.bufs| then (h, Some(i)) else
    var (h1, isNew) := Lookup(h, p, s, true, false);
    if !isNew then (h1, None) else
    var (h2, j) := Allocate(Marked(h1, s, true), p, canGrow);
    (h2, Some(j))
  }

  // ----- a data packet

  /** A fragment whose stores stay inside whatever buffer it may be given. */
  predicate Storable(bufs: seq<DefragBuf>, m: DataMsg) {
    && Fits(Zeroed(), m.body, m.fragNum, m.fragSeq)
    && forall i :: 0 <= i < |bufs| && bufs[i].inUse && bufs[i].pcktSeq == m.seqNum ==>
         Fits(bufs[i], m.body, m.fragNum, m.fragSeq)
  }

  /** The pool has room for the index a growing pool hands out. */
  predicate Roomy(h: RxState) {
    |h.bufs| >= 2
  }

  lemma FoundIsUsable(h: RxState, p: Params, m: DataMsg, canGrow: bool, now: nat)
    requires Roomy(h) && Storable(h.bufs, m)
    ensures var (h', i) := FindBuf(h, p, m.seqNum, canGrow);
            i.Some? ==> i.value < |h'.bufs| && Fits(Open(h'.bufs[i.value], m.seqNum, now), m.body, m.fragNum, m.fragSeq)
  {
  }

  /** A fragment arrives: the state, and the whole packet if this completes it. */
  function Defrag(h: RxState, p: Params, m: DataMsg, canGrow: bool, now: nat): (r: (RxState, Option<seq<Byte>>))
    requires Roomy(h) && Storable(h.bufs, m)
  {
    FoundIsUsable(h, p, m, canGrow, now);
    var (h1, i) := FindBuf(h, p, m.seqNum, canGrow);
    if i == None then (h1, None) else
    var (b, out) := Absorb(h1.bufs[i.value], m, now);
    (h1.(bufs := h1.bufs[i.value := b]), out)
  }

  /** What the environment decides while a data packet is handled: whether the pool
      can get more memory, whether the application takes the packet, the time. */
  datatype Env = Env(canGrow: bool, takes: bool, now: nat)

  /** After old buffers are released, the fragment fits wherever it may go. */
  predicate Processable(h: RxState, p: Params, m: DataMsg) {
    var h1 := Lookup(h.(gotData := true), p, m.seqNum, false, false).0;
    m.fragNum > 1 ==> Roomy(h1) && Storable(h1.bufs, m)
  }

  /** A data packet arrives: the state, and what is delivered. */
  function ProcessData(h: RxState, p: Params, m: DataMsg, env: Env): (r: (RxState, Option<seq<Byte>>))
    requires Processable(h, p, m)
  {
    var (h1, isNew) := Lookup(h.(gotData := true), p, m.seqNum, false, false);
    if !isNew then (h1, None) else
    var (h2, whole) :=
      if m.fragNum > 1 then Defrag(h1, p, m, env.canGrow, env.now) else (h1, Some(m.body));
    if whole.Some? && env.takes then (Marked(h2, m.seqNum, false), whole) else (h2, None)
  }

  // ----- a ping

  /** An untimed ping is looked at once per number, and wipes the window when no
      data came since the last one. A timed ping only matters when it carries 0. */
  predicate Wipes(h: RxState, s: SeqNum, timed: bool) {
    if timed then s == 0 && s != h.timedRx else s != h.untimedRx && !h.gotData
  }

  function ProcessPing(h: RxState, p: Params, s: SeqNum, timed: bool): RxState {
    var wipes := Wipes(h, s, timed);
    if timed then
      var h1 := h.(timedRx := s);
      if wipes then Lookup(h1, p, s, false, true).0 else h1
    else
      var h1 := if s != h.untimedRx then h.(untimedRx := s, gotData := false) else h;
      Lookup(h1, p, s, false, wipes).0
  }

  // ----- shrinking

  function Sum(s: seq<nat>): nat {
    if s == [] then 0 else Sum(s[..|s| - 1]) + s[|s| - 1]
  }

  /** The samples forbid shrinking. */
  predicate Busy(p: Params, table: seq<nat>)
    requires 1 <= p.samples <= |table|
  {
    if p.average then Sum(table[..p.samples]) / p.samples > p.threshold
    else exists i :: 0 <= i < p.samples && table[i] > p.threshold
  }

  predicate GoodUsage(p: Params, u: Usage) {
    |u.table| == TABLE_SIZE && u.index < p.samples <= TABLE_SIZE
  }

  /** The sample just taken. */
  function Sampled(h: RxState, p: Params): (u: Usage)
    requires GoodUsage(p, h.usage) && h.bufs != []
    ensures GoodUsage(p, u)
  {
    var next := if h.usage.index + 1 == p.samples then 0 else h.usage.index + 1;
    Usage(h.usage.table[h.usage.index := Percent(|InUse(h.bufs)|, |h.bufs|)], h.usage.samples, next)
  }

  predicate MayShrink(h: RxState, p: Params)
    requires GoodUsage(p, h.usage) && h.bufs != []
  {
    h.usage.samples >= p.samples && !Busy(p, Sampled(h, p).table) && |h.bufs| != p.minBufs
  }

  function Tick(h: RxState, p: Params, canShrink: bool): RxState
    requires GoodUsage(p, h.usage) && h.bufs != []
  {
    var u := Sampled(h, p);
    if h.usage.samples < p.samples then h.(usage := u.(samples := u.samples + 1))
    else if !MayShrink(h, p) then h.(usage := u)
    else if !canShrink then h.(usage := u, bufs := Compact(h.bufs))
    else h.(usage := NoUsage(), bufs := Compact(h.bufs)[..|h.bufs| / 2])
  }
}
