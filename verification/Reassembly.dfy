/** One reassembly buffer and the packet rebuilt in it (libknet/threads_rx.c). */
module Reassembly {
  import opened Prelude
  import opened Arithmetic
  import opened SeqNumbers
  import opened Fragmentation

  /** The payload area plus room for one header. */
  const DATABUF_SIZE := 65562

  /** A reassembly buffer. It is copied as a whole when the pool is compacted. */
  datatype DefragBuf = DefragBuf(
    buf: seq<Byte>,
    inUse: bool,
    pcktSeq: SeqNum,
    fragRecv: nat,
    fragMap: seq<bool>,
    lastFirst: bool,
    fragSize: nat,
    lastFragSize: nat,
    lastUpdate: nat)

  function Zeroed(): DefragBuf {
    DefragBuf(seq(DATABUF_SIZE, _ => 0), false, 0, 0, seq(FRAG_MAX, _ => false), false, 0, 0, 0)
  }

  /** Copy `data` over `buf` at offset `at`. */
  function Overwrite(buf: seq<Byte>, at: nat, data: seq<Byte>): (r: seq<Byte>)
    requires at + |data| <= |buf|
    ensures |r| == |buf|
  {
    buf[..at] + data + buf[at + |data|..]
  }

  lemma OverwriteWrites(buf: seq<Byte>, at: nat, data: seq<Byte>)
    requires at + |data| <= |buf|
    ensures Overwrite(buf, at, data)[at..at + |data|] == data
  {
  }

  lemma OverwriteKeeps(buf: seq<Byte>, at: nat, data: seq<Byte>, lo: nat, hi: nat)
    requires at + |data| <= |buf|
    requires lo <= hi <= at || at + |data| <= lo <= hi <= |buf|
    ensures Overwrite(buf, at, data)[lo..hi] == buf[lo..hi]
  {
  }

  /** A fragment the buffer can take without writing outside itself. */
  predicate Fits(b: DefragBuf, data: seq<Byte>, frags: nat, fragSeq: nat) {
    && |b.buf| == DATABUF_SIZE && |b.fragMap| == FRAG_MAX
    && 1 <= fragSeq <= frags < FRAG_MAX
    && |data| <= MAX_PACKET_SIZE
    && b.lastFragSize <= MAX_PACKET_SIZE
    && (var size := if fragSeq == frags then b.fragSize else |data|;
        && (fragSeq - 1) * size + |data| <= DATABUF_SIZE
        && (frags - 1) * size + (if fragSeq == frags then |data| else b.lastFragSize) <= DATABUF_SIZE)
  }

  /** Store a fragment that is not in the buffer yet. The last fragment is parked
      at the end of the payload area while the common fragment size is unknown. */
  function Store(b: DefragBuf, data: seq<Byte>, frags: nat, fragSeq: nat): DefragBuf
    requires Fits(b, data, frags, fragSeq)
  {
    var last := fragSeq == frags;
    var park := last && b.fragSize == 0;
    var size := if last then b.fragSize else |data|;
    var parked := if park then Overwrite(b.buf, MAX_PACKET_SIZE - |data|, data) else b.buf;
    b.(buf := if size != 0 then Overwrite(parked, (fragSeq - 1) * size, data) else parked,
       fragSize := size,
       lastFragSize := if last then |data| else b.lastFragSize,
       lastFirst := b.lastFirst || park,
       fragRecv := b.fragRecv + 1,
       fragMap := b.fragMap[fragSeq := true])
  }

  /** The whole packet, once all fragments are stored. */
  function Assemble(b: DefragBuf, frags: nat): seq<Byte>
    requires |b.buf| == DATABUF_SIZE && 1 <= frags && b.lastFragSize <= MAX_PACKET_SIZE
    requires (frags - 1) * b.fragSize + b.lastFragSize <= DATABUF_SIZE
  {
    var at := (frags - 1) * b.fragSize;
    var buf := if b.lastFirst then
                 Overwrite(b.buf, at, b.buf[MAX_PACKET_SIZE - b.lastFragSize..MAX_PACKET_SIZE])
               else b.buf;
    buf[..at + b.lastFragSize]
  }

  /** A buffer that is free is wiped before it takes its first fragment. */
  function Open(b: DefragBuf, s: SeqNum, now: nat): DefragBuf {
    (if b.inUse then b else Zeroed().(inUse := true, pcktSeq := s)).(lastUpdate := now)
  }

  /** One fragment arrives at the buffer chosen for its packet. */
  function Absorb(b: DefragBuf, m: DataMsg, now: nat): (r: (DefragBuf, Option<seq<Byte>>))
    requires Fits(Open(b, m.seqNum, now), m.body, m.fragNum, m.fragSeq)
  {
    var o := Open(b, m.seqNum, now);
    if o.fragMap[m.fragSeq] then (o, None) else
    var st := Store(o, m.body, m.fragNum, m.fragSeq);
    if st.fragRecv == m.fragNum then (st.(inUse := false), Some(Assemble(st, m.fragNum)))
    else (st, None)
  }

  // ----- what a buffer holds

  function Received(b: DefragBuf): set<nat>
    requires |b.fragMap| == FRAG_MAX
  {
    set i: nat | i < FRAG_MAX && b.fragMap[i]
  }

  function AllFrags(n: nat): (s: set<nat>)
    ensures |s| == n && forall i: nat :: i in s <==> 1 <= i <= n
  {
    if n == 0 then {} else AllFrags(n - 1) + {n}
  }

  ghost predicate Splits(p: Packet) {
    p.Sendable() && 2 <= p.Frags() < FRAG_MAX
  }

  /** The stored fragments of `p`, other than the last, are in their place. */
  ghost predicate BodyInPlace(b: DefragBuf, p: Packet)
    requires Splits(p) && |b.buf| == DATABUF_SIZE && |b.fragMap| == FRAG_MAX
  {
    forall i | 1 <= i < p.Frags() && b.fragMap[i] :: Held(b, p, i)
  }

  ghost predicate Held(b: DefragBuf, p: Packet, i: nat)
    requires Splits(p) && |b.buf| == DATABUF_SIZE && 1 <= i < p.Frags()
  {
    PieceFits(p, i);
    b.buf[p.Start(i)..p.Start(i) + p.mtu] == p.Piece(i)
  }

  /** The last fragment is either parked or in its place. */
  ghost predicate TailInPlace(b: DefragBuf, p: Packet)
    requires Splits(p) && |b.buf| == DATABUF_SIZE && |b.fragMap| == FRAG_MAX
  {
    PieceFits(p, p.Frags());
    var n := |p.payload|;
    var tail := p.Piece(p.Frags());
    if !b.fragMap[p.Frags()] then !b.lastFirst && b.lastFragSize == 0
    else
      && b.lastFragSize == |tail|
      && if b.lastFirst then b.buf[MAX_PACKET_SIZE - |tail|..MAX_PACKET_SIZE] == tail
         else b.fragSize != 0 && b.buf[p.Start(p.Frags())..n] == tail
  }

  /** The map, the counter and the common fragment size agree. */
  ghost predicate Counted(b: DefragBuf, p: Packet)
    requires Splits(p) && |b.fragMap| == FRAG_MAX
  {
    && Received(b) <= AllFrags(p.Frags())
    && b.fragRecv == |Received(b)|
    && b.fragSize == (if Received(b) <= {p.Frags()} then 0 else p.mtu)
  }

  /** The buffer holds some fragments of `p`, and nothing else. */
  ghost predicate Holding(b: DefragBuf, p: Packet) {
    && Splits(p) && |b.buf| == DATABUF_SIZE && |b.fragMap| == FRAG_MAX
    && Counted(b, p)
    && BodyInPlace(b, p)
    && TailInPlace(b, p)
  }

  lemma ReceivedAfter(b: DefragBuf, i: nat)
    requires |b.fragMap| == FRAG_MAX && i < FRAG_MAX
    ensures Received(b.(fragMap := b.fragMap[i := true])) == Received(b) + {i}
  {
  }

  lemma EmptyHolds(p: Packet, s: SeqNum, now: nat)
    requires Splits(p)
    ensures Holding(Zeroed().(inUse := true, pcktSeq := s, lastUpdate := now), p)
    ensures Received(Zeroed().(inUse := true, pcktSeq := s, lastUpdate := now)) == {}
  {
    var b := Zeroed().(inUse := true, pcktSeq := s, lastUpdate := now);
    assert Received(b) == {};
  }

  /** The write of any fragment of `p` stays inside the buffer. */
  lemma HoldingFits(b: DefragBuf, p: Packet, i: nat)
    requires Holding(b, p) && 1 <= i <= p.Frags()
    ensures Fits(b, p.Piece(i), p.Frags(), i)
  {
    PieceFits(p, i);
    PieceFits(p, p.Frags());
    var f := p.Frags();
    assert (f - 1) * p.mtu == p.Start(f);
  }

  lemma PiecesApart(p: Packet, i: nat, j: nat)
    requires Splits(p) && 1 <= i < j <= p.Frags()
    ensures p.Start(i) + p.mtu <= p.Start(j)
  {
    PieceFits(p, i);
    MulMono(i, j - 1, p.mtu);
  }

  lemma StoreCounts(b: DefragBuf, p: Packet, i: nat)
    requires Splits(p) && |b.fragMap| == FRAG_MAX && Counted(b, p)
    requires 1 <= i <= p.Frags() && !b.fragMap[i] && Fits(b, p.Piece(i), p.Frags(), i)
    ensures Counted(Store(b, p.Piece(i), p.Frags(), i), p)
    ensures Received(Store(b, p.Piece(i), p.Frags(), i)) == Received(b) + {i}
  {
    PieceFits(p, i);
    StoreReceives(b, p.Piece(i), p.Frags(), i);
    CountedAfter(b, Store(b, p.Piece(i), p.Frags(), i), p, i);
  }

  lemma CountedAfter(b: DefragBuf, st: DefragBuf, p: Packet, i: nat)
    requires Splits(p) && |b.fragMap| == |st.fragMap| == FRAG_MAX && Counted(b, p) && 1 <= i <= p.Frags() && i !in Received(b)
    requires Received(st) == Received(b) + {i} && st.fragRecv == b.fragRecv + 1
    requires st.fragSize == if i == p.Frags() then b.fragSize else p.mtu
    ensures Counted(st, p)
  {
    OneMore(Received(b), i, p.Frags());
  }

  lemma StoreReceives(b: DefragBuf, data: seq<Byte>, frags: nat, i: nat)
    requires Fits(b, data, frags, i) && !b.fragMap[i]
    ensures var st := Store(b, data, frags, i);
            && |st.fragMap| == FRAG_MAX && Received(st) == Received(b) + {i} && i !in Received(b)
            && st.fragRecv == b.fragRecv + 1 && st.fragSize == if i == frags then b.fragSize else |data|
  {
    ReceivedAfter(b, i);
    var st := Store(b, data, frags, i);
    assert Received(st) == Received(b.(fragMap := st.fragMap));
  }

  /** A set of fragments and one new fragment, as far as the count and the common size
      are concerned. */
  lemma {:induction false} OneMore(have: set<nat>, i: nat, frags: nat)
    requires have <= AllFrags(frags) && i !in have && 1 <= i <= frags
    ensures have + {i} <= AllFrags(frags) && |have + {i}| == |have| + 1
    ensures have + {i} <= {frags} <==> i == frags && have <= {frags}
  {
    assert i in have + {i};
    if have + {i} <= {frags} {
      assert forall j :: j in have ==> j in have + {i};
    }
  }

  lemma StoreBodyPlaces(b: DefragBuf, p: Packet, i: nat)
    requires Holding(b, p) && 1 <= i < p.Frags() && Fits(b, p.Piece(i), p.Frags(), i)
    ensures BodyInPlace(Store(b, p.Piece(i), p.Frags(), i), p)
  {
    PieceFits(p, i);
    var st := Store(b, p.Piece(i), p.Frags(), i);
    assert |p.Piece(i)| == p.mtu;
    assert st.buf == Overwrite(b.buf, p.Start(i), p.Piece(i));
    OverwriteWrites(b.buf, p.Start(i), p.Piece(i));
    forall j | 1 <= j < p.Frags() && st.fragMap[j]
      ensures Held(st, p, j)
    {
      if j != i {
        assert Held(b, p, j);
        OtherStaysHeld(b, st, p, i, j);
      }
    }
  }

  lemma OtherStaysHeld(b: DefragBuf, st: DefragBuf, p: Packet, i: nat, j: nat)
    requires Splits(p) && 1 <= i < p.Frags() && 1 <= j < p.Frags() && i != j
    requires |b.buf| == DATABUF_SIZE && Held(b, p, j) && p.Start(i) + |p.Piece(i)| <= DATABUF_SIZE
    requires st.buf == Overwrite(b.buf, p.Start(i), p.Piece(i))
    ensures Held(st, p, j)
  {
    PieceFits(p, i);
    PieceFits(p, j);
    PiecesApart(p, if j < i then j else i, if j < i then i else j);
    OverwriteKeeps(b.buf, p.Start(i), p.Piece(i), p.Start(j), p.Start(j) + p.mtu);
  }

  lemma StoreBodyKeepsTail(b: DefragBuf, p: Packet, i: nat)
    requires Holding(b, p) && 1 <= i < p.Frags() && Fits(b, p.Piece(i), p.Frags(), i)
    ensures TailInPlace(Store(b, p.Piece(i), p.Frags(), i), p)
  {
    var f := p.Frags();
    PieceFits(p, i);
    PieceFits(p, f);
    PiecesApart(p, i, f);
    var st := Store(b, p.Piece(i), f, i);
    assert st.buf == Overwrite(b.buf, p.Start(i), p.Piece(i));
    OverwriteKeeps(b.buf, p.Start(i), p.Piece(i), p.Start(f), |p.payload|);
    OverwriteKeeps(b.buf, p.Start(i), p.Piece(i), MAX_PACKET_SIZE - |p.Piece(f)|, MAX_PACKET_SIZE);
  }

  /** A fragment other than the last goes to its place and disturbs no other,
      parked or not. */
  lemma StoreBody(b: DefragBuf, p: Packet, i: nat)
    requires Holding(b, p) && 1 <= i < p.Frags() && !b.fragMap[i]
    requires Fits(b, p.Piece(i), p.Frags(), i)
    ensures Holding(Store(b, p.Piece(i), p.Frags(), i), p)
  {
    StoreBodyPlaces(b, p, i);
    StoreBodyKeepsTail(b, p, i);
    StoreCounts(b, p, i);
  }

  lemma StoreTailKeepsBody(b: DefragBuf, p: Packet)
    requires Holding(b, p) && Fits(b, p.Piece(p.Frags()), p.Frags(), p.Frags())
    ensures BodyInPlace(Store(b, p.Piece(p.Frags()), p.Frags(), p.Frags()), p)
  {
    var f := p.Frags();
    PieceFits(p, f);
    var st := Store(b, p.Piece(f), f, f);
    if b.fragSize == 0 {
      forall j | 1 <= j < f
        ensures !st.fragMap[j]
      {
        assert j !in Received(b);
      }
    } else {
      forall j | 1 <= j < f && st.fragMap[j]
        ensures Held(st, p, j)
      {
        PieceFits(p, j);
        PiecesApart(p, j, f);
        OverwriteKeeps(b.buf, p.Start(f), p.Piece(f), p.Start(j), p.Start(j) + p.mtu);
        assert Held(b, p, j);
      }
    }
  }

  /** The last fragment is parked when it is the first to arrive, and put in its
      place otherwise. */
  lemma StoreTail(b: DefragBuf, p: Packet)
    requires Holding(b, p) && !b.fragMap[p.Frags()]
    requires Fits(b, p.Piece(p.Frags()), p.Frags(), p.Frags())
    ensures Holding(Store(b, p.Piece(p.Frags()), p.Frags(), p.Frags()), p)
  {
    var f := p.Frags();
    PieceFits(p, f);
    StoreTailKeepsBody(b, p);
    StoreCounts(b, p, f);
    if b.fragSize == 0 {
      OverwriteWrites(b.buf, MAX_PACKET_SIZE - |p.Piece(f)|, p.Piece(f));
    } else {
      OverwriteWrites(b.buf, p.Start(f), p.Piece(f));
    }
  }

  /** A prefix of the buffer is right when all fragments up to it are. */
  lemma {:induction false} PrefixRight(b: DefragBuf, p: Packet, k: nat)
    requires Splits(p) && |b.buf| == DATABUF_SIZE && k < p.Frags()
    requires forall i | 1 <= i <= k :: Held(b, p, i)
    ensures p.Start(k + 1) <= |p.payload|
    ensures b.buf[..p.Start(k + 1)] == p.payload[..p.Start(k + 1)]
  {
    PieceFits(p, k + 1);
    if k > 0 {
      PrefixRight(b, p, k - 1);
      PieceFits(p, k);
      assert Held(b, p, k);
      SliceExtends(b.buf, p.payload, p.Start(k), p.Start(k + 1));
    }
  }

  lemma SliceExtends(a: seq<Byte>, b: seq<Byte>, lo: nat, hi: nat)
    requires lo <= hi <= |a| && hi <= |b| && a[..lo] == b[..lo] && a[lo..hi] == b[lo..hi]
    ensures a[..hi] == b[..hi]
  {
    assert a[..hi] == a[..lo] + a[lo..hi];
    assert b[..hi] == b[..lo] + b[lo..hi];
  }

  lemma WholePrefix(b: DefragBuf, p: Packet)
    requires Holding(b, p) && Received(b) == AllFrags(p.Frags())
    ensures p.Start(p.Frags()) <= |p.payload|
    ensures b.buf[..p.Start(p.Frags())] == p.payload[..p.Start(p.Frags())]
  {
    forall i | 1 <= i <= p.Frags() - 1
      ensures Held(b, p, i)
    {
      assert i in Received(b);
    }
    PrefixRight(b, p, p.Frags() - 1);
  }

  /** With every fragment stored, the assembled packet is the payload. */
  lemma AssembleWhole(b: DefragBuf, p: Packet)
    requires Holding(b, p) && Received(b) == AllFrags(p.Frags())
    ensures b.lastFragSize <= MAX_PACKET_SIZE
    ensures (p.Frags() - 1) * b.fragSize + b.lastFragSize <= DATABUF_SIZE
    ensures Assemble(b, p.Frags()) == p.payload
  {
    var f := p.Frags();
    PieceFits(p, f);
    WholePrefix(b, p);
    assert 1 in Received(b) && f in Received(b);
    assert b.fragMap[f] && b.fragSize == p.mtu;
    JoinTail(b.buf, b.lastFirst, p.payload, p.Start(f));
  }

  lemma JoinTail(buf: seq<Byte>, parked: bool, payload: seq<Byte>, at: nat)
    requires |buf| == DATABUF_SIZE && at <= |payload| <= MAX_PACKET_SIZE
    requires buf[..at] == payload[..at]
    requires payload[at..] == if parked then buf[MAX_PACKET_SIZE - (|payload| - at)..MAX_PACKET_SIZE] else buf[at..|payload|]
    ensures (if parked then Overwrite(buf, at, payload[at..]) else buf)[..|payload|] == payload
  {
    assert payload == payload[..at] + payload[at..];
    if !parked {
      assert buf[..|payload|] == buf[..at] + buf[at..|payload|];
    }
  }

  /** The buffer is free, or it holds some but not all fragments of `p`. */
  ghost predicate Ready(b: DefragBuf, p: Packet, s: SeqNum) {
    Splits(p) && (b.inUse ==> Holding(b, p) && b.pcktSeq == s && |Received(b)| < p.Frags())
  }

  ghost function Have(b: DefragBuf): set<nat>
    requires b.inUse ==> |b.fragMap| == FRAG_MAX
  {
    if b.inUse then Received(b) else {}
  }

  lemma OpenHolds(b: DefragBuf, p: Packet, s: SeqNum, now: nat)
    requires Ready(b, p, s)
    ensures var o := Open(b, s, now);
            Holding(o, p) && Received(o) == Have(b) && o.inUse && o.pcktSeq == s && o.lastUpdate == now
  {
    if !b.inUse {
      EmptyHolds(p, s, now);
    } else {
      assert Received(Open(b, s, now)) == Received(b);
      assert forall i | 1 <= i < p.Frags() && b.fragMap[i] :: Held(b, p, i);
    }
  }

  function Msg(p: Packet, s: SeqNum, i: nat): DataMsg
    requires p.Sendable() && 1 <= i <= p.Frags()
  {
    DataMsg(s, p.Frags(), i, p.Piece(i))
  }

  /** Every fragment of the packet, new or repeated, brings the buffer one step
      closer: the packet comes out, whole, with the last distinct fragment and
      never before. */
  lemma AbsorbStep(b: DefragBuf, p: Packet, s: SeqNum, i: nat, now: nat)
    requires Ready(b, p, s) && 1 <= i <= p.Frags()
    ensures Fits(Open(b, s, now), p.Piece(i), p.Frags(), i)
    ensures var (b', out) := Absorb(b, Msg(p, s, i), now);
            && Ready(b', p, s)
            && if Have(b) + {i} == AllFrags(p.Frags()) then out == Some(p.payload) && !b'.inUse
               else out == None && b'.inUse && b'.lastUpdate == now && Received(b') == Have(b) + {i}
  {
    var f := p.Frags();
    var o := Open(b, s, now);
    OpenHolds(b, p, s, now);
    HoldingFits(o, p, i);
    if o.fragMap[i] {
      assert Have(b) + {i} == Have(b);
    } else {
      var st := Store(o, p.Piece(i), f, i);
      if i < f {
        StoreBody(o, p, i);
      } else {
        StoreTail(o, p);
      }
      StoreCounts(o, p, i);
      if st.fragRecv == f {
        SubsetOfSameSize(Received(st), AllFrags(f));
        AssembleWhole(st, p);
      }
    }
  }

  lemma SubsetOfSameSize(a: set<nat>, b: set<nat>)
    requires a <= b && |a| == |b|
    ensures a == b
  {
    assert |b - a| == 0;
  }

  // ----- a whole packet

  function Next(b: DefragBuf, p: Packet, s: SeqNum, i: nat): (r: (DefragBuf, Option<seq<Byte>>))
    requires Ready(b, p, s) && 1 <= i <= p.Frags()
    ensures Ready(r.0, p, s)
  {
    AbsorbStep(b, p, s, i, 0);
    Absorb(b, Msg(p, s, i), 0)
  }

  ghost predicate Fragments(p: Packet, order: seq<nat>)
    requires p.Sendable()
  {
    forall k :: 0 <= k < |order| ==> 1 <= order[k] <= p.Frags()
  }

  function Elements(order: seq<nat>): set<nat> {
    set i | i in order
  }

  /** The buffer after the fragments `order` of `p` have arrived. */
  function After(p: Packet, s: SeqNum, order: seq<nat>): (b: DefragBuf)
    requires Splits(p) && Fragments(p, order)
    ensures Ready(b, p, s)
  {
    if order == [] then Zeroed() else Next(After(p, s, Front(order)), p, s, Last(order)).0
  }

  /** What it reports for the latest of them. */
  function Report(p: Packet, s: SeqNum, order: seq<nat>): Option<seq<Byte>>
    requires Splits(p) && Fragments(p, order) && order != []
  {
    Next(After(p, s, Front(order)), p, s, Last(order)).1
  }

  function Front(order: seq<nat>): seq<nat>
    requires order != []
  {
    order[..|order| - 1]
  }

  function Last(order: seq<nat>): nat
    requires order != []
  {
    order[|order| - 1]
  }

  lemma SplitLast(p: Packet, order: seq<nat>)
    requires p.Sendable() && Fragments(p, order) && order != []
    ensures Elements(order) == Elements(Front(order)) + {Last(order)}
    ensures Elements(order) <= AllFrags(p.Frags())
  {
    assert order == Front(order) + [Last(order)];
  }

  /** Until the packet is complete the buffer has exactly what has arrived. */
  lemma {:induction false} HaveAfter(p: Packet, s: SeqNum, order: seq<nat>)
    requires Splits(p) && Fragments(p, order) && Elements(order) != AllFrags(p.Frags())
    ensures Have(After(p, s, order)) == Elements(order)
  {
    if order != [] {
      SplitLast(p, order);
      HaveAfter(p, s, Front(order));
      AbsorbStep(After(p, s, Front(order)), p, s, Last(order), 0);
    }
  }

  lemma ReportLatest(p: Packet, s: SeqNum, order: seq<nat>)
    requires Splits(p) && Fragments(p, order) && order != []
    requires Elements(Front(order)) != AllFrags(p.Frags())
    ensures Report(p, s, order) == if Elements(order) == AllFrags(p.Frags()) then Some(p.payload) else None
  {
    SplitLast(p, order);
    HaveAfter(p, s, Front(order));
    AbsorbStep(After(p, s, Front(order)), p, s, Last(order), 0);
  }

  lemma NothingBefore(p: Packet, s: SeqNum, order: seq<nat>, k: nat)
    requires Splits(p) && Fragments(p, order) && 1 <= k < |order|
    requires Elements(Front(order)) != AllFrags(p.Frags())
    ensures Report(p, s, order[..k]) == None
  {
    var some := order[..k];
    SplitLast(p, order);
    SplitLast(p, some);
    assert some == Front(order)[..k];
    ReportLatest(p, s, some);
  }

  /** Round trip: whatever the order and the repeats, a fragment is reported as
      not enough until the last distinct one arrives, and then the payload comes
      out, byte for byte. */
  lemma RoundTrip(p: Packet, s: SeqNum, order: seq<nat>)
    requires Splits(p) && Fragments(p, order) && order != []
    requires Elements(Front(order)) != AllFrags(p.Frags())
    ensures Report(p, s, order) == if Elements(order) == AllFrags(p.Frags()) then Some(p.payload) else None
    ensures forall k :: 1 <= k < |order| ==> Report(p, s, order[..k]) == None
  {
    ReportLatest(p, s, order);
    forall k | 1 <= k < |order|
      ensures Report(p, s, order[..k]) == None
    {
      NothingBefore(p, s, order, k);
    }
  }
}
