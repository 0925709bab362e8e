/** The receive-side state of one host, updated in place (libknet/host.c,
    libknet/threads_rx.c, libknet/onwire_v1.c). */
module RxHost {
  import opened Prelude
  import opened SeqNumbers
  import opened Fragmentation
  import opened Reassembly
  import opened DefragPool
  import opened RxModel

  /** Between two marks of the ring, going forward from `rx`. */
  lemma NearSpan(rx: SeqNum, s: SeqNum, k: nat)
    requires !InRing(rx, s) && SeqDist(rx, s) > SEQ_MAX - CBUFFER_SIZE && k < 4096
    ensures (k - rx - 1) % 4096 < Ahead(rx, s) <==> InSpan(k, (rx + 1) % 4096, s % 4096)
  {
    var f := Ahead(rx, s);
    assert 1 <= f <= 4096;
    var tail, head := (rx + 1) % 4096, s % 4096;
    SpanLength(rx, s, f);
    SpanOffset(rx, k, tail);
  }

  lemma SpanOffset(rx: int, k: nat, tail: nat)
    requires k < 4096 && tail == (rx + 1) % 4096
    ensures (k - rx - 1) % 4096 == if k >= tail then k - tail else k - tail + 4096
  {
    var q := (rx + 1) / 4096;
    assert k - rx - 1 == (if k >= tail then k - tail else k - tail + 4096) + 4096 * (if k >= tail then -q else -q - 1);
  }

  lemma SpanLength(rx: int, s: int, f: nat)
    requires 1 <= f <= 4096 && (s - rx) % 65536 == f
    ensures var tail, head := (rx + 1) % 4096, s % 4096;
            f - 1 == if tail > head then head - tail + 4096 else head - tail
  {
    var tail, head := (rx + 1) % 4096, s % 4096;
    var q := (s - rx) / 65536;
    assert s - (rx + 1) == 65536 * q + (f - 1);
    assert head - tail == (f - 1) + 4096 * (16 * q - s / 4096 + (rx + 1) / 4096);
  }

  lemma FarSpan(rx: SeqNum, s: SeqNum)
    requires !InRing(rx, s) && SeqDist(rx, s) <= SEQ_MAX - CBUFFER_SIZE
    ensures Ahead(rx, s) >= 4096
  {
  }

  method Memset(a: array<bool>, from: nat, count: nat)
    requires from + count <= a.Length
    modifies a
    ensures forall k :: 0 <= k < a.Length ==> a[k] == (old(a[k]) && !(from <= k < from + count))
  {
    for i := 0 to count
      invariant forall k :: 0 <= k < a.Length ==> a[k] == (old(a[k]) && !(from <= k < from + i))
    {
      a[from + i] := false;
    }
  }

  predicate InSpan(k: nat, tail: nat, head: nat) {
    if tail > head then k >= tail || k <= head else tail <= k <= head
  }

  /** Clear the slots from `tail` to `head`, around the end of the ring if need be. */
  method ClearSpan(a: array<bool>, tail: nat, head: nat)
    requires a.Length == CBUFFER_SIZE && tail < CBUFFER_SIZE && head < CBUFFER_SIZE
    modifies a
    ensures forall k :: 0 <= k < a.Length ==> a[k] == (old(a[k]) && !InSpan(k, tail, head))
  {
    if tail > head {
      Memset(a, tail, CBUFFER_SIZE - tail);
      Memset(a, 0, head + 1);
    } else {
      Memset(a, tail, head - tail + 1);
    }
  }

  /** Note the size of a fragment, and park the last one while its place is not known. */
  method NoteFragment(o: DefragBuf, data: seq<Byte>, frags: nat, fragSeq: nat) returns (b: DefragBuf)
    requires Fits(o, data, frags, fragSeq)
    ensures fragSeq != frags ==> b == o.(fragSize := |data|)
    ensures fragSeq == frags && o.fragSize != 0 ==> b == o.(lastFragSize := |data|)
    ensures fragSeq == frags && o.fragSize == 0 ==>
              b == o.(lastFragSize := |data|, lastFirst := true, buf := Overwrite(o.buf, MAX_PACKET_SIZE - |data|, data))
  {
    b := o;
    if fragSeq == frags {
      b := b.(lastFragSize := |data|);
      // the offset of the last fragment depends on the size of the others
      if b.fragSize == 0 {
        b := b.(lastFirst := true, buf := Overwrite(b.buf, MAX_PACKET_SIZE - |data|, data));
      }
    } else {
      b := b.(fragSize := |data|);
    }
  }

  method CopyFragment(o: DefragBuf, data: seq<Byte>, fragSeq: nat) returns (b: DefragBuf)
    requires |o.buf| == DATABUF_SIZE && 1 <= fragSeq && (fragSeq - 1) * o.fragSize + |data| <= DATABUF_SIZE
    ensures b == if o.fragSize != 0 then o.(buf := Overwrite(o.buf, (fragSeq - 1) * o.fragSize, data)) else o
  {
    b := o;
    if b.fragSize != 0 {
      b := b.(buf := Overwrite(b.buf, (fragSeq - 1) * b.fragSize, data));
    }
  }

  /** Copy a fragment the buffer does not have yet to where it belongs. */
  method PlaceFragment(o: DefragBuf, data: seq<Byte>, frags: nat, fragSeq: nat) returns (b: DefragBuf)
    requires Fits(o, data, frags, fragSeq)
    ensures b == Store(o, data, frags, fragSeq)
  {
    b := NoteFragment(o, data, frags, fragSeq);
    assert b.fragSize == if fragSeq == frags then o.fragSize else |data|;
    b := CopyFragment(b, data, fragSeq);
    b := b.(fragRecv := b.fragRecv + 1, fragMap := b.fragMap[fragSeq := true]);
  }

  /** Put a fragment into the buffer chosen for it. */
  method StoreFragment(defragBuf: DefragBuf, m: DataMsg, now: nat) returns (b: DefragBuf, whole: Option<seq<Byte>>)
    requires Fits(Open(defragBuf, m.seqNum, now), m.body, m.fragNum, m.fragSeq)
    ensures (b, whole) == Absorb(defragBuf, m, now)
  {
    b, whole := defragBuf, None;
    if !b.inUse {
      b := Zeroed();
      b := b.(inUse := true, pcktSeq := m.seqNum);
    }
    b := b.(lastUpdate := now);
    assert b == Open(defragBuf, m.seqNum, now);
    if b.fragMap[m.fragSeq] {
      return;
    }
    b := PlaceFragment(b, m.body, m.fragNum, m.fragSeq);
    if b.fragRecv == m.fragNum {
      var data := TakePacket(b, m.fragNum);
      whole := Some(data);
      b := b.(inUse := false);
    }
  }

  /** Copy the whole packet out, after moving a parked last fragment. */
  method TakePacket(b: DefragBuf, frags: nat) returns (data: seq<Byte>)
    requires |b.buf| == DATABUF_SIZE && 1 <= frags && b.lastFragSize <= MAX_PACKET_SIZE
    requires (frags - 1) * b.fragSize + b.lastFragSize <= DATABUF_SIZE
    ensures data == Assemble(b, frags)
  {
    var at := (frags - 1) * b.fragSize;
    var buf := b.buf;
    if b.lastFirst {
      buf := Overwrite(buf, at, buf[MAX_PACKET_SIZE - b.lastFragSize..MAX_PACKET_SIZE]);
    }
    data := buf[..at + b.lastFragSize];
  }

  /** The first `i` buffers are compacted, `x` of them were in use. */
  ghost predicate Compacted(before: seq<DefragBuf>, now: seq<DefragBuf>, i: nat, x: nat)
    requires i <= |before|
  {
    x == |InUse(before[..i])| && now == InUse(before[..i]) + before[x..]
  }

  lemma CompactMore(before: seq<DefragBuf>, now: seq<DefragBuf>, i: nat, x: nat)
    requires i < |before| && Compacted(before, now, i, x)
    ensures x <= i && |now| == |before| && now[i] == before[i]
    ensures if before[i].inUse then Compacted(before, now[x := before[i]], i + 1, x + 1)
            else Compacted(before, now, i + 1, x)
  {
    var used := InUse(before[..i]);
    assert before[..i + 1][..i] == before[..i];
    if before[i].inUse {
      assert now[x := before[i]] == used + [before[i]] + before[x + 1..];
    }
  }

  /** What remains to be done once the first `i` buffers are compacted into `x`. */
  ghost function CompactFrom(now: seq<DefragBuf>, i: nat, x: nat): seq<DefragBuf>
    requires x <= i <= |now|
    decreases |now| - i
  {
    if i == |now| then now
    else if now[i].inUse then CompactFrom(now[x := now[i]], i + 1, x + 1)
    else CompactFrom(now, i + 1, x)
  }

  lemma {:induction false} CompactRest(before: seq<DefragBuf>, now: seq<DefragBuf>, i: nat, x: nat)
    requires x <= i <= |before| && |now| == |before| && Compacted(before, now, i, x)
    ensures CompactFrom(now, i, x) == Compact(before)
    decreases |before| - i
  {
    if i == |before| {
      assert before[..i] == before;
    } else {
      CompactMore(before, now, i, x);
      if before[i].inUse {
        CompactRest(before, now[x := before[i]], i + 1, x + 1);
      } else {
        CompactRest(before, now, i + 1, x);
      }
    }
  }

  lemma {:induction false} CompactAll(before: seq<DefragBuf>)
    ensures CompactFrom(before, 0, 0) == Compact(before)
  {
    assert before[..0] == [] && before[0..] == before;
    CompactRest(before, before, 0, 0);
  }

  class Host {
    var circularBuffer: array<bool>
    var circularBufferDefrag: array<bool>
    var rxSeqNum: SeqNum
    var untimedRxSeqNum: SeqNum
    var timedRxSeqNum: SeqNum
    var gotData: bool
    var defragBufs: seq<DefragBuf>
    var usageTable: array<nat>
    var usageSamples: nat
    var usageIndex: nat

    ghost predicate Valid()
      reads this
    {
      && circularBuffer.Length == 4096 && circularBufferDefrag.Length == 4096
      && circularBuffer != circularBufferDefrag
      && usageTable.Length == TABLE_SIZE
    }

    ghost function Repr(): set<object>
      reads this
    {
      {this, circularBuffer, circularBufferDefrag, usageTable}
    }

    /** The state as a value. */
    ghost function View(): RxState
      reads this, Repr()
      requires Valid()
    {
      RxState(rxSeqNum, circularBuffer[..], circularBufferDefrag[..], defragBufs,
              Usage(usageTable[..], usageSamples, usageIndex), gotData, untimedRxSeqNum, timedRxSeqNum)
    }

    constructor (p: Params)
      ensures Valid() && fresh(Repr())
      ensures View() == Initial(p)
    {
      circularBuffer := new bool[4096](_ => false);
      circularBufferDefrag := new bool[4096](_ => false);
      rxSeqNum, untimedRxSeqNum, timedRxSeqNum, gotData := 0, 0, 0, false;
      defragBufs := seq(p.minBufs, _ => Zeroed());
      usageTable := new nat[TABLE_SIZE](_ => 0);
      usageSamples, usageIndex := 0, 0;
    }

    method ClearDefragBufsStats()
      requires Valid()
      modifies Repr()
      ensures Valid() && Repr() == old(Repr())
      ensures View() == old(View()).(usage := NoUsage())
    {
      for i := 0 to usageTable.Length
        invariant Valid() && Repr() == old(Repr())
        invariant forall k :: 0 <= k < i ==> usageTable[k] == 0
        invariant View() == old(View()).(usage := View().usage)
      {
        usageTable[i] := 0;
      }
      usageSamples, usageIndex := 0, 0;
    }

    method ClearCbuffers(rx: SeqNum)
      requires Valid()
      modifies Repr()
      ensures Valid() && Repr() == old(Repr())
      ensures View() == Cleared(old(View()), rx)
    {
      Memset(circularBuffer, 0, CBUFFER_SIZE);
      rxSeqNum := rx;
      Memset(circularBufferDefrag, 0, CBUFFER_SIZE);
      for i := 0 to |defragBufs|
        invariant Valid() && Repr() == old(Repr())
        invariant |defragBufs| == |old(defragBufs)|
        invariant forall k :: 0 <= k < i ==> defragBufs[k] == Zeroed()
        invariant View() == old(View()).(rx := rx, seen := EmptyRing(), seenDefrag := EmptyRing(), bufs := defragBufs)
      {
        defragBufs := defragBufs[i := Zeroed()];
      }
      ClearDefragBufsStats();
    }

    method ReclaimOldDefragBufs(p: Params, seqNum: SeqNum)
      requires Valid() && Reach(p, |defragBufs|) <= 65533
      modifies this`defragBufs
      ensures Valid()
      ensures defragBufs == Reclaim(old(defragBufs), seqNum, Reach(p, |old(defragBufs)|))
    {
      var head: SeqNum := (seqNum + 1) % 65536;
      var tail: SeqNum;
      if p.maxBufs > |defragBufs| {
        tail := (seqNum - (p.maxBufs + 1)) % 65536;
      } else {
        tail := (seqNum - (|defragBufs| + 1)) % 65536;
      }
      ghost var reach := Reach(p, |defragBufs|);
      ReleaseOutside(head, tail);
      forall i | 0 <= i < |defragBufs|
        ensures defragBufs[i] == Reclaim(old(defragBufs), seqNum, reach)[i]
      {
        ExpiredIsTooOld(seqNum, reach, old(defragBufs)[i].pcktSeq);
      }
    }

    method ReleaseOutside(head: SeqNum, tail: SeqNum)
      modifies this`defragBufs
      ensures |defragBufs| == |old(defragBufs)|
      ensures forall k :: 0 <= k < |defragBufs| ==>
                var b := old(defragBufs)[k];
                defragBufs[k] == if b.inUse && Outside(head, tail, b.pcktSeq) then Release(b) else b
    {
      ghost var before := defragBufs;
      for i := 0 to |defragBufs|
        invariant |defragBufs| == |before|
        invariant forall k :: 0 <= k < i ==>
                    var b := before[k];
                    defragBufs[k] == if b.inUse && Outside(head, tail, b.pcktSeq) then Release(b) else b
        invariant forall k :: i <= k < |before| ==> defragBufs[k] == before[k]
      {
        if defragBufs[i].inUse {
          var q := defragBufs[i].pcktSeq;
          // the newest number has rolled over to 0
          if tail > head {
            if q >= head && q <= tail {
              defragBufs := defragBufs[i := defragBufs[i].(inUse := false)];
            }
          } else {
            if q >= head || q <= tail {
              defragBufs := defragBufs[i := defragBufs[i].(inUse := false)];
            }
          }
        }
      }
    }

    method SeqNumLookup(p: Params, seqNum: SeqNum, defragBuf: bool, clearBuf: bool) returns (isNew: bool)
      requires Valid() && Reach(p, |defragBufs|) <= 65533
      modifies Repr()
      ensures Valid() && Repr() == old(Repr())
      ensures (View(), isNew) == Lookup(old(View()), p, seqNum, defragBuf, clearBuf)
    {
      if rxSeqNum == 0 {
        rxSeqNum := seqNum;
      }
      if clearBuf {
        ClearCbuffers(seqNum);
      }
      ReclaimOldDefragBufs(p, rxSeqNum);
      ghost var h1 := View();
      assert h1 == Prepared(old(View()), p, seqNum, clearBuf);

      var seqDist: SeqNum;
      if seqNum < rxSeqNum {
        seqDist := (SEQ_MAX - seqNum + rxSeqNum) % 65536;
      } else {
        seqDist := (rxSeqNum - seqNum) % 65536;
      }
      var head := seqNum % CBUFFER_SIZE;
      if seqDist < CBUFFER_SIZE {
        isNew := if !defragBuf then !circularBuffer[head] else !circularBufferDefrag[head];
        return;
      }
      MoveWindow(seqNum, seqDist, head);
      isNew := true;
    }

    /** The part of the lookup that forgets the numbers the window leaves behind. */
    method MoveWindow(seqNum: SeqNum, seqDist: SeqNum, head: nat)
      requires Valid() && !InRing(rxSeqNum, seqNum)
      requires seqDist == SeqDist(rxSeqNum, seqNum) && head == seqNum % CBUFFER_SIZE
      modifies Repr()
      ensures Valid() && Repr() == old(Repr())
      ensures View() == Moved(old(View()), seqNum)
    {
      ghost var h1 := View();
      var far := seqDist <= SEQ_MAX - CBUFFER_SIZE;
      if far {
        Memset(circularBuffer, 0, CBUFFER_SIZE);
        Memset(circularBufferDefrag, 0, CBUFFER_SIZE);
        rxSeqNum := seqNum;
      }
      var tail := (rxSeqNum + 1) % CBUFFER_SIZE;
      ClearSpan(circularBuffer, tail, head);
      ClearSpan(circularBufferDefrag, tail, head);
      rxSeqNum := seqNum;
      forall k | 0 <= k < 4096
        ensures circularBuffer[k] == Moved(h1, seqNum).seen[k]
        ensures circularBufferDefrag[k] == Moved(h1, seqNum).seenDefrag[k]
      {
        if far {
          FarSpan(h1.rx, seqNum);
        } else {
          NearSpan(h1.rx, seqNum, k);
        }
      }
      assert View().seen == Moved(h1, seqNum).seen;
      assert View().seenDefrag == Moved(h1, seqNum).seenDefrag;
    }

    method SeqNumSet(seqNum: SeqNum, defragBuf: bool)
      requires Valid()
      modifies Repr()
      ensures Valid() && Repr() == old(Repr())
      ensures View() == Marked(old(View()), seqNum, defragBuf)
    {
      if !defragBuf {
        circularBuffer[seqNum % CBUFFER_SIZE] := true;
      } else {
        circularBufferDefrag[seqNum % CBUFFER_SIZE] := true;
      }
    }

    /** Double the pool if the limit and the memory allow it. */
    method ReallocDefragBuffers(p: Params, canGrow: bool) returns (grown: bool)
      requires Valid()
      modifies Repr()
      ensures Valid() && Repr() == old(Repr())
      ensures grown == (|old(defragBufs)| < p.maxBufs && canGrow)
      ensures View() == if grown then old(View()).(bufs := Grow(old(defragBufs)), usage := NoUsage()) else old(View())
    {
      if |defragBufs| < p.maxBufs {
        if !canGrow {
          return false;
        }
        var newBufs := defragBufs;
        for i := 0 to |defragBufs|
          invariant newBufs == defragBufs + seq(i, _ => Zeroed())
        {
          newBufs := newBufs + [Zeroed()];
        }
        defragBufs := newBufs;
        ClearDefragBufsStats();
        return true;
      }
      return false;
    }

    /** The index of the buffer to use, -1 if the packet was given up before. */
    method FindPcktDefragBuf(p: Params, seqNum: SeqNum, canGrow: bool) returns (idx: int)
      requires Valid() && Reach(p, |defragBufs|) <= 65533 && defragBufs != []
      modifies Repr()
      ensures Valid() && Repr() == old(Repr()) && idx >= -1
      ensures (View(), if idx < 0 then None else Some(idx)) == FindBuf(old(View()), p, seqNum, canGrow)
    {
      for i := 0 to |defragBufs|
        invariant forall j :: 0 <= j < i ==> !Match(seqNum)(defragBufs[j])
        invariant View() == old(View())
      {
        if defragBufs[i].inUse {
          if defragBufs[i].pcktSeq == seqNum {
            assert Match(seqNum)(defragBufs[i]);
            return i;
          }
        }
      }
      assert FirstMatch(defragBufs, seqNum) == |defragBufs|;
      var isNew := SeqNumLookup(p, seqNum, true, false);
      if !isNew {
        return -1;
      }
      SeqNumSet(seqNum, true);
      idx := TakeBuf(p, canGrow);
    }

    /** The first of the buffers least recently updated. */
    method OldestBuf() returns (oldest: nat)
      requires defragBufs != []
      ensures oldest == OldestOf(defragBufs, |defragBufs|)
    {
      oldest := 0;
      for i := 0 to |defragBufs|
        invariant if i == 0 then oldest == 0 else oldest == OldestOf(defragBufs, i)
      {
        if defragBufs[i].lastUpdate < defragBufs[oldest].lastUpdate {
          oldest := i;
        }
      }
    }

    /** A free buffer, growing the pool or giving up the oldest packet if need be. */
    method TakeBuf(p: Params, canGrow: bool) returns (idx: nat)
      requires Valid() && defragBufs != []
      modifies Repr()
      ensures Valid() && Repr() == old(Repr())
      ensures (View(), idx) == Allocate(old(View()), p, canGrow)
    {
      var curAllocated := |defragBufs|;
      for i := 0 to |defragBufs|
        invariant forall j :: 0 <= j < i ==> defragBufs[j].inUse
        invariant View() == old(View())
      {
        if !defragBufs[i].inUse {
          return i;
        }
      }
      var grown := ReallocDefragBuffers(p, canGrow);
      if grown {
        return curAllocated + 1;
      }
      var oldest := OldestBuf();
      defragBufs := defragBufs[oldest := defragBufs[oldest].(inUse := false)];
      return oldest;
    }

    /** A fragment of packet `m.seqNum`; the whole packet if it was the last missing. */
    method PcktDefrag(p: Params, m: DataMsg, canGrow: bool, now: nat) returns (whole: Option<seq<Byte>>)
      requires Valid() && Reach(p, |defragBufs|) <= 65533
      requires Roomy(View()) && Storable(defragBufs, m)
      modifies Repr()
      ensures Valid() && Repr() == old(Repr())
      ensures (View(), whole) == Defrag(old(View()), p, m, canGrow, now)
    {
      FoundIsUsable(View(), p, m, canGrow, now);
      var idx := FindPcktDefragBuf(p, m.seqNum, canGrow);
      if idx < 0 {
        return None;
      }
      var b;
      b, whole := StoreFragment(defragBufs[idx], m, now);
      defragBufs := defragBufs[idx := b];
    }

    /** A data packet, up to the point where the application has taken it. */
    method ProcessData(p: Params, m: DataMsg, env: Env) returns (delivered: Option<seq<Byte>>)
      requires Valid() && Reach(p, |defragBufs|) <= 65533 && Processable(View(), p, m)
      modifies Repr()
      ensures Valid() && Repr() == old(Repr())
      ensures (View(), delivered) == RxModel.ProcessData(old(View()), p, m, env)
    {
      gotData := true;
      var isNew := SeqNumLookup(p, m.seqNum, false, false);
      if !isNew {
        return None;
      }
      var data := m.body;
      if m.fragNum > 1 {
        var whole := PcktDefrag(p, m, env.canGrow, env.now);
        if whole == None {
          return None;
        }
        data := whole.value;
      }
      if !env.takes {
        return None;
      }
      SeqNumSet(m.seqNum, false);
      return Some(data);
    }

    /** A ping keeps the window in step with a sender that is silent otherwise. */
    method ProcessPingV1(p: Params, recvSeqNum: SeqNum, timed: bool)
      requires Valid() && Reach(p, |defragBufs|) <= 65533
      modifies Repr()
      ensures Valid() && Repr() == old(Repr())
      ensures View() == ProcessPing(old(View()), p, recvSeqNum, timed)
    {
      var wipeBufs := false;
      if !timed {
        if recvSeqNum != untimedRxSeqNum {
          untimedRxSeqNum := recvSeqNum;
          if gotData {
            gotData := false;
            wipeBufs := false;
          } else {
            wipeBufs := true;
          }
        }
        var _ := SeqNumLookup(p, recvSeqNum, false, wipeBufs);
      } else {
        if recvSeqNum != timedRxSeqNum {
          timedRxSeqNum := recvSeqNum;
          if recvSeqNum == 0 {
            var _ := SeqNumLookup(p, recvSeqNum, false, true);
          }
        }
      }
    }

    method CountInUse() returns (n: nat)
      ensures n == |InUse(defragBufs)|
    {
      n := 0;
      for i := 0 to |defragBufs|
        invariant n == |InUse(defragBufs[..i])|
      {
        assert defragBufs[..i + 1][..i] == defragBufs[..i];
        if defragBufs[i].inUse {
          n := n + 1;
        }
      }
      assert defragBufs[..|defragBufs|] == defragBufs;
    }

    /** The samples say the pool is too busy to shrink. */
    method TooBusy(p: Params) returns (busy: bool)
      requires Valid() && 1 <= p.samples <= TABLE_SIZE
      ensures busy == Busy(p, usageTable[..])
    {
      if p.average {
        var sum := 0;
        for i := 0 to p.samples
          invariant sum == Sum(usageTable[..i])
        {
          assert usageTable[..i + 1][..i] == usageTable[..i];
          sum := sum + usageTable[i];
        }
        assert usageTable[..][..p.samples] == usageTable[..p.samples];
        return sum / p.samples > p.threshold;
      }
      busy := false;
      for i := 0 to p.samples
        invariant busy <==> exists k :: 0 <= k < i && usageTable[..][k] > p.threshold
      {
        if usageTable[i] > p.threshold {
          assert usageTable[..][i] > p.threshold;
          busy := true;
        }
      }
    }

    /** Move the used buffers to the front, in place. */
    method CompactBufs()
      requires Valid()
      modifies this`defragBufs
      ensures defragBufs == Compact(old(defragBufs))
    {
      CompactAll(defragBufs);
      var x := 0;
      for i := 0 to |defragBufs|
        invariant x <= i && |defragBufs| == |old(defragBufs)|
        invariant CompactFrom(defragBufs, i, x) == Compact(old(defragBufs))
      {
        var b := defragBufs[i];
        if b.inUse {
          defragBufs := defragBufs[x := b];
          x := x + 1;
        }
      }
    }

    method RecordUsage(p: Params)
      requires Valid() && GoodUsage(p, View().usage) && defragBufs != []
      modifies Repr()
      ensures Valid() && Repr() == old(Repr())
      ensures View() == old(View()).(usage := Sampled(old(View()), p))
    {
      var inUseBufs := CountInUse();
      usageTable[usageIndex] := inUseBufs * 100 / |defragBufs|;
      usageIndex := usageIndex + 1;
      if usageIndex == p.samples {
        usageIndex := 0;
      }
    }

    /** One sampling period for this host: record usage, and halve the pool when it
        has been low for long enough. */
    method ShrinkDefragBuffers(p: Params, canShrink: bool)
      requires Valid() && GoodUsage(p, View().usage) && defragBufs != []
      modifies Repr()
      ensures Valid() && Repr() == old(Repr())
      ensures View() == Tick(old(View()), p, canShrink)
    {
      RecordUsage(p);
      if usageSamples < p.samples {
        usageSamples := usageSamples + 1;
        return;
      }
      var busy := TooBusy(p);
      if busy {
        return;
      }
      if |defragBufs| == p.minBufs {
        return;
      }
      CompactBufs();
      if !canShrink {
        return;
      }
      defragBufs := defragBufs[..|defragBufs| / 2];
      ClearDefragBufsStats();
    }
  }
}
