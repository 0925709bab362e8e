/** Cutting a payload into fragments for transmission (libknet/onwire_v1.c). */
module Fragmentation {
  import opened Arithmetic
  import opened SeqNumbers

  type Byte = bv8

  const MAX_PACKET_SIZE := 65536

  /** Entries of the per-packet fragment map: fragment numbers run from 1 to 254. */
  const FRAG_MAX := 255

  /** A payload together with the data MTU it is cut with. */
  datatype Packet = Packet(payload: seq<Byte>, mtu: nat) {
    predicate Sendable() {
      1 <= |payload| <= MAX_PACKET_SIZE && 1 <= mtu
    }

    function Frags(): nat
      requires Sendable()
    {
      CeilDiv(|payload|, mtu)
    }

    /** Where fragment `i` starts in the payload. */
    function Start(i: nat): nat
      requires 1 <= i
    {
      (i - 1) * mtu
    }

    /** Fragment `i`, counted from 1. */
    function Piece(i: nat): seq<Byte>
      requires Sendable() && 1 <= i <= Frags()
    {
      PieceFits(this, i);
      if i < Frags() then payload[Start(i)..Start(i) + mtu] else payload[Start(i)..]
    }
  }

  /** Fragments tile the payload: all but the last are exactly `mtu` long, the
      last is not empty and not longer. */
  lemma PieceFits(p: Packet, i: nat)
    requires p.Sendable() && 1 <= i <= p.Frags()
    ensures p.Start(i) < |p.payload|
    ensures i < p.Frags() ==> p.Start(i) + p.mtu == p.Start(i + 1) <= p.Start(p.Frags())
    ensures i == p.Frags() ==> |p.payload| <= p.Start(i) + p.mtu
  {
    MulMono(i - 1, p.Frags() - 1, p.mtu);
    if i < p.Frags() {
      MulMono(i, p.Frags() - 1, p.mtu);
    }
  }

  /** The fields of a data packet that depend on the payload. */
  datatype DataMsg = DataMsg(seqNum: SeqNum, fragNum: nat, fragSeq: nat, body: seq<Byte>)

  /** What the network is given for one payload. */
  function Cut(p: Packet, s: SeqNum): (msgs: seq<DataMsg>)
    requires p.Sendable()
  {
    if p.Frags() == 1 then
      [DataMsg(s, 1, 0, p.payload)]
    else
      seq(p.Frags(), k requires 0 <= k < p.Frags() => DataMsg(s, p.Frags(), k + 1, p.Piece(k + 1)))
  }

  /** The fragment count is kept in 8 bits, so a caller must use an MTU that
      gives at most 255 pieces. */
  method PrepTxBufs(data: seq<Byte>, mtu: nat, s: SeqNum) returns (msgs: seq<DataMsg>)
    requires 1 <= |data| <= MAX_PACKET_SIZE && 1 <= mtu
    requires CeilDiv(|data|, mtu) <= 255
    ensures msgs == Cut(Packet(data, mtu), s)
  {
    var fragNum := CeilDiv(|data|, mtu);
    var fragLen := |data|;
    var fragIdx := 0;
    msgs := [];
    ghost var p := Packet(data, mtu);
    if fragNum > 1 {
      while fragIdx < fragNum
        invariant 0 <= fragIdx <= fragNum
        invariant fragLen == |data| - fragIdx * mtu
        invariant |msgs| == fragIdx && forall j :: 0 <= j < fragIdx ==> msgs[j] == Cut(p, s)[j]
      {
        CutAt(p, fragIdx);
        Distribute(fragIdx, 1, mtu);
        var len := if fragLen > mtu then mtu else fragLen;
        var base := mtu * fragIdx;
        msgs := msgs + [DataMsg(s, fragNum, fragIdx + 1, data[base..base + len])];
        // the last round may take this below zero; it is not read again
        fragLen := fragLen - mtu;
        fragIdx := fragIdx + 1;
      }
    } else {
      msgs := [DataMsg(s, fragNum, 0, data[..fragLen])];
      assert data[..fragLen] == data;
    }
  }

  /** Fragment `i`, counted from 0, in terms of what is left to send. */
  lemma CutAt(p: Packet, i: nat)
    requires p.Sendable() && i < p.Frags()
    ensures var left := |p.payload| - i * p.mtu;
            var len := if left > p.mtu then p.mtu else left;
            0 <= len && p.mtu * i + len <= |p.payload| && p.payload[p.mtu * i..p.mtu * i + len] == p.Piece(i + 1)
  {
    PieceFits(p, i + 1);
    assert p.mtu * i == i * p.mtu == p.Start(i + 1);
  }

  function Join(msgs: seq<DataMsg>): seq<Byte> {
    if msgs == [] then [] else Join(msgs[..|msgs| - 1]) + msgs[|msgs| - 1].body
  }

  /** Nothing is lost, repeated or reordered by the cut. */
  lemma CutLosesNothing(p: Packet, s: SeqNum)
    requires p.Sendable()
    ensures Join(Cut(p, s)) == p.payload
  {
    var msgs := Cut(p, s);
    if p.Frags() > 1 {
      PrefixOfCut(p, s, p.Frags());
      assert msgs[..p.Frags()] == msgs;
    } else {
      assert Join(msgs[..0]) == [];
    }
  }

  lemma {:induction false} PrefixOfCut(p: Packet, s: SeqNum, k: nat)
    requires p.Sendable() && p.Frags() > 1 && k <= p.Frags()
    ensures Join(Cut(p, s)[..k]) == if k < p.Frags() then p.payload[..Taken(p, k)] else p.payload
  {
    if k > 0 {
      PrefixOfCut(p, s, k - 1);
      var msgs := Cut(p, s);
      assert msgs[..k][..k - 1] == msgs[..k - 1] && msgs[k - 1].body == p.Piece(k);
      PieceExtends(p, k);
    }
  }

  lemma PieceExtends(p: Packet, k: nat)
    requires p.Sendable() && 1 <= k <= p.Frags()
    ensures p.payload[..Taken(p, k - 1)] + p.Piece(k) == if k < p.Frags() then p.payload[..Taken(p, k)] else p.payload
  {
    PieceFits(p, k);
    assert k < p.Frags() ==> Taken(p, k) == p.Start(k) + p.mtu;
  }

  function Taken(p: Packet, k: nat): (n: nat)
    requires p.Sendable() && k < p.Frags()
    ensures n <= |p.payload|
  {
    PieceFits(p, k + 1);
    p.Start(k + 1)
  }

  /** Fragment `i` of `n` carries at most an `i`-th part of the largest payload. */
  lemma LaterFragmentsAreSmaller(p: Packet, i: nat)
    requires p.Sendable() && 1 <= i <= p.Frags()
    ensures |p.Piece(i)| * i <= |p.payload|
  {
    PieceFits(p, i);
    var len := |p.Piece(i)|;
    assert len <= p.mtu;
    assert len * i == len * (i - 1) + len;
    assert len * (i - 1) <= p.mtu * (i - 1) by { MulMono(len, p.mtu, i - 1); }
  }
}
