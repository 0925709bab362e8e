/** Packet sizes on the wire: headers, padding, salt and hash (libknet/onwire.c),
    and the transmit buffers sized from them (libknet/handle.c). */
module OnwireSizes {
  import opened Arithmetic
  import opened Fragmentation

  const HEADER_ALL_SIZE := 26
  const HEADER_DATA_V1_SIZE := 14

  const PMTUD_SIZE := 65535
  const OVERHEAD_V4 := 20
  const OVERHEAD_V6 := 40
  const UDP_OVERHEAD := 8
  const SCTP_OVERHEAD := 28
  const MIN_MTU_V4 := 576
  const MIN_MTU_V6 := 1280

  /** Unsigned 64-bit sizes wrap around. */
  type Size = x: int | 0 <= x < 0x1_0000_0000_0000_0000

  function Wrap(x: int): Size {
    if 0 <= x < 0x1_0000_0000_0000_0000 then x else x % 0x1_0000_0000_0000_0000
  }

  /** Block size (0 without padding), salt and hash of the configuration in use. */
  datatype Crypto = Crypto(block: nat, salt: nat, hash: nat) {
    predicate Sane() {
      block + salt + hash < 0x10000
    }

    function Seal(): nat {
      salt + hash
    }
  }

  /** The size on the wire of `inlen` bytes, before protocol overhead. */
  function CalcDataOutlen(c: Crypto, inlen: Size): Size {
    var outlen: Size := if c.block != 0 then Wrap(inlen + (c.block - inlen % c.block)) else inlen;
    Wrap(outlen + c.salt + c.hash)
  }

  /** The largest payload for `inlen` bytes on the wire. */
  function CalcMaxDataOutlen(c: Crypto, inlen: Size): Size {
    var outlen: Size :=
      if c.block != 0 then
        var body: Size := Wrap(inlen - c.Seal());
        var aligned: Size := Wrap(body - (body % c.block + 1));
        Wrap(aligned + c.Seal())
      else inlen;
    Wrap(outlen - (HEADER_ALL_SIZE + c.Seal()))
  }

  function CalcMinMtu(c: Crypto): Size {
    CalcMaxDataOutlen(c, MIN_MTU_V4 - (OVERHEAD_V6 + SCTP_OVERHEAD))
  }

  /** The size on the wire of a packet with a payload of `x` bytes. */
  function PacketLen(c: Crypto, x: nat): Size {
    CalcDataOutlen(c, Wrap(x + HEADER_ALL_SIZE))
  }

  /** The size of the smallest packet: headers and no payload. It is also the size
      of a ping. */
  function MinWire(c: Crypto): Size {
    PacketLen(c, 0)
  }

  // ----- blocks

  lemma NextBlockWithin(k: nat, q: nat, b: nat, r: nat, t: nat)
    requires r < b && t < b
    ensures k * b + b <= q * b + t <==> k * b + r < q * b
  {
    Distribute(k, 1, b);
    if k < q {
      MulMono(k + 1, q, b);
    } else {
      MulMono(q, k, b);
    }
  }

  /** The next multiple of `b` above `y` is within `m` exactly when `y` is below the
      last multiple not above `m`. */
  lemma NextWithinLast(y: nat, m: nat, b: nat)
    requires b > 0
    ensures y + (b - y % b) <= m <==> y < m - m % b
  {
    NextBlockWithin(y / b, m / b, b, y % b, m % b);
  }

  lemma JustBelowMultiple(m: nat, b: nat)
    requires b > 0 && m - m % b > 0
    ensures (m - m % b - 1) % b == b - 1
  {
    var q := m / b;
    assert m - m % b == q * b;
    assert q * b - 1 == (q - 1) * b + (b - 1);
    RemainderIs(q - 1, b - 1, b);
  }

  /** Padding goes to the next multiple of the block size, and adds a whole block to
      data already aligned (PKCS#7, section 6.3 of RFC 5652). */
  lemma PadsToNextBlock(c: Crypto, y: nat)
    requires c.Sane() && c.block > 0 && y < 0x1_0000_0000_0000
    ensures var padded := CalcDataOutlen(c, y) - c.Seal();
            && y < padded <= y + c.block && padded % c.block == 0
            && (y % c.block == 0 ==> padded == y + c.block)
  {
    var k := y / c.block;
    assert y + (c.block - y % c.block) == (k + 1) * c.block + 0;
    RemainderIs(k + 1, 0, c.block);
  }

  // ----- the two functions are adjoint

  /** A payload is within the computed maximum exactly when its packet fits. */
  lemma FitsIffWithinMax(c: Crypto, x: nat, n: nat)
    requires c.Sane() && x < 0x1_0000_0000 && MinWire(c) <= n < 0x1_0000_0000_0000
    ensures x <= CalcMaxDataOutlen(c, n) <==> PacketLen(c, x) <= n
  {
    if c.block > 0 {
      NextWithinLast(HEADER_ALL_SIZE, n - c.Seal(), c.block);
      NextWithinLast(x + HEADER_ALL_SIZE, n - c.Seal(), c.block);
    }
  }

  /** For every payload at once, that holds if and only if the packet with no payload
      fits; below that the subtraction wraps around. */
  lemma Adjoint(c: Crypto, n: nat)
    requires c.Sane() && n < 0x1_0000_0000_0000
    ensures (forall x: nat | x < 0x1_0000_0000 :: x <= CalcMaxDataOutlen(c, n) <==> PacketLen(c, x) <= n)
       <==> MinWire(c) <= n
  {
    if MinWire(c) <= n {
      forall x: nat | x < 0x1_0000_0000
        ensures x <= CalcMaxDataOutlen(c, n) <==> PacketLen(c, x) <= n
      {
        FitsIffWithinMax(c, x, n);
      }
    }
  }

  lemma MaxIsBelow(c: Crypto, n: nat)
    requires c.Sane() && MinWire(c) <= n < 0x1_0000_0000
    ensures CalcMaxDataOutlen(c, n) + HEADER_ALL_SIZE <= n
    ensures PacketLen(c, CalcMaxDataOutlen(c, n)) <= n
  {
    if c.block > 0 {
      NextWithinLast(HEADER_ALL_SIZE, n - c.Seal(), c.block);
    }
    FitsIffWithinMax(c, CalcMaxDataOutlen(c, n), n);
  }

  /** More room never means a smaller payload. */
  lemma MaxIsMonotone(c: Crypto, n: nat, m: nat)
    requires c.Sane() && MinWire(c) <= n <= m < 0x1_0000_0000
    ensures CalcMaxDataOutlen(c, n) <= CalcMaxDataOutlen(c, m)
  {
    MaxIsBelow(c, n);
    FitsIffWithinMax(c, CalcMaxDataOutlen(c, n), m);
  }

  /** Less data never takes more room. */
  lemma OutlenIsMonotone(c: Crypto, x: nat, y: nat)
    requires c.Sane() && x <= y < 0x1_0000_0000
    ensures CalcDataOutlen(c, x) <= CalcDataOutlen(c, y)
  {
    if c.block > 0 {
      NextWithinLast(x, y + (c.block - y % c.block), c.block);
      PadsToNextBlock(c, y);
    }
  }

  /** The largest size not above `n` that a packet can have. */
  function Rounded(c: Crypto, n: Size): Size {
    PacketLen(c, CalcMaxDataOutlen(c, n))
  }

  lemma RoundedToBlock(c: Crypto, n: nat)
    requires c.Sane() && c.block > 0 && MinWire(c) <= n < 0x1_0000_0000
    ensures c.Seal() <= n && Rounded(c, n) == n - (n - c.Seal()) % c.block
  {
    var body := n - c.Seal();
    NextWithinLast(HEADER_ALL_SIZE, body, c.block);
    JustBelowMultiple(body, c.block);
  }

  /** Rounding goes down, by less than a block, to a size with the same largest
      payload, which rounds to itself. */
  lemma RoundedIsGridPoint(c: Crypto, n: nat)
    requires c.Sane() && MinWire(c) <= n < 0x1_0000_0000
    ensures MinWire(c) <= Rounded(c, n) <= n
    ensures if c.block == 0 then Rounded(c, n) == n else n < Rounded(c, n) + c.block
    ensures CalcMaxDataOutlen(c, Rounded(c, n)) == CalcMaxDataOutlen(c, n)
    ensures Rounded(c, Rounded(c, n)) == Rounded(c, n)
  {
    MaxIsBelow(c, n);
    var x := CalcMaxDataOutlen(c, n);
    OutlenIsMonotone(c, HEADER_ALL_SIZE, x + HEADER_ALL_SIZE);
    if c.block > 0 {
      RoundedToBlock(c, n);
    }
    MaxIsMonotone(c, Rounded(c, n), n);
    FitsIffWithinMax(c, x, Rounded(c, n));
  }

  // ----- the grid of packet sizes

  /** The distance between neighbouring packet sizes. */
  function GridStep(c: Crypto): nat {
    if c.block == 0 then 1 else c.block
  }

  // ----- the smallest MTU

  /** The failsafe MTU fits the smallest IPv4 and IPv6 links, over UDP and SCTP, if
      and only if a ping fits the tightest of the four. */
  lemma MinMtuFits(c: Crypto)
    requires c.Sane()
    ensures (forall len: nat | len <= CalcMinMtu(c) ::
               && PacketLen(c, len) + OVERHEAD_V6 + SCTP_OVERHEAD <= MIN_MTU_V4 < MIN_MTU_V6
               && PacketLen(c, len) + OVERHEAD_V4 + SCTP_OVERHEAD <= MIN_MTU_V4
               && PacketLen(c, len) + OVERHEAD_V4 + UDP_OVERHEAD <= MIN_MTU_V4)
       <==> MinWire(c) + OVERHEAD_V6 + SCTP_OVERHEAD <= MIN_MTU_V4
  {
    if MinWire(c) <= 508 {
      forall len: nat | len <= CalcMinMtu(c)
        ensures PacketLen(c, len) <= 508
      {
        MaxIsBelow(c, 508);
        FitsIffWithinMax(c, len, 508);
      }
    } else {
      assert PacketLen(c, 0) == MinWire(c);
    }
  }

  /** It is the largest MTU that does. */
  lemma MinMtuIsLargest(c: Crypto, len: nat)
    requires c.Sane() && MinWire(c) + OVERHEAD_V6 + SCTP_OVERHEAD <= MIN_MTU_V4 && len < 0x1_0000_0000
    ensures len <= CalcMinMtu(c) <==> PacketLen(c, len) + OVERHEAD_V6 + SCTP_OVERHEAD <= MIN_MTU_V4
  {
    FitsIffWithinMax(c, len, 508);
  }

  /** Any payload is cut into at most 254 pieces exactly for MTUs from 259 up. */
  lemma FewFragments(mtu: nat)
    requires mtu >= 1
    ensures CeilDiv(MAX_PACKET_SIZE, mtu) <= 254 <==> mtu >= 259
  {
    if mtu >= 259 {
      MulMono(259, mtu, 254);
      if CeilDiv(MAX_PACKET_SIZE, mtu) > 254 {
        MulMono(254, CeilDiv(MAX_PACKET_SIZE, mtu) - 1, mtu);
        assert false;
      }
    } else {
      var q := CeilDiv(MAX_PACKET_SIZE, mtu);
      MulMono(mtu, 258, q);
      assert 258 * q >= MAX_PACKET_SIZE;
    }
  }

  /** With block, salt and hash of at most 223 bytes together, every MTU from the
      failsafe up keeps the fragment count within its 8 bits and the map. */
  lemma MinMtuLimitsFragments(c: Crypto, data: seq<Byte>, mtu: nat)
    requires c.block + c.Seal() <= 223 && CalcMinMtu(c) <= mtu
    requires 1 <= |data| <= MAX_PACKET_SIZE
    ensures mtu >= 259 && CeilDiv(|data|, mtu) < FRAG_MAX
  {
    assert CalcMinMtu(c) >= 259;
    FewFragments(mtu);
    CeilDivMono(|data|, MAX_PACKET_SIZE, mtu);
  }

  // ----- transmit buffers

  /** The buffer for the encrypted form of fragment `i`, counted from 0. */
  function CryptBufSize(i: nat): nat {
    CeilDiv(MAX_PACKET_SIZE, i + 1) + HEADER_ALL_SIZE + 1024
  }

  /** Fragment `i` is never larger than its shrinking buffer, provided block, salt
      and hash take at most 1036 bytes together. */
  lemma CryptBufSuffices(c: Crypto, p: Packet, i: nat)
    requires c.block + c.Seal() <= 1036 && p.Sendable() && i < p.Frags()
    ensures CalcDataOutlen(c, Wrap(HEADER_DATA_V1_SIZE + |p.Piece(i + 1)|)) <= CryptBufSize(i)
  {
    LaterFragmentsAreSmaller(p, i + 1);
    var len := |p.Piece(i + 1)|;
    ShareBound(len, i + 1, MAX_PACKET_SIZE);
    if c.block > 0 {
      PadsToNextBlock(c, HEADER_DATA_V1_SIZE + len);
    }
  }
}
