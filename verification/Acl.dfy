/** Access lists of links that accept connections from anywhere
    (libknet/links_acl_ip.c). */
module Acl {
  import opened Prelude

  type Word = x: int | 0 <= x < 0x1_0000_0000

  /** An IPv6 address as four 32-bit words, most significant first. */
  datatype Ip6 = Ip6(w0: Word, w1: Word, w2: Word, w3: Word)

  datatype SockAddr = V4(port4: nat, ip4: Word) | V6(port6: nat, flow: Word, ip6: Ip6, scope: Word)

  datatype Kind = Address | Mask | Range

  datatype Entry = Entry(kind: Kind, accept: bool, addr1: SockAddr, addr2: Option<SockAddr>)

  // ----- matching

  /** Bit `i` of a word, the least significant first. */
  predicate Bit(x: nat, i: nat) {
    if i == 0 then x % 2 == 1 else Bit(x / 2, i - 1)
  }

  /** The bitwise and. */
  function And(x: nat, mask: nat): (r: nat)
    ensures r <= x
  {
    if x == 0 then 0 else 2 * And(x / 2, mask / 2) + if x % 2 == 1 && mask % 2 == 1 then 1 else 0
  }

  lemma {:induction false} ZeroHasNoBits(i: nat)
    ensures !Bit(0, i)
  {
    if i > 0 {
      ZeroHasNoBits(i - 1);
    }
  }

  lemma {:induction false} AndBits(x: nat, mask: nat, i: nat)
    ensures Bit(And(x, mask), i) <==> Bit(x, i) && Bit(mask, i)
    decreases i
  {
    if x == 0 {
      ZeroHasNoBits(i);
    } else if i > 0 {
      AndBits(x / 2, mask / 2, i - 1);
      assert And(x, mask) / 2 == And(x / 2, mask / 2);
    } else {
      assert And(x, mask) % 2 == if x % 2 == 1 && mask % 2 == 1 then 1 else 0;
    }
  }

  /** Different numbers differ in some bit. */
  lemma {:induction false} SomeBitDiffers(x: nat, y: nat) returns (i: nat)
    requires x != y
    ensures Bit(x, i) != Bit(y, i)
    decreases x + y
  {
    if x % 2 != y % 2 {
      i := 0;
    } else {
      i := SomeBitDiffers(x / 2, y / 2);
      i := i + 1;
    }
  }

  /** A number is its bits. */
  lemma {:induction false} SameBits(x: nat, y: nat)
    ensures x == y <==> forall i: nat :: Bit(x, i) == Bit(y, i)
  {
    if x != y {
      var i := SomeBitDiffers(x, y);
      assert Bit(x, i) != Bit(y, i);
    }
  }

  /** Every bit of `x` that the mask lets through is a bit of `y`, and `y` has no other. */
  lemma MaskedIs(x: nat, mask: nat, y: nat)
    ensures And(x, mask) == y <==> forall i: nat :: Bit(y, i) == (Bit(x, i) && Bit(mask, i))
  {
    SameBits(And(x, mask), y);
    forall i: nat
      ensures Bit(And(x, mask), i) == (Bit(x, i) && Bit(mask, i))
    {
      AndBits(x, mask, i);
    }
  }

  /** Two words side by side: a shift by 32 and an or. */
  function Halves(hi: Word, lo: Word): nat {
    hi * 0x1_0000_0000 + lo
  }

  /** 1, -1 or 0 as the first address is above, below or equal to the second. */
  function Ip6Cmp(a: Ip6, b: Ip6): int {
    var aHigh, aLow := Halves(a.w0, a.w1), Halves(a.w2, a.w3);
    var bHigh, bLow := Halves(b.w0, b.w1), Halves(b.w2, b.w3);
    if aHigh > bHigh then 1
    else if aHigh < bHigh then -1
    else if aLow > bLow then 1
    else if aLow < bLow then -1
    else 0
  }

  /** The address as one 128-bit number. */
  function Wide(a: Ip6): nat {
    ((a.w0 * 0x1_0000_0000 + a.w1) * 0x1_0000_0000 + a.w2) * 0x1_0000_0000 + a.w3
  }

  /** The comparison by halves is the numeric order of the 128-bit addresses. */
  lemma Ip6CmpIsNumeric(a: Ip6, b: Ip6)
    ensures Ip6Cmp(a, b) == if Wide(a) > Wide(b) then 1 else if Wide(a) < Wide(b) then -1 else 0
  {
    WideIsHalves(a);
    WideIsHalves(b);
  }

  lemma WideIsHalves(a: Ip6)
    ensures Wide(a) == Halves(a.w0, a.w1) * 0x1_0000_0000_0000_0000 + Halves(a.w2, a.w3)
    ensures Halves(a.w2, a.w3) < 0x1_0000_0000_0000_0000
  {
  }

  /** An entry with addresses of the family of `ip`, and two of them unless it is for
      a single address. */
  predicate Fits(e: Entry, v4: bool) {
    && e.addr1.V4? == v4
    && (e.kind != Address ==> e.addr2.Some?)
    && (e.addr2.Some? ==> e.addr2.value.V4? == v4)
  }

  function Masked(ip: Ip6, m: Ip6): Ip6 {
    Ip6(And(ip.w0, m.w0), And(ip.w1, m.w1), And(ip.w2, m.w2), And(ip.w3, m.w3))
  }

  predicate Matches(e: Entry, ip: SockAddr)
    requires Fits(e, ip.V4?)
  {
    match e.kind
    case Address => if ip.V4? then ip.ip4 == e.addr1.ip4 else ip.ip6 == e.addr1.ip6
    case Mask =>
      var m := e.addr2.value;
      if ip.V4? then And(ip.ip4, m.ip4) == e.addr1.ip4 else Masked(ip.ip6, m.ip6) == e.addr1.ip6
    case Range =>
      var top := e.addr2.value;
      if ip.V4? then e.addr1.ip4 <= ip.ip4 <= top.ip4
      else Ip6Cmp(ip.ip6, e.addr1.ip6) >= 0 && Ip6Cmp(ip.ip6, top.ip6) <= 0
  }

  /** A range holds exactly the addresses between its ends, as numbers. */
  lemma RangeIsNumeric(e: Entry, ip: SockAddr)
    requires Fits(e, false) && ip.V6? && e.kind == Range
    ensures Matches(e, ip) <==> Wide(e.addr1.ip6) <= Wide(ip.ip6) <= Wide(e.addr2.value.ip6)
  {
    Ip6CmpIsNumeric(ip.ip6, e.addr1.ip6);
    Ip6CmpIsNumeric(ip.ip6, e.addr2.value.ip6);
  }

  /** The same for IPv4. */
  lemma {:induction false} MatchesV4(e: Entry, ip: SockAddr)
    requires Fits(e, true) && ip.V4?
    ensures e.kind == Address ==> (Matches(e, ip) <==> ip.ip4 == e.addr1.ip4)
    ensures e.kind == Range ==> (Matches(e, ip) <==> e.addr1.ip4 <= ip.ip4 <= e.addr2.value.ip4)
    ensures e.kind == Mask ==>
              (Matches(e, ip) <==> forall i: nat :: Bit(e.addr1.ip4, i) == (Bit(ip.ip4, i) && Bit(e.addr2.value.ip4, i)))
  {
    if e.kind == Mask {
      MaskedIs(ip.ip4, e.addr2.value.ip4, e.addr1.ip4);
    }
  }

  /** A single IPv6 address matches as a number, a mask bit by bit in each word. */
  lemma {:induction false} MatchesV6(e: Entry, ip: SockAddr)
    requires Fits(e, false) && ip.V6?
    ensures e.kind == Address ==> (Matches(e, ip) <==> Wide(ip.ip6) == Wide(e.addr1.ip6))
    ensures e.kind == Mask ==>
              (Matches(e, ip) <==> forall i: nat ::
                 && Bit(e.addr1.ip6.w0, i) == (Bit(ip.ip6.w0, i) && Bit(e.addr2.value.ip6.w0, i))
                 && Bit(e.addr1.ip6.w1, i) == (Bit(ip.ip6.w1, i) && Bit(e.addr2.value.ip6.w1, i))
                 && Bit(e.addr1.ip6.w2, i) == (Bit(ip.ip6.w2, i) && Bit(e.addr2.value.ip6.w2, i))
                 && Bit(e.addr1.ip6.w3, i) == (Bit(ip.ip6.w3, i) && Bit(e.addr2.value.ip6.w3, i)))
  {
    if e.kind == Address {
      WideIsInjective(ip.ip6, e.addr1.ip6);
    } else if e.kind == Mask {
      var a, m := e.addr1.ip6, e.addr2.value.ip6;
      MaskedIs(ip.ip6.w0, m.w0, a.w0);
      MaskedIs(ip.ip6.w1, m.w1, a.w1);
      MaskedIs(ip.ip6.w2, m.w2, a.w2);
      MaskedIs(ip.ip6.w3, m.w3, a.w3);
    }
  }

  lemma HalvesAreInjective(hi: Word, lo: Word, hi': Word, lo': Word)
    ensures Halves(hi, lo) == Halves(hi', lo') <==> hi == hi' && lo == lo'
  {
  }

  lemma WideIsInjective(a: Ip6, b: Ip6)
    ensures Wide(a) == Wide(b) <==> a == b
  {
    Ip6CmpIsNumeric(a, b);
    HalvesAreInjective(a.w0, a.w1, b.w0, b.w1);
    HalvesAreInjective(a.w2, a.w3, b.w2, b.w3);
  }

  // ----- lists as values

  /** Two entries the library does not tell apart: a single address has no second. */
  predicate Same(a: Entry, b: Entry) {
    && a.addr1 == b.addr1 && a.kind == b.kind && a.accept == b.accept
    && (a.kind == Address || (b.addr2.Some? && a.addr2 == b.addr2))
  }

  /** What two entries that are not told apart have in common: all that counts. An entry
      for a single address may carry a second address that is never looked at. */
  lemma SameIsEqual(a: Entry, b: Entry)
    requires (a.kind != Address ==> a.addr2.Some?) && (b.kind != Address ==> b.addr2.Some?)
    ensures Same(a, b) <==> a.(addr2 := if a.kind == Address then None else a.addr2) == b.(addr2 := if b.kind == Address then None else b.addr2)
  {
  }

  ghost predicate OneFamily(s: seq<Entry>, v4: bool) {
    forall i :: 0 <= i < |s| ==> Fits(s[i], v4)
  }

  ghost predicate NoTwins(s: seq<Entry>) {
    forall i, j :: 0 <= i < j < |s| ==> !Same(s[i], s[j])
  }

  /** The first entry like `e` from `i` on; the length if there is none. */
  function FirstSame(s: seq<Entry>, e: Entry, i: nat): (r: nat)
    requires i <= |s|
    ensures i <= r <= |s|
    ensures forall j :: i <= j < r ==> !Same(s[j], e)
    ensures r < |s| ==> Same(s[r], e)
    decreases |s| - i
  {
    if i == |s| || Same(s[i], e) then i else FirstSame(s, e, i + 1)
  }

  /** The verdict on an address: that of the first entry that matches, else reject. */
  ghost predicate Verdict(s: seq<Entry>, ip: SockAddr)
    requires OneFamily(s, ip.V4?)
  {
    s != [] && if Matches(s[0], ip) then s[0].accept else Verdict(s[1..], ip)
  }

  lemma {:induction false} VerdictIs(s: seq<Entry>, ip: SockAddr, k: nat)
    requires OneFamily(s, ip.V4?) && k <= |s|
    requires (forall j :: 0 <= j < k ==> !Matches(s[j], ip)) && (k < |s| ==> Matches(s[k], ip))
    ensures Verdict(s, ip) <==> k < |s| && s[k].accept
  {
    if k > 0 {
      VerdictIs(s[1..], ip, k - 1);
    }
  }

  function InsertAt<T>(s: seq<T>, at: nat, x: T): (r: seq<T>)
    requires at <= |s|
    ensures |r| == |s| + 1
  {
    s[..at] + [x] + s[at..]
  }

  function RemoveAt<T>(s: seq<T>, at: nat): (r: seq<T>)
    requires at < |s|
    ensures |r| == |s| - 1
  {
    s[..at] + s[at + 1..]
  }

  /** Where an entry asked for at `index` ends up in a list of `n`. */
  function Landing(index: int, n: nat): (at: nat)
    ensures at <= n
  {
    if n == 0 || index == 0 then 0
    else if index < 0 || index + 2 > n then n
    else index + 2
  }

  /** The documented position is the real one only at the two ends of the list. */
  lemma LandsWhereAskedIff(index: nat, n: nat)
    requires index <= n
    ensures Landing(index, n) == index <==> index == 0 || index == n
  {
  }

  /** For any other position asked for, the entry goes behind two of the entries that were
      there or after it, or behind all of them; -1 appends. */
  lemma LandingIs(index: int, n: nat)
    ensures 0 < index < n ==> Landing(index, n) - index == if n - index >= 2 then 2 else n - index
    ensures index < 0 || index >= n ==> Landing(index, n) == n || index == 0
    ensures Landing(0, n) == 0
  {
  }

  /** Refusing an entry that is there already loses nothing: further down the list it would
      change no verdict. */
  lemma {:induction false} RefusalLosesNothing(s: seq<Entry>, e: Entry, ip: SockAddr)
    requires OneFamily(s, ip.V4?) && Fits(e, ip.V4?) && FirstSame(s, e, 0) < |s|
    ensures OneFamily(s + [e], ip.V4?) && Verdict(s + [e], ip) == Verdict(s, ip)
  {
    var k := FirstSame(s, e, 0);
    var all := s + [e];
    assert Matches(s[k], ip) == Matches(e, ip);
    if j :| 0 <= j < |s| && Matches(s[j], ip) {
      var i := FirstMatching(s, ip, 0);
      assert forall m :: 0 <= m < i ==> all[m] == s[m];
      VerdictIs(s, ip, i);
      VerdictIs(all, ip, i);
    } else {
      VerdictIs(s, ip, |s|);
      VerdictIs(all, ip, |all|);
    }
  }

  ghost function FirstMatching(s: seq<Entry>, ip: SockAddr, i: nat): (r: nat)
    requires OneFamily(s, ip.V4?) && i <= |s|
    ensures i <= r <= |s| && (forall j :: i <= j < r ==> !Matches(s[j], ip)) && (r < |s| ==> Matches(s[r], ip))
    decreases |s| - i
  {
    if i == |s| || Matches(s[i], ip) then i else FirstMatching(s, ip, i + 1)
  }

  /** Adding an entry and removing it again gives the list back, nodes and all. */
  lemma {:induction false} AddThenRemove<T>(s: seq<T>, entries: seq<Entry>, at: nat, x: T, e: Entry)
    requires |entries| == |s| && at <= |s| && FirstSame(entries, e, 0) == |entries|
    requires e.kind == Address || e.addr2.Some?
    ensures var i := FirstSame(InsertAt(entries, at, e), e, 0);
            i == at && RemoveAt(InsertAt(s, at, x), i) == s
  {
    var more := InsertAt(entries, at, e);
    var i := FirstSame(more, e, 0);
    assert more[at] == e && Same(more[at], e);
    forall j | 0 <= j < at
      ensures !Same(more[j], e)
    {
      assert more[j] == entries[j];
    }
  }

  lemma {:induction false} InsertKeepsNoTwins(s: seq<Entry>, at: nat, e: Entry)
    requires NoTwins(s) && at <= |s| && FirstSame(s, e, 0) == |s|
    requires forall i :: 0 <= i < |s| ==> s[i].kind != Address ==> s[i].addr2.Some?
    ensures NoTwins(InsertAt(s, at, e))
  {
    var r := InsertAt(s, at, e);
    forall i, j | 0 <= i < j < |r|
      ensures !Same(r[i], r[j])
    {
      var i', j' := if i <= at then i else i - 1, if j <= at then j else j - 1;
      assert i != at ==> r[i] == s[i'];
      assert j != at ==> r[j] == s[j'];
    }
  }

  lemma RemoveKeepsNoTwins(s: seq<Entry>, at: nat)
    requires NoTwins(s) && at < |s|
    ensures NoTwins(RemoveAt(s, at))
  {
  }

  // ----- the linked list

  class Node {
    const entry: Entry
    var next: Node?

    constructor (entry: Entry)
      ensures this.entry == entry && next == null
    {
      this.entry := entry;
      next := null;
    }
  }

  function Entries(nodes: seq<Node>): (s: seq<Entry>)
    ensures |s| == |nodes| && forall i :: 0 <= i < |s| ==> s[i] == nodes[i].entry
  {
    seq(|nodes|, i requires 0 <= i < |nodes| => nodes[i].entry)
  }

  lemma EntriesAfter(nodes: seq<Node>, at: nat, x: Node)
    requires at <= |nodes|
    ensures Entries(InsertAt(nodes, at, x)) == InsertAt(Entries(nodes), at, x.entry)
    ensures at < |nodes| ==> Entries(RemoveAt(nodes, at)) == RemoveAt(Entries(nodes), at)
  {
  }

  ghost predicate Apart(s: seq<Node>, i: int, j: int) {
    0 <= i < j < |s| ==> s[i] != s[j]
  }

  ghost predicate Distinct(s: seq<Node>) {
    forall i, j :: Apart(s, i, j)
  }

  /** No other place holds the node at `p`. */
  lemma OnlyAt(s: seq<Node>, p: nat)
    requires Distinct(s) && p < |s|
    ensures forall i :: 0 <= i < |s| && i != p ==> s[i] != s[p]
  {
    forall i | 0 <= i < |s| && i != p
      ensures s[i] != s[p]
    {
      assert Apart(s, if i < p then i else p, if i < p then p else i);
    }
  }

  lemma InsertDistinct(s: seq<Node>, at: nat, x: Node)
    requires Distinct(s) && at <= |s| && x !in s
    ensures Distinct(InsertAt(s, at, x))
  {
    var r := InsertAt(s, at, x);
    forall i, j
      ensures Apart(r, i, j)
    {
      if 0 <= i < j < |r| && i != at && j != at {
        assert Apart(s, if i < at then i else i - 1, if j < at then j else j - 1);
      }
    }
  }

  lemma RemoveDistinct(s: seq<Node>, at: nat)
    requires Distinct(s) && at < |s|
    ensures Distinct(RemoveAt(s, at))
  {
    var r := RemoveAt(s, at);
    forall i, j
      ensures Apart(r, i, j)
    {
      if 0 <= i < j < |r| {
        assert Apart(s, if i < at then i else i + 1, if j < at then j else j + 1);
      }
    }
  }

  class AccessList {
    const v4: bool
    var head: Node?
    ghost var nodes: seq<Node>

    ghost function At(k: nat): Node?
      reads this
    {
      if k < |nodes| then nodes[k] else null
    }

    ghost predicate Linked(i: nat)
      reads this, nodes
    {
      i < |nodes| ==> nodes[i].next == At(i + 1)
    }

    /** `head` starts a chain of exactly `nodes`, none of them twice. */
    ghost predicate Chained()
      reads this, nodes
    {
      && head == At(0)
      && (forall i: nat :: Linked(i))
      && Distinct(nodes)
    }

    ghost function Contents(): seq<Entry>
      reads this
    {
      Entries(nodes)
    }

    ghost predicate Valid()
      reads this, nodes
    {
      Chained() && OneFamily(Contents(), v4) && NoTwins(Contents())
    }

    constructor (v4: bool)
      ensures Valid() && nodes == [] && this.v4 == v4
    {
      this.v4, head, nodes := v4, null, [];
    }

    method Validate(ip: SockAddr) returns (accepted: bool)
      requires Valid() && ip.V4? == v4
      ensures accepted == Verdict(Contents(), ip)
    {
      var n := head;
      ghost var k := 0;
      while n != null
        invariant 0 <= k <= |nodes| && n == At(k)
        invariant forall j :: 0 <= j < k ==> !Matches(Contents()[j], ip)
        decreases |nodes| - k
      {
        assert Linked(k);
        if Matches(n.entry, ip) {
          VerdictIs(Contents(), ip, k);
          return n.entry.accept;
        }
        n := n.next;
        k := k + 1;
      }
      VerdictIs(Contents(), ip, k);
      return false;
    }

    method FindMatch(e: Entry) returns (found: Node?, ghost k: nat)
      requires Chained()
      ensures k == FirstSame(Contents(), e, 0)
      ensures found == if k < |nodes| then nodes[k] else null
    {
      found := head;
      k := 0;
      while found != null
        invariant 0 <= k <= |nodes| && found == At(k)
        invariant forall j :: 0 <= j < k ==> !Same(Contents()[j], e)
        decreases |nodes| - k
      {
        assert Linked(k);
        if Same(found.entry, e) {
          return;
        }
        found := found.next;
        k := k + 1;
      }
    }

    /** Add an entry unless there is one like it. */
    method AddIp(index: int, e: Entry) returns (ok: bool, ghost at: nat)
      requires Valid() && Fits(e, v4)
      modifies this, nodes
      ensures Valid()
      ensures ok == (FirstSame(old(Contents()), e, 0) == |old(nodes)|)
      ensures !ok ==> nodes == old(nodes)
      ensures ok ==> at == Landing(index, |old(nodes)|) && |nodes| == |old(nodes)| + 1
                     && fresh(nodes[at]) && nodes == InsertAt(old(nodes), at, nodes[at])
                     && Contents() == InsertAt(old(Contents()), at, e)
    {
      at := 0;
      var found, _ := FindMatch(e);
      if found != null {
        return false, 0;
      }
      ghost var before := Contents();
      var added := new Node(e);
      EntriesAfter(nodes, Landing(index, |nodes|), added);
      at := LinkIn(added, index);
      InsertKeepsNoTwins(before, at, e);
      return true, at;
    }

    method LinkIn(added: Node, index: int) returns (ghost at: nat)
      requires Chained() && added !in nodes && added.next == null
      modifies this, nodes, added
      ensures Chained() && at == Landing(index, |old(nodes)|) && nodes == InsertAt(old(nodes), at, added)
    {
      at := 0;
      ghost var was := nodes;
      InsertDistinct(nodes, Landing(index, |nodes|), added);
      var n := head;
      if n != null {
        if index == 0 {
          head := added;
          added.next := n;
        } else {
          n, at := WalkTo(n, index);
          OnlyAt(nodes, at - 1);
          if n.next != null {
            added.next := n.next;
          }
          n.next := added;
        }
      } else {
        head := added;
      }
      nodes := InsertAt(nodes, at, added);
      forall i: nat
        ensures Linked(i)
      {
        assert old(Linked(i)) && (i > 0 ==> old(Linked(i - 1)));
      }
    }

    /** The node after which to insert: the end of the list, or earlier. */
    method WalkTo(start: Node, index: int) returns (n: Node, ghost at: nat)
      requires Chained() && nodes != [] && start == nodes[0] && index != 0
      ensures 1 <= at <= |nodes| && at == Landing(index, |nodes|) && n == nodes[at - 1]
    {
      n := start;
      at := 1;
      var i := 0;
      assert Linked(0);
      while n.next != null
        invariant 1 <= at <= |nodes| && n == nodes[at - 1] && n.next == At(at)
        invariant i == at - 1 && (0 <= index ==> i <= index)
        decreases |nodes| - at
      {
        assert Linked(at);
        n := n.next;
        at := at + 1;
        if i == index {
          break;
        }
        i := i + 1;
      }
    }

    /** Remove the entry like `e`. */
    method RmIp(e: Entry) returns (ok: bool)
      requires Valid()
      modifies this, nodes
      ensures Valid()
      ensures var k := FirstSame(old(Contents()), e, 0);
              && ok == (k < |old(nodes)|)
              && nodes == (if ok then RemoveAt(old(nodes), k) else old(nodes))
              && Contents() == (if ok then RemoveAt(old(Contents()), k) else old(Contents()))
    {
      var rm: Node?;
      ghost var k: nat;
      rm, k := FindMatch(e);
      if rm == null {
        return false;
      }
      ghost var before := Contents();
      EntriesAfter(nodes, k, nodes[k]);
      Unlink(rm, k);
      RemoveKeepsNoTwins(before, k);
      return true;
    }

    method Unlink(rm: Node, ghost k: nat)
      requires Chained() && k < |nodes| && rm == nodes[k]
      modifies this, nodes
      ensures Chained() && nodes == RemoveAt(old(nodes), k)
    {
      ghost var was := nodes;
      RemoveDistinct(nodes, k);
      OnlyAt(nodes, k);
      if k > 0 {
        OnlyAt(nodes, k - 1);
      }
      var n := head;
      ghost var i := 0;
      while n != null
        invariant Chained() && nodes == was
        invariant 0 <= i <= k && n == nodes[i] && (i == k ==> k == 0)
        invariant forall j: nat :: old(Linked(j))
        decreases |nodes| - i
      {
        assert Linked(i) && Linked(i + 1) && Linked(k);
        var next := n.next;
        // the head of the list goes
        if rm == n {
          head := next;
          break;
        }
        // the next one goes
        if rm == next {
          n.next := next.next;
          break;
        }
        n := next;
        i := i + 1;
      }
      nodes := RemoveAt(nodes, k);
      forall i: nat
        ensures Linked(i)
      {
        assert old(Linked(i)) && old(Linked(i + 1));
      }
    }

    /** Adding an entry and removing it again leaves the very nodes that were there, in
        the same chain. */
    method AddThenRm(index: int, e: Entry) returns (added: bool)
      requires Valid() && Fits(e, v4)
      modifies this, nodes
      ensures Valid() && nodes == old(nodes)
      ensures added == (FirstSame(Contents(), e, 0) == |nodes|)
    {
      ghost var was, entries := nodes, Contents();
      ghost var at;
      added, at := AddIp(index, e);
      if added {
        AddThenRemove(was, entries, at, nodes[at], e);
        var _ := RmIp(e);
      }
    }

    method RmAll()
      modifies this
      ensures Valid() && nodes == []
    {
      head, nodes := null, [];
    }
  }
}
