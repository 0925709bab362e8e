/** Choosing links for outgoing packets (libknet/host.c, libknet/threads_tx.c). */
module Links {
  const MAX_LINK := 8

  datatype Policy = Passive | Active | RoundRobin

  datatype LinkStatus = LinkStatus(enabled: bool, connected: bool, validMtu: bool, priority: nat)

  predicate Usable(l: LinkStatus) {
    l.enabled && l.connected && l.validMtu
  }

  /** The usable links among the first `n`. */
  function Eligible(links: seq<LinkStatus>, n: nat): (r: seq<nat>)
    requires n <= |links|
    ensures |r| <= n
  {
    if n == 0 then [] else
    var r := Eligible(links, n - 1);
    if Usable(links[n - 1]) then r + [n - 1] else r
  }

  /** Each usable link, once, in order. */
  lemma {:induction false} EligibleIs(links: seq<LinkStatus>, n: nat)
    requires n <= |links|
    ensures forall i :: i in Eligible(links, n) <==>
              0 <= i < n && links[i].enabled && links[i].connected && links[i].validMtu
    ensures forall i, j :: 0 <= i < j < |Eligible(links, n)| ==> Eligible(links, n)[i] < Eligible(links, n)[j]
  {
    if n > 0 {
      EligibleIs(links, n - 1);
      var r := Eligible(links, n - 1);
      assert forall i :: 0 <= i < |r| ==> r[i] in r;
    }
  }

  /** `b` is the link to use under the passive policy: the usable one of highest
      priority, the first of them if there are several. */
  predicate IsBest(links: seq<LinkStatus>, n: nat, b: nat)
    requires n <= |links|
  {
    && b < n && Usable(links[b])
    && (forall i :: 0 <= i < n && Usable(links[i]) ==> links[i].priority <= links[b].priority)
    && (forall i :: 0 <= i < b && Usable(links[i]) ==> links[i].priority < links[b].priority)
  }

  /** That link, -1 if none is usable. */
  function Best(links: seq<LinkStatus>, n: nat): (b: int)
    requires n <= |links|
    ensures -1 <= b < n
  {
    if n == 0 then -1 else
    var b := Best(links, n - 1);
    if Usable(links[n - 1]) && (b == -1 || links[n - 1].priority > links[b].priority) then n - 1 else b
  }

  lemma {:induction false} BestIsBest(links: seq<LinkStatus>, n: nat)
    requires n <= |links|
    ensures if Best(links, n) == -1 then forall i :: 0 <= i < n ==> !Usable(links[i])
            else IsBest(links, n, Best(links, n))
  {
    if n > 0 {
      BestIsBest(links, n - 1);
    }
  }

  /** The order of links after a packet went out by the first one. */
  function Rotate(s: seq<nat>): (r: seq<nat>)
    ensures |r| == |s|
  {
    if s == [] then [] else s[1..] + [s[0]]
  }

  /** The links a packet goes out by, in order, from place `i` on. `one`: the first that
      takes it is enough. */
  function Takers(s: seq<nat>, i: nat, one: bool, skip: set<nat>, fails: set<nat>): seq<nat>
    requires i <= |s|
    decreases |s| - i
  {
    if i == |s| then []
    else if s[i] in skip then Takers(s, i + 1, one, skip, fails)
    else if s[i] in fails then []
    else if one then [s[i]]
    else [s[i]] + Takers(s, i + 1, one, skip, fails)
  }

  /** No link failed before the packet was out. */
  predicate AllWell(s: seq<nat>, i: nat, one: bool, skip: set<nat>, fails: set<nat>)
    requires i <= |s|
    decreases |s| - i
  {
    if i == |s| then true
    else if s[i] in skip then AllWell(s, i + 1, one, skip, fails)
    else s[i] !in fails && (one || AllWell(s, i + 1, one, skip, fails))
  }

  /** The same with the links used so far. */
  function Collect(s: seq<nat>, i: nat, used: seq<nat>, one: bool, skip: set<nat>, fails: set<nat>): seq<nat>
    requires i <= |s|
    decreases |s| - i
  {
    if i == |s| then used
    else if s[i] in skip then Collect(s, i + 1, used, one, skip, fails)
    else if s[i] in fails then used
    else if one then used + [s[i]]
    else Collect(s, i + 1, used + [s[i]], one, skip, fails)
  }

  lemma {:induction false} CollectIs(s: seq<nat>, i: nat, used: seq<nat>, one: bool, skip: set<nat>, fails: set<nat>)
    requires i <= |s|
    ensures Collect(s, i, used, one, skip, fails) == used + Takers(s, i, one, skip, fails)
    decreases |s| - i
  {
    if i < |s| {
      if s[i] in skip {
        CollectIs(s, i + 1, used, one, skip, fails);
      } else if s[i] !in fails && !one {
        CollectIs(s, i + 1, used + [s[i]], one, skip, fails);
      }
    }
  }

  /** The cached links that are not passed over, in order. */
  function Tried(s: seq<nat>, skip: set<nat>): (r: seq<nat>)
    ensures forall x :: x in r <==> x in s && x !in skip
  {
    if s == [] then []
    else if s[0] in skip then Tried(s[1..], skip)
    else [s[0]] + Tried(s[1..], skip)
  }

  /** `k` is the place of the first link that fails, or the end. */
  ghost predicate FirstFailure(s: seq<nat>, fails: set<nat>, k: nat) {
    k <= |s| && (forall i :: 0 <= i < k ==> s[i] !in fails) && (k < |s| ==> s[k] in fails)
  }

  lemma RestFails(live: seq<nat>, rest: seq<nat>, fails: set<nat>, k: nat)
    requires live != [] && rest == live[1..] && live[0] !in fails && FirstFailure(live, fails, k)
    ensures k > 0 && FirstFailure(rest, fails, k - 1) && live[..k] == [live[0]] + rest[..k - 1]
  {
    assert forall j :: 0 <= j < |rest| ==> rest[j] == live[j + 1];
  }

  /** A packet goes out by the links not passed over, up to the first that fails; if one is
      enough, by the first of them. All is well if that failure is not met. */
  lemma {:induction false} TakersAre(s: seq<nat>, i: nat, one: bool, skip: set<nat>, fails: set<nat>, k: nat)
    requires i <= |s| && FirstFailure(Tried(s[i..], skip), fails, k)
    ensures var live := Tried(s[i..], skip);
            && Takers(s, i, one, skip, fails) == (if one && k > 0 then live[..1] else live[..k])
            && (AllWell(s, i, one, skip, fails) <==> k == |live| || (one && k > 0))
    decreases |s| - i
  {
    var live := Tried(s[i..], skip);
    if i < |s| {
      assert s[i..][1..] == s[i + 1..];
      if s[i] in skip {
        TakersAre(s, i + 1, one, skip, fails, k);
      } else {
        var rest := Tried(s[i + 1..], skip);
        assert live == [s[i]] + rest && live[0] == s[i];
        if s[i] !in fails && !one {
          RestFails(live, rest, fails, k);
          TakersAre(s, i + 1, one, skip, fails, k - 1);
        }
      }
    }
  }

  /** With no link to pass over and no failure: the first link, or all of them. */
  lemma {:induction false} TakersWithoutTrouble(s: seq<nat>, i: nat, one: bool)
    requires i <= |s|
    ensures Takers(s, i, one, {}, {}) == (if one && i < |s| then [s[i]] else s[i..]) && AllWell(s, i, one, {}, {})
    decreases |s| - i
  {
    if i < |s| && !one {
      TakersWithoutTrouble(s, i + 1, one);
    }
  }

  class DstCache {
    var activeLinks: array<nat>
    var activeLinkEntries: nat
    var policy: Policy

    ghost predicate Valid()
      reads this
    {
      activeLinks.Length == MAX_LINK && activeLinkEntries <= MAX_LINK
    }

    ghost function Active(): seq<nat>
      requires Valid()
      reads this, activeLinks
    {
      activeLinks[..activeLinkEntries]
    }

    constructor (policy: Policy)
      ensures Valid() && fresh(activeLinks) && Active() == [] && this.policy == policy
    {
      activeLinks := new nat[MAX_LINK](_ => 0);
      activeLinkEntries := 0;
      this.policy := policy;
    }

    /** Recompute the cache. With no link to use, what was received from the host is
        wiped. `ownLoop`: the host is this node and has a loopback link. */
    method UpdateSync(links: seq<LinkStatus>, ownLoop: bool) returns (wipes: bool)
      requires Valid() && |links| == MAX_LINK
      modifies this`activeLinkEntries, activeLinks
      ensures Valid()
      ensures ownLoop ==> !wipes && activeLinkEntries == 1 && activeLinks[..] == old(activeLinks[..])
      ensures !ownLoop ==> (wipes <==> forall i :: 0 <= i < |links| ==> !Usable(links[i]))
      ensures !ownLoop && policy != Passive ==> Active() == Eligible(links, |links|)
      ensures !ownLoop && policy == Passive ==> Active() == if wipes then [] else [Best(links, |links|)]
    {
      if ownLoop {
        activeLinkEntries := 1;
        return false;
      }
      var bestPriority: int := -1;
      activeLinkEntries := 0;
      for n := 0 to |links|
        invariant Valid() && activeLinkEntries <= n
        invariant activeLinkEntries == 0 <==> Best(links, n) == -1
        invariant policy != Passive ==> Active() == Eligible(links, n)
        invariant policy == Passive ==>
                    if activeLinkEntries == 0 then bestPriority == -1
                    else activeLinkEntries == 1 && activeLinks[0] == Best(links, n) && bestPriority == links[Best(links, n)].priority
      {
        if links[n].enabled && links[n].connected && links[n].validMtu {
          if policy == Passive {
            if links[n].priority > bestPriority {
              activeLinks[0] := n;
              bestPriority := links[n].priority;
            }
            activeLinkEntries := 1;
          } else {
            activeLinks[activeLinkEntries] := n;
            activeLinkEntries := activeLinkEntries + 1;
          }
        }
      }
      BestIsBest(links, |links|);
      wipes := activeLinkEntries == 0;
    }

    /** Send one packet: over the first link that takes it, and rotate, or over every
        cached link. A link in `skip` is passed over; one in `fails` ends the sending. */
    method DispatchToLinks(skip: set<nat>, fails: set<nat>) returns (used: seq<nat>, ok: bool)
      requires Valid()
      modifies activeLinks
      ensures Valid()
      ensures var one := policy == RoundRobin && activeLinkEntries > 1;
              used == Takers(old(Active()), 0, one, skip, fails) && ok == AllWell(old(Active()), 0, one, skip, fails)
      ensures Active() == if policy == RoundRobin && activeLinkEntries > 1 && used != [] then Rotate(old(Active())) else old(Active())
    {
      ghost var active := Active();
      var one := policy == RoundRobin && activeLinkEntries > 1;
      used := [];
      CollectIs(active, 0, used, one, skip, fails);
      for linkIdx := 0 to activeLinkEntries
        invariant Valid() && activeLinks[..] == old(activeLinks[..]) && (one ==> used == [])
        invariant Collect(active, linkIdx, used, one, skip, fails) == Takers(active, 0, one, skip, fails)
        invariant AllWell(active, linkIdx, one, skip, fails) == AllWell(active, 0, one, skip, fails)
      {
        var linkId := activeLinks[linkIdx];
        assert linkId == active[linkIdx];
        if linkId in skip {
          continue;
        }
        if linkId in fails {
          return used, false;
        }
        used := used + [linkId];
        if one {
          RotateLinks();
          return used, true;
        }
      }
      return used, true;
    }

    /** Send `n` packets in turn, without trouble. */
    method SendRoundRobin(n: nat) returns (used: seq<nat>)
      requires Valid() && policy == RoundRobin && activeLinkEntries > 1
      modifies activeLinks
      ensures Valid() && used == Uses(old(Active()), 0, n) && Active() == After(old(Active()), n)
    {
      ghost var start := Active();
      used := [];
      for i := 0 to n
        invariant Valid() && used == Uses(start, 0, i) && Active() == After(start, i)
      {
        TakersWithoutTrouble(Active(), 0, true);
        var one, _ := DispatchToLinks({}, {});
        used := used + one;
      }
    }

    method RotateLinks()
      requires Valid() && activeLinkEntries > 0
      modifies activeLinks
      ensures Active() == Rotate(old(Active()))
    {
      var curLinkId := activeLinks[0];
      ShiftDown();
      activeLinks[activeLinkEntries - 1] := curLinkId;
    }

    /** Move all entries but the first one place down. */
    method ShiftDown()
      requires Valid()
      modifies activeLinks
      ensures forall i :: 0 <= i < MAX_LINK - 1 ==> activeLinks[i] == old(activeLinks[i + 1])
      ensures activeLinks[MAX_LINK - 1] == old(activeLinks[MAX_LINK - 1])
    {
      for i := 0 to MAX_LINK - 1
        invariant forall j :: 0 <= j < i ==> activeLinks[j] == old(activeLinks[j + 1])
        invariant forall j :: i <= j < MAX_LINK ==> activeLinks[j] == old(activeLinks[j])
      {
        activeLinks[i] := activeLinks[i + 1];
      }
    }
  }

  // ----- fairness

  /** The cache after `n` packets. */
  function After(s: seq<nat>, n: nat): (r: seq<nat>)
    ensures |r| == |s|
  {
    if n == 0 then s else Rotate(After(s, n - 1))
  }

  /** Rotation only reorders the links. */
  lemma {:induction false} AfterPermutes(s: seq<nat>, n: nat)
    ensures multiset(After(s, n)) == multiset(s)
  {
    if n > 0 {
      AfterPermutes(s, n - 1);
      var t := After(s, n - 1);
      if t != [] {
        assert t == [t[0]] + t[1..];
      }
    }
  }

  lemma {:induction false} AfterSome(s: seq<nat>, j: nat)
    requires j <= |s|
    ensures After(s, j) == s[j..] + s[..j]
  {
    if j > 0 {
      AfterSome(s, j - 1);
      var t := After(s, j - 1);
      assert t[0] == s[j - 1] && t[1..] == s[j..] + s[..j - 1];
    }
  }

  lemma {:induction false} AfterAdd(s: seq<nat>, i: nat, j: nat)
    ensures After(s, i + j) == After(After(s, i), j)
  {
    if j > 0 {
      AfterAdd(s, i, j - 1);
    }
  }

  /** The links used by packets `i`, `i + 1`, ..., `i + n - 1`. */
  function Uses(s: seq<nat>, i: nat, n: nat): (r: seq<nat>)
    requires s != []
    ensures |r| == n && forall j :: 0 <= j < n ==> r[j] == After(s, i + j)[0]
  {
    seq(n, j requires 0 <= j < n => After(s, i + j)[0])
  }

  lemma UsedLater(s: seq<nat>, i: nat, j: nat)
    requires j < |s|
    ensures After(s, i + j)[0] == After(s, i)[j]
  {
    AfterAdd(s, i, j);
    AfterSome(After(s, i), j);
  }

  /** Any `k` consecutive packets over `k` links use every link exactly once. */
  lemma {:induction false} EachOnce(s: seq<nat>, i: nat)
    requires s != []
    ensures Uses(s, i, |s|) == After(s, i)
    ensures multiset(Uses(s, i, |s|)) == multiset(s)
  {
    var u := Uses(s, i, |s|);
    forall j | 0 <= j < |s|
      ensures u[j] == After(s, i)[j]
    {
      UsedLater(s, i, j);
    }
    assert u == After(s, i);
    AfterPermutes(s, i);
  }
}
