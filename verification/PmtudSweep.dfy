/** The sweep over all links that sets the MTU for data packets
    (libknet/threads_pmtud.c), and what it means for every packet sent. */
module PmtudSweep {
  import opened SeqNumbers
  import opened Fragmentation
  import opened OnwireSizes
  import opened Pmtud

  /** What the sweep finds for one link: its settings, whether it is up and in need of
      a run, and its network, which is `path` when it is stable. */
  datatype Conf = Conf(u: Setup, up: bool, due: bool, net: Net, ghost path: Path)

  /** What is known of a link: whether its MTU is valid, and the MTU. */
  datatype Known = Known(valid: bool, mtu: Size)

  /** The MTU that is right for a path that carries sizes up to `m`. */
  function PathMtu(u: Setup, m: nat): Size {
    CalcMaxDataOutlen(u.crypto, Wrap(m - u.overhead))
  }

  /** The outcome of a discovery that ran to its end: a link is valid only with an MTU the
      network has acknowledged in it. */
  ghost predicate Measured(c: Conf, pingSize: nat, r: Known) {
    && (r.valid ==> CalcMinMtu(c.u.crypto) <= r.mtu && Backed(c.u, c.net, r.mtu))
    && (Stable(c.u, c.net, c.path) && pingSize == MinWire(c.u.crypto) ==>
          r.mtu == PathMtu(c.u, c.path.m) && r.valid == (CalcMinMtu(c.u.crypto) <= r.mtu))
  }

  ghost function KnownOf(link: Link): Known
    reads link
  {
    Known(link.hasValidMtu, link.statusMtu)
  }

  /** A discovery that succeeded makes the link valid exactly if its MTU is not below the
      failsafe one. */
  lemma FoundIsMeasured(c: Conf, pingSize: nat, r: Known)
    requires Backed(c.u, c.net, r.mtu) && r.valid == (CalcMinMtu(c.u.crypto) <= r.mtu)
    requires Stable(c.u, c.net, c.path) && pingSize == MinWire(c.u.crypto) ==> r.mtu == PathMtu(c.u, c.path.m)
    ensures Measured(c, pingSize, r)
  {
  }

  /** One that failed leaves it invalid; on a stable path none fails. */
  lemma FailedIsMeasured(c: Conf, pingSize: nat, r: Known)
    requires !r.valid && !(Stable(c.u, c.net, c.path) && pingSize == MinWire(c.u.crypto))
    ensures Measured(c, pingSize, r)
  {
  }

  /** `deadlk` says that errno is EDEADLK. It is set when a discovery is called off, and
      only a discovery that starts resets it. */
  method CheckPmtud(link: Link, c: Conf, deadlk: bool) returns (hasMtu: bool, deadlk': bool)
    requires ValidMultiplier(link.multiplier)
    modifies link
    ensures ValidMultiplier(link.multiplier) && link.lastPingSize == old(link.lastPingSize)
    ensures hasMtu == link.hasValidMtu
    ensures !c.due ==> KnownOf(link) == old(KnownOf(link)) && deadlk' == deadlk
    ensures c.due && deadlk' ==> KnownOf(link) == old(KnownOf(link)) && MayBeCalledOff(c.net)
    ensures c.due && IsCalledOff(c.net) ==> deadlk'
    ensures c.due && !deadlk' ==> Measured(c, link.lastPingSize, KnownOf(link))
  {
    if !c.due {
      return link.hasValidMtu, deadlk;
    }
    var savedMtu, savedValid := link.statusMtu, link.hasValidMtu;
    var ok, rescheduled, _ := link.HandleCheckLinkPmtud(c.u, c.net, c.path);
    if !ok {
      if rescheduled {
        link.statusMtu := savedMtu;
        link.hasValidMtu := savedValid;
        return link.hasValidMtu, true;
      }
      link.hasValidMtu := false;
      FailedIsMeasured(c, link.lastPingSize, KnownOf(link));
    } else {
      Judge(link, c);
    }
    return link.hasValidMtu, false;
  }

  /** Whether the MTU just found is usable. */
  method Judge(link: Link, c: Conf)
    requires Backed(c.u, c.net, link.statusMtu)
    requires Stable(c.u, c.net, c.path) && link.lastPingSize == MinWire(c.u.crypto) ==> link.statusMtu == PathMtu(c.u, c.path.m)
    modifies link`hasValidMtu
    ensures Measured(c, link.lastPingSize, KnownOf(link))
  {
    var least := CalcMinMtu(c.u.crypto);
    link.hasValidMtu := !(link.statusMtu < least);
    FoundIsMeasured(c, link.lastPingSize, KnownOf(link));
  }

  /** The link is up and has a valid MTU. */
  predicate Counts(c: Conf, r: Known) {
    c.up && r.valid
  }

  /** The least MTU of the links that count, and never above the largest packet. */
  function Lowest(conf: seq<Conf>, rs: seq<Known>): nat
    requires |rs| <= |conf|
  {
    if rs == [] then PMTUD_SIZE else
    var n := |rs| - 1;
    var l := Lowest(conf, rs[..n]);
    if Counts(conf[n], rs[n]) && rs[n].mtu < l then rs[n].mtu else l
  }

  predicate AnyCounts(conf: seq<Conf>, rs: seq<Known>)
    requires |rs| <= |conf|
  {
    rs != [] && (var n := |rs| - 1; Counts(conf[n], rs[n]) || AnyCounts(conf, rs[..n]))
  }

  /** It is a lower bound, and one that is reached. */
  lemma {:induction false} LowestIs(conf: seq<Conf>, rs: seq<Known>)
    requires |rs| <= |conf|
    ensures Lowest(conf, rs) <= PMTUD_SIZE
    ensures forall i :: 0 <= i < |rs| && conf[i].up && rs[i].valid ==> Lowest(conf, rs) <= rs[i].mtu
    ensures Lowest(conf, rs) == PMTUD_SIZE || exists i :: 0 <= i < |rs| && conf[i].up && rs[i].valid && Lowest(conf, rs) == rs[i].mtu
    ensures AnyCounts(conf, rs) <==> exists i :: 0 <= i < |rs| && conf[i].up && rs[i].valid
  {
    if rs != [] {
      var front := rs[..|rs| - 1];
      LowestIs(conf, front);
      if i :| 0 <= i < |front| && conf[i].up && front[i].valid && Lowest(conf, front) == front[i].mtu {
        assert rs[i] == front[i];
      }
      if i :| 0 <= i < |front| && conf[i].up && front[i].valid {
        assert rs[i] == front[i];
      }
    }
  }

  lemma {:induction false} LowestNext(conf: seq<Conf>, rs: seq<Known>, n: nat)
    requires n < |rs| <= |conf|
    ensures Lowest(conf, rs[..n + 1]) ==
            if Counts(conf[n], rs[n]) && rs[n].mtu < Lowest(conf, rs[..n]) then rs[n].mtu else Lowest(conf, rs[..n])
    ensures AnyCounts(conf, rs[..n + 1]) <==> Counts(conf[n], rs[n]) || AnyCounts(conf, rs[..n])
  {
    assert rs[..n + 1][..n] == rs[..n];
  }

  /** A link that gets no answer is invalid, whatever it was before. */
  lemma UnansweredIsInvalid(c: Conf, pingSize: nat, r: Known)
    requires Measured(c, pingSize, r) && forall i: nat, size: nat, mult: nat :: !c.net(i, size, mult).Acked?
    ensures !r.valid
  {
  }

  // ----- one sweep

  ghost predicate Separate(links: seq<Link>) {
    forall i, j :: 0 <= i < j < |links| ==> links[i] != links[j]
  }

  ghost predicate Ready(links: seq<Link>, pings: seq<nat>)
    requires |pings| == |links|
    reads links
  {
    forall i :: 0 <= i < |links| ==> ValidMultiplier(links[i].multiplier) && links[i].lastPingSize == pings[i]
  }

  ghost function AllKnown(links: seq<Link>): (rs: seq<Known>)
    reads links
    ensures |rs| == |links| && forall i :: 0 <= i < |links| ==> rs[i] == KnownOf(links[i])
  {
    seq(|links|, i requires 0 <= i < |links| reads links => KnownOf(links[i]))
  }

  /** What is known before or after a sweep, the data MTU, whether the sweep went
      through all links, and whether errno is EDEADLK. */
  datatype Stage = Stage(rs: seq<Known>, dataMtu: nat, completed: bool, deadlk: bool)

  /** A link that is up and due is measured, if the sweep gets that far; no other link
      changes. */
  ghost predicate Touched(c: Conf, pingSize: nat, before: Known, after: Known, completed: bool) {
    if c.up && c.due then (!completed && after == before) || Measured(c, pingSize, after)
    else after == before
  }

  ghost predicate AllTouched(conf: seq<Conf>, pings: seq<nat>, before: seq<Known>, after: seq<Known>, completed: bool)
    requires |conf| == |pings| == |before| == |after|
  {
    forall i :: 0 <= i < |conf| ==> Touched(conf[i], pings[i], before[i], after[i], completed)
  }

  /** One sweep leads from `a` to `b`. The new data MTU is the least of the valid
      links', and never above the largest packet; it stays without a valid link, or when
      the sweep is given up. */
  ghost predicate Follows(conf: seq<Conf>, pings: seq<nat>, a: Stage, b: Stage) {
    && |a.rs| == |b.rs| == |conf| == |pings|
    && AllTouched(conf, pings, a.rs, b.rs, b.completed)
    && b.dataMtu == (if b.completed && AnyCounts(conf, b.rs) then Lowest(conf, b.rs) else a.dataMtu)
    && Completes(conf, a, b)
  }

  /** When a sweep goes through all links, and what errno is afterwards. Where no
      discovery is called off, exactly errno left over from an earlier one gives it up,
      and exactly a first link that is due clears errno. */
  ghost predicate Completes(conf: seq<Conf>, a: Stage, b: Stage)
    requires |a.rs| == |b.rs|
  {
    && (MustStop(conf) ==> !b.completed)
    && (!b.completed ==> b.deadlk)
    && (!MayStop(conf) ==> (b.completed <==> !(a.deadlk && FirstUp(conf, false))))
    && (!MayStop(conf) ==> (b.deadlk <==> a.deadlk && !FirstUp(conf, true)))
    && (a.deadlk && FirstUp(conf, false) ==> !b.completed && b.rs == a.rs)
  }

  ghost predicate NoneUp(conf: seq<Conf>, n: int) {
    forall i :: 0 <= i < n && i < |conf| ==> !conf[i].up
  }

  ghost predicate IsFirstUp(conf: seq<Conf>, n: int) {
    0 <= n < |conf| && conf[n].up && NoneUp(conf, n)
  }

  /** The first link that is up is due, or not. */
  ghost predicate FirstUp(conf: seq<Conf>, due: bool) {
    exists n :: IsFirstUp(conf, n) && conf[n].due == due
  }

  /** Some discovery of the sweep may be called off. */
  ghost predicate MayStop(conf: seq<Conf>) {
    exists n :: 0 <= n < |conf| && conf[n].up && conf[n].due && MayBeCalledOff(conf[n].net)
  }

  /** Some discovery of the sweep is called off, if the sweep gets that far. */
  ghost predicate MustStop(conf: seq<Conf>) {
    exists n :: 0 <= n < |conf| && conf[n].up && conf[n].due && IsCalledOff(conf[n].net)
  }

  /** One sweep. A discovery that is called off ends it. So does errno left over from an
      earlier one, if the first link that is up is not due. */
  method Sweep(links: seq<Link>, conf: seq<Conf>, dataMtu: nat, deadlk: bool, ghost pings: seq<nat>)
    returns (dataMtu': nat, deadlk': bool, completed: bool)
    requires |conf| == |links| == |pings| && Separate(links) && Ready(links, pings)
    modifies links
    ensures Ready(links, pings)
    ensures Follows(conf, pings, Stage(old(AllKnown(links)), dataMtu, true, deadlk), Stage(AllKnown(links), dataMtu', completed, deadlk'))
  {
    ghost var before := AllKnown(links);
    var lowerMtu: nat, haveMtu := PMTUD_SIZE, false;
    deadlk' := deadlk;
    for n := 0 to |links|
      invariant Swept(links, conf, pings, before, n, deadlk, deadlk', lowerMtu, haveMtu)
    {
      if conf[n].up {
        lowerMtu, haveMtu, deadlk' := SweepUp(links, conf, n, deadlk, deadlk', lowerMtu, haveMtu, dataMtu, pings, before);
        if deadlk' {
          return dataMtu, true, false;
        }
      } else {
        PassedOver(links, conf, pings, before, n, deadlk, deadlk', lowerMtu, haveMtu);
      }
    }
    dataMtu' := if haveMtu then lowerMtu else dataMtu;
    completed := true;
    SweepEnds(conf, pings, before, AllKnown(links), dataMtu, dataMtu', deadlk, deadlk');
  }

  /** Where a sweep stands before link `n`. */
  ghost predicate Swept(links: seq<Link>, conf: seq<Conf>, pings: seq<nat>, before: seq<Known>, n: nat, deadlk: bool, now: bool, lowerMtu: nat, haveMtu: bool)
    requires |conf| == |links| == |pings| == |before| && n <= |links|
    reads links
  {
    && Ready(links, pings) && SweptTo(links, conf, pings, before, n) && WentOn(conf, n, deadlk, now)
    && lowerMtu == Lowest(conf, AllKnown(links)[..n]) && haveMtu == AnyCounts(conf, AllKnown(links)[..n])
  }

  /** A link that is not up. */
  lemma PassedOver(links: seq<Link>, conf: seq<Conf>, pings: seq<nat>, before: seq<Known>, n: nat, deadlk: bool, now: bool, lowerMtu: nat, haveMtu: bool)
    requires n < |conf| == |links| == |pings| == |before| && !conf[n].up
    requires Swept(links, conf, pings, before, n, deadlk, now, lowerMtu, haveMtu)
    ensures Swept(links, conf, pings, before, n + 1, deadlk, now, lowerMtu, haveMtu)
  {
    LowestNext(conf, AllKnown(links), n);
    GoOn(conf, n, deadlk, now, now);
  }

  /** A link that is up. */
  method SweepUp(links: seq<Link>, conf: seq<Conf>, n: nat, ghost start: bool, deadlk: bool, lowerMtu: nat, haveMtu: bool, ghost dataMtu: nat,
                 ghost pings: seq<nat>, ghost before: seq<Known>)
    returns (lowerMtu': nat, haveMtu': bool, deadlk': bool)
    requires n < |conf| == |links| == |pings| == |before| && conf[n].up && Separate(links)
    requires Swept(links, conf, pings, before, n, start, deadlk, lowerMtu, haveMtu)
    modifies links[n]
    ensures Ready(links, pings)
    ensures if deadlk' then Follows(conf, pings, Stage(before, dataMtu, true, start), Stage(AllKnown(links), dataMtu, false, true))
            else Swept(links, conf, pings, before, n + 1, start, deadlk', lowerMtu', haveMtu')
  {
    ghost var now := AllKnown(links);
    var hasMtu;
    hasMtu, deadlk' := SweepLink(links, conf, n, deadlk, pings, before);
    lowerMtu', haveMtu' := lowerMtu, haveMtu;
    if deadlk' {
      SweepStops(conf, pings, before, AllKnown(links), dataMtu, n, start, deadlk);
      return;
    }
    if hasMtu {
      haveMtu' := true;
      if links[n].statusMtu < lowerMtu {
        lowerMtu' := links[n].statusMtu;
      }
    }
    assert AllKnown(links)[..n] == now[..n];
    LowestNext(conf, AllKnown(links), n);
    GoOn(conf, n, start, deadlk, deadlk');
  }

  lemma SweepStops(conf: seq<Conf>, pings: seq<nat>, before: seq<Known>, rs: seq<Known>, dataMtu: nat, n: nat, deadlk: bool, was: bool)
    requires n < |conf| == |pings| == |before| == |rs| && conf[n].up && WentOn(conf, n, deadlk, was)
    requires KnownTo(conf, pings, before, rs, n)
    requires if conf[n].due then MayBeCalledOff(conf[n].net) else was
    ensures Follows(conf, pings, Stage(before, dataMtu, true, deadlk), Stage(rs, dataMtu, false, true))
  {
    if conf[n].due {
      NotPastFirst(conf, n, deadlk, was);
    } else {
      forall i | 0 <= i < |rs|
        ensures rs[i] == before[i]
      {
        assert i < n ==> !conf[i].up;
      }
    }
    GivenUp(conf, n, deadlk, was, Stage(before, dataMtu, true, deadlk), Stage(rs, dataMtu, false, true));
    forall i | 0 <= i < |rs|
      ensures Touched(conf[i], pings[i], before[i], rs[i], false)
    {
    }
  }

  lemma {:induction false} SweepEnds(conf: seq<Conf>, pings: seq<nat>, before: seq<Known>, rs: seq<Known>, dataMtu: nat, dataMtu': nat, deadlk: bool, deadlk': bool)
    requires |conf| == |pings| == |before| == |rs| && WentOn(conf, |conf|, deadlk, deadlk')
    requires KnownTo(conf, pings, before, rs, |conf|)
    requires dataMtu' == if AnyCounts(conf, rs[..|rs|]) then Lowest(conf, rs[..|rs|]) else dataMtu
    ensures Follows(conf, pings, Stage(before, dataMtu, true, deadlk), Stage(rs, dataMtu', true, deadlk'))
  {
    assert rs[..|rs|] == rs;
    WentThrough(conf, deadlk, Stage(before, dataMtu, true, deadlk), Stage(rs, dataMtu', true, deadlk'));
  }

  /** The sweep has got past the first `n` links: none of them was called off, and errno
      is as before if none of them was up, else cleared. */
  ghost predicate WentOn(conf: seq<Conf>, n: nat, deadlk: bool, now: bool)
    requires n <= |conf|
  {
    && now == (deadlk && NoneUp(conf, n))
    && (forall k :: IsFirstUp(conf, k) && k < n && deadlk ==> conf[k].due)
    && (forall i :: 0 <= i < n && conf[i].up && conf[i].due ==> !IsCalledOff(conf[i].net))
  }

  lemma GoOn(conf: seq<Conf>, n: nat, deadlk: bool, was: bool, now: bool)
    requires n < |conf| && WentOn(conf, n, deadlk, was)
    requires if conf[n].up then !now && (if conf[n].due then !IsCalledOff(conf[n].net) else !was) else now == was
    ensures WentOn(conf, n + 1, deadlk, now)
  {
  }

  lemma FirstUpIsUnique(conf: seq<Conf>, k: int, n: int)
    requires IsFirstUp(conf, k) && IsFirstUp(conf, n)
    ensures k == n
  {
  }

  lemma GivenUp(conf: seq<Conf>, n: nat, deadlk: bool, was: bool, a: Stage, b: Stage)
    requires n < |conf| && conf[n].up && WentOn(conf, n, deadlk, was) && |a.rs| == |b.rs|
    requires a.deadlk == deadlk && !b.completed && b.deadlk
    requires if conf[n].due then MayBeCalledOff(conf[n].net) else was && b.rs == a.rs
    requires conf[n].due ==> b.rs == a.rs || !(deadlk && FirstUp(conf, false))
    ensures Completes(conf, a, b)
  {
    if !conf[n].due {
      assert IsFirstUp(conf, n);
      forall k | IsFirstUp(conf, k)
        ensures !conf[k].due
      {
        FirstUpIsUnique(conf, k, n);
      }
    }
  }

  /** With errno left over, a first link that is up and not due is not got past. */
  lemma NotPastFirst(conf: seq<Conf>, n: nat, deadlk: bool, was: bool)
    requires n < |conf| && conf[n].up && conf[n].due && WentOn(conf, n, deadlk, was)
    ensures !(deadlk && FirstUp(conf, false))
  {
    forall k | deadlk && IsFirstUp(conf, k)
      ensures conf[k].due
    {
    }
  }

  lemma {:induction false} SomeFirstUp(conf: seq<Conf>, n: nat)
    requires n < |conf| && conf[n].up
    ensures exists k :: IsFirstUp(conf, k) && k <= n
    decreases n
  {
    if !NoneUp(conf, n) {
      var i :| 0 <= i < n && conf[i].up;
      SomeFirstUp(conf, i);
    } else {
      assert IsFirstUp(conf, n);
    }
  }

  lemma WentThrough(conf: seq<Conf>, deadlk: bool, a: Stage, b: Stage)
    requires WentOn(conf, |conf|, deadlk, b.deadlk) && |a.rs| == |b.rs| && a.deadlk == deadlk && b.completed
    ensures Completes(conf, a, b)
  {
    if !NoneUp(conf, |conf|) {
      var i :| 0 <= i < |conf| && conf[i].up;
      SomeFirstUp(conf, i);
      var k :| IsFirstUp(conf, k) && k <= i;
      assert deadlk ==> conf[k].due;
    }
  }

  /** The first `n` links have been swept, the others are as before. */
  ghost predicate KnownTo(conf: seq<Conf>, pings: seq<nat>, before: seq<Known>, rs: seq<Known>, n: nat)
    requires |conf| == |rs| == |pings| == |before| && n <= |rs|
  {
    && (forall i :: 0 <= i < n ==> Touched(conf[i], pings[i], before[i], rs[i], true))
    && (forall i :: n <= i < |rs| ==> rs[i] == before[i])
  }

  ghost predicate SweptTo(links: seq<Link>, conf: seq<Conf>, pings: seq<nat>, before: seq<Known>, n: nat)
    requires |conf| == |links| == |pings| == |before| && n <= |links|
    reads links
  {
    KnownTo(conf, pings, before, AllKnown(links), n)
  }

  /** One link of the sweep; the others are not touched. */
  method SweepLink(links: seq<Link>, conf: seq<Conf>, n: nat, deadlk: bool, ghost pings: seq<nat>, ghost before: seq<Known>)
    returns (hasMtu: bool, deadlk': bool)
    requires n < |links| == |conf| == |pings| == |before| && Separate(links) && Ready(links, pings) && conf[n].up
    requires SweptTo(links, conf, pings, before, n)
    modifies links[n]
    ensures Ready(links, pings) && hasMtu == links[n].hasValidMtu
    ensures forall i :: 0 <= i < |links| && i != n ==> KnownOf(links[i]) == old(KnownOf(links[i]))
    ensures if deadlk' then SweptTo(links, conf, pings, before, n) else SweptTo(links, conf, pings, before, n + 1)
    ensures !conf[n].due ==> deadlk' == deadlk && KnownOf(links[n]) == old(KnownOf(links[n]))
    ensures conf[n].due && deadlk' ==> MayBeCalledOff(conf[n].net)
    ensures conf[n].due && IsCalledOff(conf[n].net) ==> deadlk'
  {
    assert forall i :: 0 <= i < n ==> links[i] != links[n];
    assert forall i :: n < i < |links| ==> links[i] != links[n];
    hasMtu, deadlk' := CheckPmtud(links[n], conf[n], deadlk);
  }

  // ----- all sweeps

  /** Stages of a run of sweeps, one more than there are sweeps. */
  ghost predicate IsTrace(rounds: seq<seq<Conf>>, pings: seq<nat>, trace: seq<Stage>) {
    && |trace| == |rounds| + 1
    && (forall j :: 0 <= j < |rounds| ==> |rounds[j]| == |pings|)
    && |trace[0].rs| == |pings|
    && (forall j :: 0 <= j < |rounds| ==> Follows(rounds[j], pings, trace[j], trace[j + 1]))
  }

  /** The loop of the discovery thread. */
  method PmtudLinkThread(links: seq<Link>, rounds: seq<seq<Conf>>, dataMtu: nat, ghost pings: seq<nat>)
    returns (dataMtu': nat, ghost trace: seq<Stage>)
    requires |links| == |pings| && Separate(links) && Ready(links, pings)
    requires forall j :: 0 <= j < |rounds| ==> |rounds[j]| == |pings|
    modifies links
    ensures Ready(links, pings) && IsTrace(rounds, pings, trace)
    ensures trace[0] == Stage(old(AllKnown(links)), dataMtu, true, false)
    ensures trace[|rounds|].rs == AllKnown(links) && trace[|rounds|].dataMtu == dataMtu'
  {
    dataMtu' := dataMtu;
    var deadlk := false;
    trace := [Stage(AllKnown(links), dataMtu, true, false)];
    for j := 0 to |rounds|
      invariant Ready(links, pings) && IsTrace(rounds[..j], pings, trace)
      invariant trace[0] == Stage(old(AllKnown(links)), dataMtu, true, false)
      invariant trace[j].rs == AllKnown(links) && trace[j].dataMtu == dataMtu' && trace[j].deadlk == deadlk
    {
      var completed;
      dataMtu', deadlk, completed := Sweep(links, rounds[j], dataMtu', deadlk, pings);
      ghost var next := Stage(AllKnown(links), dataMtu', completed, deadlk);
      TraceGrows(rounds, pings, trace, next, j);
      trace := trace + [next];
    }
    assert rounds[..|rounds|] == rounds;
  }

  lemma TraceGrows(rounds: seq<seq<Conf>>, pings: seq<nat>, trace: seq<Stage>, next: Stage, j: nat)
    requires j < |rounds| && |rounds[j]| == |pings| && IsTrace(rounds[..j], pings, trace)
    requires Follows(rounds[j], pings, trace[j].(completed := true), next)
    ensures IsTrace(rounds[..j + 1], pings, trace + [next])
  {
    var more := trace + [next];
    forall i | 0 <= i < j + 1
      ensures Follows(rounds[..j + 1][i], pings, more[i], more[i + 1])
    {
      if i < j {
        assert Follows(rounds[..j][i], pings, trace[i], trace[i + 1]);
      }
    }
  }

  /** What a path carries, and the settings packets travel over it with. */
  datatype Route = Route(u: Setup, m: nat)

  /** What is known of a link on this path is right, and not below the failsafe MTU. */
  ghost predicate Right(route: Route, r: Known) {
    r.valid ==> CalcMinMtu(route.u.crypto) <= r.mtu == PathMtu(route.u, route.m)
  }

  ghost predicate OnPath(c: Conf, route: Route, pingSize: nat) {
    c.u == route.u && c.path.m == route.m && Stable(c.u, c.net, c.path) && pingSize == MinWire(c.u.crypto)
  }

  /** In every sweep link `n` is on this path. */
  ghost predicate Steady(rounds: seq<seq<Conf>>, n: nat, route: Route, pingSize: nat) {
    forall j :: 0 <= j < |rounds| && n < |rounds[j]| ==> OnPath(rounds[j][n], route, pingSize)
  }

  /** A link that stays on its path never has a wrong MTU that counts as valid. */
  lemma {:induction false} RightForever(rounds: seq<seq<Conf>>, pings: seq<nat>, trace: seq<Stage>, n: nat, route: Route, j: nat)
    requires IsTrace(rounds, pings, trace) && n < |pings| && j <= |rounds|
    requires Steady(rounds, n, route, pings[n]) && Right(route, trace[0].rs[n])
    ensures |trace[j].rs| == |pings| && Right(route, trace[j].rs[n])
  {
    if j > 0 {
      RightForever(rounds, pings, trace, n, route, j - 1);
      var conf, a, b := rounds[j - 1], trace[j - 1], trace[j];
      assert Follows(conf, pings, a, b);
      assert OnPath(conf[n], route, pings[n]);
      assert Touched(conf[n], pings[n], a.rs[n], b.rs[n], b.completed);
    }
  }

  /** The size on the wire of a data packet with `len` bytes of user data. */
  function DataLen(c: Crypto, len: nat): Size {
    CalcDataOutlen(c, Wrap(HEADER_DATA_V1_SIZE + len))
  }

  lemma CutFits(u: Setup, m: nat, statusMtu: nat, p: Packet, s: SeqNum, i: nat)
    requires u.crypto.Sane() && Base(u) <= m <= PMTUD_SIZE
    requires statusMtu == CalcMaxDataOutlen(u.crypto, Wrap(m - u.overhead))
    requires p.Sendable() && p.mtu <= statusMtu && i < |Cut(p, s)|
    ensures DataLen(u.crypto, |Cut(p, s)[i].body|) + u.overhead <= m
  {
    CutBodyFits(p, s, i);
    DataFits(u.crypto, |Cut(p, s)[i].body|, m - u.overhead);
  }

  /** End to end, over every sequence of sweeps: after each completed one, whatever is
      cut with the data MTU it set fits the path of every link that is up with a valid
      MTU, due in this sweep or not, encrypted and with all headers. All it takes is
      that the link's own path stayed as it is and that the link began with no valid MTU
      or a right one. */
  lemma EverythingSentFits(rounds: seq<seq<Conf>>, pings: seq<nat>, trace: seq<Stage>, j: nat, n: nat, route: Route, p: Packet, s: SeqNum, i: nat)
    requires IsTrace(rounds, pings, trace) && j < |rounds| && n < |pings|
    requires Steady(rounds, n, route, pings[n]) && Right(route, trace[0].rs[n])
    requires trace[j + 1].completed && Counts(rounds[j][n], trace[j + 1].rs[n])
    requires p.Sendable() && p.mtu == trace[j + 1].dataMtu && i < |Cut(p, s)|
    ensures DataLen(route.u.crypto, |Cut(p, s)[i].body|) + route.u.overhead <= route.m
  {
    RightForever(rounds, pings, trace, n, route, j + 1);
    assert Follows(rounds[j], pings, trace[j], trace[j + 1]);
    AtMostEach(rounds[j], trace[j + 1].rs, n);
    assert OnPath(rounds[j][n], route, pings[n]);
    CutFits(route.u, route.m, trace[j + 1].rs[n].mtu, p, s, i);
  }

  /** Until a sweep completes, and whenever the data MTU is reset, packets are cut with the
      failsafe MTU. They fit the path of every link with a valid MTU at any time. */
  lemma FailsafeFits(rounds: seq<seq<Conf>>, pings: seq<nat>, trace: seq<Stage>, j: nat, n: nat, route: Route, p: Packet, s: SeqNum, i: nat)
    requires IsTrace(rounds, pings, trace) && j < |rounds| && n < |pings|
    requires Steady(rounds, n, route, pings[n]) && Right(route, trace[0].rs[n])
    requires |trace[j + 1].rs| == |pings| && trace[j + 1].rs[n].valid
    requires p.Sendable() && p.mtu == CalcMinMtu(route.u.crypto) && i < |Cut(p, s)|
    ensures DataLen(route.u.crypto, |Cut(p, s)[i].body|) + route.u.overhead <= route.m
  {
    RightForever(rounds, pings, trace, n, route, j + 1);
    assert OnPath(rounds[j][n], route, pings[n]);
    CutFits(route.u, route.m, trace[j + 1].rs[n].mtu, p, s, i);
  }

  /** Over every trace: a completed sweep after which some link that is up is valid sets the
      data MTU to the least of such links', which is reached unless it is the largest
      packet; any other sweep leaves it. */
  lemma {:induction false} DataMtuIs(rounds: seq<seq<Conf>>, pings: seq<nat>, trace: seq<Stage>, j: nat)
    requires IsTrace(rounds, pings, trace) && j < |rounds|
    ensures |trace[j + 1].rs| == |rounds[j]|
    ensures var b := trace[j + 1];
            if b.completed && exists n :: 0 <= n < |b.rs| && rounds[j][n].up && b.rs[n].valid then
              && b.dataMtu <= PMTUD_SIZE
              && (forall n :: 0 <= n < |b.rs| && rounds[j][n].up && b.rs[n].valid ==> b.dataMtu <= b.rs[n].mtu)
              && (b.dataMtu == PMTUD_SIZE ||
                  exists n :: 0 <= n < |b.rs| && rounds[j][n].up && b.rs[n].valid && b.dataMtu == b.rs[n].mtu)
            else b.dataMtu == trace[j].dataMtu
  {
    assert Follows(rounds[j], pings, trace[j], trace[j + 1]);
    LowestIs(rounds[j], trace[j + 1].rs);
  }

  /** Errno left over from a discovery called off in one sweep gives up every sweep after
      it, though nothing is called off in them, for as long as the first link that is up
      is not due: nothing is measured and the data MTU stays. */
  lemma {:induction false} StaleErrnoGivesUp(rounds: seq<seq<Conf>>, pings: seq<nat>, trace: seq<Stage>, a: nat, b: nat)
    requires IsTrace(rounds, pings, trace) && a < b <= |rounds| && MustStop(rounds[a])
    requires forall j :: a < j < b ==> FirstUp(rounds[j], false)
    ensures !trace[b].completed && trace[b].deadlk
    ensures trace[b].rs == trace[a + 1].rs && trace[b].dataMtu == trace[a].dataMtu
    decreases b
  {
    assert Follows(rounds[b - 1], pings, trace[b - 1], trace[b]);
    if a < b - 1 {
      StaleErrnoGivesUp(rounds, pings, trace, a, b - 1);
    }
  }

  /** The least case: one link, called off in the first sweep and not due in the second. */
  lemma TwoSweepsGivenUp(u: Setup, net: Net, path: Path, ping: nat, trace: seq<Stage>)
    requires !MayBeCalledOff(net)
    requires IsTrace([[Conf(u, true, true, CallsOff(), path)], [Conf(u, true, false, net, path)]], [ping], trace)
    ensures !MayStop([Conf(u, true, false, net, path)]) && !trace[2].completed && trace[2].dataMtu == trace[0].dataMtu
  {
    var first, second := Conf(u, true, true, CallsOff(), path), Conf(u, true, false, net, path);
    assert [first][0] == first && IsCalledOff(first.net);
    assert [second][0] == second;
    StaleErrnoGivesUp([[first], [second]], [ping], trace, 0, 2);
  }

  function CallsOff(): Net {
    (i: nat, size: nat, mult: nat) => Rescheduled
  }

  lemma {:induction false} AtMostEach(conf: seq<Conf>, rs: seq<Known>, n: nat)
    requires n < |rs| <= |conf| && Counts(conf[n], rs[n])
    ensures AnyCounts(conf, rs) && Lowest(conf, rs) <= rs[n].mtu
  {
    LowestIs(conf, rs);
  }

  lemma DataFits(c: Crypto, len: nat, room: nat)
    requires c.Sane() && MinWire(c) <= room < 0x1_0000_0000 && len <= CalcMaxDataOutlen(c, room)
    ensures DataLen(c, len) <= room
  {
    MaxIsBelow(c, room);
    FitsIffWithinMax(c, len, room);
    OutlenIsMonotone(c, HEADER_DATA_V1_SIZE + len, len + HEADER_ALL_SIZE);
  }

  lemma CutBodyFits(p: Packet, s: SeqNum, i: nat)
    requires p.Sendable() && i < |Cut(p, s)|
    ensures |Cut(p, s)[i].body| <= p.mtu
  {
    PieceFits(p, i + 1);
  }
}
