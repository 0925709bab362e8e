/** Agreement on the on-wire protocol version (libknet/host.c, libknet/threads_rx.c,
    libknet/threads_heartbeat.c). */
module Versions {
  /** What a node knows of another: version and highest supported version of its last
      accepted ping, 0 until there is one. */
  datatype Host = Host(id: nat, onwireVer: nat, onwireMaxVer: nat)

  datatype Node = Node(id: nat, ver: nat, minVer: nat, maxVer: nat, forceVer: nat, hosts: seq<Host>)

  datatype Ping = Ping(from: nat, ver: nat, maxVer: nat)

  /** Nodes too old to advertise a highest version support version 1. */
  function Advertised(maxVer: nat): nat {
    if maxVer == 0 then 1 else maxVer
  }

  /** The checks every packet passes before it is looked at. */
  predicate Accepts(n: Node, p: Ping) {
    var maxVer := Advertised(p.maxVer);
    && !(maxVer < n.minVer)
    && !(p.ver > n.maxVer)
    && !(n.forceVer == 0 && p.ver < n.ver && maxVer > p.ver)
  }

  function Learn(hosts: seq<Host>, p: Ping): (r: seq<Host>)
    ensures |r| == |hosts|
  {
    seq(|hosts|, k requires 0 <= k < |hosts| =>
      if hosts[k].id == p.from then Host(p.from, p.ver, Advertised(p.maxVer)) else hosts[k])
  }

  predicate AllKnown(hosts: seq<Host>) {
    forall k :: 0 <= k < |hosts| ==> hosts[k].onwireMaxVer != 0
  }

  /** The highest version common to this node and those it can talk to. */
  function Common(hosts: seq<Host>, minVer: nat, maxVer: nat): nat {
    if hosts == [] then maxVer else
    var r := Common(hosts[..|hosts| - 1], minVer, maxVer);
    var h := hosts[|hosts| - 1].onwireMaxVer;
    if minVer <= h < r then h else r
  }

  /** A node after a ping has arrived. */
  function Receive(n: Node, p: Ping): Node {
    if !Accepts(n, p) then n else
    var hosts := Learn(n.hosts, p);
    if !AllKnown(hosts) then n.(hosts := hosts)
    else n.(hosts := hosts, ver := if n.forceVer != 0 then n.forceVer else Common(hosts, n.minVer, n.maxVer))
  }

  class Handle {
    const hostId: nat
    const onwireMinVer: nat
    const onwireMaxVer: nat
    var onwireForceVer: nat
    var onwireVer: nat
    var hosts: seq<Host>

    constructor (hostId: nat, minVer: nat, maxVer: nat, hosts: seq<Host>)
      ensures View() == Node(hostId, minVer, minVer, maxVer, 0, hosts)
    {
      this.hostId, onwireMinVer, onwireMaxVer := hostId, minVer, maxVer;
      onwireForceVer, onwireVer, this.hosts := 0, minVer, hosts;
    }

    ghost function View(): Node
      reads this
    {
      Node(hostId, onwireVer, onwireMinVer, onwireMaxVer, onwireForceVer, hosts)
    }

    /** Force a version; 0 goes back to negotiation. */
    method SetOnwireVer(v: nat) returns (ok: bool)
      modifies this`onwireForceVer
      ensures ok == (v == 0 || onwireMinVer <= v <= onwireMaxVer)
      ensures View() == old(View()).(forceVer := if ok then v else old(onwireForceVer))
    {
      if v != 0 && (v < onwireMinVer || v > onwireMaxVer) {
        return false;
      }
      onwireForceVer := v;
      return true;
    }

    method PacketChecks(p: Ping) returns (ok: bool)
      ensures ok == Accepts(View(), p)
    {
      var maxVer := p.maxVer;
      if maxVer == 0 {
        maxVer := 1;
      }
      if maxVer < onwireMinVer {
        return false;
      }
      if p.ver > onwireMaxVer {
        return false;
      }
      if onwireForceVer == 0 && p.ver < onwireVer && maxVer > p.ver {
        return false;
      }
      return true;
    }

    method HandleOnwireVersion(p: Ping)
      requires Accepts(View(), p)
      modifies this`hosts, this`onwireVer
      ensures View() == Receive(old(View()), p)
    {
      hosts := Learn(hosts, p);
      var ver := onwireMaxVer;
      for k := 0 to |hosts|
        invariant hosts == Learn(old(hosts), p) && onwireVer == old(onwireVer)
        invariant AllKnown(hosts[..k])
        invariant ver == Common(hosts[..k], onwireMinVer, onwireMaxVer)
      {
        // no change of version before every node was seen once
        if hosts[k].onwireMaxVer == 0 {
          return;
        }
        assert hosts[..k + 1][..k] == hosts[..k];
        if !(hosts[k].onwireMaxVer < onwireMinVer) && hosts[k].onwireMaxVer < ver {
          ver := hosts[k].onwireMaxVer;
        }
      }
      assert hosts[..|hosts|] == hosts;
      if onwireForceVer != 0 {
        ver := onwireForceVer;
      }
      if onwireVer != ver {
        onwireVer := ver;
      }
    }
  }

  lemma {:induction false} CommonIs(hosts: seq<Host>, minVer: nat, maxVer: nat)
    ensures var r := Common(hosts, minVer, maxVer);
            && r <= maxVer
            && (forall k :: 0 <= k < |hosts| && minVer <= hosts[k].onwireMaxVer ==> r <= hosts[k].onwireMaxVer)
            && (r == maxVer || exists k :: 0 <= k < |hosts| && minVer <= r == hosts[k].onwireMaxVer)
  {
    if hosts != [] {
      var front := hosts[..|hosts| - 1];
      CommonIs(front, minVer, maxVer);
      var r := Common(front, minVer, maxVer);
      if r != maxVer {
        var k :| 0 <= k < |front| && minVer <= r == front[k].onwireMaxVer;
        assert hosts[k] == front[k];
      }
    }
  }

  // ----- what is turned away

  /** What a node supports and what a sender, at `ver` and able to go up to its highest
      version, has in common. */
  predicate Reachable(n: Node, p: Ping) {
    n.minVer <= Advertised(p.maxVer) && p.ver <= n.maxVer
  }

  /** A sender below the node's version that could do better. */
  predicate LagsBehind(n: Node, p: Ping) {
    p.ver < n.ver && p.ver < Advertised(p.maxVer)
  }

  /** A ping is accepted exactly if the two can reach each other and the sender does not
      lag behind, which a node with a forced version lets pass. */
  lemma AcceptedIff(n: Node, p: Ping)
    ensures Accepts(n, p) <==> Reachable(n, p) && (n.forceVer != 0 || !LagsBehind(n, p))
  {
  }

  /** A node that does not advertise a highest version is taken for one that advertises 1. */
  lemma OldNodesAdvertiseOne(n: Node, p: Ping)
    ensures Accepts(n, p.(maxVer := 0)) == Accepts(n, p.(maxVer := 1))
    ensures Receive(n, p.(maxVer := 0)) == Receive(n, p.(maxVer := 1))
  {
    assert Learn(n.hosts, p.(maxVer := 0)) == Learn(n.hosts, p.(maxVer := 1));
  }

  /** So a node learns only from pings within its reach, and never takes a version it
      does not support. */
  lemma LearnsWithinReach(n: Node, p: Ping)
    ensures Receive(n, p) != n ==> Reachable(n, p)
    ensures n.forceVer == 0 && Receive(n, p).ver != n.ver && n.minVer <= n.maxVer ==> n.minVer <= Receive(n, p).ver <= n.maxVer
  {
    CommonIs(Learn(n.hosts, p), n.minVer, n.maxVer);
  }

  // ----- the cluster

  /** All nodes, the pings sent so far (any of them may arrive late, repeatedly or
      never), and from whom each node has had a ping arrive. */
  datatype Cluster = Cluster(nodes: seq<Node>, sent: set<Ping>, heard: seq<set<nat>>)

  /** A stranger's ping may say anything that is out of the node's reach. */
  datatype Event = Send(i: nat) | Arrive(i: nat, p: Ping) | Stranger(i: nat, p: Ping)

  ghost predicate Enabled(c: Cluster, e: Event) {
    match e
    case Send(i) => i < |c.nodes|
    case Arrive(i, p) => i < |c.nodes| && i < |c.heard| && p in c.sent && p.from != i
    case Stranger(i, p) => i < |c.nodes| && !Reachable(c.nodes[i], p)
  }

  ghost function Step(c: Cluster, e: Event): Cluster
    requires Enabled(c, e)
  {
    match e
    case Send(i) => c.(sent := c.sent + {Ping(c.nodes[i].id, c.nodes[i].ver, c.nodes[i].maxVer)})
    case Arrive(i, p) =>
      c.(nodes := c.nodes[i := Receive(c.nodes[i], p)], heard := c.heard[i := c.heard[i] + {p.from}])
    case Stranger(i, p) => c.(nodes := c.nodes[i := Receive(c.nodes[i], p)])
  }

  /** Node `i` lists exactly the other nodes. */
  ghost predicate ListsOthers(n: Node, i: nat, count: nat) {
    && n.id == i
    && (forall k :: 0 <= k < |n.hosts| ==> n.hosts[k].id < count && n.hosts[k].id != i)
    && (forall j: nat :: j < count && j != i ==> Lists(n.hosts, j))
  }

  ghost predicate Lists(hosts: seq<Host>, j: nat) {
    exists k :: 0 <= k < |hosts| && hosts[k].id == j
  }

  /** The least of all the nodes' highest versions. */
  ghost predicate IsTarget(maxes: seq<nat>, v: nat) {
    v in maxes && forall i :: 0 <= i < |maxes| ==> v <= maxes[i]
  }

  /** Nodes that start together: a common least version, any highest versions from it
      up, nothing forced and nothing heard. */
  ghost predicate Starts(c: Cluster, minVer: nat, maxes: seq<nat>) {
    && |c.nodes| == |maxes| == |c.heard| >= 2 && c.sent == {} && 1 <= minVer
    && forall i :: 0 <= i < |c.nodes| ==>
         && minVer <= maxes[i] && c.heard[i] == {}
         && (c.nodes[i].ver, c.nodes[i].minVer, c.nodes[i].maxVer, c.nodes[i].forceVer) == (minVer, minVer, maxes[i], 0)
         && ListsOthers(c.nodes[i], i, |c.nodes|)
         && (forall k :: 0 <= k < |c.nodes[i].hosts| ==> c.nodes[i].hosts[k].onwireMaxVer == 0)
  }

  /** What is known of a host is its true highest version, and it is known as soon as
      one ping has arrived. */
  ghost predicate KnownRight(hosts: seq<Host>, maxes: seq<nat>, heard: set<nat>) {
    forall k :: 0 <= k < |hosts| ==>
      && hosts[k].id < |maxes|
      && (hosts[k].onwireMaxVer == 0 || hosts[k].onwireMaxVer == maxes[hosts[k].id])
      && (hosts[k].id in heard ==> hosts[k].onwireMaxVer != 0)
  }

  ghost predicate NodeOk(n: Node, i: nat, minVer: nat, maxes: seq<nat>, v: nat, heard: set<nat>) {
    && i < |maxes| && (n.minVer, n.maxVer, n.forceVer) == (minVer, maxes[i], 0)
    && ListsOthers(n, i, |maxes|)
    && KnownRight(n.hosts, maxes, heard)
    && n.ver == (if AllKnown(n.hosts) then v else minVer)
  }

  ghost predicate PingOk(p: Ping, minVer: nat, maxes: seq<nat>, v: nat) {
    p.from < |maxes| && p.maxVer == maxes[p.from] && (p.ver == minVer || p.ver == v)
  }

  ghost predicate Sound(c: Cluster, minVer: nat, maxes: seq<nat>, v: nat) {
    && |c.nodes| == |c.heard| == |maxes| && IsTarget(maxes, v) && 1 <= minVer
    && (forall i :: 0 <= i < |maxes| ==> minVer <= maxes[i])
    && (forall i :: 0 <= i < |c.nodes| ==> NodeOk(c.nodes[i], i, minVer, maxes, v, c.heard[i]))
    && (forall p :: p in c.sent ==> PingOk(p, minVer, maxes, v))
  }

  lemma TargetBounds(minVer: nat, maxes: seq<nat>, v: nat, i: nat)
    requires IsTarget(maxes, v) && i < |maxes| && forall i :: 0 <= i < |maxes| ==> minVer <= maxes[i]
    ensures minVer <= v <= maxes[i]
  {
  }

  /** A node that misses a peer turns no ping away. */
  lemma MissingNodeAccepts(n: Node, i: nat, minVer: nat, maxes: seq<nat>, v: nat, heard: set<nat>, p: Ping)
    requires NodeOk(n, i, minVer, maxes, v, heard) && PingOk(p, minVer, maxes, v) && IsTarget(maxes, v)
    requires 1 <= minVer && (forall i :: 0 <= i < |maxes| ==> minVer <= maxes[i]) && !AllKnown(n.hosts)
    ensures Accepts(n, p)
  {
    TargetBounds(minVer, maxes, v, i);
  }

  /** With every peer known the computed version is the target. */
  lemma {:induction false} CommonIsTarget(n: Node, hosts: seq<Host>, i: nat, minVer: nat, maxes: seq<nat>, v: nat, heard: set<nat>)
    requires i < |maxes| && n.maxVer == maxes[i] && ListsOthers(n.(hosts := hosts), i, |maxes|)
    requires KnownRight(hosts, maxes, heard) && AllKnown(hosts) && IsTarget(maxes, v)
    requires forall i :: 0 <= i < |maxes| ==> minVer <= maxes[i]
    ensures Common(hosts, minVer, n.maxVer) == v
  {
    CommonIs(hosts, minVer, n.maxVer);
    var r := Common(hosts, minVer, n.maxVer);
    var j: nat :| j < |maxes| && maxes[j] == v;
    if j != i {
      assert Lists(hosts, j);
      var k :| 0 <= k < |hosts| && hosts[k].id == j;
      assert r <= hosts[k].onwireMaxVer;
    }
  }

  lemma LearnKeeps(n: Node, i: nat, count: nat, p: Ping)
    requires ListsOthers(n, i, count) && p.from < count && p.from != i
    ensures ListsOthers(n.(hosts := Learn(n.hosts, p)), i, count)
  {
    var hosts := Learn(n.hosts, p);
    forall j: nat | j < count && j != i
      ensures Lists(hosts, j)
    {
      assert Lists(n.hosts, j);
      var k :| 0 <= k < |n.hosts| && n.hosts[k].id == j;
      assert hosts[k].id == j;
    }
  }

  /** An arriving ping keeps the node right, accepted or not. */
  lemma ReceiveOk(n: Node, i: nat, minVer: nat, maxes: seq<nat>, v: nat, heard: set<nat>, p: Ping)
    requires NodeOk(n, i, minVer, maxes, v, heard) && PingOk(p, minVer, maxes, v) && IsTarget(maxes, v) && p.from != i
    requires 1 <= minVer && forall i :: 0 <= i < |maxes| ==> minVer <= maxes[i]
    ensures NodeOk(Receive(n, p), i, minVer, maxes, v, heard + {p.from})
  {
    if !AllKnown(n.hosts) {
      MissingNodeAccepts(n, i, minVer, maxes, v, heard, p);
    }
    if Accepts(n, p) {
      var hosts := Learn(n.hosts, p);
      LearnKeeps(n, i, |maxes|, p);
      assert Advertised(p.maxVer) == maxes[p.from];
      assert KnownRight(hosts, maxes, heard + {p.from});
      if AllKnown(hosts) {
        CommonIsTarget(n, hosts, i, minVer, maxes, v, heard + {p.from});
      } else {
        assert !AllKnown(n.hosts);
      }
    }
  }

  lemma StrangerChangesNothing(c: Cluster, i: nat, p: Ping)
    requires Enabled(c, Stranger(i, p))
    ensures Step(c, Stranger(i, p)) == c
  {
    assert c.nodes[i := c.nodes[i]] == c.nodes;
  }

  lemma StepOk(c: Cluster, e: Event, minVer: nat, maxes: seq<nat>, v: nat)
    requires Sound(c, minVer, maxes, v) && Enabled(c, e)
    ensures Sound(Step(c, e), minVer, maxes, v)
  {
    match e
    case Send(i) =>
      TargetBounds(minVer, maxes, v, i);
    case Arrive(i, p) =>
      ReceiveOk(c.nodes[i], i, minVer, maxes, v, c.heard[i], p);
    case Stranger(i, p) =>
      StrangerChangesNothing(c, i, p);
  }

  lemma StartOk(c: Cluster, minVer: nat, maxes: seq<nat>, v: nat)
    requires Starts(c, minVer, maxes) && IsTarget(maxes, v)
    ensures Sound(c, minVer, maxes, v)
  {
    forall i | 0 <= i < |c.nodes|
      ensures NodeOk(c.nodes[i], i, minVer, maxes, v, c.heard[i])
    {
      var hosts := c.nodes[i].hosts;
      assert Lists(hosts, if i == 0 then 1 else 0);
      assert !AllKnown(hosts);
    }
  }

  ghost predicate Runs(c: Cluster, events: seq<Event>)
    decreases |events|
  {
    events == [] || (Enabled(c, events[0]) && Runs(Step(c, events[0]), events[1..]))
  }

  ghost function Exec(c: Cluster, events: seq<Event>): Cluster
    requires Runs(c, events)
    decreases |events|
  {
    if events == [] then c else Exec(Step(c, events[0]), events[1..])
  }

  lemma {:induction false} ExecOk(c: Cluster, events: seq<Event>, minVer: nat, maxes: seq<nat>, v: nat)
    requires Sound(c, minVer, maxes, v) && Runs(c, events)
    ensures Sound(Exec(c, events), minVer, maxes, v)
    decreases |events|
  {
    if events != [] {
      StepOk(c, events[0], minVer, maxes, v);
      ExecOk(Step(c, events[0]), events[1..], minVer, maxes, v);
    }
  }

  /** In every run: each node is at the least version or at the target; one that has
      had a ping from every peer is at the target, and stays there; a node still missing a
      peer accepts every ping; and one that knows all turns away exactly the pings sent by
      nodes before they reached the target. */
  lemma {:induction false} Agreement(c: Cluster, events: seq<Event>, minVer: nat, maxes: seq<nat>, v: nat)
    requires Starts(c, minVer, maxes) && IsTarget(maxes, v) && Runs(c, events)
    ensures var c' := Exec(c, events);
            |c'.nodes| == |c'.heard| == |maxes| &&
            forall i :: 0 <= i < |maxes| ==>
              && (c'.nodes[i].ver == minVer || c'.nodes[i].ver == v)
              && ((forall j: nat :: j < |maxes| && j != i ==> j in c'.heard[i]) ==> c'.nodes[i].ver == v)
              && (forall p :: p in c'.sent ==> (Accepts(c'.nodes[i], p) <==> !AllKnown(c'.nodes[i].hosts) || p.ver == v))
  {
    StartOk(c, minVer, maxes, v);
    ExecOk(c, events, minVer, maxes, v);
    var c' := Exec(c, events);
    forall i | 0 <= i < |maxes|
      ensures (forall j: nat :: j < |maxes| && j != i ==> j in c'.heard[i]) ==> c'.nodes[i].ver == v
      ensures forall p :: p in c'.sent ==> (Accepts(c'.nodes[i], p) <==> !AllKnown(c'.nodes[i].hosts) || p.ver == v)
    {
      assert NodeOk(c'.nodes[i], i, minVer, maxes, v, c'.heard[i]);
      forall p | p in c'.sent
        ensures Accepts(c'.nodes[i], p) <==> !AllKnown(c'.nodes[i].hosts) || p.ver == v
      {
        if AllKnown(c'.nodes[i].hosts) {
          KnowingNodeAccepts(c'.nodes[i], i, minVer, maxes, v, c'.heard[i], p);
        } else {
          MissingNodeAccepts(c'.nodes[i], i, minVer, maxes, v, c'.heard[i], p);
        }
      }
    }
  }

  lemma KnowingNodeAccepts(n: Node, i: nat, minVer: nat, maxes: seq<nat>, v: nat, heard: set<nat>, p: Ping)
    requires NodeOk(n, i, minVer, maxes, v, heard) && PingOk(p, minVer, maxes, v) && IsTarget(maxes, v)
    requires 1 <= minVer && (forall i :: 0 <= i < |maxes| ==> minVer <= maxes[i]) && AllKnown(n.hosts)
    ensures Accepts(n, p) <==> p.ver == v
  {
    TargetBounds(minVer, maxes, v, i);
    TargetBounds(minVer, maxes, v, p.from);
  }

  // ----- strangers

  /** The run without the pings of strangers. */
  function WithoutStrangers(events: seq<Event>): seq<Event>
    decreases |events|
  {
    if events == [] then []
    else if events[0].Stranger? then WithoutStrangers(events[1..])
    else [events[0]] + WithoutStrangers(events[1..])
  }

  /** Strangers make no difference at all: the cluster ends where it would have without
      them. */
  lemma {:induction false} StrangersDoNotMatter(c: Cluster, events: seq<Event>)
    requires Runs(c, events)
    ensures Runs(c, WithoutStrangers(events)) && Exec(c, WithoutStrangers(events)) == Exec(c, events)
    decreases |events|
  {
    if events != [] {
      StrangersDoNotMatter(Step(c, events[0]), events[1..]);
      if events[0].Stranger? {
        StrangerChangesNothing(c, events[0].i, events[0].p);
      } else {
        var rest := WithoutStrangers(events);
        assert rest[0] == events[0] && rest[1..] == WithoutStrangers(events[1..]);
      }
    }
  }

  // ----- a forced version

  ghost predicate ForcedOk(n: Node, start: nat, v: nat) {
    n.forceVer == v != 0 && n.ver == if AllKnown(n.hosts) then v else start
  }

  lemma ReceiveForced(n: Node, p: Ping, start: nat, v: nat)
    requires ForcedOk(n, start, v)
    ensures ForcedOk(Receive(n, p), start, v)
  {
    var hosts := Learn(n.hosts, p);
    if AllKnown(n.hosts) {
      assert AllKnown(hosts);
    }
  }

  /** Whatever the others do, a node with a forced version stays at the version it started
      with until it knows all its peers, and is at the forced one from then on. */
  lemma {:induction false} ForcedVersionHolds(c: Cluster, events: seq<Event>, i: nat, start: nat, v: nat)
    requires Runs(c, events) && i < |c.nodes| && ForcedOk(c.nodes[i], start, v)
    ensures var c' := Exec(c, events); i < |c'.nodes| && ForcedOk(c'.nodes[i], start, v)
    decreases |events|
  {
    if events != [] {
      var e := events[0];
      if !e.Send? && e.i == i {
        ReceiveForced(c.nodes[i], e.p, start, v);
      }
      ForcedVersionHolds(Step(c, e), events[1..], i, start, v);
    }
  }
}
