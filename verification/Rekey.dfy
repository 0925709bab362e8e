/** Two crypto configurations and the switch from one to the other
    (libknet/crypto.c). */
module Rekey {
  import opened Prelude

  /** A crypto instance: its key, and the sizes it adds to packets. */
  datatype Instance = Instance(key: nat, block: nat, hash: nat, salt: nat)

  datatype Packet = Clear(body: seq<bv8>) | Sealed(key: nat, body: seq<bv8>)

  /** What one instance makes of a packet: it opens exactly what its key sealed. */
  function Decrypt(i: Instance, p: Packet): Option<seq<bv8>> {
    if p.Sealed? && p.key == i.key then Some(p.body) else None
  }

  /** Slots 1 and 2, the slot used for sending (0 for none), and the cached sizes. */
  datatype Crypto = Crypto(slots: seq<Option<Instance>>, inUse: nat, block: nat, hash: nat, salt: nat)

  ghost predicate Consistent(c: Crypto) {
    && |c.slots| == 3 && c.slots[0] == None && c.inUse <= 2
    && (c.inUse == 0 ==> (c.block, c.hash, c.salt) == (0, 0, 0))
    && (c.inUse != 0 ==> c.slots[c.inUse].Some? && SizesOf(c, c.slots[c.inUse].value))
  }

  predicate SizesOf(c: Crypto, i: Instance) {
    (c.block, c.hash, c.salt) == (i.block, i.hash, i.salt)
  }

  /** The configuration used for sending changes, if the slot is filled. */
  function Using(c: Crypto, n: nat): (r: (Crypto, bool))
    requires |c.slots| == 3
  {
    if n > 2 || (n != 0 && c.slots[n] == None) then (c, false)
    else if n == 0 then (c.(inUse := 0, block := 0, hash := 0, salt := 0), true)
    else var v := c.slots[n].value; (c.(inUse := n, block := v.block, hash := v.hash, salt := v.salt), true)
  }

  /** A slot is filled or cleared, unless it is the one used for sending. `usable` is
      false for a key that is too short and for a module that cannot be set up. */
  function Setting(c: Crypto, cfg: Option<Instance>, n: nat, usable: bool): (r: (Crypto, bool))
    requires |c.slots| == 3
  {
    if 1 <= n <= 2 && n != c.inUse && (cfg == None || usable) then (c.(slots := c.slots[n := cfg]), true) else (c, false)
  }

  /** What a node sends for `body`. */
  function Seal(c: Crypto, body: seq<bv8>): Packet
    requires c.inUse != 0 ==> c.inUse < |c.slots| && c.slots[c.inUse].Some?
  {
    if c.inUse == 0 then Clear(body) else Sealed(c.slots[c.inUse].value.key, body)
  }

  /** What it makes of a packet with all its configurations. */
  function Unseal(c: Crypto, p: Packet): Option<seq<bv8>> {
    if p.Sealed? && Opens(c, p.key) then Some(p.body) else None
  }

  /** Some installed configuration opens what `key` sealed. */
  predicate Opens(c: Crypto, key: nat) {
    exists i :: 1 <= i < |c.slots| && c.slots[i].Some? && c.slots[i].value.key == key
  }

  class Handle {
    var slots: array<Option<Instance>>
    var inUse: nat
    var secBlockSize: nat
    var secHashSize: nat
    var secSaltSize: nat

    ghost predicate Valid()
      reads this, slots
    {
      slots.Length == 3 && Consistent(View())
    }

    ghost function View(): Crypto
      reads this, slots
    {
      Crypto(slots[..], inUse, secBlockSize, secHashSize, secSaltSize)
    }

    constructor ()
      ensures Valid() && fresh(slots) && View() == Crypto([None, None, None], 0, 0, 0, 0)
    {
      slots := new Option<Instance>[3](_ => None);
      inUse, secBlockSize, secHashSize, secSaltSize := 0, 0, 0, 0;
      new;
      assert slots[..] == [None, None, None];
    }

    method UseConfig(n: nat) returns (ok: bool)
      requires Valid()
      modifies this
      ensures Valid() && slots == old(slots)
      ensures (View(), ok) == Using(old(View()), n)
    {
      if n > 2 {
        return false;
      }
      if n != 0 && slots[n] == None {
        return false;
      }
      inUse := n;
      if n != 0 {
        secBlockSize := slots[n].value.block;
        secHashSize := slots[n].value.hash;
        secSaltSize := slots[n].value.salt;
      } else {
        secBlockSize, secHashSize, secSaltSize := 0, 0, 0;
      }
      return true;
    }

    /** Install a configuration, or clear the slot. The slot used for sending is never
        touched. */
    method SetConfig(cfg: Option<Instance>, n: nat, usable: bool) returns (ok: bool)
      requires Valid()
      modifies slots
      ensures Valid()
      ensures (View(), ok) == Setting(old(View()), cfg, n, usable)
    {
      if n < 1 || n > 2 {
        return false;
      }
      if inUse == n {
        return false;
      }
      if cfg.Some? && !usable {
        return false;
      }
      slots[n] := cfg;
      return true;
    }

    method Encrypt(body: seq<bv8>) returns (p: Packet)
      requires Valid()
      ensures p == Seal(View(), body)
    {
      if inUse != 0 {
        p := Sealed(slots[inUse].value.key, body);
      } else {
        p := Clear(body);
      }
    }

    /** Try the configuration in use first, then the others. */
    method AuthenticateAndDecrypt(p: Packet) returns (r: Option<seq<bv8>>)
      requires Valid()
      ensures r == Unseal(View(), p)
    {
      r := None;
      if inUse != 0 {
        r := Decrypt(slots[inUse].value, p);
        if r.Some? {
          assert slots[..][inUse].Some?;
          return;
        }
      }
      for i := 1 to 3
        invariant r == None
        invariant p.Sealed? ==> forall j :: 1 <= j < i ==> !(slots[..][j].Some? && slots[..][j].value.key == p.key)
      {
        if i != inUse && slots[i].Some? {
          r := Decrypt(slots[i].value, p);
          if r.Some? {
            assert slots[..][i].Some?;
            return;
          }
        }
      }
    }
  }

  // ----- what the calls achieve

  /** Slot `n` opens what `key` sealed. */
  predicate SlotOpens(c: Crypto, n: nat, key: nat) {
    n < |c.slots| && c.slots[n].Some? && c.slots[n].value.key == key
  }

  lemma OpensBySlot(c: Crypto, key: nat)
    requires Consistent(c)
    ensures Opens(c, key) <==> SlotOpens(c, 1, key) || SlotOpens(c, 2, key)
  {
  }

  /** A usable configuration for a slot not in use is installed: from then on the node
      opens what its key seals, and else exactly what the other slot opens. What it sends
      does not change. */
  lemma InstalledOpens(c: Crypto, cfg: Instance, n: nat, key: nat, body: seq<bv8>)
    requires Consistent(c) && 1 <= n <= 2 && n != c.inUse
    ensures var (c', ok) := Setting(c, Some(cfg), n, true);
            && ok && Consistent(c') && Seal(c', body) == Seal(c, body)
            && Unseal(c', Sealed(cfg.key, body)) == Some(body)
            && (Opens(c', key) <==> key == cfg.key || SlotOpens(c, 3 - n, key))
  {
    var c' := Setting(c, Some(cfg), n, true).0;
    assert SlotOpens(c', n, cfg.key);
    OpensBySlot(c', key);
    OpensBySlot(c', cfg.key);
  }

  /** A cleared slot opens nothing; the other one opens what it did. */
  lemma ClearedOpens(c: Crypto, n: nat, usable: bool, key: nat, body: seq<bv8>)
    requires Consistent(c) && 1 <= n <= 2 && n != c.inUse
    ensures var (c', ok) := Setting(c, None, n, usable);
            && ok && Consistent(c') && Seal(c', body) == Seal(c, body)
            && (Opens(c', key) <==> SlotOpens(c, 3 - n, key))
  {
    OpensBySlot(Setting(c, None, n, usable).0, key);
  }

  /** Any other call fails and changes nothing. */
  lemma RefusedSetting(c: Crypto, cfg: Option<Instance>, n: nat, usable: bool)
    requires Consistent(c) && (n == 0 || n > 2 || n == c.inUse || (cfg.Some? && !usable))
    ensures Setting(c, cfg, n, usable) == (c, false)
  {
  }

  /** Choosing a filled slot makes the node seal with its key and count with its sizes;
      slot 0 makes it send in clear; an empty or unknown one is refused. What the node
      opens never changes by it. */
  lemma ChosenSeals(c: Crypto, n: nat, key: nat, body: seq<bv8>)
    requires Consistent(c)
    ensures var (c', ok) := Using(c, n);
            && Consistent(c') && (Opens(c', key) <==> Opens(c, key))
            && (ok <==> n == 0 || SlotFilled(c, n))
            && (!ok ==> c' == c)
            && (ok && n == 0 ==> Seal(c', body) == Clear(body) && (c'.block, c'.hash, c'.salt) == (0, 0, 0))
            && (ok && n > 0 ==> Seal(c', body) == Sealed(c.slots[n].value.key, body) && SizesOf(c', c.slots[n].value))
  {
    OpensBySlot(c, key);
    OpensBySlot(Using(c, n).0, key);
  }

  predicate SlotFilled(c: Crypto, n: nat) {
    1 <= n < |c.slots| && c.slots[n].Some?
  }

  /** So a new handle that is given a configuration and told to use it seals with that
      key, and two such handles understand each other. */
  lemma FirstConfiguration(cfg: Instance, n: nat, body: seq<bv8>)
    requires 1 <= n <= 2
    ensures var fresh0 := Crypto([None, None, None], 0, 0, 0, 0);
            var c := Using(Setting(fresh0, Some(cfg), n, true).0, n).0;
            Seal(c, body) == Sealed(cfg.key, body) && Unseal(c, Seal(c, body)) == Some(body) && SizesOf(c, cfg)
  {
    var c0 := Crypto([None, None, None], 0, 0, 0, 0);
    assert Consistent(c0);
    InstalledOpens(c0, cfg, n, cfg.key, body);
    var c1 := Setting(c0, Some(cfg), n, true).0;
    ChosenSeals(c1, n, cfg.key, body);
  }

  // ----- moving a cluster from configuration 1 to 2

  /** The nodes, and all packets sent so far. */
  datatype Cluster = Cluster(nodes: seq<Crypto>, sent: set<Packet>)

  datatype Event = Send(i: nat, body: seq<bv8>) | Install(i: nat, usable: bool) | Switch(i: nat) | Drop(i: nat)

  /** The order the application has to keep: nobody sends with the new configuration
      before all have it, nobody drops the old one before all send with the new one. */
  ghost predicate Allowed(c: Cluster, e: Event, new2: Instance) {
    && e.i < |c.nodes|
    && match e
       case Send(i, _) => Consistent(c.nodes[i])
       case Install(i, _) => |c.nodes[i].slots| == 3
       case Switch(i) => forall j :: 0 <= j < |c.nodes| ==> |c.nodes[j].slots| == 3 && c.nodes[j].slots[2] == Some(new2)
       case Drop(i) => |c.nodes[i].slots| == 3 && forall j :: 0 <= j < |c.nodes| ==> c.nodes[j].inUse == 2
  }

  ghost function Step(c: Cluster, e: Event, new2: Instance): Cluster
    requires Allowed(c, e, new2)
  {
    match e
    case Send(i, body) => c.(sent := c.sent + {Seal(c.nodes[i], body)})
    case Install(i, usable) => c.(nodes := c.nodes[i := Setting(c.nodes[i], Some(new2), 2, usable).0])
    case Switch(i) => c.(nodes := c.nodes[i := Using(c.nodes[i], 2).0])
    case Drop(i) => c.(nodes := c.nodes[i := Setting(c.nodes[i], None, 1, true).0])
  }

  ghost predicate AllAre(nodes: seq<Crypto>, n: nat, i: Instance)
    requires n <= 2
  {
    forall j :: 0 <= j < |nodes| ==> |nodes[j].slots| == 3 && nodes[j].slots[n] == Some(i)
  }

  /** How far the cluster has come: the old configuration is everywhere while anyone
      sends with it, the new one is everywhere once anyone has. */
  ghost predicate Underway(c: Cluster, old1: Instance, new2: Instance) {
    && (forall i :: 0 <= i < |c.nodes| ==> Consistent(c.nodes[i]) && 1 <= c.nodes[i].inUse)
    && ((exists i :: 0 <= i < |c.nodes| && c.nodes[i].inUse == 1) ==> AllAre(c.nodes, 1, old1))
    && ((exists i :: 0 <= i < |c.nodes| && c.nodes[i].inUse == 2) ==> AllAre(c.nodes, 2, new2))
    && (forall p :: p in c.sent ==> p.Sealed? && (p.key == old1.key || p.key == new2.key))
    && (forall p :: p in c.sent && p.Sealed? && p.key != old1.key ==> AllAre(c.nodes, 2, new2))
    && (forall i :: 0 <= i < |c.nodes| ==> c.nodes[i].slots[1] == None || c.nodes[i].slots[1] == Some(old1))
  }

  ghost predicate Starts(c: Cluster, old1: Instance) {
    && c.sent == {}
    && forall i :: 0 <= i < |c.nodes| ==> Consistent(c.nodes[i]) && c.nodes[i].inUse == 1 && c.nodes[i].slots[1] == Some(old1)
  }

  lemma StartsUnderway(c: Cluster, old1: Instance, new2: Instance)
    requires Starts(c, old1)
    ensures Underway(c, old1, new2)
  {
  }

  lemma SendKeeps(c: Cluster, i: nat, body: seq<bv8>, old1: Instance, new2: Instance)
    requires Underway(c, old1, new2) && Allowed(c, Send(i, body), new2)
    ensures Underway(Step(c, Send(i, body), new2), old1, new2)
  {
    assert c.nodes[i].inUse == 1 || c.nodes[i].inUse == 2;
  }

  lemma InstallKeeps(c: Cluster, i: nat, usable: bool, old1: Instance, new2: Instance)
    requires Underway(c, old1, new2) && Allowed(c, Install(i, usable), new2)
    ensures Underway(Step(c, Install(i, usable), new2), old1, new2)
  {
  }

  lemma SwitchKeeps(c: Cluster, i: nat, old1: Instance, new2: Instance)
    requires Underway(c, old1, new2) && Allowed(c, Switch(i), new2)
    ensures Underway(Step(c, Switch(i), new2), old1, new2)
  {
    assert AllAre(c.nodes, 2, new2);
  }

  lemma DropKeeps(c: Cluster, i: nat, old1: Instance, new2: Instance)
    requires Underway(c, old1, new2) && Allowed(c, Drop(i), new2)
    ensures Underway(Step(c, Drop(i), new2), old1, new2)
  {
    assert c.nodes[i].inUse == 2;
  }

  lemma StepKeeps(c: Cluster, e: Event, old1: Instance, new2: Instance)
    requires Underway(c, old1, new2) && Allowed(c, e, new2)
    ensures Underway(Step(c, e, new2), old1, new2)
  {
    match e
    case Send(i, body) => SendKeeps(c, i, body, old1, new2);
    case Install(i, usable) => InstallKeeps(c, i, usable, old1, new2);
    case Switch(i) => SwitchKeeps(c, i, old1, new2);
    case Drop(i) => DropKeeps(c, i, old1, new2);
  }

  ghost predicate Runs(c: Cluster, events: seq<Event>, old1: Instance, new2: Instance)
    requires Underway(c, old1, new2)
    decreases |events|
  {
    events == [] ||
    (Allowed(c, events[0], new2) &&
     (StepKeeps(c, events[0], old1, new2); Runs(Step(c, events[0], new2), events[1..], old1, new2)))
  }

  ghost function Exec(c: Cluster, events: seq<Event>, old1: Instance, new2: Instance): (r: Cluster)
    requires Underway(c, old1, new2) && Runs(c, events, old1, new2)
    ensures Underway(r, old1, new2)
    decreases |events|
  {
    if events == [] then c else
    StepKeeps(c, events[0], old1, new2);
    Exec(Step(c, events[0], new2), events[1..], old1, new2)
  }

  ghost predicate Possible(c: Cluster, events: seq<Event>, old1: Instance, new2: Instance) {
    Starts(c, old1) && (StartsUnderway(c, old1, new2); Runs(c, events, old1, new2))
  }

  ghost function Final(c: Cluster, events: seq<Event>, old1: Instance, new2: Instance): (r: Cluster)
    requires Possible(c, events, old1, new2)
    ensures Underway(r, old1, new2)
  {
    StartsUnderway(c, old1, new2);
    Exec(c, events, old1, new2)
  }

  /** Every node can open whatever any node sends now. */
  ghost predicate AllUnderstand(nodes: seq<Crypto>) {
    forall i, j, body :: 0 <= i < |nodes| && 0 <= j < |nodes| ==>
      Consistent(nodes[i]) && Unseal(nodes[j], Seal(nodes[i], body)) == Some(body)
  }

  /** In every state of every such rekey: the slot used for sending is never empty and
      the cached sizes are its own; each node opens whatever any node sends; and it
      also opens everything sent before, with the one exception of packets under the
      old key at a node that has dropped it. */
  lemma RekeyIsSeamless(c: Cluster, events: seq<Event>, old1: Instance, new2: Instance)
    requires Possible(c, events, old1, new2)
    ensures var r := Final(c, events, old1, new2);
            && AllUnderstand(r.nodes)
            && (forall i :: 0 <= i < |r.nodes| ==>
                  var n := r.nodes[i].inUse;
                  n != 0 && n < |r.nodes[i].slots| && r.nodes[i].slots[n].Some? && SizesOf(r.nodes[i], r.nodes[i].slots[n].value))
            && (forall i, p :: 0 <= i < |r.nodes| && p in r.sent ==>
                  || Unseal(r.nodes[i], p) == Some(p.body)
                  || (p.Sealed? && p.key == old1.key && |r.nodes[i].slots| == 3 && r.nodes[i].slots[1] == None))
  {
    var r := Final(c, events, old1, new2);
    forall i, j, body: seq<bv8> | 0 <= i < |r.nodes| && 0 <= j < |r.nodes|
      ensures Unseal(r.nodes[j], Seal(r.nodes[i], body)) == Some(body)
    {
      var n := r.nodes[i].inUse;
      assert n == 1 || n == 2;
      assert r.nodes[j].slots[n] == r.nodes[i].slots[n];
    }
    forall i, p | 0 <= i < |r.nodes| && p in r.sent
      ensures Unseal(r.nodes[i], p) == Some(p.body) || (p.Sealed? && p.key == old1.key && r.nodes[i].slots[1] == None)
    {
      if p.key != old1.key {
        assert r.nodes[i].slots[2] == Some(new2);
      } else if r.nodes[i].slots[1] != None {
        assert r.nodes[i].slots[1].value.key == p.key;
      }
    }
  }

  lemma Understands(nodes: seq<Crypto>, i: nat, j: nat, body: seq<bv8>)
    requires AllUnderstand(nodes) && i < |nodes| && j < |nodes|
    ensures Consistent(nodes[i]) && Unseal(nodes[j], Seal(nodes[i], body)) == Some(body)
  {
  }

  /** Out of order it does break: after an early switch, a node without the new
      configuration cannot open what is sent. */
  lemma EarlySwitchBreaks(c: Cluster, i: nat, j: nat, old1: Instance, new2: Instance)
    requires Starts(c, old1) && i < |c.nodes| && j < |c.nodes| && i != j
    requires c.nodes[i].slots[2] == Some(new2) && c.nodes[j].slots[2] == None && old1.key != new2.key
    ensures !AllUnderstand(c.nodes[i := Using(c.nodes[i], 2).0])
  {
    var after := c.nodes[i := Using(c.nodes[i], 2).0];
    assert after[j] == c.nodes[j];
    assert !Opens(after[j], new2.key);
    var body: seq<bv8> := [];
    assert Consistent(after[i]) && Seal(after[i], body) == Sealed(new2.key, body);
    assert Unseal(after[j], Seal(after[i], body)) == None;
    if AllUnderstand(after) {
      Understands(after, i, j, body);
    }
  }

  // ----- the move can be completed

  /** The first `k` nodes have done step `phase` of the move, all have done those before:
      0 install, 1 switch, 2 drop. */
  ghost predicate Progress(c: Cluster, phase: nat, k: nat, old1: Instance, new2: Instance) {
    && k <= |c.nodes|
    && forall i :: 0 <= i < |c.nodes| ==> Moved(c.nodes[i], if i < k then phase + 1 else phase, old1, new2)
  }

  /** What a node looks like after so many steps. */
  ghost predicate Moved(c: Crypto, steps: nat, old1: Instance, new2: Instance) {
    && Consistent(c) && c.inUse == (if steps <= 1 then 1 else 2)
    && (steps >= 1 ==> c.slots[2] == Some(new2))
    && c.slots[1] == (if steps <= 2 then Some(old1) else None)
  }

  function StepOf(phase: nat, i: nat): Event {
    if phase == 0 then Install(i, true) else if phase == 1 then Switch(i) else Drop(i)
  }

  lemma NodeMoves(c: Crypto, phase: nat, old1: Instance, new2: Instance)
    requires phase <= 2 && Moved(c, phase, old1, new2)
    ensures phase == 0 ==> Moved(Setting(c, Some(new2), 2, true).0, 1, old1, new2)
    ensures phase == 1 ==> Moved(Using(c, 2).0, 2, old1, new2)
    ensures phase == 2 ==> Moved(Setting(c, None, 1, true).0, 3, old1, new2)
  {
  }

  lemma StepMoves(c: Cluster, phase: nat, k: nat, old1: Instance, new2: Instance)
    requires phase <= 2 && Progress(c, phase, k, old1, new2) && k < |c.nodes|
    ensures Allowed(c, StepOf(phase, k), new2)
    ensures |Step(c, StepOf(phase, k), new2).nodes| == |c.nodes|
    ensures Progress(Step(c, StepOf(phase, k), new2), phase, k + 1, old1, new2)
  {
    NodeMoves(c.nodes[k], phase, old1, new2);
  }

  /** All nodes having done one step is none having done the next. */
  lemma NextPhase(c: Cluster, phase: nat, old1: Instance, new2: Instance)
    requires Progress(c, phase, |c.nodes|, old1, new2)
    ensures Progress(c, phase + 1, 0, old1, new2)
  {
  }

  /** The events of the rest of the move: all nodes install, all switch, all drop. */
  function Plan(n: nat, phase: nat, k: nat): seq<Event>
    requires k <= n && phase <= 3
    decreases 3 - phase, n - k
  {
    if phase == 3 then []
    else if k == n then Plan(n, phase + 1, 0)
    else [StepOf(phase, k)] + Plan(n, phase, k + 1)
  }

  lemma {:induction false} FirstThenRest(c: Cluster, events: seq<Event>, old1: Instance, new2: Instance, c': Cluster)
    requires Underway(c, old1, new2) && events != [] && Allowed(c, events[0], new2) && c' == Step(c, events[0], new2)
    requires Underway(c', old1, new2) && Runs(c', events[1..], old1, new2)
    ensures Runs(c, events, old1, new2) && Exec(c, events, old1, new2) == Exec(c', events[1..], old1, new2)
  {
  }

  /** Carrying out the plan from here brings all nodes to the end. */
  ghost predicate PlanEnds(c: Cluster, events: seq<Event>, old1: Instance, new2: Instance) {
    && Underway(c, old1, new2) && Runs(c, events, old1, new2)
    && Progress(Exec(c, events, old1, new2), 3, 0, old1, new2) && |Exec(c, events, old1, new2).nodes| == |c.nodes|
  }

  lemma PlanStep(c: Cluster, phase: nat, k: nat, old1: Instance, new2: Instance, c': Cluster)
    requires Underway(c, old1, new2) && phase < 3 && k < |c.nodes|
    requires Allowed(c, StepOf(phase, k), new2) && c' == Step(c, StepOf(phase, k), new2) && |c'.nodes| == |c.nodes|
    requires PlanEnds(c', Plan(|c.nodes|, phase, k + 1), old1, new2)
    ensures PlanEnds(c, Plan(|c.nodes|, phase, k), old1, new2)
  {
    var events := Plan(|c.nodes|, phase, k);
    assert events[0] == StepOf(phase, k) && events[1..] == Plan(|c.nodes|, phase, k + 1);
    FirstThenRest(c, events, old1, new2, c');
  }

  lemma NextMove(c: Cluster, phase: nat, k: nat, old1: Instance, new2: Instance) returns (c': Cluster)
    requires Underway(c, old1, new2) && phase <= 2 && Progress(c, phase, k, old1, new2) && k < |c.nodes|
    ensures Allowed(c, StepOf(phase, k), new2) && c' == Step(c, StepOf(phase, k), new2) && |c'.nodes| == |c.nodes|
    ensures Underway(c', old1, new2) && Progress(c', phase, k + 1, old1, new2)
  {
    StepMoves(c, phase, k, old1, new2);
    StepKeeps(c, StepOf(phase, k), old1, new2);
    c' := Step(c, StepOf(phase, k), new2);
  }

  lemma {:induction false} PlanWorks(c: Cluster, phase: nat, k: nat, old1: Instance, new2: Instance)
    requires Underway(c, old1, new2) && phase <= 3 && Progress(c, phase, k, old1, new2) && (phase == 3 ==> k == 0)
    ensures PlanEnds(c, Plan(|c.nodes|, phase, k), old1, new2)
    decreases 3 - phase, |c.nodes| - k
  {
    if phase < 3 {
      if k == |c.nodes| {
        NextPhase(c, phase, old1, new2);
        PlanWorks(c, phase + 1, 0, old1, new2);
      } else {
        var c' := NextMove(c, phase, k, old1, new2);
        PlanWorks(c', phase, k + 1, old1, new2);
        PlanStep(c, phase, k, old1, new2, c');
      }
    }
  }

  /** From any start the documented sequence can be carried out, and ends with every node
      sending under the new key, opening it, and none opening the old one where the keys
      differ. */
  lemma RekeyCompletes(c: Cluster, old1: Instance, new2: Instance, body: seq<bv8>)
    requires Starts(c, old1)
    ensures Possible(c, Plan(|c.nodes|, 0, 0), old1, new2)
    ensures var r := Final(c, Plan(|c.nodes|, 0, 0), old1, new2);
            |r.nodes| == |c.nodes| && forall i :: 0 <= i < |r.nodes| ==>
              && Consistent(r.nodes[i]) && Seal(r.nodes[i], body) == Sealed(new2.key, body) && SizesOf(r.nodes[i], new2)
              && Opens(r.nodes[i], new2.key) && (old1.key != new2.key ==> !Opens(r.nodes[i], old1.key))
  {
    StartsUnderway(c, old1, new2);
    PlanWorks(c, 0, 0, old1, new2);
    var r := Final(c, Plan(|c.nodes|, 0, 0), old1, new2);
    forall i | 0 <= i < |r.nodes|
      ensures Seal(r.nodes[i], body) == Sealed(new2.key, body) && SizesOf(r.nodes[i], new2)
      ensures Opens(r.nodes[i], new2.key) && (old1.key != new2.key ==> !Opens(r.nodes[i], old1.key))
    {
      assert Moved(r.nodes[i], 3, old1, new2);
      OpensBySlot(r.nodes[i], new2.key);
      OpensBySlot(r.nodes[i], old1.key);
    }
  }
}
