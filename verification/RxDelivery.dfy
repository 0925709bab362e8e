/** Completeness of the receive path: a packet all of whose fragments arrive is
    delivered, in the middle of any other traffic that leaves it its buffer. */
module RxDelivery {
  import opened Prelude
  import opened SeqNumbers
  import opened Fragmentation
  import opened Reassembly
  import opened DefragPool
  import opened RxModel
  import opened RxRuns
  import PoolProperties

  // ----- what the scan finds

  /** `b` has the buffers for `s` that `a` has, in the same places, and no others. */
  ghost predicate Alike(a: seq<DefragBuf>, b: seq<DefragBuf>, s: SeqNum) {
    && |a| <= |b|
    && forall i :: 0 <= i < |b| ==> if i < |a| && Match(s)(a[i]) then b[i] == a[i] else !Match(s)(b[i])
  }

  lemma AlikeFound(a: seq<DefragBuf>, b: seq<DefragBuf>, s: SeqNum)
    requires Alike(a, b, s)
    ensures Found(b, s) == Found(a, s)
  {
    var i := FirstMatch(a, s);
    if i < |a| {
      FoundIs(b, s, i);
    }
  }

  lemma ReclaimKeepsFound(bufs: seq<DefragBuf>, newest: int, reach: nat, v: int)
    requires 0 <= newest - v <= reach <= 65535
    ensures Found(Reclaim(bufs, Num(newest), reach), Num(v)) == Found(bufs, Num(v))
  {
    NumDifference(newest, v);
    assert !TooOld(Num(newest), reach, Num(v));
    AlikeFound(bufs, Reclaim(bufs, Num(newest), reach), Num(v));
  }

  /** The pool is full and cannot grow, and the buffer idle longest is that of `s`. */
  predicate Evicts(bufs: seq<DefragBuf>, p: Params, canGrow: bool, s: SeqNum) {
    && bufs != [] && (forall i :: 0 <= i < |bufs| ==> bufs[i].inUse)
    && !(|bufs| < p.maxBufs && canGrow)
    && FirstMatch(bufs, s) == OldestOf(bufs, |bufs|)
  }

  /** Releasing old buffers makes room or changes nothing. */
  lemma EvictsAfterReclaim(bufs: seq<DefragBuf>, newest: SeqNum, reach: nat, p: Params, canGrow: bool, s: SeqNum)
    requires Evicts(Reclaim(bufs, newest, reach), p, canGrow, s)
    ensures Reclaim(bufs, newest, reach) == bufs
  {
    var kept := Reclaim(bufs, newest, reach);
    forall i | 0 <= i < |bufs|
      ensures kept[i] == bufs[i]
    {
      assert kept[i].inUse;
    }
  }

  /** Allocation takes the buffer of `s` away only in that case. */
  lemma AllocateKeepsFound(h: RxState, p: Params, canGrow: bool, s: SeqNum)
    requires h.bufs != [] && !Evicts(h.bufs, p, canGrow, s)
    ensures Found(Allocate(h, p, canGrow).0.bufs, s) == Found(h.bufs, s)
  {
    var bufs' := Allocate(h, p, canGrow).0.bufs;
    var i := FirstMatch(h.bufs, s);
    if i < |h.bufs| {
      FoundIs(bufs', s, i);
    } else {
      AlikeFound(h.bufs, bufs', s);
    }
  }

  /** And then it does take it. */
  lemma EvictedIsReleased(h: RxState, p: Params, canGrow: bool, s: SeqNum)
    requires Evicts(h.bufs, p, canGrow, s)
    ensures var (h', j) := Allocate(h, p, canGrow);
            Found(h.bufs, s) == Some(h.bufs[j]) && h'.bufs == h.bufs[j := Release(h.bufs[j])]
  {
  }

  lemma OtherBufferKeepsFound(bufs: seq<DefragBuf>, i: nat, b: DefragBuf, s: SeqNum)
    requires i < |bufs| && !Match(s)(bufs[i]) && !Match(s)(b)
    ensures Found(bufs[i := b], s) == Found(bufs, s)
  {
    AlikeFound(bufs, bufs[i := b], s);
  }

  /** The buffer of `s`, or a first one for it, is replaced by one for `s`. */
  lemma OwnBufferFound(bufs: seq<DefragBuf>, i: nat, b: DefragBuf, s: SeqNum)
    requires i < |bufs| && Match(s)(b) && (Found(bufs, s) == None || FirstMatch(bufs, s) == i)
    ensures Found(bufs[i := b], s) == Some(b)
  {
    FoundIs(bufs[i := b], s, i);
  }

  // ----- one data packet

  /** Two lookups in a row, seen from another packet within reach. */
  lemma LookupKeepsFound(h: RxState, p: Params, newest: int, s: SeqNum, defrag: bool, v: int)
    requires Settled(p) && GoodSize(p, |h.bufs|) && h.rx == Num(newest) != 0 && 0 <= newest - v <= p.maxBufs
    ensures Found(Lookup(h, p, s, defrag, false).0.bufs, Num(v)) == Found(h.bufs, Num(v))
  {
    ReachIsMax(p, |h.bufs|);
    ReclaimKeepsFound(h.bufs, newest, p.maxBufs, v);
  }

  /** A first fragment of `u` would need a buffer. */
  ghost predicate Opens(bufs: seq<DefragBuf>, u: int, tried: set<int>) {
    Found(bufs, Num(u)) == None && u !in tried
  }

  lemma FindKeepsFound(h: RxState, p: Params, canGrow: bool, newest: int, done: set<int>, tried: set<int>, sent: Sent, u: int, v: int)
    requires Settled(p) && Live(h, p, newest, done, tried, sent) && 0 <= newest - v <= p.maxBufs
    requires InWindow(p, newest, u) && u <= newest
    requires Opens(h.bufs, u, tried) ==> !Evicts(h.bufs, p, canGrow, Num(v))
    ensures Found(FindBuf(h, p, Num(u), canGrow).0.bufs, Num(v)) == Found(h.bufs, Num(v))
  {
    if Found(h.bufs, Num(u)) == None {
      LookupKeepsFound(h, p, newest, Num(u), true, v);
      LookupLive(h, p, newest, done, tried, sent, u, true);
      ReadsTrueOrder(newest, u);
      var (h1, isNew) := Lookup(h, p, Num(u), true, false);
      if isNew {
        if Evicts(h1.bufs, p, canGrow, Num(v)) {
          EvictsAfterReclaim(h.bufs, h.rx, Reach(p, |h.bufs|), p, canGrow, Num(v));
          assert false;
        }
        AllocateKeepsFound(Marked(h1, Num(u), true), p, canGrow, Num(v));
      }
    }
  }

  /** A fragment of another packet leaves `v` what it has. */
  lemma OtherFragment(h: RxState, p: Params, canGrow: bool, now: nat, newest: int, done: set<int>, tried: set<int>, sent: Sent, u: int, frag: nat, v: int)
    requires Settled(p) && Live(h, p, newest, done, tried, sent) && 0 <= newest - v <= p.maxBufs && Num(u) != Num(v)
    requires InWindow(p, newest, u) && u <= newest && Splits(sent(u)) && FragmentOf(sent(u), frag)
    requires Opens(h.bufs, u, tried) ==> !Evicts(h.bufs, p, canGrow, Num(v))
    ensures Roomy(h) && Storable(h.bufs, Carries(sent(u), Num(u), frag))
    ensures Found(Defrag(h, p, Carries(sent(u), Num(u), frag), canGrow, now).0.bufs, Num(v)) == Found(h.bufs, Num(v))
  {
    LiveStorable(h, p, newest, done, tried, sent, u, frag);
    FindLive(h, p, canGrow, newest, done, tried, sent, u);
    FindKeepsFound(h, p, canGrow, newest, done, tried, sent, u, v);
    var m := Carries(sent(u), Num(u), frag);
    FoundIsUsable(h, p, m, canGrow, now);
    var (h1, i) := FindBuf(h, p, Num(u), canGrow);
    if i.Some? {
      AbsorbStep(h1.bufs[i.value], sent(u), Num(u), frag, now);
      OtherBufferKeepsFound(h1.bufs, i.value, Absorb(h1.bufs[i.value], m, now).0, Num(v));
    }
  }

  /** The fragments of packet `v` that are stored. */
  ghost function Stored(bufs: seq<DefragBuf>, v: int): set<nat> {
    var b := Found(bufs, Num(v));
    if b.Some? && |b.value.fragMap| == FRAG_MAX then Received(b.value) else {}
  }

  /** A fragment of `v` is added to what `v` has, unless that completes it. */
  lemma OwnFragment(h: RxState, p: Params, canGrow: bool, now: nat, newest: int, done: set<int>, tried: set<int>, sent: Sent, v: int, frag: nat)
    requires Settled(p) && Live(h, p, newest, done, tried, sent) && 0 <= newest - v <= 4095
    requires Num(v) != 0 && Splits(sent(v)) && FragmentOf(sent(v), frag)
    requires Found(h.bufs, Num(v)).Some? || v !in tried
    ensures Roomy(h) && Storable(h.bufs, Carries(sent(v), Num(v), frag))
    ensures var h' := Defrag(h, p, Carries(sent(v), Num(v), frag), canGrow, now).0;
            Stored(h.bufs, v) + {frag} != AllFrags(sent(v).Frags()) ==>
              Found(h'.bufs, Num(v)).Some? && Stored(h'.bufs, v) == Stored(h.bufs, v) + {frag}
  {
    LiveStorable(h, p, newest, done, tried, sent, v, frag);
    FindLive(h, p, canGrow, newest, done, tried, sent, v);
    var m := Carries(sent(v), Num(v), frag);
    FoundIsUsable(h, p, m, canGrow, now);
    var (h1, i) := FindBuf(h, p, Num(v), canGrow);
    var b := h1.bufs[i.value];
    AbsorbStep(b, sent(v), Num(v), frag, now);
    if Found(h.bufs, Num(v)) == None {
      FindKeepsNone(h, p, canGrow, v);
    }
    if Have(b) + {frag} != AllFrags(sent(v).Frags()) {
      OwnBufferFound(h1.bufs, i.value, Absorb(b, m, now).0, Num(v));
    }
  }

  lemma FindKeepsNone(h: RxState, p: Params, canGrow: bool, v: int)
    requires h.bufs != [] && Found(h.bufs, Num(v)) == None
    ensures Found(FindBuf(h, p, Num(v), canGrow).0.bufs, Num(v)) == None
  {
    var (h1, isNew) := Lookup(h, p, Num(v), true, false);
    AlikeFound(h.bufs, h1.bufs, Num(v));
    if isNew {
      var h2 := Marked(h1, Num(v), true);
      assert FirstMatch(h2.bufs, Num(v)) == |h2.bufs|;
      AllocateKeepsFound(h2, p, canGrow, Num(v));
    }
  }

  // ----- one event

  /** Packet `v` is being put together: it has a buffer within reach. */
  ghost predicate Gathering(r: Run, p: Params, sent: Sent, v: int) {
    && r.h.rx != 0 && 0 <= r.newest - v <= p.maxBufs && Num(v) != 0
    && v !in r.done && Splits(sent(v)) && Found(r.h.bufs, Num(v)).Some?
  }

  function NewestAfter(r: Run, u: int): int {
    if r.h.rx == 0 then u else Max(r.newest, u)
  }

  /** The event leaves `v` its buffer: `v` stays within reach of the newest number, no
      other packet evicts it, nothing is wiped, the pool is shrunk with care, and the
      application takes `v` when it is complete. */
  ghost predicate Calm(r: Run, p: Params, sent: Sent, e: Event, v: int) {
    match e
    case Data(u, _, env) =>
      && NewestAfter(r, u) <= v + p.maxBufs
      && if u == v then env.takes else !(NeedsBuffer(r, sent, u) && Evicts(r.h.bufs, p, env.canGrow, Num(v)))
    case Ping(u, timed) => !Wiping(r, e) && (timed || NewestAfter(r, u) <= v + p.maxBufs)
    case Disconnected => false
    case Housekeeping(_) => PoolProperties.Careful(p, |r.h.bufs|)
  }

  /** A fragment of `u` takes a buffer it did not have. */
  ghost predicate NeedsBuffer(r: Run, sent: Sent, u: int) {
    sent(u).Sendable() && sent(u).Frags() > 1 && u !in r.done && Opens(r.h.bufs, u, r.tried)
  }

  lemma StoredIsPart(r: Run, p: Params, sent: Sent, v: int)
    requires RunOk(r, p, sent) && Gathering(r, p, sent, v)
    ensures Stored(r.h.bufs, v) != AllFrags(sent(v).Frags())
  {
    LargestPower(p.maxBufs);
    IndexOfNum(r.newest, v);
    var i := FirstMatch(r.h.bufs, Num(v));
    assert Owned(r.h.bufs[i], r.newest, sent);
  }

  lemma OwnStep(r: Run, p: Params, sent: Sent, v: int, frag: nat, env: Env)
    requires RunOk(r, p, sent) && Allowed(r, p, sent, Data(v, frag, env)) && Gathering(r, p, sent, v) && env.takes
    ensures var r' := DataStep(r, p, sent, v, frag, env);
            var g := Stored(r.h.bufs, v) + {frag};
            if g == AllFrags(sent(v).Frags()) then v in r'.done
            else Gathering(r', p, sent, v) && Stored(r'.h.bufs, v) == g
  {
    DataStepInStep(r, p, sent, v, frag, env);
    var h0 := r.h.(gotData := true);
    assert Live(h0, p, r.newest, r.done, r.tried, sent);
    LookupLive(h0, p, r.newest, r.done, r.tried, sent, v, false);
    LookupKeepsFound(h0, p, r.newest, Num(v), false, v);
    var h1 := Lookup(h0, p, Num(v), false, false).0;
    OwnFragment(h1, p, env.canGrow, env.now, r.newest, r.done, r.tried, sent, v, frag);
    FoundIsReady(h1, p, r.newest, r.done, r.tried, sent, v);
  }

  lemma FoundIsReady(h: RxState, p: Params, newest: int, done: set<int>, tried: set<int>, sent: Sent, v: int)
    requires Live(h, p, newest, done, tried, sent) && 0 <= newest - v <= 65535 && Found(h.bufs, Num(v)).Some?
    ensures |Found(h.bufs, Num(v)).value.fragMap| == FRAG_MAX
  {
    IndexOfNum(newest, v);
    assert Owned(h.bufs[FirstMatch(h.bufs, Num(v))], newest, sent);
  }

  lemma DifferentNumbers(p: Params, newest: int, u: int, v: int)
    requires Settled(p) && InWindow(p, newest, u) && 0 <= newest - v <= p.maxBufs && u != v
    ensures Num(u) != Num(v)
  {
    LargestPower(p.maxBufs);
    NumDifference(u, v);
  }

  /** The event does not touch `v`. */
  ghost predicate Spared(r: Run, r': Run, p: Params, sent: Sent, v: int) {
    Gathering(r', p, sent, v) && Found(r'.h.bufs, Num(v)) == Found(r.h.bufs, Num(v))
  }

  lemma OtherFound(r: Run, p: Params, sent: Sent, u: int, frag: nat, env: Env, v: int)
    requires RunOk(r, p, sent) && Allowed(r, p, sent, Data(u, frag, env)) && Gathering(r, p, sent, v)
    requires u != v && Calm(r, p, sent, Data(u, frag, env), v)
    ensures Found(DataStep(r, p, sent, u, frag, env).h.bufs, Num(v)) == Found(r.h.bufs, Num(v))
  {
    DifferentNumbers(p, r.newest, u, v);
    var h0 := r.h.(gotData := true);
    assert Live(h0, p, r.newest, r.done, r.tried, sent);
    LookupLive(h0, p, r.newest, r.done, r.tried, sent, u, false);
    LookupKeepsFound(h0, p, r.newest, Num(u), false, v);
    var (h1, isNew) := Lookup(h0, p, Num(u), false, false);
    if isNew && sent(u).Frags() > 1 {
      if Evicts(h1.bufs, p, env.canGrow, Num(v)) {
        EvictsAfterReclaim(r.h.bufs, r.h.rx, Reach(p, |r.h.bufs|), p, env.canGrow, Num(v));
      }
      OtherFragment(h1, p, env.canGrow, env.now, Max(r.newest, u), r.done, r.tried, sent, u, frag, v);
    }
  }

  lemma OtherStep(r: Run, p: Params, sent: Sent, u: int, frag: nat, env: Env, v: int)
    requires RunOk(r, p, sent) && Allowed(r, p, sent, Data(u, frag, env)) && Gathering(r, p, sent, v)
    requires u != v && Calm(r, p, sent, Data(u, frag, env), v)
    ensures Spared(r, DataStep(r, p, sent, u, frag, env), p, sent, v)
  {
    OtherFound(r, p, sent, u, frag, env, v);
    DataStepInStep(r, p, sent, u, frag, env);
    LookupMoves(r, p, sent, u, frag, env);
  }

  lemma LookupMoves(r: Run, p: Params, sent: Sent, u: int, frag: nat, env: Env)
    requires RunOk(r, p, sent) && Allowed(r, p, sent, Data(u, frag, env)) && r.h.rx != 0
    ensures DataStep(r, p, sent, u, frag, env).h.rx != 0
  {
    DataLive(r.h, p, env, r.newest, r.done, r.tried, sent, u, frag);
  }

  lemma PingStep(r: Run, p: Params, sent: Sent, u: int, timed: bool, v: int)
    requires RunOk(r, p, sent) && Allowed(r, p, sent, Ping(u, timed)) && Gathering(r, p, sent, v) && Calm(r, p, sent, Ping(u, timed), v)
    ensures Spared(r, Step(r, p, sent, Ping(u, timed)), p, sent, v)
  {
    if !timed {
      var h1 := if Num(u) != r.h.untimedRx then r.h.(untimedRx := Num(u), gotData := false) else r.h;
      assert Live(h1, p, r.newest, r.done, r.tried, sent);
      LookupLive(h1, p, r.newest, r.done, r.tried, sent, u, false);
      LookupKeepsFound(h1, p, r.newest, Num(u), false, v);
    }
  }

  lemma TickStep(r: Run, p: Params, sent: Sent, canShrink: bool, v: int)
    requires RunOk(r, p, sent) && Gathering(r, p, sent, v) && Calm(r, p, sent, Housekeeping(canShrink), v)
    ensures Spared(r, Step(r, p, sent, Housekeeping(canShrink)), p, sent, v)
  {
    PoolProperties.TickLosesNothing(r.h, p, canShrink, Num(v));
  }

  /** Packet `v` has gained `more`; if that completes it, it is delivered. */
  ghost predicate Gains(r: Run, r': Run, p: Params, sent: Sent, v: int, more: set<nat>)
    requires sent(v).Sendable()
  {
    var g := Stored(r.h.bufs, v) + more;
    if g == AllFrags(sent(v).Frags()) then v in r'.done
    else Gathering(r', p, sent, v) && Stored(r'.h.bufs, v) == g
  }

  lemma SparedGains(r: Run, r': Run, p: Params, sent: Sent, v: int)
    requires RunOk(r, p, sent) && Gathering(r, p, sent, v) && Spared(r, r', p, sent, v)
    ensures Gains(r, r', p, sent, v, {})
  {
    StoredIsPart(r, p, sent, v);
    assert Stored(r.h.bufs, v) + {} == Stored(r.h.bufs, v);
  }

  /** What one event brings `v`. */
  function Brings(e: Event, v: int): set<nat> {
    if e.Data? && e.v == v then {e.frag} else {}
  }

  /** A calm event adds what it brings; the fragment that completes the packet has it
      delivered. */
  lemma StepGathers(r: Run, p: Params, sent: Sent, e: Event, v: int)
    requires RunOk(r, p, sent) && Allowed(r, p, sent, e) && Gathering(r, p, sent, v) && Calm(r, p, sent, e, v)
    ensures Gains(r, Step(r, p, sent, e), p, sent, v, Brings(e, v))
  {
    if e.Data? && e.v == v {
      OwnStep(r, p, sent, v, e.frag, e.env);
    } else {
      match e {
      case Data(u, frag, env) => OtherStep(r, p, sent, u, frag, env, v);
      case Ping(u, timed) => PingStep(r, p, sent, u, timed, v);
      case Housekeeping(canShrink) => TickStep(r, p, sent, canShrink, v);
      }
      SparedGains(r, Step(r, p, sent, e), p, sent, v);
    }
  }

  // ----- a run

  /** The fragments of `v` that arrive in a run. */
  function Arrivals(events: seq<Event>, v: int): set<nat>
    decreases |events|
  {
    if events == [] then {} else Brings(events[0], v) + Arrivals(events[1..], v)
  }

  lemma {:induction false} ArrivalsAreFragments(r: Run, p: Params, sent: Sent, events: seq<Event>, v: int)
    requires RunOk(r, p, sent) && Runs(r, p, sent, events) && Splits(sent(v))
    ensures Arrivals(events, v) <= AllFrags(sent(v).Frags())
    decreases |events|
  {
    if events != [] {
      StepOk(r, p, sent, events[0]);
      ArrivalsAreFragments(Step(r, p, sent, events[0]), p, sent, events[1..], v);
    }
  }

  /** Until `v` is delivered every event is calm, and nothing is wiped afterwards. */
  ghost predicate Undisturbed(r: Run, p: Params, sent: Sent, events: seq<Event>, v: int)
    requires RunOk(r, p, sent) && Runs(r, p, sent, events)
    decreases |events|
  {
    events == [] ||
    (!Wiping(r, events[0]) && (v in r.done || Calm(r, p, sent, events[0], v)) &&
     (StepOk(r, p, sent, events[0]); Undisturbed(Step(r, p, sent, events[0]), p, sent, events[1..], v)))
  }

  lemma {:induction false} DeliveredStays(r: Run, p: Params, sent: Sent, events: seq<Event>, v: int)
    requires RunOk(r, p, sent) && Runs(r, p, sent, events) && Undisturbed(r, p, sent, events, v) && v in r.done
    ensures v in Exec(r, p, sent, events).done
    decreases |events|
  {
    if events != [] {
      StepOk(r, p, sent, events[0]);
      DeliveredStays(Step(r, p, sent, events[0]), p, sent, events[1..], v);
    }
  }

  /** The state after the first event, as far as `v` is concerned. */
  lemma FirstEvent(r: Run, p: Params, sent: Sent, events: seq<Event>, v: int) returns (r': Run)
    requires RunOk(r, p, sent) && Runs(r, p, sent, events) && Undisturbed(r, p, sent, events, v) && events != []
    ensures RunOk(r', p, sent) && Runs(r', p, sent, events[1..]) && Undisturbed(r', p, sent, events[1..], v)
    ensures Exec(r, p, sent, events) == Exec(r', p, sent, events[1..])
    ensures v !in r.done && Gathering(r, p, sent, v) ==> Gains(r, r', p, sent, v, Brings(events[0], v))
  {
    StepOk(r, p, sent, events[0]);
    r' := Step(r, p, sent, events[0]);
    if v !in r.done && Gathering(r, p, sent, v) {
      StepGathers(r, p, sent, events[0], v);
    }
  }

  /** `fin` has delivered `v` exactly if `more` and then `rest` make it complete. */
  lemma GainsAddUp(r: Run, r': Run, fin: Run, p: Params, sent: Sent, v: int, more: set<nat>, rest: set<nat>)
    requires sent(v).Sendable() && Gains(r, r', p, sent, v, more) && rest <= AllFrags(sent(v).Frags())
    requires v in r'.done ==> v in fin.done
    requires Gathering(r', p, sent, v) ==>
               (v in fin.done <==> Stored(r'.h.bufs, v) + rest == AllFrags(sent(v).Frags()))
    ensures v in fin.done <==> Stored(r.h.bufs, v) + (more + rest) == AllFrags(sent(v).Frags())
  {
    assert Stored(r.h.bufs, v) + (more + rest) == Stored(r.h.bufs, v) + more + rest;
  }

  lemma {:induction false} DoneWhenComplete(r: Run, p: Params, sent: Sent, events: seq<Event>, v: int)
    requires RunOk(r, p, sent) && Runs(r, p, sent, events) && Undisturbed(r, p, sent, events, v) && Gathering(r, p, sent, v)
    ensures v in Exec(r, p, sent, events).done <==>
            Stored(r.h.bufs, v) + Arrivals(events, v) == AllFrags(sent(v).Frags())
    decreases |events|
  {
    if events == [] {
      StoredIsPart(r, p, sent, v);
      assert Stored(r.h.bufs, v) + {} == Stored(r.h.bufs, v);
    } else {
      var r' := FirstEvent(r, p, sent, events, v);
      ArrivalsAreFragments(r', p, sent, events[1..], v);
      if Gathering(r', p, sent, v) {
        DoneWhenComplete(r', p, sent, events[1..], v);
      } else {
        DeliveredStays(r', p, sent, events[1..], v);
      }
      GainsAddUp(r, r', Exec(r, p, sent, events), p, sent, v, Brings(events[0], v), Arrivals(events[1..], v));
    }
  }

  lemma {:induction false} EpochStays(r: Run, p: Params, sent: Sent, events: seq<Event>, v: int)
    requires RunOk(r, p, sent) && Runs(r, p, sent, events) && Undisturbed(r, p, sent, events, v)
    ensures Exec(r, p, sent, events).epoch == r.epoch
    decreases |events|
  {
    if events != [] {
      StepOk(r, p, sent, events[0]);
      EpochStays(Step(r, p, sent, events[0]), p, sent, events[1..], v);
    }
  }

  /** A packet that has begun to arrive and is left its buffer is delivered by the end
      of a run if and only if every fragment it was missing has arrived: in any order,
      with any repeats, between any other packets, pings and housekeeping. */
  lemma {:induction false} DeliveredIffComplete(r: Run, p: Params, sent: Sent, events: seq<Event>, v: int)
    requires RunOk(r, p, sent) && Runs(r, p, sent, events) && Undisturbed(r, p, sent, events, v) && Gathering(r, p, sent, v)
    ensures Logged(Exec(r, p, sent, events).log, v, r.epoch) <==>
            Stored(r.h.bufs, v) + Arrivals(events, v) == AllFrags(sent(v).Frags())
  {
    DoneWhenComplete(r, p, sent, events, v);
    EpochStays(r, p, sent, events, v);
  }

  lemma FirstFragmentStored(h: RxState, p: Params, newest: int, done: set<int>, tried: set<int>, sent: Sent, v: int, frag: nat, env: Env)
    requires Settled(p) && Live(h, p, newest, done, tried, sent) && InWindow(p, newest, v)
    requires Splits(sent(v)) && FragmentOf(sent(v), frag) && v !in done && v !in tried
    ensures Processable(h, p, Carries(sent(v), Num(v), frag))
    ensures var (h', out) := ProcessData(h, p, Carries(sent(v), Num(v), frag), env);
            h'.rx != 0 && (env.takes && out == None ==> Found(h'.bufs, Num(v)).Some? && frag in Stored(h'.bufs, v))
  {
    DataLive(h, p, env, newest, done, tried, sent, v, frag);
    var h0 := h.(gotData := true);
    assert Live(h0, p, newest, done, tried, sent);
    LookupLive(h0, p, newest, done, tried, sent, v, false);
    var h1 := Lookup(h0, p, Num(v), false, false).0;
    OwnFragment(h1, p, env.canGrow, env.now, Max(newest, v), done, tried, sent, v, frag);
    DefragLive(h1, p, env.canGrow, env.now, Max(newest, v), done, tried, sent, v, frag);
    OneFragmentIsNotAll(sent(v), frag);
    if Found(h1.bufs, Num(v)).Some? {
      FoundIsReady(h1, p, Max(newest, v), done, tried, sent, v);
    }
  }

  /** The first fragment of a packet never tried before gets a buffer. */
  lemma FirstFragmentOpens(r: Run, p: Params, sent: Sent, v: int, frag: nat, env: Env)
    requires RunOk(r, p, sent) && Allowed(r, p, sent, Data(v, frag, env)) && Calm(r, p, sent, Data(v, frag, env), v)
    requires Splits(sent(v)) && v !in r.done && v !in r.tried
    ensures var r' := DataStep(r, p, sent, v, frag, env);
            v in r'.done || (Gathering(r', p, sent, v) && frag in Stored(r'.h.bufs, v))
  {
    var b := Begun(r, v);
    BegunInStep(r, p, sent, v);
    BegunProcess(r, p, Carries(sent(v), Num(v), frag), env, v);
    FirstFragmentStored(b.h, p, b.newest, r.done, r.tried, sent, v, frag, env);
  }

  lemma {:induction false} RestDelivers(r: Run, p: Params, sent: Sent, events: seq<Event>, v: int, frag: nat)
    requires RunOk(r, p, sent) && Runs(r, p, sent, events) && Undisturbed(r, p, sent, events, v) && Splits(sent(v))
    requires v in r.done || (Gathering(r, p, sent, v) && frag in Stored(r.h.bufs, v))
    requires {frag} + Arrivals(events, v) == AllFrags(sent(v).Frags())
    ensures v in Exec(r, p, sent, events).done
  {
    if v in r.done {
      DeliveredStays(r, p, sent, events, v);
    } else {
      DoneWhenComplete(r, p, sent, events, v);
      StoredWithin(r, p, sent, v);
      assert Stored(r.h.bufs, v) + Arrivals(events, v) == AllFrags(sent(v).Frags());
    }
  }

  /** So a packet whose fragments all arrive is delivered, from the first one on. */
  lemma {:induction false} CompletePacketDelivered(r: Run, p: Params, sent: Sent, events: seq<Event>, v: int)
    requires RunOk(r, p, sent) && Runs(r, p, sent, events) && Undisturbed(r, p, sent, events, v)
    requires Splits(sent(v)) && v !in r.done && v !in r.tried
    requires events != [] && events[0].Data? && events[0].v == v
    requires Arrivals(events, v) == AllFrags(sent(v).Frags())
    ensures Logged(Exec(r, p, sent, events).log, v, r.epoch)
  {
    var r' := FirstFragment(r, p, sent, events, v);
    EpochStays(r, p, sent, events, v);
    RestDelivers(r', p, sent, events[1..], v, events[0].frag);
  }

  lemma FirstFragment(r: Run, p: Params, sent: Sent, events: seq<Event>, v: int) returns (r': Run)
    requires RunOk(r, p, sent) && Runs(r, p, sent, events) && Undisturbed(r, p, sent, events, v)
    requires Splits(sent(v)) && v !in r.done && v !in r.tried
    requires events != [] && events[0].Data? && events[0].v == v
    ensures RunOk(r', p, sent) && Runs(r', p, sent, events[1..]) && Undisturbed(r', p, sent, events[1..], v)
    ensures Exec(r, p, sent, events) == Exec(r', p, sent, events[1..])
    ensures v in r'.done || (Gathering(r', p, sent, v) && events[0].frag in Stored(r'.h.bufs, v))
  {
    StepOk(r, p, sent, events[0]);
    r' := Step(r, p, sent, events[0]);
    FirstFragmentOpens(r, p, sent, v, events[0].frag, events[0].env);
  }

  lemma StoredWithin(r: Run, p: Params, sent: Sent, v: int)
    requires RunOk(r, p, sent) && Gathering(r, p, sent, v)
    ensures Stored(r.h.bufs, v) <= AllFrags(sent(v).Frags())
  {
    LargestPower(p.maxBufs);
    IndexOfNum(r.newest, v);
    assert Owned(r.h.bufs[FirstMatch(r.h.bufs, Num(v))], r.newest, sent);
  }
}
