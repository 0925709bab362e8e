/** Whole runs of the receive path: what reaches the application, over every
    sequence of data packets, pings, loss of connectivity and housekeeping. */
module RxRuns {
  import opened Prelude
  import opened SeqNumbers
  import opened Fragmentation
  import opened Reassembly
  import opened DefragPool
  import opened RxModel

  /** What the sender put on the wire under each index. */
  type Sent = int -> Packet

  ghost predicate Wellformed(sent: Sent) {
    forall v :: sent(v).Sendable() && sent(v).Frags() < FRAG_MAX
  }

  /** The newest index not after `newest` that travels as `q`. */
  function IndexOf(newest: int, q: SeqNum): int {
    newest - (newest - q) % 65536
  }

  lemma IndexOfNum(newest: int, v: int)
    requires v <= newest < v + 65536
    ensures IndexOf(newest, Num(v)) == v
  {
    assert (newest - Num(v)) % 65536 == (newest - v) % 65536 == newest - v;
  }

  /** A buffer in use holds part of the packet its number stands for, and of no
      other, in particular not of one 65536 indices older. */
  ghost predicate Owned(b: DefragBuf, newest: int, sent: Sent) {
    b.inUse ==> Ready(b, sent(IndexOf(newest, b.pcktSeq)), b.pcktSeq)
  }

  ghost predicate AllOwned(bufs: seq<DefragBuf>, newest: int, sent: Sent) {
    forall i :: 0 <= i < |bufs| ==> Owned(bufs[i], newest, sent)
  }

  /** The receiver is in step with the sender: `newest` is the newest index heard
      of, `done` the indices delivered, `tried` those given a buffer. */
  ghost predicate Live(h: RxState, p: Params, newest: int, done: set<int>, tried: set<int>, sent: Sent) {
    && h.rx == Num(newest) != 0
    && GoodSize(p, |h.bufs|) && GoodUsage(p, h.usage)
    && Tracks(h.seen, newest, done)
    && Tracks(h.seenDefrag, newest, tried)
    && AllOwned(h.bufs, newest, sent)
  }

  ghost predicate Settled(p: Params) {
    Accepted(p) && p.minBufs >= 2
  }

  /** How far ahead an arrival may be without a buffer outliving its number. */
  function Horizon(p: Params): int {
    if LOOKAHEAD <= 65535 - p.maxBufs then LOOKAHEAD else 65535 - p.maxBufs
  }

  predicate InWindow(p: Params, newest: int, v: int) {
    newest - 4095 <= v <= newest + Horizon(p) && Num(v) != 0
  }

  function Max(a: int, b: int): int {
    if a < b then b else a
  }

  lemma ReachIsMax(p: Params, n: nat)
    requires Settled(p) && GoodSize(p, n)
    ensures Reach(p, n) == p.maxBufs <= 32768
  {
    LargestPower(p.maxBufs);
  }

  /** Releasing old buffers first lets the newest index move on by a whole horizon
      without any number changing its meaning. */
  lemma ReclaimedStayOwned(bufs: seq<DefragBuf>, p: Params, newest: int, newer: int, sent: Sent)
    requires Settled(p) && AllOwned(bufs, newest, sent)
    requires newest <= newer <= newest + Horizon(p)
    ensures AllOwned(Reclaim(bufs, Num(newest), p.maxBufs), newer, sent)
  {
    var kept := Reclaim(bufs, Num(newest), p.maxBufs);
    forall i | 0 <= i < |kept|
      ensures Owned(kept[i], newer, sent)
    {
      assert Owned(bufs[i], newest, sent);
      if kept[i].inUse {
        KeptStaysOwned(bufs[i], p, newest, newer, sent);
      }
    }
  }

  lemma KeptStaysOwned(b: DefragBuf, p: Params, newest: int, newer: int, sent: Sent)
    requires b.inUse && Owned(b, newest, sent) && !TooOld(Num(newest), p.maxBufs, b.pcktSeq)
    requires newest <= newer <= newest + Horizon(p)
    ensures Owned(b, newer, sent)
  {
    NumBehind(newest, b.pcktSeq);
    IndexMoves(newest, newer, b.pcktSeq);
  }

  lemma NumBehind(newest: int, q: SeqNum)
    ensures (Num(newest) - q) % 65536 == (newest - q) % 65536
  {
  }

  lemma IndexMoves(newest: int, newer: int, q: SeqNum)
    requires newest <= newer && newer - newest + (newest - q) % 65536 <= 65535
    ensures IndexOf(newer, q) == IndexOf(newest, q)
  {
    NumOfIndex(newest, q);
    IndexOfNum(newer, IndexOf(newest, q));
  }

  /** A lookup answers by the set of marked indices, and stays in step. */
  lemma LookupLive(h: RxState, p: Params, newest: int, done: set<int>, tried: set<int>, sent: Sent, v: int, defrag: bool)
    requires Settled(p) && Live(h, p, newest, done, tried, sent) && InWindow(p, newest, v)
    ensures var (h', isNew) := Lookup(h, p, Num(v), defrag, false);
            && Live(h', p, Max(newest, v), done, tried, sent)
            && (isNew <==> v !in (if defrag then tried else done))
            && |h'.bufs| == |h.bufs|
  {
    ReachIsMax(p, |h.bufs|);
    ReadsTrueOrder(newest, v);
    ReclaimedStayOwned(h.bufs, p, newest, Max(newest, v), sent);
    SlotOfNum(v);
    if newest < v {
      AdvanceTracks(h.seen, newest, v, done);
      AdvanceTracks(h.seenDefrag, newest, v, tried);
    }
  }

  /** The index handed out names a free buffer of the pool. */
  lemma AllocateLive(h: RxState, p: Params, canGrow: bool, newest: int, done: set<int>, tried: set<int>, sent: Sent)
    requires Settled(p) && Live(h, p, newest, done, tried, sent)
    ensures var (h', j) := Allocate(h, p, canGrow);
            Live(h', p, newest, done, tried, sent) && j < |h'.bufs| && !h'.bufs[j].inUse
  {
    if |h.bufs| < p.maxBufs {
      NextPower(|h.bufs|, p.maxBufs);
    }
    var (h', j) := Allocate(h, p, canGrow);
    forall i | 0 <= i < |h'.bufs|
      ensures Owned(h'.bufs[i], newest, sent)
    {
      assert i < |h.bufs| ==> Owned(h.bufs[i], newest, sent);
    }
  }

  // ----- a fragment

  ghost predicate FragmentOf(x: Packet, frag: nat) {
    && x.Sendable() && x.Frags() < FRAG_MAX
    && if x.Frags() == 1 then frag == 0 else 1 <= frag <= x.Frags()
  }

  /** The message that carries fragment `frag` of packet `v`. */
  function Carries(x: Packet, s: SeqNum, frag: nat): DataMsg
    requires FragmentOf(x, frag)
  {
    if x.Frags() == 1 then DataMsg(s, 1, 0, x.payload) else Msg(x, s, frag)
  }

  /** What the sender puts on the wire is exactly these messages. */
  lemma CutCarries(x: Packet, s: SeqNum, m: DataMsg)
    requires x.Sendable() && x.Frags() < FRAG_MAX
    ensures m in Cut(x, s) <==> exists frag :: FragmentOf(x, frag) && m == Carries(x, s, frag)
  {
    if x.Frags() == 1 {
      assert Carries(x, s, 0) == Cut(x, s)[0];
    } else {
      forall k | 0 <= k < |Cut(x, s)|
        ensures FragmentOf(x, k + 1) && Cut(x, s)[k] == Carries(x, s, k + 1)
      {
      }
      if frag :| FragmentOf(x, frag) && m == Carries(x, s, frag) {
        assert m == Cut(x, s)[frag - 1];
      }
    }
  }

  lemma LiveStorable(h: RxState, p: Params, newest: int, done: set<int>, tried: set<int>, sent: Sent, v: int, frag: nat)
    requires Settled(p) && Live(h, p, newest, done, tried, sent)
    requires newest - 4095 <= v <= newest && FragmentOf(sent(v), frag) && sent(v).Frags() > 1
    ensures Roomy(h) && Storable(h.bufs, Carries(sent(v), Num(v), frag))
  {
    var x := sent(v);
    IndexOfNum(newest, v);
    EmptyHolds(x, 0, 0);
    HoldingFits(Zeroed().(inUse := true, pcktSeq := 0, lastUpdate := 0), x, frag);
    forall i | 0 <= i < |h.bufs| && h.bufs[i].inUse && h.bufs[i].pcktSeq == Num(v)
      ensures Fits(h.bufs[i], x.Piece(frag), x.Frags(), frag)
    {
      assert Owned(h.bufs[i], newest, sent);
      HoldingFits(h.bufs[i], x, frag);
    }
  }

  /** The packet has no buffer yet and was never given one. */
  ghost predicate Registers(h: RxState, v: int, tried: set<int>) {
    Found(h.bufs, Num(v)) == None && v !in tried
  }

  /** A fragment joins the buffer of its own packet or opens a free one; it is
      turned away only when its packet had a buffer before and lost it. */
  lemma FindLive(h: RxState, p: Params, canGrow: bool, newest: int, done: set<int>, tried: set<int>, sent: Sent, v: int)
    requires Settled(p) && Live(h, p, newest, done, tried, sent)
    requires newest - 4095 <= v <= newest && Num(v) != 0 && Splits(sent(v))
    ensures var (h', i) := FindBuf(h, p, Num(v), canGrow);
            && Live(h', p, newest, done, if Registers(h, v, tried) then tried + {v} else tried, sent)
            && (i == None <==> Found(h.bufs, Num(v)) == None && v in tried)
            && (i.Some? ==> i.value < |h'.bufs| && Ready(h'.bufs[i.value], sent(v), Num(v))
                            && Found(h.bufs, Num(v)) == (if h'.bufs[i.value].inUse then Some(h'.bufs[i.value]) else None))
  {
    IndexOfNum(newest, v);
    var i := FirstMatch(h.bufs, Num(v));
    if i < |h.bufs| {
      assert Owned(h.bufs[i], newest, sent);
    } else {
      LookupLive(h, p, newest, done, tried, sent, v, true);
      var (h1, isNew) := Lookup(h, p, Num(v), true, false);
      if isNew {
        MarkTracks(h1.seenDefrag, newest, v, tried);
        AllocateLive(Marked(h1, Num(v), true), p, canGrow, newest, done, tried + {v}, sent);
      }
    }
  }

  /** The buffer of packet `v` is missing this fragment and no other. */
  ghost predicate Completes(h: RxState, x: Packet, v: int, frag: nat)
    requires Splits(x)
  {
    var b := Found(h.bufs, Num(v));
    b.Some? && |b.value.fragMap| == FRAG_MAX && Received(b.value) + {frag} == AllFrags(x.Frags())
  }

  /** A fragment completes its packet exactly when it is the last one missing, and
      then the packet is the one that was sent. */
  lemma DefragLive(h: RxState, p: Params, canGrow: bool, now: nat, newest: int, done: set<int>, tried: set<int>, sent: Sent, v: int, frag: nat)
    requires Settled(p) && Live(h, p, newest, done, tried, sent)
    requires newest - 4095 <= v <= newest && Num(v) != 0 && Splits(sent(v)) && FragmentOf(sent(v), frag)
    ensures Roomy(h) && Storable(h.bufs, Carries(sent(v), Num(v), frag))
    ensures var (h', out) := Defrag(h, p, Carries(sent(v), Num(v), frag), canGrow, now);
            && Live(h', p, newest, done, if Registers(h, v, tried) then tried + {v} else tried, sent)
            && out == if Completes(h, sent(v), v, frag) then Some(sent(v).payload) else None
  {
    var x := sent(v);
    LiveStorable(h, p, newest, done, tried, sent, v, frag);
    FindLive(h, p, canGrow, newest, done, tried, sent, v);
    var m := Carries(x, Num(v), frag);
    FoundIsUsable(h, p, m, canGrow, now);
    var (h1, i) := FindBuf(h, p, Num(v), canGrow);
    if i.Some? {
      AbsorbStep(h1.bufs[i.value], x, Num(v), frag, now);
      OneFragmentIsNotAll(x, frag);
      ReplaceOwned(h1.bufs, i.value, Absorb(h1.bufs[i.value], m, now).0, newest, sent, v);
    }
  }

  lemma ReplaceOwned(bufs: seq<DefragBuf>, i: nat, b: DefragBuf, newest: int, sent: Sent, v: int)
    requires i < |bufs| && AllOwned(bufs, newest, sent)
    requires newest - 4095 <= v <= newest && Ready(b, sent(v), Num(v))
    ensures AllOwned(bufs[i := b], newest, sent)
  {
    IndexOfNum(newest, v);
    var after := bufs[i := b];
    forall k | 0 <= k < |after|
      ensures Owned(after[k], newest, sent)
    {
      assert Owned(bufs[k], newest, sent);
    }
  }

  lemma OneFragmentIsNotAll(x: Packet, frag: nat)
    requires Splits(x)
    ensures {} + {frag} != AllFrags(x.Frags())
  {
    assert |{frag}| == 1;
    assert {} + {frag} == {frag};
  }

  // ----- a data packet

  /** Nothing has been heard since the start or since the last wipe to 0. */
  ghost predicate Idle(h: RxState, p: Params) {
    && h.rx == 0 && GoodSize(p, |h.bufs|) && GoodUsage(p, h.usage)
    && h.seen == EmptyRing() && h.seenDefrag == EmptyRing()
    && forall i :: 0 <= i < |h.bufs| ==> !h.bufs[i].inUse
  }

  lemma IdleBecomesLive(h: RxState, p: Params, v: int, sent: Sent)
    requires Idle(h, p) && Num(v) != 0
    ensures Live(h.(rx := Num(v)), p, v, {}, {}, sent)
  {
  }

  /** A wipe leaves the receiver idle, or in step with an empty past. */
  lemma ClearedIsFresh(h: RxState, p: Params, v: int, sent: Sent)
    requires Accepted(p) && GoodSize(p, |h.bufs|)
    ensures Num(v) == 0 ==> Idle(Cleared(h, Num(v)), p)
    ensures Num(v) != 0 ==> Live(Cleared(h, Num(v)), p, v, {}, {}, sent)
  {
    var h' := Cleared(h, Num(v));
    forall i | 0 <= i < |h'.bufs|
      ensures !h'.bufs[i].inUse
    {
      assert h'.bufs[i] == Zeroed();
    }
  }

  /** The whole packet is at hand once this fragment is stored. */
  ghost predicate Whole(h: RxState, x: Packet, v: int, frag: nat)
    requires FragmentOf(x, frag)
  {
    x.Frags() == 1 || Completes(h, x, v, frag)
  }

  ghost function TriedAfter(h: RxState, x: Packet, v: int, tried: set<int>): set<int>
    requires x.Sendable()
  {
    if x.Frags() > 1 && Registers(h, v, tried) then tried + {v} else tried
  }

  /** A data packet is delivered exactly when it was not delivered before, the
      packet is whole and the application takes it; what is delivered is what was
      sent under that index. */
  lemma DataLive(h: RxState, p: Params, env: Env, newest: int, done: set<int>, tried: set<int>, sent: Sent, v: int, frag: nat)
    requires Settled(p) && Live(h, p, newest, done, tried, sent) && InWindow(p, newest, v)
    requires FragmentOf(sent(v), frag)
    ensures Processable(h, p, Carries(sent(v), Num(v), frag))
    ensures var h1 := Lookup(h.(gotData := true), p, Num(v), false, false).0;
            var (h', out) := ProcessData(h, p, Carries(sent(v), Num(v), frag), env);
            var delivers := v !in done && env.takes && Whole(h1, sent(v), v, frag);
            && out == (if delivers then Some(sent(v).payload) else None)
            && Live(h', p, Max(newest, v), if delivers then done + {v} else done,
                    if v in done then tried else TriedAfter(h1, sent(v), v, tried), sent)
  {
    var h0 := h.(gotData := true);
    var x := sent(v);
    LookupLive(h0, p, newest, done, tried, sent, v, false);
    var h1 := Lookup(h0, p, Num(v), false, false).0;
    if x.Frags() > 1 {
      LiveStorable(h1, p, Max(newest, v), done, tried, sent, v, frag);
    }
    if v !in done && x.Frags() > 1 {
      DefragLive(h1, p, env.canGrow, env.now, Max(newest, v), done, tried, sent, v, frag);
    }
    if v !in done && env.takes && Whole(h1, x, v, frag) {
      var h2 := if x.Frags() > 1 then Defrag(h1, p, Carries(x, Num(v), frag), env.canGrow, env.now).0 else h1;
      MarkTracks(h2.seen, Max(newest, v), v, done);
    }
  }

  // ----- runs

  datatype Event =
    | Data(v: int, frag: nat, env: Env)
    | Ping(v: int, timed: bool)
    | Disconnected
    | Housekeeping(canShrink: bool)

  datatype Delivery = Delivery(v: int, epoch: nat, payload: seq<Byte>)

  /** A run so far. A wipe of the window starts a new epoch. */
  datatype Run = Run(h: RxState, newest: int, done: set<int>, tried: set<int>, epoch: nat, log: seq<Delivery>)

  function Start(p: Params): Run {
    Run(Initial(p), 0, {}, {}, 0, [])
  }

  /** The receiver state of a run agrees with its history. */
  ghost predicate InStep(r: Run, p: Params, sent: Sent) {
    if r.h.rx == 0 then Idle(r.h, p) && r.done == {} && r.tried == {}
    else Live(r.h, p, r.newest, r.done, r.tried, sent)
  }

  ghost predicate Logged(log: seq<Delivery>, v: int, epoch: nat) {
    exists i :: 0 <= i < |log| && log[i].v == v && log[i].epoch == epoch
  }

  /** Integrity, at most one delivery per index and epoch, and the set `done` is
      what was delivered in this epoch. */
  ghost predicate LogOk(r: Run, sent: Sent) {
    && (forall i :: 0 <= i < |r.log| ==> r.log[i].payload == sent(r.log[i].v).payload && r.log[i].epoch <= r.epoch)
    && (forall i, j :: 0 <= i < j < |r.log| ==> (r.log[i].v, r.log[i].epoch) != (r.log[j].v, r.log[j].epoch))
    && (forall v :: v in r.done <==> Logged(r.log, v, r.epoch))
  }

  ghost predicate RunOk(r: Run, p: Params, sent: Sent) {
    Settled(p) && Wellformed(sent) && InStep(r, p, sent) && LogOk(r, sent)
  }

  predicate Wiping(r: Run, e: Event) {
    match e
    case Data(_, _, _) => false
    case Ping(v, timed) => Wipes(r.h, Num(v), timed)
    case Disconnected => true
    case Housekeeping(_) => false
  }

  /** An arrival the receiver can place: after the first number, at most 4095 behind
      the newest and at most a horizon ahead of it. */
  ghost predicate Allowed(r: Run, p: Params, sent: Sent, e: Event) {
    match e
    case Data(v, frag, _) => Placed(r, p, v) && FragmentOf(sent(v), frag)
    case Ping(v, timed) => timed || Wiping(r, e) || Placed(r, p, v)
    case Disconnected => true
    case Housekeeping(_) => true
  }

  predicate Placed(r: Run, p: Params, v: int) {
    Num(v) != 0 && (r.h.rx != 0 ==> InWindow(p, r.newest, v))
  }

  /** The first number heard becomes the reference. */
  function Begun(r: Run, v: int): Run {
    if r.h.rx == 0 then r.(h := r.h.(rx := Num(v)), newest := v) else r
  }

  lemma BegunInStep(r: Run, p: Params, sent: Sent, v: int)
    requires Settled(p) && InStep(r, p, sent) && Placed(r, p, v)
    ensures var b := Begun(r, v);
            Live(b.h, p, b.newest, r.done, r.tried, sent) && InWindow(p, b.newest, v)
  {
    LargestPower(p.maxBufs);
    if r.h.rx == 0 {
      IdleBecomesLive(r.h, p, v, sent);
    }
  }

  lemma DataWorks(r: Run, p: Params, sent: Sent, v: int, frag: nat, env: Env)
    requires RunOk(r, p, sent) && Allowed(r, p, sent, Data(v, frag, env))
    ensures Processable(r.h, p, Carries(sent(v), Num(v), frag))
  {
    var b := Begun(r, v);
    BegunInStep(r, p, sent, v);
    DataLive(b.h, p, env, b.newest, r.done, r.tried, sent, v, frag);
  }

  ghost function DataStep(r: Run, p: Params, sent: Sent, v: int, frag: nat, env: Env): Run
    requires RunOk(r, p, sent) && Allowed(r, p, sent, Data(v, frag, env))
  {
    DataWorks(r, p, sent, v, frag, env);
    var (h', out) := ProcessData(r.h, p, Carries(sent(v), Num(v), frag), env);
    var h1 := Lookup(r.h.(gotData := true), p, Num(v), false, false).0;
    Run(h',
        if r.h.rx == 0 then v else Max(r.newest, v),
        if out.Some? then r.done + {v} else r.done,
        if v in r.done then r.tried else TriedAfter(h1, sent(v), v, r.tried),
        r.epoch,
        if out.Some? then r.log + [Delivery(v, r.epoch, out.value)] else r.log)
  }

  function Wiped(r: Run, h: RxState, v: int): Run {
    Run(h, v, {}, {}, r.epoch + 1, r.log)
  }

  ghost function Step(r: Run, p: Params, sent: Sent, e: Event): Run
    requires RunOk(r, p, sent) && Allowed(r, p, sent, e)
  {
    match e
    case Data(v, frag, env) => DataStep(r, p, sent, v, frag, env)
    case Ping(v, timed) =>
      var h' := ProcessPing(r.h, p, Num(v), timed);
      if Wiping(r, e) then Wiped(r, h', v)
      else if timed then r.(h := h')
      else r.(h := h', newest := if r.h.rx == 0 then v else Max(r.newest, v))
    case Disconnected => Wiped(r, Cleared(r.h, 0), 0)
    case Housekeeping(canShrink) => r.(h := Tick(r.h, p, canShrink))
  }

  lemma BegunProcess(r: Run, p: Params, m: DataMsg, env: Env, v: int)
    requires m.seqNum == Num(v)
    ensures Lookup(r.h.(gotData := true), p, Num(v), false, false)
         == Lookup(Begun(r, v).h.(gotData := true), p, Num(v), false, false)
    ensures Processable(r.h, p, m) <==> Processable(Begun(r, v).h, p, m)
    ensures Processable(r.h, p, m) ==> ProcessData(r.h, p, m, env) == ProcessData(Begun(r, v).h, p, m, env)
  {
  }

  /** The window, the buffers and the pool after one data packet. */
  lemma DataStepInStep(r: Run, p: Params, sent: Sent, v: int, frag: nat, env: Env)
    requires RunOk(r, p, sent) && Allowed(r, p, sent, Data(v, frag, env))
    ensures var h1 := Lookup(r.h.(gotData := true), p, Num(v), false, false).0;
            var r' := DataStep(r, p, sent, v, frag, env);
            && InStep(r', p, sent)
            && (r'.log, r'.done) ==
               if v !in r.done && env.takes && Whole(h1, sent(v), v, frag)
               then (r.log + [Delivery(v, r.epoch, sent(v).payload)], r.done + {v}) else (r.log, r.done)
  {
    var b := Begun(r, v);
    BegunInStep(r, p, sent, v);
    DataLive(b.h, p, env, b.newest, r.done, r.tried, sent, v, frag);
    BegunProcess(r, p, Carries(sent(v), Num(v), frag), env, v);
  }

  /** A data packet keeps the history right. It is delivered exactly when it was not
      delivered before in this epoch, is whole, and the application takes it. */
  lemma DataStepOk(r: Run, p: Params, sent: Sent, v: int, frag: nat, env: Env)
    requires RunOk(r, p, sent) && Allowed(r, p, sent, Data(v, frag, env))
    ensures RunOk(DataStep(r, p, sent, v, frag, env), p, sent)
    ensures var h1 := Lookup(r.h.(gotData := true), p, Num(v), false, false).0;
            DataStep(r, p, sent, v, frag, env).log ==
            if !Logged(r.log, v, r.epoch) && env.takes && Whole(h1, sent(v), v, frag)
            then r.log + [Delivery(v, r.epoch, sent(v).payload)] else r.log
  {
    DataStepInStep(r, p, sent, v, frag, env);
    var r' := DataStep(r, p, sent, v, frag, env);
    if r'.log != r.log {
      LogGrows(r, r', sent, v);
    }
  }

  lemma LogGrows(r: Run, r': Run, sent: Sent, v: int)
    requires LogOk(r, sent) && v !in r.done
    requires r'.log == r.log + [Delivery(v, r.epoch, sent(v).payload)] && r'.epoch == r.epoch && r'.done == r.done + {v}
    ensures LogOk(r', sent)
  {
    forall u
      ensures u in r'.done <==> Logged(r'.log, u, r'.epoch)
    {
      if Logged(r.log, u, r.epoch) {
        var i :| 0 <= i < |r.log| && r.log[i].v == u && r.log[i].epoch == r.epoch;
        assert r'.log[i] == r.log[i];
      }
      assert r'.log[|r.log|].v == v;
    }
  }

  lemma PingStepOk(r: Run, p: Params, sent: Sent, v: int, timed: bool)
    requires RunOk(r, p, sent) && Allowed(r, p, sent, Ping(v, timed))
    ensures RunOk(Step(r, p, sent, Ping(v, timed)), p, sent)
  {
    if Wiping(r, Ping(v, timed)) {
      WipeStepOk(r, p, sent, v, timed);
    } else if !timed {
      var b := Begun(r, v);
      BegunInStep(r, p, sent, v);
      var h1 := if Num(v) != b.h.untimedRx then b.h.(untimedRx := Num(v), gotData := false) else b.h;
      assert Live(h1, p, b.newest, r.done, r.tried, sent);
      LookupLive(h1, p, b.newest, r.done, r.tried, sent, v, false);
    }
  }

  lemma WipeStepOk(r: Run, p: Params, sent: Sent, v: int, timed: bool)
    requires RunOk(r, p, sent) && Allowed(r, p, sent, Ping(v, timed)) && Wiping(r, Ping(v, timed))
    ensures RunOk(Step(r, p, sent, Ping(v, timed)), p, sent)
  {
    var h1 := if timed then r.h.(timedRx := Num(v)) else r.h.(untimedRx := Num(v), gotData := false);
    ClearedIsFresh(h1, p, v, sent);
    ReclaimNothing(Cleared(h1, Num(v)).bufs, Num(v), Reach(p, |h1.bufs|));
    WipedLog(r, Step(r, p, sent, Ping(v, timed)).h, v, sent);
  }

  lemma ReclaimNothing(bufs: seq<DefragBuf>, s: SeqNum, reach: nat)
    requires forall i :: 0 <= i < |bufs| ==> !bufs[i].inUse
    ensures Reclaim(bufs, s, reach) == bufs
  {
  }

  lemma WipedLog(r: Run, h: RxState, v: int, sent: Sent)
    requires LogOk(r, sent)
    ensures LogOk(Wiped(r, h, v), sent)
  {
    var next := r.epoch + 1;
    forall u
      ensures !Logged(r.log, u, next)
    {
    }
  }

  /** Housekeeping moves buffers around and drops some; it never changes what one
      holds. */
  lemma TickKeepsOwned(h: RxState, p: Params, canShrink: bool, newest: int, sent: Sent)
    requires Settled(p) && GoodSize(p, |h.bufs|) && GoodUsage(p, h.usage) && AllOwned(h.bufs, newest, sent)
    ensures var h' := Tick(h, p, canShrink);
            && GoodSize(p, |h'.bufs|) && GoodUsage(p, h'.usage) && AllOwned(h'.bufs, newest, sent)
            && (h'.rx, h'.seen, h'.seenDefrag) == (h.rx, h.seen, h.seenDefrag)
            && (forall b :: b in h'.bufs ==> b in h.bufs)
  {
    var h' := Tick(h, p, canShrink);
    if |h.bufs| != p.minBufs {
      NextPower(p.minBufs, |h.bufs|);
    }
    var c := Compact(h.bufs);
    InUseAreUsed(h.bufs);
    forall b | b in c
      ensures b in h.bufs
    {
      assert b in InUse(h.bufs) || b in h.bufs[|InUse(h.bufs)|..];
    }
    forall i | 0 <= i < |h'.bufs|
      ensures Owned(h'.bufs[i], newest, sent)
    {
      assert h'.bufs[i] in h.bufs;
    }
  }

  lemma TickStepOk(r: Run, p: Params, sent: Sent, canShrink: bool)
    requires RunOk(r, p, sent)
    ensures RunOk(Step(r, p, sent, Housekeeping(canShrink)), p, sent)
  {
    if r.h.rx == 0 {
      forall i | 0 <= i < |r.h.bufs|
        ensures Owned(r.h.bufs[i], 0, sent)
      {
      }
    }
    TickKeepsOwned(r.h, p, canShrink, if r.h.rx == 0 then 0 else r.newest, sent);
    var r' := Step(r, p, sent, Housekeeping(canShrink));
    forall i | 0 <= i < |r'.h.bufs| && r.h.rx == 0
      ensures !r'.h.bufs[i].inUse
    {
      assert r'.h.bufs[i] in r.h.bufs;
    }
  }

  /** Every step keeps the receiver in step and the history right. */
  lemma StepOk(r: Run, p: Params, sent: Sent, e: Event)
    requires RunOk(r, p, sent) && Allowed(r, p, sent, e)
    ensures RunOk(Step(r, p, sent, e), p, sent)
  {
    match e
    case Data(v, frag, env) => DataStepOk(r, p, sent, v, frag, env);
    case Ping(v, timed) => PingStepOk(r, p, sent, v, timed);
    case Disconnected =>
      ClearedIsFresh(r.h, p, 0, sent);
      WipedLog(r, Cleared(r.h, 0), 0, sent);
    case Housekeeping(canShrink) => TickStepOk(r, p, sent, canShrink);
  }

  /** All events of a run can be placed when they happen. */
  ghost predicate Runs(r: Run, p: Params, sent: Sent, events: seq<Event>)
    requires RunOk(r, p, sent)
    decreases |events|
  {
    events == [] || (Allowed(r, p, sent, events[0]) &&
                     (StepOk(r, p, sent, events[0]); Runs(Step(r, p, sent, events[0]), p, sent, events[1..])))
  }

  ghost function Exec(r: Run, p: Params, sent: Sent, events: seq<Event>): (r': Run)
    requires RunOk(r, p, sent) && Runs(r, p, sent, events)
    ensures RunOk(r', p, sent)
    decreases |events|
  {
    if events == [] then r else
    StepOk(r, p, sent, events[0]);
    Exec(Step(r, p, sent, events[0]), p, sent, events[1..])
  }

  /** Events lead from one state to another. */
  ghost predicate Leads(r: Run, p: Params, sent: Sent, events: seq<Event>, end: Run) {
    RunOk(r, p, sent) && Runs(r, p, sent, events) && Exec(r, p, sent, events) == end
  }

  lemma {:induction false} LeadsNowhere(r: Run, p: Params, sent: Sent, end: Run)
    requires RunOk(r, p, sent)
    ensures Leads(r, p, sent, [], end) <==> end == r
  {
  }

  /** The first event of a run. */
  lemma {:induction false} LeadsFirst(r: Run, p: Params, sent: Sent, events: seq<Event>, end: Run) returns (r': Run)
    requires Leads(r, p, sent, events, end) && events != []
    ensures RunOk(r, p, sent) && Allowed(r, p, sent, events[0]) && r' == Step(r, p, sent, events[0])
    ensures Leads(r', p, sent, events[1..], end)
  {
    StepOk(r, p, sent, events[0]);
    r' := Step(r, p, sent, events[0]);
  }

  /** An event before a run. */
  lemma {:induction false} LeadsOn(r: Run, p: Params, sent: Sent, e: Event, events: seq<Event>, end: Run)
    requires RunOk(r, p, sent) && Allowed(r, p, sent, e) && Leads(Step(r, p, sent, e), p, sent, events, end)
    ensures Leads(r, p, sent, [e] + events, end)
  {
    StepOk(r, p, sent, e);
    var all := [e] + events;
    assert all[0] == e && all[1..] == events;
  }

  lemma StartOk(p: Params, sent: Sent)
    requires Settled(p) && Wellformed(sent)
    ensures RunOk(Start(p), p, sent)
  {
    assert PowerOfTwo(p.minBufs);
    forall i | 0 <= i < p.minBufs
      ensures !Start(p).h.bufs[i].inUse
    {
      assert Start(p).h.bufs[i] == Zeroed();
    }
  }

  /** No event of the run wipes the window. */
  ghost predicate NoWipe(r: Run, p: Params, sent: Sent, events: seq<Event>)
    requires RunOk(r, p, sent) && Runs(r, p, sent, events)
    decreases |events|
  {
    events == [] || (!Wiping(r, events[0]) &&
                     (StepOk(r, p, sent, events[0]); NoWipe(Step(r, p, sent, events[0]), p, sent, events[1..])))
  }

  lemma {:induction false} SameEpoch(r: Run, p: Params, sent: Sent, events: seq<Event>)
    requires RunOk(r, p, sent) && Runs(r, p, sent, events) && NoWipe(r, p, sent, events)
    ensures Exec(r, p, sent, events).epoch == r.epoch
    decreases |events|
  {
    if events != [] {
      StepOk(r, p, sent, events[0]);
      SameEpoch(Step(r, p, sent, events[0]), p, sent, events[1..]);
    }
  }

  /** The events make up a run from the start. */
  ghost predicate Possible(p: Params, sent: Sent, events: seq<Event>) {
    Settled(p) && Wellformed(sent) && (StartOk(p, sent); Runs(Start(p), p, sent, events))
  }

  ghost function Final(p: Params, sent: Sent, events: seq<Event>): (r: Run)
    requires Possible(p, sent, events)
    ensures RunOk(r, p, sent)
  {
    StartOk(p, sent);
    Exec(Start(p), p, sent, events)
  }

  ghost predicate WithoutWipe(p: Params, sent: Sent, events: seq<Event>)
    requires Possible(p, sent, events)
  {
    StartOk(p, sent);
    NoWipe(Start(p), p, sent, events)
  }

  /** Over every run from the start: each payload delivered is the one sent under
      its index, and no index is delivered twice without a wipe in between. */
  lemma DeliveredAsSent(p: Params, sent: Sent, events: seq<Event>)
    requires Possible(p, sent, events)
    ensures var log := Final(p, sent, events).log;
            && (forall i :: 0 <= i < |log| ==> log[i].payload == sent(log[i].v).payload)
            && (forall i, j :: 0 <= i < j < |log| && log[i].v == log[j].v ==> log[i].epoch != log[j].epoch)
  {
    var r := Final(p, sent, events);
    forall i, j | 0 <= i < j < |r.log| && r.log[i].v == r.log[j].v
      ensures r.log[i].epoch != r.log[j].epoch
    {
      assert (r.log[i].v, r.log[i].epoch) != (r.log[j].v, r.log[j].epoch);
    }
  }

  /** With no wipe, at most one delivery per index in the whole run. */
  lemma AtMostOnce(p: Params, sent: Sent, events: seq<Event>)
    requires Possible(p, sent, events) && WithoutWipe(p, sent, events)
    ensures var log := Final(p, sent, events).log;
            forall i, j :: 0 <= i < j < |log| ==> log[i].v != log[j].v
  {
    DeliveredAsSent(p, sent, events);
    StartOk(p, sent);
    SameEpoch(Start(p), p, sent, events);
    var r := Final(p, sent, events);
    forall i, j | 0 <= i < j < |r.log|
      ensures r.log[i].v != r.log[j].v
    {
      assert r.log[i].epoch == 0 && r.log[j].epoch == 0;
    }
  }

  /** The rings are sets: after every run, and for each of the 4096 newest indices, its
      slot is marked exactly if the index was delivered since the last wipe, in one ring,
      or was given a reassembly buffer since then, in the other. */
  lemma RingRefinesLog(p: Params, sent: Sent, events: seq<Event>, v: int)
    requires Possible(p, sent, events)
    ensures var r := Final(p, sent, events);
            r.h.rx != 0 && r.newest - 4095 <= v <= r.newest ==>
              && (r.h.seen[Num(v) % CBUFFER_SIZE] <==> Logged(r.log, v, r.epoch))
              && (r.h.seenDefrag[Num(v) % CBUFFER_SIZE] <==> v in r.tried)
  {
    SlotOfNum(v);
  }

  /** After every run the pool has a size within its limits, and each buffer in use is
      within 65535 indices of the newest and holds nothing but fragments of the one
      packet its number stands for, not all of them. */
  lemma BuffersNeverMix(p: Params, sent: Sent, events: seq<Event>, i: nat)
    requires Possible(p, sent, events)
    ensures var r := Final(p, sent, events);
            && GoodSize(p, |r.h.bufs|)
            && (i < |r.h.bufs| && r.h.bufs[i].inUse ==>
                  var v := IndexOf(r.newest, r.h.bufs[i].pcktSeq);
                  && r.newest - 65535 <= v <= r.newest && Num(v) == r.h.bufs[i].pcktSeq
                  && Holding(r.h.bufs[i], sent(v)) && |Received(r.h.bufs[i])| < sent(v).Frags())
  {
    var r := Final(p, sent, events);
    if i < |r.h.bufs| && r.h.bufs[i].inUse {
      assert Owned(r.h.bufs[i], r.newest, sent);
      var q := r.h.bufs[i].pcktSeq;
      NumOfIndex(r.newest, q);
    }
  }

  lemma NumOfIndex(newest: int, q: SeqNum)
    ensures Num(IndexOf(newest, q)) == q
  {
    assert IndexOf(newest, q) == q + 65536 * ((newest - q) / 65536);
  }

  /** A whole packet that arrives for the first time is delivered at once: it is
      never taken for a duplicate. */
  lemma FirstArrivalDelivered(r: Run, p: Params, sent: Sent, v: int, env: Env)
    requires RunOk(r, p, sent) && Allowed(r, p, sent, Data(v, 0, env))
    requires sent(v).Frags() == 1 && env.takes && !Logged(r.log, v, r.epoch)
    ensures Step(r, p, sent, Data(v, 0, env)).log == r.log + [Delivery(v, r.epoch, sent(v).payload)]
  {
    DataStepOk(r, p, sent, v, 0, env);
  }

  /** A buffer as far behind as the reach allows is found for the packet 65536 indices
      newer, if that one arrives next. It is the first beyond the horizon when the pool,
      and not the ring, limits the horizon. */
  lemma BeyondHorizonMixes(h: RxState, p: Params, newest: int, i: nat)
    requires Settled(p) && GoodSize(p, |h.bufs|) && h.rx == Num(newest) != 0
    requires i < |h.bufs| && h.bufs[i].inUse && IndexOf(newest, h.bufs[i].pcktSeq) == newest - p.maxBufs
    ensures var v := newest + 65536 - p.maxBufs;
            && Found(Lookup(h, p, Num(v), false, false).0.bufs, Num(v)).Some?
            && IndexOf(newest, Num(v)) == v - 65536
            && v > newest + Horizon(p) && (p.maxBufs >= 8192 ==> v == newest + Horizon(p) + 1)
  {
    ReachIsMax(p, |h.bufs|);
    var q := h.bufs[i].pcktSeq;
    NumBehind(newest, q);
    AliasAhead(newest, q, p.maxBufs);
    var kept := Reclaim(h.bufs, Num(newest), p.maxBufs);
    assert Match(q)(kept[i]);
    assert Found(kept, q).Some?;
  }

  lemma AliasAhead(newest: int, q: SeqNum, back: nat)
    requires (newest - q) % 65536 == back
    ensures Num(newest + 65536 - back) == q
  {
    assert newest + 65536 - back - q == 65536 * ((newest - q) / 65536 + 1);
  }
}
