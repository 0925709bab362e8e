/** When a pool shrinks, in terms of how much of it was used: the sample table is the
    history of the last periods, over every run. */
module RxUsage {
  import opened Prelude
  import opened Arithmetic
  import opened SeqNumbers
  import opened Fragmentation
  import opened DefragPool
  import opened RxModel
  import opened RxRuns
  import PoolProperties

  // ----- the sum of samples

  /** Adding up takes each sample into account, once. */
  lemma {:induction false} SumOfTwo(a: seq<nat>, b: seq<nat>)
    ensures Sum([]) == 0 && Sum(a + b) == Sum(a) + Sum(b)
    decreases |b|
  {
    if b == [] {
      assert a + b == a;
    } else {
      var n := |b| - 1;
      assert (a + b)[..|a| + n] == a + b[..n] && (a + b)[|a| + n] == b[n];
      SumOfTwo(a, b[..n]);
    }
  }

  lemma {:induction false} SumOfSingle(x: nat)
    ensures Sum([x]) == x
  {
    assert [x][..0] == [];
  }

  // ----- the table is the history

  function Last(hist: seq<nat>, n: nat): (r: seq<nat>)
    ensures |r| == if |hist| <= n then |hist| else n
  {
    if |hist| <= n then hist else hist[|hist| - n..]
  }

  /** The table read from the oldest sample to the latest. */
  function Unrolled(u: Usage, p: Params): (r: seq<nat>)
    requires GoodUsage(p, u)
  {
    u.table[u.index..p.samples] + u.table[..u.index]
  }

  /** `hist` is the usage, in percent, of every period since the table was cleared. */
  ghost predicate Records(u: Usage, p: Params, hist: seq<nat>) {
    && GoodUsage(p, u) && u.samples == |Last(hist, p.samples)|
    && if |hist| < p.samples then u.index == |hist| && u.table[..u.index] == hist
       else Unrolled(u, p) == Last(hist, p.samples)
  }

  function UsageNow(h: RxState): nat
    requires h.bufs != []
  {
    Percent(|InUse(h.bufs)|, |h.bufs|)
  }

  /** The sample just taken is the latest of the history. */
  lemma SampleRecorded(h: RxState, p: Params, hist: seq<nat>)
    requires Records(h.usage, p, hist) && h.bufs != [] && 1 <= p.samples
    ensures var u := Sampled(h, p);
            var all := hist + [UsageNow(h)];
            Records(u.(samples := |Last(all, p.samples)|), p, all)
  {
    if |hist| < p.samples {
      SampleAdded(h, p, hist);
    } else {
      SampleReplaces(h, p, hist);
    }
  }

  lemma SampleAdded(h: RxState, p: Params, hist: seq<nat>)
    requires Records(h.usage, p, hist) && h.bufs != [] && |hist| < p.samples
    ensures var all := hist + [UsageNow(h)];
            Records(Sampled(h, p).(samples := |Last(all, p.samples)|), p, all)
  {
    var u := Sampled(h, p);
    var x := UsageNow(h);
    assert u.table[..|hist| + 1] == hist + [x];
    if |hist| + 1 == p.samples {
      assert u.table[0..p.samples] + u.table[..0] == u.table[..p.samples];
    }
  }

  lemma SampleReplaces(h: RxState, p: Params, hist: seq<nat>)
    requires Records(h.usage, p, hist) && h.bufs != [] && |hist| >= p.samples
    ensures var all := hist + [UsageNow(h)];
            Records(Sampled(h, p).(samples := |Last(all, p.samples)|), p, all)
  {
    var x := UsageNow(h);
    UnrolledNext(h, p);
    Turned(h.usage.table[..p.samples], h.usage.index, x);
    LastNext(hist, p.samples, x);
  }

  lemma LastNext(hist: seq<nat>, n: nat, x: nat)
    requires |hist| >= n >= 1
    ensures Last(hist + [x], n) == Last(hist, n)[1..] + [x]
  {
  }

  /** A ring of samples, the oldest at `i` overwritten. */
  lemma Turned(t: seq<nat>, i: nat, x: nat)
    requires i < |t|
    ensures var t' := t[i := x];
            var next := if i + 1 == |t| then 0 else i + 1;
            t'[next..] + t'[..next] == (t[i..] + t[..i])[1..] + [x]
  {
  }

  lemma UnrolledNext(h: RxState, p: Params)
    requires GoodUsage(p, h.usage) && h.bufs != []
    ensures var t := h.usage.table[..p.samples];
            var t' := t[h.usage.index := UsageNow(h)];
            var next := if h.usage.index + 1 == p.samples then 0 else h.usage.index + 1;
            && Unrolled(h.usage, p) == t[h.usage.index..] + t[..h.usage.index]
            && Unrolled(Sampled(h, p), p) == t'[next..] + t'[..next]
  {
  }

  // ----- the decision

  /** The usages of the last periods forbid shrinking: one is above the threshold, or,
      when averaging, their mean is by at least one. */
  ghost predicate TooMuch(p: Params, recent: seq<nat>) {
    if p.average then Sum(recent) >= |recent| * (p.threshold + 1)
    else exists x :: x in recent && x > p.threshold
  }

  lemma BusyIffTooMuch(u: Usage, p: Params)
    requires GoodUsage(p, u) && 1 <= p.samples
    ensures Busy(p, u.table) <==> TooMuch(p, Unrolled(u, p))
  {
    var t := u.table[..p.samples];
    Rotation(u, p);
    if p.average {
      PoolProperties.AboveThreshold(Sum(t), p.samples, p.threshold);
    } else {
      AnyOf(u.table, t, Unrolled(u, p), p);
    }
  }

  /** Where the ring starts matters neither to the sum nor to what is in it. */
  lemma Rotation(u: Usage, p: Params)
    requires GoodUsage(p, u)
    ensures var t := u.table[..p.samples];
            Sum(Unrolled(u, p)) == Sum(t) && multiset(Unrolled(u, p)) == multiset(t) && |Unrolled(u, p)| == p.samples
  {
    var a, b := u.table[..u.index], u.table[u.index..p.samples];
    assert u.table[..p.samples] == a + b;
    SumOfTwo(a, b);
    SumOfTwo(b, a);
  }

  lemma AnyOf(table: seq<nat>, t: seq<nat>, r: seq<nat>, p: Params)
    requires p.samples <= |table| && t == table[..p.samples] && multiset(r) == multiset(t)
    ensures (exists i :: 0 <= i < p.samples && table[i] > p.threshold) <==> (exists x :: x in r && x > p.threshold)
  {
    forall x
      ensures x in r <==> x in t
    {
      assert x in r <==> x in multiset(r);
      assert x in t <==> x in multiset(t);
    }
    if i :| 0 <= i < p.samples && table[i] > p.threshold {
      assert t[i] in r;
    }
    if x :| x in r && x > p.threshold {
      var i :| 0 <= i < |t| && t[i] == x;
      assert table[i] > p.threshold;
    }
  }

  /** The pool may be halved in this period. */
  ghost predicate ShrinkDue(h: RxState, p: Params, hist: seq<nat>)
    requires h.bufs != []
  {
    && |hist| >= p.samples && |h.bufs| != p.minBufs
    && !TooMuch(p, Last(hist + [UsageNow(h)], p.samples))
  }

  lemma MayShrinkIff(h: RxState, p: Params, hist: seq<nat>)
    requires Records(h.usage, p, hist) && h.bufs != [] && 1 <= p.samples
    ensures MayShrink(h, p) <==> ShrinkDue(h, p, hist)
  {
    if |hist| >= p.samples {
      SampleRecorded(h, p, hist);
      BusyIffTooMuch(Sampled(h, p), p);
    }
  }

  // ----- over runs

  /** What an event does to the history: growth, a wipe and halving clear it, every other
      period adds to it. */
  ghost function HistoryAfter(r: Run, r': Run, e: Event, hist: seq<nat>): seq<nat>
    requires r.h.bufs != []
  {
    if |r'.h.bufs| != |r.h.bufs| || Wiping(r, e) then []
    else if e.Housekeeping? then hist + [UsageNow(r.h)]
    else hist
  }

  lemma NoUsageRecords(p: Params)
    requires 1 <= p.samples <= 255
    ensures Records(NoUsage(), p, [])
  {
  }

  lemma LookupUsage(h: RxState, p: Params, s: SeqNum, defrag: bool, clear: bool)
    ensures var h' := Lookup(h, p, s, defrag, clear).0;
            |h'.bufs| == |h.bufs| && h'.usage == if clear then NoUsage() else h.usage
  {
  }

  lemma FindUsage(h: RxState, p: Params, s: SeqNum, canGrow: bool)
    requires h.bufs != []
    ensures var h' := FindBuf(h, p, s, canGrow).0;
            if |h'.bufs| == |h.bufs| then h'.usage == h.usage else h'.usage == NoUsage()
  {
    LookupUsage(h, p, s, true, false);
  }

  /** A data packet leaves the samples alone unless the pool grows. */
  lemma DataUsage(h: RxState, p: Params, m: DataMsg, env: Env)
    requires Processable(h, p, m)
    ensures var h' := ProcessData(h, p, m, env).0;
            if |h'.bufs| == |h.bufs| then h'.usage == h.usage else h'.usage == NoUsage()
  {
    LookupUsage(h.(gotData := true), p, m.seqNum, false, false);
    var h1 := Lookup(h.(gotData := true), p, m.seqNum, false, false).0;
    if m.fragNum > 1 {
      DefragUsage(h1, p, m, env.canGrow, env.now);
    }
  }

  lemma DefragUsage(h: RxState, p: Params, m: DataMsg, canGrow: bool, now: nat)
    requires Roomy(h) && Storable(h.bufs, m)
    ensures var h' := Defrag(h, p, m, canGrow, now).0;
            if |h'.bufs| == |h.bufs| then h'.usage == h.usage else h'.usage == NoUsage()
  {
    FindUsage(h, p, m.seqNum, canGrow);
  }

  lemma PingUsage(h: RxState, p: Params, s: SeqNum, timed: bool)
    ensures var h' := ProcessPing(h, p, s, timed);
            |h'.bufs| == |h.bufs| && h'.usage == if Wipes(h, s, timed) then NoUsage() else h.usage
  {
    LookupUsage(h.(timedRx := s), p, s, false, true);
    var h1 := if s != h.untimedRx then h.(untimedRx := s, gotData := false) else h;
    LookupUsage(h1, p, s, false, Wipes(h, s, false));
  }

  lemma TickUsage(h: RxState, p: Params, canShrink: bool, hist: seq<nat>)
    requires Records(h.usage, p, hist) && h.bufs != [] && 1 <= p.samples <= 255 && (|h.bufs| == p.minBufs || |h.bufs| >= 2)
    ensures var h' := Tick(h, p, canShrink);
            Records(h'.usage, p, if |h'.bufs| != |h.bufs| then [] else hist + [UsageNow(h)])
  {
    SampleRecorded(h, p, hist);
    NoUsageRecords(p);
  }

  ghost predicate RunRecords(r: Run, p: Params, hist: seq<nat>) {
    Records(r.h.usage, p, hist) && r.h.bufs != []
  }

  lemma PoolIsThere(r: Run, p: Params, sent: Sent)
    requires RunOk(r, p, sent)
    ensures |r.h.bufs| >= 2 && 1 <= p.samples <= 255
  {
  }

  lemma DataStepUsage(r: Run, p: Params, sent: Sent, v: int, frag: nat, env: Env)
    requires RunOk(r, p, sent) && Allowed(r, p, sent, Data(v, frag, env))
    ensures var h' := Step(r, p, sent, Data(v, frag, env)).h;
            if |h'.bufs| == |r.h.bufs| then h'.usage == r.h.usage else h'.usage == NoUsage()
  {
    DataWorks(r, p, sent, v, frag, env);
    DataUsage(r.h, p, Carries(sent(v), Num(v), frag), env);
  }

  lemma StepRecords(r: Run, p: Params, sent: Sent, e: Event, hist: seq<nat>)
    requires RunOk(r, p, sent) && Allowed(r, p, sent, e) && RunRecords(r, p, hist)
    ensures var r' := Step(r, p, sent, e); RunRecords(r', p, HistoryAfter(r, r', e, hist))
  {
    StepOk(r, p, sent, e);
    PoolIsThere(r, p, sent);
    PoolIsThere(Step(r, p, sent, e), p, sent);
    NoUsageRecords(p);
    match e
    case Data(v, frag, env) => DataStepUsage(r, p, sent, v, frag, env);
    case Ping(v, timed) => PingUsage(r.h, p, Num(v), timed);
    case Disconnected =>
    case Housekeeping(canShrink) => TickUsage(r.h, p, canShrink, hist);
  }

  /** The history after a run. */
  ghost function History(r: Run, p: Params, sent: Sent, events: seq<Event>, hist: seq<nat>): seq<nat>
    requires RunOk(r, p, sent) && Runs(r, p, sent, events)
    decreases |events|
  {
    if events == [] then hist else
    StepOk(r, p, sent, events[0]);
    PoolIsThere(r, p, sent);
    var r' := Step(r, p, sent, events[0]);
    History(r', p, sent, events[1..], HistoryAfter(r, r', events[0], hist))
  }

  lemma {:induction false} RunKeepsRecords(r: Run, p: Params, sent: Sent, events: seq<Event>, hist: seq<nat>)
    requires RunOk(r, p, sent) && Runs(r, p, sent, events) && RunRecords(r, p, hist)
    ensures RunRecords(Exec(r, p, sent, events), p, History(r, p, sent, events, hist))
    decreases |events|
  {
    if events != [] {
      StepOk(r, p, sent, events[0]);
      StepRecords(r, p, sent, events[0], hist);
      var r' := Step(r, p, sent, events[0]);
      RunKeepsRecords(r', p, sent, events[1..], HistoryAfter(r, r', events[0], hist));
    }
  }

  ghost function Usages(p: Params, sent: Sent, events: seq<Event>): seq<nat>
    requires Possible(p, sent, events)
  {
    StartOk(p, sent);
    History(Start(p), p, sent, events, [])
  }

  /** Over every run from the start: housekeeping halves the pool if and only if it is
      above the minimum, the memory can be given back, and there are as many periods since
      the last growth, wipe or halving as samples are kept, the latest of which, this one
      included, were not too busy. */
  lemma HalvesIff(p: Params, sent: Sent, events: seq<Event>, canShrink: bool)
    requires Possible(p, sent, events)
    ensures var h := Final(p, sent, events).h;
            && |h.bufs| >= 2
            && |Tick(h, p, canShrink).bufs| ==
               if canShrink && ShrinkDue(h, p, Usages(p, sent, events)) then |h.bufs| / 2 else |h.bufs|
  {
    StartOk(p, sent);
    NoUsageRecords(p);
    PoolIsThere(Start(p), p, sent);
    RunKeepsRecords(Start(p), p, sent, events, []);
    var r := Final(p, sent, events);
    PoolIsThere(r, p, sent);
    MayShrinkIff(r.h, p, Usages(p, sent, events));
    TickSize(r.h, p, canShrink);
  }

  /** When it is due but the memory cannot be given back, the buffers in use have been moved
      to the front all the same. */
  lemma DueCompacts(h: RxState, p: Params, hist: seq<nat>, canShrink: bool, i: nat)
    requires Records(h.usage, p, hist) && h.bufs != [] && 1 <= p.samples && ShrinkDue(h, p, hist) && i < |InUse(h.bufs)|
    ensures var bufs := Tick(h, p, canShrink).bufs;
            i < |bufs| ==> bufs[i] == InUse(h.bufs)[i] && bufs[i].inUse
  {
    MayShrinkIff(h, p, hist);
    InUseAreUsed(h.bufs);
    assert InUse(h.bufs)[i] in InUse(h.bufs);
  }

  lemma TickSize(h: RxState, p: Params, canShrink: bool)
    requires GoodUsage(p, h.usage) && h.bufs != []
    ensures |Tick(h, p, canShrink).bufs| == if canShrink && MayShrink(h, p) then |h.bufs| / 2 else |h.bufs|
  {
  }
}
