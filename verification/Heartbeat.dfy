/** Link latency, timeouts and link state (libknet/threads_heartbeat.c). */
module Heartbeat {
  import opened Prelude

  const BACKOFF := 10
  const LATENCY_MUL := 2

  /** Settings of a link, fixed during a run. Times are in microseconds. */
  datatype Timers = Timers(pongTimeout: nat, maxSamples: nat, pongCount: nat)

  /** What the settings have to be: whole milliseconds, a 32-bit number of samples
      that is not 0, an 8-bit count. */
  predicate Configured(t: Timers) {
    1000 <= t.pongTimeout && 1 <= t.maxSamples < 0x1_0000_0000 && t.pongCount <= 255
  }

  datatype Link = Link(connected: bool, receivedPong: nat, samples: nat, ave: nat, low: nat, high: nat, backoff: nat, timeoutAdj: nat)

  function Initial(t: Timers): Link {
    Link(false, 0, 0, 0, 0xFFFF_FFFF, 0, BACKOFF, U64(t.pongTimeout * BACKOFF))
  }

  datatype Event = Pong(latency: nat) | Down | Adjust

  /** A pong later than the timeout is not counted. `latency` is in nanoseconds. */
  predicate Counted(t: Timers, latency: nat) {
    latency / 1000 <= t.pongTimeout
  }

  function NextSamples(t: Timers, l: Link): nat {
    if U32(l.samples + 1) >= t.maxSamples then t.maxSamples else U32(l.samples + 1)
  }

  predicate Usable(t: Timers, l: Link) {
    NextSamples(t, l) >= 1
  }

  /** The mean as it should be. */
  function TrueMean(ave: nat, n: nat, value: nat): nat
    requires n >= 1
  {
    Quotient(ave * (n - 1) + value, n)
  }

  function Quotient(x: nat, n: nat): nat
    requires n >= 1
  {
    x / n
  }

  /** The product in the running mean, or the mean itself, does not fit 32 bits. */
  predicate Overflows(t: Timers, l: Link, e: Event)
    requires Usable(t, l)
  {
    var n := NextSamples(t, l);
    e.Pong? && Counted(t, e.latency) &&
    (l.ave * (n - 1) >= 0x1_0000_0000 || TrueMean(l.ave, n, e.latency / 1000) >= 0x1_0000_0000)
  }

  /** The running mean: (mean * (count - 1) + value) / count. */
  function Mean(ave: nat, n: nat, value: nat): nat
    requires n >= 1
  {
    U32((U32(ave * (n - 1)) + value) / n)
  }

  /** Take a pong into account whose mean latency is now `ave`. */
  function Noted(t: Timers, l: Link, samples: nat, ave: nat): Link {
    var l1 := l.(samples := samples, ave := ave,
                 low := if ave < l.low then ave else l.low, high := if ave > l.high then ave else l.high);
    if ave < l.timeoutAdj && !l.connected then
      if l.receivedPong >= t.pongCount then l1.(connected := true) else l1.(receivedPong := l.receivedPong + 1)
    else l1
  }

  function Step(t: Timers, l: Link, e: Event): Link
    requires Usable(t, l)
  {
    match e
    case Pong(latency) =>
      if !Counted(t, latency) then l
      else Noted(t, l, NextSamples(t, l), Mean(l.ave, NextSamples(t, l), latency / 1000))
    case Down => l.(connected := false, receivedPong := 0, backoff := BACKOFF)
    case Adjust =>
      var b := if l.backoff > 1 then l.backoff - 1 else l.backoff;
      l.(backoff := b, timeoutAdj := U64(U64(t.pongTimeout * b) + U32(l.ave * LATENCY_MUL)))
  }

  class LinkState {
    const timers: Timers
    var connected: bool
    var receivedPong: nat
    var latencySamples: nat
    var latencyAve: nat
    var latencyMin: nat
    var latencyMax: nat
    var pongTimeoutBackoff: nat
    var pongTimeoutAdj: nat

    ghost function View(): Link
      reads this
    {
      Link(connected, receivedPong, latencySamples, latencyAve, latencyMin, latencyMax, pongTimeoutBackoff, pongTimeoutAdj)
    }

    constructor (t: Timers)
      ensures timers == t && View() == Initial(t)
    {
      timers := t;
      connected, receivedPong, latencySamples, latencyAve := false, 0, 0, 0;
      latencyMin, latencyMax := 0xFFFF_FFFF, 0;
      pongTimeoutBackoff, pongTimeoutAdj := BACKOFF, U64(t.pongTimeout * BACKOFF);
    }

    method ProcessPong(latencyLast: nat)
      requires Usable(timers, View())
      modifies this
      ensures View() == Step(timers, old(View()), Pong(latencyLast))
    {
      if latencyLast / 1000 > timers.pongTimeout {
        return;
      }
      latencySamples := U32(latencySamples + 1);
      if latencySamples >= timers.maxSamples {
        latencySamples := timers.maxSamples;
      }
      latencyAve := Mean(latencyAve, latencySamples, latencyLast / 1000);
      if latencyAve < pongTimeoutAdj {
        if !connected {
          if receivedPong >= timers.pongCount {
            connected := true;
          } else {
            receivedPong := receivedPong + 1;
          }
        }
      }
      if latencyAve > latencyMax {
        latencyMax := latencyAve;
      }
      if latencyAve < latencyMin {
        latencyMin := latencyAve;
      }
    }

    method LinkDown()
      modifies this
      ensures View() == old(View()).(connected := false, receivedPong := 0, backoff := BACKOFF)
    {
      receivedPong := 0;
      pongTimeoutBackoff := BACKOFF;
      if connected {
        connected := false;
      }
    }

    method AdjustPongTimeout()
      requires Usable(timers, View())
      modifies this
      ensures View() == Step(timers, old(View()), Adjust)
    {
      if pongTimeoutBackoff > 1 {
        pongTimeoutBackoff := pongTimeoutBackoff - 1;
      }
      pongTimeoutAdj := U64(U64(timers.pongTimeout * pongTimeoutBackoff) + U32(latencyAve * LATENCY_MUL));
    }
  }

  // ----- runs

  /** A link and the pongs counted since it last went down. */
  datatype Run = Run(l: Link, pongs: nat)

  function RunStep(t: Timers, r: Run, e: Event): Run
    requires Usable(t, r.l)
  {
    Run(Step(t, r.l, e),
        match e
        case Pong(latency) => if Counted(t, latency) then r.pongs + 1 else r.pongs
        case Down => 0
        case Adjust => r.pongs)
  }

  /** The mean of the samples never needs more than 32 bits. */
  predicate Roomy(t: Timers) {
    t.pongTimeout < 0x1_0000_0000 && t.pongTimeout * (t.maxSamples - 1) < 0x1_0000_0000
  }

  /** Bounds of the mean and the timeout; a link that is down has seen no more pongs
      than it counted. */
  ghost predicate Bounded(t: Timers, r: Run) {
    && r.l.samples <= t.maxSamples
    && r.l.ave <= t.pongTimeout && r.l.high <= t.pongTimeout
    && (r.l.samples > 0 ==> r.l.low <= r.l.ave <= r.l.high)
    && 1 <= r.l.backoff <= BACKOFF
    && t.pongTimeout <= r.l.timeoutAdj <= 12 * t.pongTimeout
    && r.l.receivedPong <= t.pongCount
    && (!r.l.connected ==> r.l.receivedPong <= r.pongs)
  }

  lemma Product(a: nat, b: nat, c: nat, d: nat)
    requires a <= c && b <= d
    ensures a * b <= c * d
  {
    assert a * b <= c * b;
    assert c * b <= c * d;
  }

  lemma SamplesFit(t: Timers, r: Run)
    requires Configured(t) && Roomy(t) && r.l.samples <= t.maxSamples
    ensures 1 <= NextSamples(t, r.l) <= t.maxSamples
  {
    Product(1000, t.maxSamples - 1, t.pongTimeout, t.maxSamples - 1);
  }

  /** A mean of values within a bound is within it. */
  lemma MeanWithin(ave: nat, value: nat, n: nat, top: nat)
    requires ave <= top && value <= top && n >= 1
    ensures (ave * (n - 1) + value) / n <= top
  {
    Product(ave, n - 1, top, n - 1);
    assert top * (n - 1) + top == top * n;
    QuotientWithin(ave * (n - 1) + value, n, top);
  }

  lemma QuotientWithin(x: nat, n: nat, top: nat)
    requires n >= 1 && x <= top * n
    ensures x / n <= top
  {
    var q: nat := x / n;
    assert x == q * n + x % n;
    Cancel(q, top, n);
  }

  lemma Cancel(q: nat, top: nat, n: nat)
    requires n >= 1 && q * n <= top * n
    ensures q <= top
  {
    var above: nat := top + 1;
    if above <= q {
      Product(above, n, q, n);
    }
  }

  lemma MeanFits(ave: nat, value: nat, n: nat, top: nat, max: nat)
    requires ave <= top && value <= top && 1 <= n <= max && top * (max - 1) < 0x1_0000_0000 && top < 0x1_0000_0000
    ensures ave * (n - 1) < 0x1_0000_0000 && Mean(ave, n, value) == TrueMean(ave, n, value) <= top
  {
    Product(ave, n - 1, top, max - 1);
    MeanWithin(ave, value, n, top);
    MeanIs(ave, n, value, ave * (n - 1));
  }

  lemma MeanIs(ave: nat, n: nat, value: nat, product: nat)
    requires n >= 1 && product == ave * (n - 1) < 0x1_0000_0000 && (product + value) / n < 0x1_0000_0000
    ensures Mean(ave, n, value) == (product + value) / n
  {
  }

  lemma U32Below(x: nat)
    ensures U32(x) <= x
  {
  }

  lemma NotedBounded(t: Timers, r: Run, samples: nat, ave: nat)
    requires Bounded(t, r) && samples <= t.maxSamples && ave <= t.pongTimeout
    ensures Bounded(t, Run(Noted(t, r.l, samples, ave), r.pongs + 1))
  {
  }

  lemma PongBounded(t: Timers, r: Run, latency: nat)
    requires Configured(t) && Roomy(t) && Bounded(t, r) && Counted(t, latency)
    ensures Usable(t, r.l) && Bounded(t, RunStep(t, r, Pong(latency))) && !Overflows(t, r.l, Pong(latency))
  {
    SamplesFit(t, r);
    var n := NextSamples(t, r.l);
    MeanFits(r.l.ave, latency / 1000, n, t.pongTimeout, t.maxSamples);
    NotedBounded(t, r, n, Mean(r.l.ave, n, latency / 1000));
  }

  lemma AdjustBounded(t: Timers, r: Run)
    requires Configured(t) && Roomy(t) && Bounded(t, r) && Usable(t, r.l)
    ensures Bounded(t, RunStep(t, r, Adjust))
  {
    U32Below(r.l.ave * LATENCY_MUL);
    var b := if r.l.backoff > 1 then r.l.backoff - 1 else r.l.backoff;
    Product(1, t.pongTimeout, b, t.pongTimeout);
    Product(b, t.pongTimeout, BACKOFF, t.pongTimeout);
    assert t.pongTimeout * b == b * t.pongTimeout;
  }

  lemma StepBounded(t: Timers, r: Run, e: Event)
    requires Configured(t) && Roomy(t) && Bounded(t, r)
    ensures Usable(t, r.l) && Bounded(t, RunStep(t, r, e)) && !Overflows(t, r.l, e)
  {
    SamplesFit(t, r);
    match e
    case Pong(latency) =>
      if Counted(t, latency) {
        PongBounded(t, r, latency);
      }
    case Down =>
    case Adjust => AdjustBounded(t, r);
  }

  ghost function Exec(t: Timers, r: Run, events: seq<Event>): (r': Run)
    requires Configured(t) && Roomy(t) && Bounded(t, r)
    ensures Bounded(t, r')
    decreases |events|
  {
    if events == [] then r else
    StepBounded(t, r, events[0]);
    Exec(t, RunStep(t, r, events[0]), events[1..])
  }

  function StartRun(t: Timers): Run {
    Run(Initial(t), 0)
  }

  lemma StartBounded(t: Timers)
    requires Configured(t) && Roomy(t)
    ensures Bounded(t, StartRun(t))
  {
  }

  /** The state after a sequence of events from the start. */
  ghost function Reached(t: Timers, events: seq<Event>): Run
    requires Configured(t) && Roomy(t)
  {
    StartBounded(t);
    Exec(t, StartRun(t), events)
  }

  /** In every run from the start: the mean never overflows, is the true one and stays
      within the timeout, the recorded minimum and maximum enclose it, the adjusted timeout stays
      between 1 and 12 times the configured one, and a pong brings the link up only as
      number pongCount + 1 since it went down. */
  lemma RunsAreBounded(t: Timers, events: seq<Event>, e: Event)
    requires Configured(t) && Roomy(t)
    ensures var r := Reached(t, events);
            && r.l.ave <= t.pongTimeout && (r.l.samples > 0 ==> r.l.low <= r.l.ave <= r.l.high <= t.pongTimeout)
            && t.pongTimeout <= r.l.timeoutAdj <= 12 * t.pongTimeout
            && Usable(t, r.l) && !Overflows(t, r.l, e)
            && (e.Pong? && Counted(t, e.latency) ==>
                  Step(t, r.l, e).ave == TrueMean(r.l.ave, NextSamples(t, r.l), e.latency / 1000))
            && (!r.l.connected && Step(t, r.l, e).connected ==> RunStep(t, r, e).pongs >= t.pongCount + 1)
  {
    StartBounded(t);
    var r := Reached(t, events);
    StepBounded(t, r, e);
    if e.Pong? && Counted(t, e.latency) {
      MeanFits(r.l.ave, e.latency / 1000, NextSamples(t, r.l), t.pongTimeout, t.maxSamples);
    }
  }

  /** The defaults, 2 seconds and 2048 samples, leave enough room. */
  lemma DefaultsAreRoomy()
    ensures Roomy(Timers(2000000, 2048, 5)) && Configured(Timers(2000000, 2048, 5))
  {
  }

  // ----- the whole story

  /** What the events of a run come to: the pongs since the link last went down whose mean
      was below the adjusted timeout, the adjustments since then, the timeout the latest of
      them gave, the latencies of all pongs counted, and the means they gave. */
  datatype Story = Story(helpful: nat, adjusts: nat, timeout: nat, latencies: seq<nat>, means: seq<nat>)

  ghost function MeanAfter(t: Timers, l: Link, latency: nat): nat
    requires Usable(t, l)
  {
    TrueMean(l.ave, NextSamples(t, l), latency / 1000)
  }

  ghost function Told(t: Timers, l: Link, e: Event, s: Story): Story
    requires Usable(t, l)
  {
    match e
    case Pong(latency) =>
      if !Counted(t, latency) then s
      else Story(if MeanAfter(t, l, latency) < l.timeoutAdj then s.helpful + 1 else s.helpful, s.adjusts, s.timeout,
                 s.latencies + [latency / 1000], s.means + [MeanAfter(t, l, latency)])
    case Down => s.(helpful := 0, adjusts := 0)
    case Adjust =>
      s.(adjusts := s.adjusts + 1, timeout := t.pongTimeout * BackoffAfter(s.adjusts + 1) + U32(2 * l.ave))
  }

  /** The backoff comes down by one with each adjustment, to 1. */
  function BackoffAfter(adjusts: nat): nat {
    if adjusts < BACKOFF then BACKOFF - adjusts else 1
  }

  ghost predicate IsLeast(x: nat, s: seq<nat>) {
    x in s && forall y :: y in s ==> x <= y
  }

  ghost predicate IsGreatest(x: nat, s: seq<nat>) {
    x in s && forall y :: y in s ==> y <= x
  }

  /** The link state is what the story says: up exactly with more than `pongCount` helpful
      pongs, the backoff down by one for each adjustment, minimum and maximum those of all
      the means. */
  ghost predicate Fits(t: Timers, l: Link, s: Story) {
    && (l.connected <==> s.helpful > t.pongCount)
    && (!l.connected ==> l.receivedPong == s.helpful)
    && l.backoff == BackoffAfter(s.adjusts) && l.timeoutAdj == s.timeout
    && |s.latencies| == |s.means| && l.samples == (if |s.means| < t.maxSamples then |s.means| else t.maxSamples)
    && (if s.means == [] then l.ave == 0 && l.low == 0xFFFF_FFFF && l.high == 0
        else l.ave == s.means[|s.means| - 1] && IsLeast(l.low, s.means) && IsGreatest(l.high, s.means))
    && (|s.latencies| <= t.maxSamples ==> NearTotal(l.ave, s.latencies))
  }

  function Total(s: seq<nat>): nat {
    if s == [] then 0 else Total(s[..|s| - 1]) + s[|s| - 1]
  }

  /** `ave` is the mean of `s` but for what rounding down each time has lost: half a unit
      for each value but the first, at most. */
  ghost predicate NearTotal(ave: nat, s: seq<nat>) {
    |s| * ave <= Total(s) && 2 * (Total(s) - |s| * ave) <= |s| * (|s| - 1)
  }

  lemma DivLoses(x: nat, n: nat)
    requires n >= 1
    ensures n * (x / n) <= x < n * (x / n) + n
  {
  }

  /** One more value in the mean: the error grows by less than the number of values. */
  lemma MeanLoses(ave: nat, n: nat, value: nat)
    requires n >= 1
    ensures n * TrueMean(ave, n, value) <= ave * (n - 1) + value < n * TrueMean(ave, n, value) + n
  {
    DivLoses(ave * (n - 1) + value, n);
  }

  lemma NearNext(ave: nat, s: seq<nat>, value: nat)
    requires NearTotal(ave, s)
    ensures NearTotal(TrueMean(ave, |s| + 1, value), s + [value])
  {
    var n := |s| + 1;
    var m := TrueMean(ave, n, value);
    MeanLoses(ave, n, value);
    var all := s + [value];
    assert all[..|s|] == s;
    assert Total(all) == Total(s) + value;
    assert ave * (n - 1) == |s| * ave;
    Triangle(|s|);
  }

  lemma Triangle(k: nat)
    ensures (k + 1) * k == k * (k - 1) + 2 * k
  {
  }

  lemma LeastNext(x: nat, s: seq<nat>, y: nat)
    requires s == [] || IsLeast(x, s)
    ensures IsLeast(if s == [] || y < x then y else x, s + [y])
  {
    var all := s + [y];
    assert all[|s|] == y;
    if s != [] && !(y < x) {
      var i :| 0 <= i < |s| && s[i] == x;
      assert all[i] == x;
    }
  }

  lemma GreatestNext(x: nat, s: seq<nat>, y: nat)
    requires s == [] || IsGreatest(x, s)
    ensures IsGreatest(if s == [] || y > x then y else x, s + [y])
  {
    var all := s + [y];
    assert all[|s|] == y;
    if s != [] && !(y > x) {
      var i :| 0 <= i < |s| && s[i] == x;
      assert all[i] == x;
    }
  }

  /** The numbers after one more pong. */
  lemma PongNumbers(t: Timers, l: Link, latency: nat, s: Story)
    requires Configured(t) && Roomy(t) && Fits(t, l, s) && Usable(t, l) && Counted(t, latency)
    requires l.ave <= t.pongTimeout && l.samples <= t.maxSamples
    ensures var m := MeanAfter(t, l, latency);
            && Mean(l.ave, NextSamples(t, l), latency / 1000) == m <= t.pongTimeout < 0x1_0000_0000
            && NextSamples(t, l) == (if |s.means| + 1 < t.maxSamples then |s.means| + 1 else t.maxSamples)
            && (|s.latencies| + 1 <= t.maxSamples ==> NearTotal(m, s.latencies + [latency / 1000]))
            && IsLeast(if m < l.low then m else l.low, s.means + [m]) && IsGreatest(if m > l.high then m else l.high, s.means + [m])
  {
    SamplesFit(t, Run(l, 0));
    var n := NextSamples(t, l);
    var m := MeanAfter(t, l, latency);
    MeanFits(l.ave, latency / 1000, n, t.pongTimeout, t.maxSamples);
    NextSamplesIs(t, l, s);
    LeastNext(l.low, s.means, m);
    GreatestNext(l.high, s.means, m);
    if |s.latencies| + 1 <= t.maxSamples {
      NearNext(l.ave, s.latencies, latency / 1000);
    }
  }

  lemma NextSamplesIs(t: Timers, l: Link, s: Story)
    requires Configured(t) && Roomy(t) && Fits(t, l, s)
    ensures NextSamples(t, l) == if |s.means| + 1 < t.maxSamples then |s.means| + 1 else t.maxSamples
  {
    Product(1000, t.maxSamples - 1, t.pongTimeout, t.maxSamples - 1);
  }

  lemma PongTells(t: Timers, l: Link, latency: nat, s: Story)
    requires Configured(t) && Roomy(t) && Fits(t, l, s) && Usable(t, l) && l.ave <= t.pongTimeout && l.samples <= t.maxSamples
    ensures Fits(t, Step(t, l, Pong(latency)), Told(t, l, Pong(latency), s))
  {
    if Counted(t, latency) {
      PongNumbers(t, l, latency, s);
      var n, m := NextSamples(t, l), MeanAfter(t, l, latency);
      StepNotes(t, l, latency, n, m);
      NotedTells(t, l, n, m, latency / 1000, s);
    }
  }

  lemma StepNotes(t: Timers, l: Link, latency: nat, n: nat, m: nat)
    requires Usable(t, l) && Counted(t, latency) && n == NextSamples(t, l) && m == Mean(l.ave, n, latency / 1000)
    ensures Step(t, l, Pong(latency)) == Noted(t, l, n, m)
  {
  }

  /** The state after a pong whose numbers are right. */
  lemma NotedTells(t: Timers, l: Link, n: nat, m: nat, value: nat, s: Story)
    requires Fits(t, l, s) && n == (if |s.means| + 1 < t.maxSamples then |s.means| + 1 else t.maxSamples)
    requires |s.latencies| + 1 <= t.maxSamples ==> NearTotal(m, s.latencies + [value])
    requires IsLeast(if m < l.low then m else l.low, s.means + [m]) && IsGreatest(if m > l.high then m else l.high, s.means + [m])
    ensures Fits(t, Noted(t, l, n, m), Story(if m < l.timeoutAdj then s.helpful + 1 else s.helpful, s.adjusts, s.timeout, s.latencies + [value], s.means + [m]))
  {
  }

  lemma EventTells(t: Timers, r: Run, e: Event, s: Story)
    requires Configured(t) && Roomy(t) && Bounded(t, r) && Fits(t, r.l, s)
    ensures Usable(t, r.l) && Fits(t, RunStep(t, r, e).l, Told(t, r.l, e, s))
  {
    StepBounded(t, r, e);
    match e
    case Pong(latency) => PongTells(t, r.l, latency, s);
    case Down =>
    case Adjust => AdjustedTo(t, r.l, BackoffAfter(s.adjusts + 1));
  }

  /** The story of a run. */
  ghost function Tale(t: Timers, r: Run, events: seq<Event>, s: Story): Story
    requires Configured(t) && Roomy(t) && Bounded(t, r)
    decreases |events|
  {
    if events == [] then s else
    StepBounded(t, r, events[0]);
    Tale(t, RunStep(t, r, events[0]), events[1..], Told(t, r.l, events[0], s))
  }

  lemma {:induction false} RunTells(t: Timers, r: Run, events: seq<Event>, s: Story)
    requires Configured(t) && Roomy(t) && Bounded(t, r) && Fits(t, r.l, s)
    ensures Fits(t, Exec(t, r, events).l, Tale(t, r, events, s))
    decreases |events|
  {
    if events != [] {
      StepBounded(t, r, events[0]);
      EventTells(t, r, events[0], s);
      RunTells(t, RunStep(t, r, events[0]), events[1..], Told(t, r.l, events[0], s));
    }
  }

  ghost function TaleFromStart(t: Timers, events: seq<Event>): Story
    requires Configured(t) && Roomy(t)
  {
    StartBounded(t);
    Tale(t, StartRun(t), events, Story(0, 0, BACKOFF * t.pongTimeout, [], []))
  }

  /** In every run from the start: the link is up if and only if more than `pongCount` pongs
      since it last went down had a mean below the adjusted timeout; the backoff has come
      down by one for each adjustment since then, and the timeout is that times the
      configured one and twice the mean of the latest adjustment; minimum and maximum are those of all the
      means; and until the samples are limited the mean is that of all the latencies, never
      above it and below by less than half of their number. */
  lemma RunsTellTheStory(t: Timers, events: seq<Event>)
    requires Configured(t) && Roomy(t)
    ensures Fits(t, Reached(t, events).l, TaleFromStart(t, events))
  {
    StartBounded(t);
    BackoffFits(t.pongTimeout, BACKOFF, t.pongTimeout * BACKOFF);
    RunTells(t, StartRun(t), events, Story(0, 0, BACKOFF * t.pongTimeout, [], []));
  }

  lemma AdjustedTo(t: Timers, l: Link, b: nat)
    requires Roomy(t) && Usable(t, l) && b == (if l.backoff > 1 then l.backoff - 1 else l.backoff) && b <= BACKOFF
    ensures Step(t, l, Adjust).timeoutAdj == t.pongTimeout * b + U32(2 * l.ave)
  {
    BackoffFits(t.pongTimeout, b, t.pongTimeout * b);
  }

  lemma BackoffFits(timeout: nat, b: nat, product: nat)
    requires timeout < 0x1_0000_0000 && b <= BACKOFF && product == timeout * b
    ensures product <= 10 * 0x1_0000_0000
  {
    Product(timeout, b, 0x1_0000_0000, BACKOFF);
  }

  // ----- the bound is exact

  /** No event of the run overflows the mean or divides by no samples. */
  predicate Sound(t: Timers, l: Link, events: seq<Event>)
    decreases |events|
  {
    events == [] ||
    (Usable(t, l) && !Overflows(t, l, events[0]) && Sound(t, Step(t, l, events[0]), events[1..]))
  }

  /** Pongs that all take `value` microseconds. */
  function Slow(value: nat, n: nat): (events: seq<Event>)
    ensures |events| == n
  {
    if n == 0 then [] else [Pong(value * 1000)] + Slow(value, n - 1)
  }

  lemma MeanOfSame(top: nat, n: nat, ave: nat)
    requires n >= 1 && (n == 1 || ave == top)
    ensures TrueMean(ave, n, top) == top
  {
    var x := ave * (n - 1) + top;
    assert x == top * n by {
      if n > 1 {
        assert top * (n - 1) + top == top * n;
      }
    }
    assert x / n == top by {
      DivExact(top, n);
    }
  }

  lemma DivExact(q: nat, n: nat)
    requires n >= 1
    ensures q * n / n == q
  {
    var x := q * n;
    assert x == (x / n) * n + x % n;
    if x / n < q {
      Product(x / n + 1, n, q, n);
    } else if q < x / n {
      Product(q + 1, n, x / n, n);
    }
  }

  /** A pong that takes the whole timeout keeps the mean there. */
  lemma SlowNext(t: Timers, l: Link, k: nat)
    requires Configured(t) && t.pongTimeout < 0x1_0000_0000 && k < t.maxSamples
    requires l.samples == k && (k > 0 ==> l.ave == t.pongTimeout)
    ensures Usable(t, l)
    ensures var e := Pong(t.pongTimeout * 1000);
            && (l.ave * k >= 0x1_0000_0000 ==> Overflows(t, l, e))
            && (!Overflows(t, l, e) ==> Step(t, l, e).samples == k + 1 && Step(t, l, e).ave == t.pongTimeout)
  {
    assert NextSamples(t, l) == k + 1;
    MeanOfSame(t.pongTimeout, k + 1, l.ave);
    if l.ave * k < 0x1_0000_0000 {
      MeanIs(l.ave, k + 1, t.pongTimeout, l.ave * k);
    }
  }

  lemma {:induction false} SlowOverflows(t: Timers, l: Link, k: nat)
    requires Configured(t) && t.pongTimeout < 0x1_0000_0000 && !Roomy(t) && k < t.maxSamples
    requires l.samples == k && (k > 0 ==> l.ave == t.pongTimeout)
    ensures !Sound(t, l, Slow(t.pongTimeout, t.maxSamples - k))
    decreases t.maxSamples - k
  {
    var events := Slow(t.pongTimeout, t.maxSamples - k);
    SlowNext(t, l, k);
    assert events[0] == Pong(t.pongTimeout * 1000) && events[1..] == Slow(t.pongTimeout, t.maxSamples - k - 1);
    if k + 1 < t.maxSamples && !Overflows(t, l, events[0]) {
      SlowOverflows(t, Step(t, l, events[0]), k + 1);
    }
  }

  /** One pong of 2^32 microseconds is more than the mean can hold. */
  lemma {:induction false} LongTimeoutOverflows(t: Timers)
    requires Configured(t) && t.pongTimeout >= 0x1_0000_0000
    ensures !Sound(t, Initial(t), Slow(0x1_0000_0000, 1))
  {
    var events := Slow(0x1_0000_0000, 1);
    assert events[0] == Pong(0x1_0000_0000 * 1000);
    assert NextSamples(t, Initial(t)) == 1;
    MeanOfSame(0x1_0000_0000, 1, 0);
  }

  lemma {:induction false} RoomyIsSound(t: Timers, r: Run, events: seq<Event>)
    requires Configured(t) && Roomy(t) && Bounded(t, r)
    ensures Sound(t, r.l, events)
    decreases |events|
  {
    if events != [] {
      StepBounded(t, r, events[0]);
      RoomyIsSound(t, RunStep(t, r, events[0]), events[1..]);
    }
  }

  /** The mean overflows in no run at all if and only if the timeout and its product with
      the number of samples less one fit 32 bits. */
  lemma {:induction false} SoundIffRoomy(t: Timers)
    requires Configured(t)
    ensures (forall events :: Sound(t, Initial(t), events)) <==> Roomy(t)
  {
    if Roomy(t) {
      forall events
        ensures Sound(t, Initial(t), events)
      {
        StartBounded(t);
        RoomyIsSound(t, StartRun(t), events);
      }
    } else if t.pongTimeout >= 0x1_0000_0000 {
      LongTimeoutOverflows(t);
    } else {
      SlowOverflows(t, Initial(t), 0);
    }
  }
}
