/** Path MTU discovery (libknet/threads_pmtud.c). */
module Pmtud {
  import opened Prelude
  import opened Arithmetic
  import opened OnwireSizes

  const FAILSAFE := 30
  const MULTIPLIER_MIN := 2
  const MULTIPLIER_MAX := 128

  /** What happens to one probe. `quick`: the answer took less than half the
      timeout. `kernelMtu` is 0 when the kernel gives no hint. `Rescheduled`: the whole
      discovery was called off while this probe was under way. */
  datatype Outcome =
    | Acked(quick: bool)
    | Stray(quick: bool)
    | Lost
    | TooBig(kernelMtu: nat)
    | SendError
    | Interrupted
    | Failed
    | Rescheduled

  /** The network, asked with the number of the probe, its size on the wire and the
      timeout multiplier. */
  type Net = (nat, nat, nat) -> Outcome

  /** What does not change during one discovery: sizes and overhead of the link. */
  datatype Setup = Setup(crypto: Crypto, cryptoInUse: bool, overhead: nat)

  /** The variables of the search. */
  datatype Search = Search(
    bad: nat, good: nat, onwire: nat, multiplier: nat, reduce: bool, retries: nat, probes: nat)

  /** Go on, stop at the size just acknowledged, or give up. */
  datatype Verdict = Again(s: Search) | Done(s: Search) | Abort(s: Search)

  /** The size actually probed: what a packet of at most `onwire` bytes can have. */
  function ProbeLen(u: Setup, onwire: nat): Size {
    Wrap(Rounded(u.crypto, Wrap(onwire - u.overhead)) + u.overhead)
  }

  /** No larger packet needs to be tried. */
  predicate Settles(u: Setup, s: Search, len: nat) {
    var b := u.crypto.block;
    if b > 0 then len + b >= PMTUD_SIZE || (s.bad != 0 && s.bad <= len + b)
    else len == PMTUD_SIZE || (s.bad != 0 && s.bad == len + 1) || s.bad == s.good
  }

  function Middle(s: Search): nat {
    U32(s.good + s.bad) / 2
  }

  /** A quick answer shortens the next timeouts, unless they just had to grow. */
  function Relaxed(u: Setup, s: Search, quick: bool): Search {
    if u.cryptoInUse && s.reduce && s.multiplier > MULTIPLIER_MIN && quick then s.(multiplier := s.multiplier / 2) else s
  }

  /** Where the search goes after a probe of `len` bytes. */
  function React(u: Setup, s0: Search, len: nat, outcome: Outcome): Verdict {
    var s := s0.(probes := s0.probes + 1, onwire := len);
    match outcome
    case Acked(quick) =>
      var r := Relaxed(u, s, quick);
      if Settles(u, r, len) then Done(r)
      else var g := r.(good := U32(len)); Again(g.(onwire := Middle(g)))
    case Stray(quick) =>
      var r := Relaxed(u, s, quick).(bad := U32(len)); Again(r.(onwire := Middle(r)))
    case Lost =>
      if u.cryptoInUse && s.multiplier < MULTIPLIER_MAX then
        Again(s.(multiplier := s.multiplier * 2, reduce := false))
      else var r := s.(bad := U32(len)); Again(r.(onwire := Middle(r)))
    case TooBig(k) =>
      if k > 0 then Again(s.(bad := U32(k + 1), onwire := U32(k)))
      else var r := s.(bad := U32(len)); Again(r.(onwire := Middle(r)))
    case SendError => Again(s.(onwire := Middle(s)))
    case Interrupted => if s.retries == 3 then Abort(s) else Again(s.(retries := s.retries + 1))
    case Failed => Abort(s)
    case Rescheduled => Abort(s)
  }

  predicate ValidMultiplier(m: nat) {
    m == 2 || m == 4 || m == 8 || m == 16 || m == 32 || m == 64 || m == 128
  }

  lemma ReactKeepsMultiplier(u: Setup, s: Search, len: nat, outcome: Outcome)
    requires ValidMultiplier(s.multiplier)
    ensures ValidMultiplier(React(u, s, len, outcome).s.multiplier)
  {
  }

  // ----- a stable path

  /** A path that carries exactly the sizes up to `m`; larger ones are lost, or a reply to
      something else comes instead; the local interface refuses those above `k`, with or
      without telling its limit. With crypto in use answers may take so
      long that they are lost until the timeout multiplier has reached `patience`. Waits
      for the probes numbered in `upset` may be interrupted. */
  datatype Path = Path(m: nat, k: nat, patience: nat, upset: set<nat>)

  /** The network is such a path. The discovery may be called off at any probe. */
  ghost predicate Stable(u: Setup, net: Net, path: Path) {
    && u.crypto.Sane()
    && MinWire(u.crypto) + u.overhead <= path.m <= path.k && path.m <= PMTUD_SIZE
    && Carries(u, net, path)
  }

  ghost predicate Carries(u: Setup, net: Net, path: Path) {
    && path.patience <= MULTIPLIER_MAX && |path.upset| <= 3
    && forall i: nat, size: nat, mult: nat ::
         Fate(net(i, size, mult), size, path, u.cryptoInUse && mult < path.patience, i in path.upset)
  }

  /** What may happen to a probe of `size` bytes on such a path. */
  ghost predicate Fate(o: Outcome, size: nat, path: Path, hasty: bool, upset: bool) {
    || o == Rescheduled
    || (upset && o == Interrupted)
    || (if size <= path.m then o.Acked? || (hasty && o == Lost)
        else if size <= path.k then o == Lost || o.Stray?
        else o == TooBig(0) || o == TooBig(path.k))
  }

  /** Some probe would find the discovery called off. */
  ghost predicate MayBeCalledOff(net: Net) {
    exists i: nat, size: nat, mult: nat :: net(i, size, mult) == Rescheduled
  }

  /** Every probe would. */
  ghost predicate IsCalledOff(net: Net) {
    forall i: nat, size: nat, mult: nat :: net(i, size, mult) == Rescheduled
  }

  /** The MTU stored for a packet of `size` bytes. */
  function AppMtu(u: Setup, size: nat): nat {
    U32(CalcMaxDataOutlen(u.crypto, Wrap(size - u.overhead)))
  }

  /** The network acknowledged a packet whose largest payload is `mtu`. */
  ghost predicate Backed(u: Setup, net: Net, mtu: nat) {
    exists i: nat, size: nat, mult: nat :: net(i, size, mult).Acked? && mtu == AppMtu(u, size)
  }

  /** Every answer is quick and no probe is lost. */
  ghost predicate Brisk(net: Net) {
    forall i: nat, size: nat, mult: nat :: net(i, size, mult) == Acked(true) || net(i, size, mult).TooBig?
  }

  /** No answer is quick. */
  ghost predicate Sluggish(net: Net) {
    forall i: nat, size: nat, mult: nat :: net(i, size, mult) != Acked(true) && net(i, size, mult) != Stray(true)
  }

  // ----- the grid of packet sizes, overhead included

  function Base(u: Setup): nat {
    MinWire(u.crypto) + u.overhead
  }

  /** Which grid point lies at or just below `n`, counted from the smallest packet. */
  function Index(base: nat, step: nat, n: nat): nat
    requires 0 < step && base <= n
  {
    (n - base) / step
  }

  lemma IndexIs(base: nat, step: nat, t: nat, r: nat)
    requires r < step
    ensures base + t * step + r >= base && Index(base, step, base + t * step + r) == t
  {
    var x := t * step + r;
    RemainderIs(t, r, step);
    assert x == (x / step) * step + x % step;
    if x / step < t {
      MulMono(x / step + 1, t, step);
    } else if t < x / step {
      MulMono(t + 1, x / step, step);
    }
  }

  lemma IndexBounds(base: nat, step: nat, n: nat)
    requires 0 < step && base <= n
    ensures var t := Index(base, step, n); base + t * step <= n < base + (t + 1) * step && t <= n - base
  {
    var t := Index(base, step, n);
    assert n - base == t * step + (n - base) % step;
    assert (t + 1) * step == t * step + step;
    MulMono(1, step, t);
  }

  /** A probe has the size of the grid point at or below the size asked for. */
  lemma ProbeLenIs(u: Setup, onwire: nat)
    requires u.crypto.Sane() && Base(u) <= onwire <= PMTUD_SIZE
    ensures ProbeLen(u, onwire) == Base(u) + Index(Base(u), GridStep(u.crypto), onwire) * GridStep(u.crypto)
  {
    RoundedByIndex(u.crypto, onwire - u.overhead);
    assert onwire - Base(u) == onwire - u.overhead - MinWire(u.crypto);
  }

  lemma RoundedByIndex(c: Crypto, n: nat)
    requires c.Sane() && MinWire(c) <= n < 0x1_0000_0000
    ensures Rounded(c, n) == MinWire(c) + (n - MinWire(c)) / GridStep(c) * GridStep(c) <= n
  {
    RoundedIsGridPoint(c, n);
    if c.block > 0 {
      RoundedToBlock(c, n);
      MinWireOnGrid(c);
      ModShift(n - MinWire(c), MinWire(c) - c.Seal(), c.block);
      FloorBlocks(n - MinWire(c), c.block);
    }
  }

  lemma MinWireOnGrid(c: Crypto)
    requires c.Sane() && c.block > 0
    ensures c.Seal() <= MinWire(c) && (MinWire(c) - c.Seal()) % c.block == 0
  {
    PadsToNextBlock(c, HEADER_ALL_SIZE);
  }

  /** The result for the grid point `t` is the result for every size from it up to
      the next one. */
  lemma ResultFor(u: Setup, m: nat, len: nat)
    requires u.crypto.Sane() && Base(u) <= m <= PMTUD_SIZE
    requires len == Base(u) + Index(Base(u), GridStep(u.crypto), m) * GridStep(u.crypto)
    ensures CalcMaxDataOutlen(u.crypto, Wrap(len - u.overhead)) == CalcMaxDataOutlen(u.crypto, Wrap(m - u.overhead))
  {
    ProbeLenIs(u, m);
    RoundedIsGridPoint(u.crypto, m - u.overhead);
  }

  // ----- progress

  /** Where the search stands: nothing known; an interface limit just learnt, whose
      grid point is `w` above the good one; or a bisection over `w` steps. The good
      size is grid point `g`. */
  datatype Phase = First | Hint(g: nat, w: nat) | Bisect(g: nat, w: nat)

  /** Probes a bisection over `w` steps takes. */
  function Halvings(w: nat): nat {
    if w <= 1 then 1 else 1 + Halvings((w + 1) / 2)
  }

  lemma {:induction false} HalvingsMono(v: nat, w: nat)
    requires v <= w
    ensures Halvings(v) <= Halvings(w)
  {
    if v > 1 {
      HalvingsMono((v + 1) / 2, (w + 1) / 2);
    }
  }

  lemma {:induction false} HalvingsBound(w: nat)
    requires w <= 65536
    ensures Halvings(w) <= 17
  {
    HalvingsMono(w, 65536);
    HalvingsOfPower(16);
    PowersToSixteen();
  }

  function Power(n: nat): nat {
    if n == 0 then 1 else 2 * Power(n - 1)
  }

  lemma PowersToSixteen()
    ensures Power(16) == 65536
  {
    assert Power(4) == 16;
    assert Power(8) == 256;
    assert Power(12) == 4096;
  }

  lemma {:induction false} HalvingsOfPower(n: nat)
    ensures Power(n) >= 1 && Halvings(Power(n)) == n + 1
  {
    if n > 0 {
      HalvingsOfPower(n - 1);
      HalvingsOfDouble(Power(n - 1));
    }
  }

  lemma {:induction false} HalvingsOfDouble(w: nat)
    requires w >= 1
    ensures Halvings(2 * w) == 1 + Halvings(w)
  {
    assert (2 * w + 1) / 2 == w;
  }

  /** Probes still needed. The interface limit can be learnt at most once. */
  function Left(ph: Phase, s: Search, k: nat): nat {
    match ph
    case First => 19
    case Hint(_, w) => 1 + Halvings(w)
    case Bisect(_, w) => Halvings(w) + if s.bad <= k + 1 then 0 else 1
  }

  /** How often the timeout can still be doubled. */
  function Doublings(s: Search): nat {
    if s.reduce || s.multiplier <= 2 then 6
    else if s.multiplier <= 4 then 5
    else if s.multiplier <= 8 then 4
    else if s.multiplier <= 16 then 3
    else if s.multiplier <= 32 then 2
    else if s.multiplier <= 64 then 1
    else 0
  }

  /** The search on a stable path, over sizes `base + i * step`: the good size passes,
      the bad one does not, the next probe is known, and there are probes left. */
  ghost predicate OnTrack(base: nat, step: nat, m: nat, k: nat, s: Search, ph: Phase)
    requires 0 < step
  {
    && ValidMultiplier(s.multiplier)
    && base <= s.onwire <= PMTUD_SIZE
    && base <= m <= PMTUD_SIZE && m <= k
    && Placed(base, step, m, k, s, ph)
    && s.probes + Doublings(s) + Left(ph, s, k) <= 25 + s.retries
  }

  ghost predicate Placed(base: nat, step: nat, m: nat, k: nat, s: Search, ph: Phase)
    requires 0 < step && base <= s.onwire && base <= k
  {
    var i := Index(base, step, s.onwire);
    match ph
    case First => s.bad == 0 && s.good == base && base <= PMTUD_SIZE && i == Index(base, step, PMTUD_SIZE)
    case Hint(g, w) =>
      && s.good == base + g * step <= m
      && k < PMTUD_SIZE && s.bad == k + 1 && i == g + w == Index(base, step, k)
    case Bisect(g, w) =>
      && s.good == base + g * step <= m < s.bad == base + (g + w) * step <= PMTUD_SIZE
      && 1 <= w && i == g + w / 2
  }

  /** The size of the next probe and what is known about it. */
  ghost function Target(base: nat, step: nat, s: Search): nat
    requires 0 < step && base <= s.onwire
  {
    base + Index(base, step, s.onwire) * step
  }

  /** The size asked for may be replaced by the one that was sent. */
  lemma TargetStays(base: nat, step: nat, s: Search)
    requires 0 < step && base <= s.onwire <= PMTUD_SIZE
    ensures var r := Target(base, step, s);
            base <= r <= s.onwire && Index(base, step, r) == Index(base, step, s.onwire)
  {
    IndexBounds(base, step, s.onwire);
    IndexIs(base, step, Index(base, step, s.onwire), 0);
  }

  lemma MiddleIndex(base: nat, step: nat, g: nat, w: nat)
    requires 0 < step
    ensures var mid := (base + g * step + (base + (g + w) * step)) / 2;
            base <= mid && Index(base, step, mid) == g + w / 2
  {
    var h, r := w / 2, (w % 2) * step / 2;
    assert w * step == 2 * (h * step) + (w % 2) * step by {
      assert w == 2 * h + w % 2;
    }
    assert (g + w) * step == g * step + w * step;
    assert (g + h) * step == g * step + h * step;
    assert (base + g * step + (base + (g + w) * step)) / 2 == base + (g + h) * step + r;
    IndexIs(base, step, g + h, r);
  }

  lemma AckAtLimit(u: Setup, base: nat, step: nat, m: nat, k: nat, s: Search, ph: Phase)
    requires step == GridStep(u.crypto) && OnTrack(base, step, m, k, s, ph) && !ph.Bisect?
    requires Target(base, step, s) <= m
    ensures Settles(u, s, Target(base, step, s)) && Index(base, step, m) == Index(base, step, s.onwire)
  {
    var n := if ph == First then PMTUD_SIZE else k;
    IndexBounds(base, step, n);
    var t := Index(base, step, s.onwire);
    assert (t + 1) * step == t * step + step;
    SameIndex(base, step, t, m);
  }

  lemma AckInBisect(u: Setup, base: nat, step: nat, m: nat, k: nat, s: Search, g: nat, w: nat)
    requires step == GridStep(u.crypto) && OnTrack(base, step, m, k, s, Bisect(g, w))
    requires Target(base, step, s) <= m
    ensures Settles(u, s, Target(base, step, s)) <==> w <= 2
    ensures w <= 2 ==> Index(base, step, m) == Index(base, step, s.onwire)
  {
    var t, v := g + w / 2, w - w / 2;
    var len := Target(base, step, s);
    assert s.bad == len + v * step by { Distribute(t, v, step); }
    if v == 1 {
      SameIndex(base, step, t, m);
    } else {
      MulMono(2, v, step);
    }
  }

  /** A size that passes becomes the good one of a bisection half as wide. */
  lemma AckHalves(base: nat, step: nat, m: nat, k: nat, s: Search, g: nat, w: nat)
    requires 0 < step && OnTrack(base, step, m, k, s, Bisect(g, w)) && w >= 3
    requires Target(base, step, s) <= m
    ensures var len := Target(base, step, s);
            var s' := s.(good := len, probes := s.probes + 1, onwire := (len + s.bad) / 2);
            OnTrack(base, step, m, k, s', Bisect(g + w / 2, w - w / 2))
  {
    var t, v := g + w / 2, w - w / 2;
    assert t + v == g + w;
    MiddleIndex(base, step, t, v);
    assert Halvings(w) == 1 + Halvings(v);
  }

  lemma Below(step: nat, g: nat, t: nat)
    requires g * step < t * step
    ensures g < t
  {
    if t <= g {
      MulMono(t, g, step);
    }
  }

  ghost function GoodIndex(ph: Phase): nat {
    if ph == First then 0 else ph.g
  }

  lemma GoodIs(base: nat, step: nat, m: nat, k: nat, s: Search, ph: Phase)
    requires 0 < step && OnTrack(base, step, m, k, s, ph)
    ensures s.good == base + GoodIndex(ph) * step <= m
  {
  }

  /** A bisection between grid points `g` and `g + w` is on track. */
  lemma BisectBetween(base: nat, step: nat, m: nat, k: nat, s: Search, g: nat, w: nat)
    requires 0 < step && 1 <= w && ValidMultiplier(s.multiplier) && base <= m <= PMTUD_SIZE && m <= k
    requires s.good == base + g * step <= m < s.bad == base + (g + w) * step <= PMTUD_SIZE
    requires s.onwire == (s.good + s.bad) / 2
    requires s.probes + Doublings(s) + Left(Bisect(g, w), s, k) <= 25 + s.retries
    ensures OnTrack(base, step, m, k, s, Bisect(g, w))
  {
    MiddleIndex(base, step, g, w);
  }

  /** A size that does not pass becomes the bad one of a bisection. */
  lemma LossNarrows(base: nat, step: nat, m: nat, k: nat, s: Search, ph: Phase) returns (ph': Phase)
    requires 0 < step && OnTrack(base, step, m, k, s, ph)
    requires m < Target(base, step, s)
    ensures var len := Target(base, step, s);
            var s' := s.(bad := len, probes := s.probes + 1, onwire := (s.good + len) / 2);
            OnTrack(base, step, m, k, s', ph')
  {
    var g := GoodIndex(ph);
    var t := Index(base, step, s.onwire);
    GoodIs(base, step, m, k, s, ph);
    TargetStays(base, step, s);
    Below(step, g, t);
    var len := Target(base, step, s);
    var s' := s.(bad := len, probes := s.probes + 1, onwire := (s.good + len) / 2);
    LossBudget(base, step, m, k, s, ph, s');
    BisectBetween(base, step, m, k, s', g, t - g);
    ph' := Bisect(g, t - g);
  }

  lemma LossBudget(base: nat, step: nat, m: nat, k: nat, s: Search, ph: Phase, s': Search)
    requires 0 < step && OnTrack(base, step, m, k, s, ph)
    requires GoodIndex(ph) < Index(base, step, s.onwire) <= PMTUD_SIZE && s'.bad == Target(base, step, s)
    ensures Left(Bisect(0, Index(base, step, s.onwire) - GoodIndex(ph)), s', k) < Left(ph, s, k)
  {
    var w := Index(base, step, s.onwire) - GoodIndex(ph);
    HalvingsBound(w);
    match ph
    case First =>
    case Hint(_, _) => IndexBounds(base, step, k);
    case Bisect(g, v) =>
      HalvingsMono(w, (v + 1) / 2);
      assert w == v / 2;
      MulMono(g + w, g + v, step);
  }

  /** The limit of the interface is learnt at most once. */
  lemma HintTaken(base: nat, step: nat, m: nat, k: nat, s: Search, ph: Phase) returns (ph': Phase)
    requires 0 < step && OnTrack(base, step, m, k, s, ph)
    requires k < Target(base, step, s)
    ensures OnTrack(base, step, m, k, s.(bad := k + 1, probes := s.probes + 1, onwire := k), ph')
  {
    var g := GoodIndex(ph);
    var t := Index(base, step, s.onwire);
    GoodIs(base, step, m, k, s, ph);
    TargetStays(base, step, s);
    IndexBounds(base, step, k);
    var i := Index(base, step, k);
    Below(step, g, i + 1);
    Below(step, i, t);
    ph' := Hint(g, i - g);
    HintBudget(base, step, m, k, s, ph, i - g);
  }

  lemma {:induction false} HintBudget(base: nat, step: nat, m: nat, k: nat, s: Search, ph: Phase, w: nat)
    requires 0 < step && OnTrack(base, step, m, k, s, ph) && k < Target(base, step, s)
    requires GoodIndex(ph) + w < Index(base, step, s.onwire) && w <= PMTUD_SIZE
    ensures 1 + Halvings(w) < Left(ph, s, k)
  {
    HalvingsBound(w);
    match ph {
    case First =>
    case Hint(_, _) => IndexBounds(base, step, k);
    case Bisect(g, v) =>
      BadBeyond(base, step, g, v, k);
      HalvingsLess(w, v);
    }
  }

  lemma {:induction false} HalvingsLess(w: nat, v: nat)
    requires w <= (v + 1) / 2 && 2 <= v
    ensures Halvings(w) < Halvings(v)
  {
    HalvingsMono(w, (v + 1) / 2);
  }

  lemma BadBeyond(base: nat, step: nat, g: nat, v: nat, k: nat)
    requires 0 < step && 1 <= v && k < base + (g + v / 2) * step
    ensures k + 1 < base + (g + v) * step
  {
    MulMono(g + v / 2 + 1, g + v, step);
  }

  lemma SameIndex(base: nat, step: nat, t: nat, m: nat)
    requires 0 < step && base + t * step <= m < base + t * step + step
    ensures Index(base, step, m) == t
  {
    IndexIs(base, step, t, m - base - t * step);
  }

  lemma RelaxedOnTrack(u: Setup, base: nat, step: nat, m: nat, k: nat, s: Search, ph: Phase, quick: bool)
    requires 0 < step && OnTrack(base, step, m, k, s, ph)
    ensures OnTrack(base, step, m, k, Relaxed(u, s, quick), ph)
  {
  }

  /** A lost probe is repeated with a longer timeout, at most six times in all. */
  lemma DoubledOnTrack(base: nat, step: nat, m: nat, k: nat, s: Search, ph: Phase)
    requires 0 < step && OnTrack(base, step, m, k, s, ph) && s.multiplier < MULTIPLIER_MAX
    ensures var s' := s.(probes := s.probes + 1, onwire := Target(base, step, s), multiplier := s.multiplier * 2, reduce := false);
            OnTrack(base, step, m, k, s', ph)
  {
    TargetStays(base, step, s);
  }

  lemma ReactToAck(u: Setup, s: Search, len: nat, quick: bool)
    requires len + s.bad < 0x1_0000_0000
    ensures var r := Relaxed(u, s, quick);
            React(u, s, len, Acked(quick)) ==
            if Settles(u, r, len) then Done(r.(probes := s.probes + 1, onwire := len))
            else Again(r.(good := len, probes := s.probes + 1, onwire := (len + s.bad) / 2))
  {
  }

  lemma ReactToRefusal(u: Setup, s: Search, len: nat, outcome: Outcome)
    requires len + s.good < 0x1_0000_0000 && (outcome == TooBig(0) || (outcome == Lost && !(u.cryptoInUse && s.multiplier < MULTIPLIER_MAX)))
    ensures React(u, s, len, outcome) == Again(s.(bad := len, probes := s.probes + 1, onwire := (s.good + len) / 2))
  {
  }

  lemma ReactToHint(u: Setup, base: nat, step: nat, s: Search, k: nat)
    requires 0 < step && base <= s.onwire <= PMTUD_SIZE && 0 < k < Target(base, step, s)
    ensures React(u, s, Target(base, step, s), TooBig(k)) == Again(s.(bad := k + 1, probes := s.probes + 1, onwire := k))
  {
    TargetStays(base, step, s);
  }

  /** The search goes on and stays on track, or it ends at the grid point of the path
      MTU; it does not give up. */
  ghost predicate GoodVerdict(base: nat, step: nat, m: nat, k: nat, len: nat, v: Verdict, ph: Phase)
    requires 0 < step && base <= m
  {
    match v
    case Again(s') => OnTrack(base, step, m, k, s', ph)
    case Done(_) => len == base + Index(base, step, m) * step
    case Abort(_) => false
  }

  lemma AckInBisectOnTrack(u: Setup, base: nat, step: nat, m: nat, k: nat, s: Search, g: nat, w: nat, quick: bool) returns (ph': Phase)
    requires step == GridStep(u.crypto) && OnTrack(base, step, m, k, s, Bisect(g, w)) && Target(base, step, s) <= m
    ensures GoodVerdict(base, step, m, k, Target(base, step, s), React(u, s, Target(base, step, s), Acked(quick)), ph')
  {
    ghost var len := Target(base, step, s);
    ReactToAck(u, s, len, quick);
    RelaxedOnTrack(u, base, step, m, k, s, Bisect(g, w), quick);
    var r := Relaxed(u, s, quick);
    AckInBisect(u, base, step, m, k, r, g, w);
    ph' := Bisect(g + w / 2, w - w / 2);
    if w >= 3 {
      AckHalves(base, step, m, k, r, g, w);
    }
  }

  lemma AckAtLimitOnTrack(u: Setup, base: nat, step: nat, m: nat, k: nat, s: Search, ph: Phase, quick: bool)
    requires step == GridStep(u.crypto) && OnTrack(base, step, m, k, s, ph) && !ph.Bisect? && Target(base, step, s) <= m
    ensures GoodVerdict(base, step, m, k, Target(base, step, s), React(u, s, Target(base, step, s), Acked(quick)), ph)
  {
    RelaxedOnTrack(u, base, step, m, k, s, ph, quick);
    var r := Relaxed(u, s, quick);
    AckAtLimit(u, base, step, m, k, r, ph);
  }

  /** A lost probe: repeated with a longer timeout while that can be the reason, taken as
      too big after that. */
  lemma LossOnTrack(u: Setup, base: nat, step: nat, m: nat, k: nat, s: Search, ph: Phase) returns (ph': Phase)
    requires step == GridStep(u.crypto) && OnTrack(base, step, m, k, s, ph)
    requires m < Target(base, step, s) || (u.cryptoInUse && s.multiplier < MULTIPLIER_MAX)
    ensures var v := React(u, s, Target(base, step, s), Lost);
            v.Again? && OnTrack(base, step, m, k, v.s, ph')
  {
    if u.cryptoInUse && s.multiplier < MULTIPLIER_MAX {
      DoubledOnTrack(base, step, m, k, s, ph);
      ph' := ph;
    } else {
      ph' := NarrowOnTrack(u, base, step, m, k, s, ph, Lost);
    }
  }

  /** A reply to something else: the probe is taken as too big. */
  lemma StrayOnTrack(u: Setup, base: nat, step: nat, m: nat, k: nat, s: Search, ph: Phase, quick: bool) returns (ph': Phase)
    requires 0 < step && OnTrack(base, step, m, k, s, ph) && m < Target(base, step, s)
    ensures var v := React(u, s, Target(base, step, s), Stray(quick));
            v.Again? && OnTrack(base, step, m, k, v.s, ph')
  {
    RelaxedOnTrack(u, base, step, m, k, s, ph, quick);
    var r := Relaxed(u, s, quick);
    TargetStays(base, step, s);
    GoodIs(base, step, m, k, r, ph);
    ReactToStray(u, s, Target(base, step, s), quick);
    ph' := LossNarrows(base, step, m, k, r, ph);
  }

  lemma ReactToStray(u: Setup, s: Search, len: nat, quick: bool)
    requires len + s.good < 0x1_0000_0000
    ensures var r := Relaxed(u, s, quick);
            React(u, s, len, Stray(quick)) == Again(r.(bad := len, probes := s.probes + 1, onwire := (s.good + len) / 2))
  {
  }

  /** A probe that could not be sent says nothing: between two known bounds the same size is
      asked for again, with the same timeout. */
  lemma SendErrorRepeats(u: Setup, base: nat, step: nat, m: nat, k: nat, s: Search, g: nat, w: nat)
    requires 0 < step && OnTrack(base, step, m, k, s, Bisect(g, w))
    ensures var v := React(u, s, Target(base, step, s), SendError);
            && v.Again? && v.s == s.(onwire := v.s.onwire, probes := s.probes + 1)
            && base <= v.s.onwire && Target(base, step, v.s) == Target(base, step, s)
  {
    MiddleIndex(base, step, g, w);
  }

  /** A wait that was interrupted is repeated, up to three times. */
  lemma InterruptedOnTrack(u: Setup, base: nat, step: nat, m: nat, k: nat, s: Search, ph: Phase)
    requires 0 < step && OnTrack(base, step, m, k, s, ph) && s.retries < 3
    ensures var v := React(u, s, Target(base, step, s), Interrupted);
            v.Again? && OnTrack(base, step, m, k, v.s, ph)
  {
    TargetStays(base, step, s);
  }

  lemma NarrowOnTrack(u: Setup, base: nat, step: nat, m: nat, k: nat, s: Search, ph: Phase, outcome: Outcome) returns (ph': Phase)
    requires step == GridStep(u.crypto) && OnTrack(base, step, m, k, s, ph) && m < Target(base, step, s)
    requires outcome == TooBig(0) || (outcome == Lost && !(u.cryptoInUse && s.multiplier < MULTIPLIER_MAX))
    ensures var v := React(u, s, Target(base, step, s), outcome);
            v.Again? && OnTrack(base, step, m, k, v.s, ph')
  {
    TargetStays(base, step, s);
    GoodIs(base, step, m, k, s, ph);
    ReactToRefusal(u, s, Target(base, step, s), outcome);
    ph' := LossNarrows(base, step, m, k, s, ph);
  }

  lemma RefusalOnTrack(u: Setup, base: nat, step: nat, m: nat, k: nat, s: Search, ph: Phase, hint: nat) returns (ph': Phase)
    requires step == GridStep(u.crypto) && OnTrack(base, step, m, k, s, ph) && k < Target(base, step, s)
    requires hint == 0 || hint == k
    ensures var v := React(u, s, Target(base, step, s), TooBig(hint));
            v.Again? && OnTrack(base, step, m, k, v.s, ph')
  {
    if hint > 0 {
      ph' := HintTaken(base, step, m, k, s, ph);
      ReactToHint(u, base, step, s, k);
    } else {
      ph' := NarrowOnTrack(u, base, step, m, k, s, ph, TooBig(0));
    }
  }

  /** One probe on a stable path. */
  lemma ProbeOnTrack(u: Setup, base: nat, step: nat, path: Path, s: Search, ph: Phase, len: nat, outcome: Outcome, upset: bool)
    returns (ph': Phase)
    requires step == GridStep(u.crypto) && OnTrack(base, step, path.m, path.k, s, ph) && len == Target(base, step, s)
    requires path.patience <= MULTIPLIER_MAX && (upset ==> s.retries < 3)
    requires Fate(outcome, len, path, u.cryptoInUse && s.multiplier < path.patience, upset) && outcome != Rescheduled
    ensures GoodVerdict(base, step, path.m, path.k, len, React(u, s, len, outcome), ph')
    ensures s.probes + 1 <= 25 + s.retries
  {
    var m, k := path.m, path.k;
    match outcome
    case Acked(quick) =>
      assert len <= m;
      if ph.Bisect? {
        ph' := AckInBisectOnTrack(u, base, step, m, k, s, ph.g, ph.w, quick);
      } else {
        AckAtLimitOnTrack(u, base, step, m, k, s, ph, quick);
        ph' := ph;
      }
    case Lost =>
      ph' := LossOnTrack(u, base, step, m, k, s, ph);
    case Stray(quick) =>
      ph' := StrayOnTrack(u, base, step, m, k, s, ph, quick);
    case TooBig(hint) =>
      assert k < len;
      ph' := RefusalOnTrack(u, base, step, m, k, s, ph, hint);
    case Interrupted =>
      InterruptedOnTrack(u, base, step, m, k, s, ph);
      ph' := ph;
  }

  /** What one round of the search comes to. */
  lemma Foresee(u: Setup, outcome: Outcome, path: Path, base: nat, step: nat, stable: bool, s: Search, ph: Phase, len: nat, upset: bool)
    returns (v: Verdict, ph': Phase)
    requires ValidMultiplier(s.multiplier)
    requires stable ==> && step == GridStep(u.crypto) && path.patience <= MULTIPLIER_MAX && (upset ==> s.retries < 3)
                        && Fate(outcome, len, path, u.cryptoInUse && s.multiplier < path.patience, upset)
                        && OnTrack(base, step, path.m, path.k, s, ph) && len == Target(base, step, s)
    ensures v == React(u, s, len, outcome) && ValidMultiplier(v.s.multiplier)
    ensures stable ==> && s.probes + 1 <= 25 + s.retries && (v.Abort? ==> outcome == Rescheduled)
                       && (v.Done? ==> v.s.onwire == base + Index(base, step, path.m) * step)
                       && (v.Again? ==> OnTrack(base, step, path.m, path.k, v.s, ph'))
  {
    v := React(u, s, len, outcome);
    ReactKeepsMultiplier(u, s, len, outcome);
    ph' := ph;
    if stable && outcome != Rescheduled {
      ph' := ProbeOnTrack(u, base, step, path, s, ph, len, outcome, upset);
    }
  }

  /** The grid the sizes of a link lie on. */
  ghost predicate IsGrid(u: Setup, base: nat, step: nat) {
    u.crypto.Sane() && base == Base(u) && step == GridStep(u.crypto)
  }

  /** A stable path, with its sizes on that grid. */
  ghost predicate StableGrid(u: Setup, net: Net, path: Path, base: nat, step: nat) {
    IsGrid(u, base, step) && Carries(u, net, path) && base <= path.m <= PMTUD_SIZE && path.m <= path.k
  }

  lemma ProbeOnGrid(u: Setup, onwireLen: nat, base: nat, step: nat)
    requires IsGrid(u, base, step) && base <= onwireLen <= PMTUD_SIZE
    ensures ProbeLen(u, onwireLen) == base + Index(base, step, onwireLen) * step
  {
    ProbeLenIs(u, onwireLen);
  }

  /** The size of the next probe; on the grid, its point at or below the size asked
      for. */
  method ProbeSize(u: Setup, onwireLen: nat, ghost base: nat, ghost step: nat, ghost grid: bool) returns (len: nat)
    requires grid ==> IsGrid(u, base, step) && base <= onwireLen <= PMTUD_SIZE
    ensures grid ==> len == base + Index(base, step, onwireLen) * step
  {
    len := ProbeFor(u, onwireLen);
    if grid {
      ProbeOnGrid(u, onwireLen, base, step);
    }
  }

  method ProbeFor(u: Setup, onwireLen: nat) returns (len: nat)
    ensures len == ProbeLen(u, onwireLen)
  {
    var appMtuLen := CalcMaxDataOutlen(u.crypto, Wrap(onwireLen - u.overhead));
    var packetLen := PacketLen(u.crypto, appMtuLen);
    len := Wrap(packetLen + u.overhead);
  }

  lemma ResultOnGrid(u: Setup, len: nat, base: nat, step: nat, m: nat)
    requires IsGrid(u, base, step) && base <= m <= PMTUD_SIZE && len == base + Index(base, step, m) * step
    ensures AppMtu(u, len) == CalcMaxDataOutlen(u.crypto, Wrap(m - u.overhead))
  {
    ResultFor(u, m, len);
    MaxIsBelow(u.crypto, m - u.overhead);
  }

  /** The path is stable on this grid; nothing here is about packet sizes. */
  ghost predicate StableSteps(u: Setup, net: Net, path: Path, base: nat, step: nat) {
    0 < step && step == GridStep(u.crypto) && Carries(u, net, path) && base <= path.m
  }

  /** No more waits were interrupted than can have been. */
  ghost predicate RetriesFit(path: Path, s: Search) {
    s.retries <= |UpsetSoFar(path, s.probes)|
  }

  ghost function UpsetSoFar(path: Path, n: nat): set<nat> {
    set i | i in path.upset && i <= n
  }

  lemma FewerThanAll(path: Path, n: nat)
    requires |path.upset| <= 3
    ensures UpsetSoFar(path, n) <= UpsetSoFar(path, n + 1) <= path.upset
    ensures |UpsetSoFar(path, n)| <= |UpsetSoFar(path, n + 1)| <= 3
    ensures n + 1 in path.upset ==> |UpsetSoFar(path, n + 1)| == |UpsetSoFar(path, n)| + 1
  {
    SubsetSize(UpsetSoFar(path, n), UpsetSoFar(path, n + 1));
    SubsetSize(UpsetSoFar(path, n + 1), path.upset);
    if n + 1 in path.upset {
      assert UpsetSoFar(path, n + 1) == UpsetSoFar(path, n) + {n + 1};
    }
  }

  lemma SubsetSize(a: set<nat>, b: set<nat>)
    requires a <= b
    ensures |a| <= |b|
  {
    assert b == a + (b - a);
  }

  lemma RetriesStayFit(u: Setup, path: Path, s: Search, len: nat, outcome: Outcome)
    requires |path.upset| <= 3 && RetriesFit(path, s)
    requires outcome == Interrupted ==> s.probes + 1 in path.upset
    ensures RetriesFit(path, React(u, s, len, outcome).s)
    ensures s.probes + 1 in path.upset ==> s.retries < 3
    ensures s.retries <= 3
  {
    FewerThanAll(path, s.probes);
  }

  /** What one probe comes to. */
  lemma ForeseeProbe(u: Setup, net: Net, path: Path, base: nat, step: nat, stable: bool, s: Search, ph: Phase, len: nat)
    returns (v: Verdict, ph': Phase)
    requires ValidMultiplier(s.multiplier)
    requires stable ==> && StableSteps(u, net, path, base, step) && OnTrack(base, step, path.m, path.k, s, ph)
                        && len == Target(base, step, s) && RetriesFit(path, s)
    ensures v == React(u, s, len, net(s.probes + 1, len, s.multiplier)) && ValidMultiplier(v.s.multiplier)
    ensures net(s.probes + 1, len, s.multiplier) == Rescheduled ==> v.Abort?
    ensures v.Done? ==> net(s.probes + 1, len, s.multiplier).Acked? && v.s.onwire == len
    ensures stable ==> && s.probes + 1 <= 28 && (v.Abort? ==> net(s.probes + 1, len, s.multiplier) == Rescheduled)
                       && (v.Done? ==> v.s.onwire == base + Index(base, step, path.m) * step)
                       && (v.Again? ==> OnTrack(base, step, path.m, path.k, v.s, ph') && RetriesFit(path, v.s))
  {
    var outcome := net(s.probes + 1, len, s.multiplier);
    var upset := s.probes + 1 in path.upset;
    if stable {
      assert Fate(outcome, len, path, u.cryptoInUse && s.multiplier < path.patience, upset);
      RetriesStayFit(u, path, s, len, outcome);
    }
    v, ph' := Foresee(u, outcome, path, base, step, stable, s, ph, len, upset);
  }

  /** On track, interruptions included. */
  ghost predicate Tracked(base: nat, step: nat, path: Path, s: Search, ph: Phase)
    requires 0 < step
  {
    OnTrack(base, step, path.m, path.k, s, ph) && RetriesFit(path, s)
  }

  lemma StartTracked(base: nat, step: nat, path: Path, s: Search)
    requires 0 < step && base <= path.m <= PMTUD_SIZE && path.m <= path.k
    requires s == Search(0, base, PMTUD_SIZE, s.multiplier, true, 0, 0) && ValidMultiplier(s.multiplier)
    ensures Tracked(base, step, path, s, First)
  {
  }

  /** Probe `number` of this size was acknowledged. */
  ghost predicate Answered(net: Net, number: nat, size: nat) {
    exists mult: nat :: net(number, size, mult).Acked?
  }

  lemma AnswerBacks(u: Setup, net: Net, number: nat, size: nat)
    requires Answered(net, number, size)
    ensures Backed(u, net, AppMtu(u, size))
  {
    var mult: nat :| net(number, size, mult).Acked?;
  }

  /** What one probe makes of the timeout multiplier, from a discovery that started with
      `start`. */
  ghost predicate PaceKept(u: Setup, net: Net, start: nat, multiplier: nat, reduce: bool) {
    && (Sluggish(net) ==> start <= multiplier)
    && (Brisk(net) && u.cryptoInUse ==> multiplier <= start && reduce)
  }

  /** Quick answers and no losses bring it down to half, or to its minimum. */
  ghost predicate PaceGained(u: Setup, net: Net, start: nat, multiplier: nat) {
    && (Sluggish(net) ==> start <= multiplier)
    && (Brisk(net) && u.cryptoInUse ==> multiplier == MULTIPLIER_MIN || 2 * multiplier <= start)
  }

  lemma PaceStep(u: Setup, net: Net, start: nat, s: Search, len: nat)
    requires ValidMultiplier(s.multiplier) && PaceKept(u, net, start, s.multiplier, s.reduce)
    ensures var v := React(u, s, len, net(s.probes + 1, len, s.multiplier));
            && PaceKept(u, net, start, v.s.multiplier, v.s.reduce)
            && (v.Done? ==> PaceGained(u, net, start, v.s.multiplier))
  {
  }

  class Link {
    var lastPingSize: nat
    var lastGoodMtu: nat
    var lastBadMtu: nat
    var multiplier: nat
    var statusMtu: Size
    var hasValidMtu: bool

    constructor (pingSize: nat)
      ensures lastPingSize == pingSize && multiplier == MULTIPLIER_MIN && !hasValidMtu
    {
      lastPingSize, lastGoodMtu, lastBadMtu, multiplier, statusMtu, hasValidMtu := pingSize, 0, 0, MULTIPLIER_MIN, 0, false;
    }

    ghost function View(onwire: nat, reduce: bool, retries: nat, probes: nat): Search
      reads this
    {
      Search(lastBadMtu, lastGoodMtu, onwire, multiplier, reduce, retries, probes)
    }

    /** Everything that follows sending a probe of `onwireLen` bytes. */
    method HandleOutcome(u: Setup, outcome: Outcome, onwireLen: nat, reduce: bool, retries: nat, ghost s: Search, ghost v: Verdict)
      returns (next: nat, reduce': bool, retries': nat, found: bool, failed: bool)
      requires s == View(s.onwire, reduce, retries, s.probes) && v == React(u, s, onwireLen, outcome)
      modifies this`lastGoodMtu, this`lastBadMtu, this`multiplier
      ensures View(next, reduce', retries', s.probes + 1) == v.s && found == v.Done? && failed == v.Abort?
    {
      next, reduce', retries', found, failed := onwireLen, reduce, retries, false, false;
      var kernelMtu := 0;
      match outcome {
      case Failed =>
        failed := true;
        return;
      case Rescheduled =>
        failed := true;
        return;
      case Interrupted =>
        if retries == 3 {
          failed := true;
        } else {
          retries' := retries + 1;
        }
        return;
      case TooBig(hint) =>
        kernelMtu := hint;
        lastBadMtu := if kernelMtu > 0 then U32(kernelMtu + 1) else U32(onwireLen);
      case SendError =>
      case Lost =>
        if u.cryptoInUse && multiplier < MULTIPLIER_MAX {
          multiplier := multiplier * 2;
          reduce' := false;
          return;
        }
        lastBadMtu := U32(onwireLen);
      case Stray(quick) =>
        ReduceMultiplier(u, reduce, quick);
        lastBadMtu := U32(onwireLen);
      case Acked(quick) =>
        ReduceMultiplier(u, reduce, quick);
        found := FoundMtu(u, onwireLen);
        if found {
          return;
        }
        lastGoodMtu := U32(onwireLen);
      }
      next := if kernelMtu > 0 then U32(kernelMtu) else U32(lastGoodMtu + lastBadMtu) / 2;
    }

    method FoundMtu(u: Setup, onwireLen: nat) returns (found: bool)
      ensures found == Settles(u, View(0, false, 0, 0), onwireLen)
    {
      found := false;
      if u.crypto.block > 0 {
        if onwireLen + u.crypto.block >= PMTUD_SIZE || (lastBadMtu != 0 && lastBadMtu <= onwireLen + u.crypto.block) {
          found := true;
        }
      } else {
        if onwireLen == PMTUD_SIZE || (lastBadMtu != 0 && lastBadMtu == onwireLen + 1) || lastBadMtu == lastGoodMtu {
          found := true;
        }
      }
    }

    method ReduceMultiplier(u: Setup, reduce: bool, quick: bool)
      modifies this`multiplier
      ensures multiplier == if u.cryptoInUse && reduce && old(multiplier) > MULTIPLIER_MIN && quick
                            then old(multiplier) / 2 else old(multiplier)
    {
      if u.cryptoInUse && reduce && multiplier > MULTIPLIER_MIN {
        if quick {
          multiplier := multiplier / 2;
        }
      }
    }

    /** Search the largest packet the path carries. On any network the timeout
        multiplier stays a power of two between 2 and 128, and an MTU that is found was
        acknowledged. On a stable path, with the crypto settings of the last ping, the
        search succeeds unless it is called off, however long the answers take and with up
        to three interrupted waits, in at most 28 of its 30 probes, and finds exactly the
        path MTU. Quick answers bring the multiplier down again. */
    method HandleCheckLinkPmtud(u: Setup, net: Net, ghost path: Path)
      returns (ok: bool, rescheduled: bool, ghost probes: nat)
      requires ValidMultiplier(multiplier)
      modifies this
      ensures ValidMultiplier(multiplier) && probes <= FAILSAFE
      ensures lastPingSize == old(lastPingSize) && hasValidMtu == old(hasValidMtu)
      ensures if ok then Backed(u, net, statusMtu) else statusMtu == old(statusMtu)
      ensures rescheduled ==> !ok && MayBeCalledOff(net)
      ensures IsCalledOff(net) ==> rescheduled
      ensures ok ==> PaceGained(u, net, old(multiplier), multiplier)
      ensures Stable(u, net, path) && lastPingSize == MinWire(u.crypto) ==>
                && probes <= 28 && (ok || rescheduled)
                && (ok ==> statusMtu == CalcMaxDataOutlen(u.crypto, Wrap(path.m - u.overhead)))
    {
      ghost var base, step := Base(u), GridStep(u.crypto);
      ghost var stable := Stable(u, net, path) && lastPingSize == MinWire(u.crypto);
      var onwireLen;
      ok, rescheduled, onwireLen, probes := Discover(u, net, path, base, step, stable);
      if ok {
        NoteMtu(u, net, probes, onwireLen, path, base, step, stable);
      }
    }

    /** One probe of `probeLen` bytes, when `wanted` bytes were asked for. */
    method Probe(u: Setup, net: Net, wanted: nat, probeLen: nat, number: nat, reduce: bool, retries: nat, ghost start: nat,
                 ghost path: Path, ghost base: nat, ghost step: nat, ghost stable: bool, ghost ph: Phase)
      returns (onwireLen: nat, reduce': bool, retries': nat, found: bool, failed: bool, rescheduled: bool, ghost ph': Phase)
      requires ValidMultiplier(multiplier) && 1 <= number && PaceKept(u, net, start, multiplier, reduce)
      requires stable ==> && StableSteps(u, net, path, base, step)
                          && Tracked(base, step, path, View(wanted, reduce, retries, number - 1), ph)
                          && probeLen == base + Index(base, step, wanted) * step
      modifies this`lastGoodMtu, this`lastBadMtu, this`multiplier
      ensures ValidMultiplier(multiplier) && PaceKept(u, net, start, multiplier, reduce')
      ensures found ==> Answered(net, number, onwireLen) && PaceGained(u, net, start, multiplier)
      ensures rescheduled ==> failed && !found && MayBeCalledOff(net)
      ensures IsCalledOff(net) ==> rescheduled && failed
      ensures stable ==> && number <= 28 && (failed ==> rescheduled)
                         && (found ==> onwireLen == base + Index(base, step, path.m) * step)
                         && (!failed && !found ==> Tracked(base, step, path, View(onwireLen, reduce', retries', number), ph'))
    {
      ghost var s := View(wanted, reduce, retries, number - 1);
      onwireLen := probeLen;
      var outcome := net(number, onwireLen, multiplier);
      ghost var v;
      v, ph' := ForeseeProbe(u, net, path, base, step, stable, s, ph, onwireLen);
      PaceStep(u, net, start, s, onwireLen);
      rescheduled := outcome.Rescheduled?;
      assert rescheduled ==> net(number, onwireLen, multiplier) == Rescheduled;
      onwireLen, reduce', retries', found, failed := HandleOutcome(u, outcome, onwireLen, reduce, retries, s, v);
      assert View(onwireLen, reduce', retries', number) == v.s && onwireLen == v.s.onwire;
    }

    /** One round of the search: a probe of the largest size not above `wanted` that a
        packet can have. */
    method Round(u: Setup, net: Net, wanted: nat, number: nat, reduce: bool, retries: nat, ghost start: nat,
                 ghost path: Path, ghost base: nat, ghost step: nat, ghost stable: bool, ghost ph: Phase)
      returns (onwireLen: nat, reduce': bool, retries': nat, found: bool, failed: bool, rescheduled: bool, ghost ph': Phase)
      requires ValidMultiplier(multiplier) && 1 <= number && PaceKept(u, net, start, multiplier, reduce)
      requires stable ==> StableGrid(u, net, path, base, step)
                          && Tracked(base, step, path, View(wanted, reduce, retries, number - 1), ph)
      modifies this`lastGoodMtu, this`lastBadMtu, this`multiplier
      ensures ValidMultiplier(multiplier) && PaceKept(u, net, start, multiplier, reduce')
      ensures found ==> Answered(net, number, onwireLen) && PaceGained(u, net, start, multiplier)
      ensures rescheduled ==> failed && !found && MayBeCalledOff(net)
      ensures IsCalledOff(net) ==> rescheduled && failed
      ensures stable ==> && number <= 28 && (failed ==> rescheduled)
                         && (found ==> onwireLen == base + Index(base, step, path.m) * step)
                         && (!failed && !found ==> Tracked(base, step, path, View(onwireLen, reduce', retries', number), ph'))
    {
      var probeLen := ProbeSize(u, wanted, base, step, stable);
      onwireLen, reduce', retries', found, failed, rescheduled, ph' :=
        Probe(u, net, wanted, probeLen, number, reduce, retries, start, path, base, step, stable, ph);
    }

    /** The MTU for a size that was acknowledged. */
    method NoteMtu(u: Setup, net: Net, ghost number: nat, onwireLen: nat, ghost path: Path, ghost base: nat, ghost step: nat, ghost grid: bool)
      requires Answered(net, number, onwireLen)
      requires grid ==> IsGrid(u, base, step) && base <= path.m <= PMTUD_SIZE && onwireLen == base + Index(base, step, path.m) * step
      modifies this`statusMtu
      ensures Backed(u, net, statusMtu)
      ensures grid ==> statusMtu == CalcMaxDataOutlen(u.crypto, Wrap(path.m - u.overhead))
    {
      if grid {
        ResultOnGrid(u, onwireLen, base, step, path.m);
      }
      AnswerBacks(u, net, number, onwireLen);
      statusMtu := AppMtu(u, onwireLen);
    }

    /** The search itself: the size that was acknowledged and settles it. */
    method Discover(u: Setup, net: Net, ghost path: Path, ghost base: nat, ghost step: nat, ghost stable: bool)
      returns (ok: bool, rescheduled: bool, onwireLen: nat, ghost probes: nat)
      requires ValidMultiplier(multiplier)
      requires stable ==> StableGrid(u, net, path, base, step) && lastPingSize + u.overhead == base
      modifies this`lastGoodMtu, this`lastBadMtu, this`multiplier
      ensures ValidMultiplier(multiplier) && probes <= FAILSAFE
      ensures rescheduled ==> !ok && MayBeCalledOff(net)
      ensures IsCalledOff(net) ==> rescheduled
      ensures ok ==> Answered(net, probes, onwireLen) && PaceGained(u, net, old(multiplier), multiplier)
      ensures stable ==> && probes <= 28 && (ok || rescheduled)
                         && (ok ==> onwireLen == base + Index(base, step, path.m) * step)
    {
      lastBadMtu := 0;
      lastGoodMtu := U32(lastPingSize + u.overhead);
      onwireLen := PMTUD_SIZE;
      var failsafe, retries, reduce := 0, 0, true;
      ghost var ph, start := First, multiplier;
      if stable {
        StartTracked(base, step, path, View(onwireLen, reduce, retries, failsafe));
      }
      while failsafe != FAILSAFE
        invariant 0 <= failsafe <= FAILSAFE && (IsCalledOff(net) ==> failsafe == 0)
        invariant ValidMultiplier(multiplier) && PaceKept(u, net, start, multiplier, reduce)
        invariant stable ==> Tracked(base, step, path, View(onwireLen, reduce, retries, failsafe), ph) && failsafe <= 28
      {
        failsafe := failsafe + 1;
        var found, failed;
        onwireLen, reduce, retries, found, failed, rescheduled, ph :=
          Round(u, net, onwireLen, failsafe, reduce, retries, start, path, base, step, stable, ph);
        if failed {
          return false, rescheduled, onwireLen, failsafe;
        }
        if found {
          return true, false, onwireLen, failsafe;
        }
      }
      return false, false, onwireLen, failsafe;
    }
  }
}
