/** At most one delivery across wipes: the window is wiped by a ping when no data came
    since the ping before, and the sender's pings are far enough apart that nothing
    delivered before can come back afterwards. */
module RxWipes {
  import opened Prelude
  import opened SeqNumbers
  import opened Fragmentation
  import opened DefragPool
  import opened RxModel
  import opened RxRuns
  import opened Sender

  /** No wipe other than by the sender's own pings to everybody, and these are at most
      4095 late, like all else. */
  ghost predicate Orderly(r: Run, e: Event) {
    match e
    case Data(_, _, _) => true
    case Ping(v, timed) =>
      if timed then !Wiping(r, e)
      else Pings(v) && Num(v) != 0 && (r.h.rx != 0 ==> r.newest - 4095 <= v)
    case Disconnected => false
    case Housekeeping(_) => true
  }

  /** Different pings are at least 8191 indices apart. */
  lemma PingsApart(a: int, b: int)
    requires Pings(a) && Num(a) != 0 && Pings(b) && Num(b) != 0 && a < b
    ensures b - a >= PING_EVERY
  {
    if b - a < PING_EVERY {
      NumDifference(b, a);
      SomePingNumber(Num(a), Num(a) / PING_EVERY);
      SomePingNumber(Num(b), Num(b) / PING_EVERY);
      assert false;
    }
  }

  lemma SomePingNumber(n: SeqNum, k: nat)
    requires n != 0 && n % PING_EVERY == 0 && k == n / PING_EVERY
    ensures n == 8191 * k && 1 <= k <= 8
  {
  }

  /** What earlier deliveries mean for what may still arrive. `last` is the newest of the
      sender's pings so far. */
  ghost predicate Behind(r: Run, last: Option<int>) {
    && (r.h.rx == 0 ==> r.log == [] && last == None)
    && (last == None ==> r.h.untimedRx == 0 && (r.h.rx != 0 ==> r.h.gotData))
    && (last.Some? ==>
          && Pings(last.value) && Num(last.value) != 0 && Num(last.value) == r.h.untimedRx
          && last.value <= r.newest && (!r.h.gotData ==> r.newest <= last.value + 4095))
    && (forall i :: 0 <= i < |r.log| ==>
          r.log[i].v <= r.newest && (r.log[i].epoch < r.epoch ==> r.log[i].v < r.newest - 4095))
  }

  ghost predicate AllDifferent(log: seq<Delivery>) {
    forall i, j :: 0 <= i < j < |log| ==> log[i].v != log[j].v
  }

  // ----- what events do to the fields involved

  lemma DataFields(h: RxState, p: Params, m: DataMsg, env: Env)
    requires Processable(h, p, m)
    ensures var h' := ProcessData(h, p, m, env).0; h'.gotData && h'.untimedRx == h.untimedRx
  {
    var h1 := Lookup(h.(gotData := true), p, m.seqNum, false, false).0;
    if m.fragNum > 1 {
      FindFields(h1, p, m.seqNum, env.canGrow);
    }
  }

  lemma FindFields(h: RxState, p: Params, s: SeqNum, canGrow: bool)
    requires h.bufs != []
    ensures var h' := FindBuf(h, p, s, canGrow).0; h'.gotData == h.gotData && h'.untimedRx == h.untimedRx
  {
  }

  lemma DataMoves(r: Run, p: Params, sent: Sent, v: int, frag: nat, env: Env)
    requires RunOk(r, p, sent) && Allowed(r, p, sent, Data(v, frag, env))
    ensures DataStep(r, p, sent, v, frag, env).h.rx != 0
  {
    var b := Begun(r, v);
    BegunInStep(r, p, sent, v);
    BegunProcess(r, p, Carries(sent(v), Num(v), frag), env, v);
    DataLive(b.h, p, env, b.newest, r.done, r.tried, sent, v, frag);
  }

  // ----- one event

  function LastAfter(last: Option<int>, e: Event): Option<int> {
    if e.Ping? && !e.timed && (last == None || last.value < e.v) then Some(e.v) else last
  }

  lemma DataStays(r: Run, p: Params, sent: Sent, v: int, frag: nat, env: Env, last: Option<int>)
    requires RunOk(r, p, sent) && Allowed(r, p, sent, Data(v, frag, env)) && Behind(r, last) && AllDifferent(r.log)
    ensures var r' := DataStep(r, p, sent, v, frag, env); Behind(r', last) && AllDifferent(r'.log)
  {
    DataWorks(r, p, sent, v, frag, env);
    DataFields(r.h, p, Carries(sent(v), Num(v), frag), env);
    DataMoves(r, p, sent, v, frag, env);
    DataStepInStep(r, p, sent, v, frag, env);
    var r' := DataStep(r, p, sent, v, frag, env);
    if r'.log != r.log {
      NewIsDifferent(r, p, sent, v);
    }
  }

  lemma NewIsDifferent(r: Run, p: Params, sent: Sent, v: int)
    requires RunOk(r, p, sent) && v !in r.done && (r.h.rx != 0 ==> r.newest - 4095 <= v)
    requires r.h.rx == 0 ==> r.log == []
    requires forall i :: 0 <= i < |r.log| ==> r.log[i].epoch < r.epoch ==> r.log[i].v < r.newest - 4095
    ensures forall i :: 0 <= i < |r.log| ==> r.log[i].v != v
  {
    forall i | 0 <= i < |r.log|
      ensures r.log[i].v != v
    {
      if r.log[i].epoch == r.epoch {
        assert Logged(r.log, r.log[i].v, r.epoch);
      }
    }
  }

  lemma PingStays(r: Run, p: Params, sent: Sent, v: int, last: Option<int>)
    requires RunOk(r, p, sent) && Allowed(r, p, sent, Ping(v, false)) && Orderly(r, Ping(v, false))
    requires Behind(r, last)
    ensures Behind(Step(r, p, sent, Ping(v, false)), LastAfter(last, Ping(v, false)))
  {
    if last.Some? && last.value != v {
      PingsApart(if last.value < v then last.value else v, if last.value < v then v else last.value);
    }
    PingStepOk(r, p, sent, v, false);
    PingFields(r, p, sent, v);
  }

  lemma PingFields(r: Run, p: Params, sent: Sent, v: int)
    requires RunOk(r, p, sent) && Allowed(r, p, sent, Ping(v, false)) && Num(v) != 0
    ensures var r' := Step(r, p, sent, Ping(v, false));
            && r'.h.rx != 0 && r'.h.untimedRx == Num(v) && r'.log == r.log
            && (r'.h.gotData <==> r.h.gotData && Num(v) == r.h.untimedRx)
            && (if Wipes(r.h, Num(v), false) then r'.newest == v && r'.epoch == r.epoch + 1
                else r'.epoch == r.epoch && r'.newest == (if r.h.rx == 0 then v else Max(r.newest, v)))
  {
    if !Wiping(r, Ping(v, false)) {
      var b := Begun(r, v);
      BegunInStep(r, p, sent, v);
      var h1 := if Num(v) != b.h.untimedRx then b.h.(untimedRx := Num(v), gotData := false) else b.h;
      assert Live(h1, p, b.newest, r.done, r.tried, sent);
      LookupLive(h1, p, b.newest, r.done, r.tried, sent, v, false);
    }
  }

  lemma StepStays(r: Run, p: Params, sent: Sent, e: Event, last: Option<int>)
    requires RunOk(r, p, sent) && Allowed(r, p, sent, e) && Orderly(r, e) && Behind(r, last) && AllDifferent(r.log)
    ensures var r' := Step(r, p, sent, e); Behind(r', LastAfter(last, e)) && AllDifferent(r'.log)
  {
    match e
    case Data(v, frag, env) => DataStays(r, p, sent, v, frag, env, last);
    case Ping(v, timed) =>
      if !timed {
        PingStays(r, p, sent, v, last);
        PingFields(r, p, sent, v);
      }
    case Housekeeping(_) =>
  }

  // ----- runs

  ghost predicate OrderlyRun(r: Run, p: Params, sent: Sent, events: seq<Event>)
    requires RunOk(r, p, sent) && Runs(r, p, sent, events)
    decreases |events|
  {
    events == [] || (Orderly(r, events[0]) &&
                     (StepOk(r, p, sent, events[0]); OrderlyRun(Step(r, p, sent, events[0]), p, sent, events[1..])))
  }

  lemma {:induction false} RunStays(r: Run, p: Params, sent: Sent, events: seq<Event>, last: Option<int>)
    requires RunOk(r, p, sent) && Runs(r, p, sent, events) && OrderlyRun(r, p, sent, events)
    requires Behind(r, last) && AllDifferent(r.log)
    ensures AllDifferent(Exec(r, p, sent, events).log)
    decreases |events|
  {
    if events != [] {
      StepOk(r, p, sent, events[0]);
      StepStays(r, p, sent, events[0], last);
      RunStays(Step(r, p, sent, events[0]), p, sent, events[1..], LastAfter(last, events[0]));
    }
  }

  ghost predicate OrderlyFromStart(p: Params, sent: Sent, events: seq<Event>)
    requires Possible(p, sent, events)
  {
    StartOk(p, sent);
    OrderlyRun(Start(p), p, sent, events)
  }

  /** Over every run from the start whose wipes are by the sender's pings, however many:
      no index is delivered twice. */
  lemma AtMostOnceAcrossWipes(p: Params, sent: Sent, events: seq<Event>)
    requires Possible(p, sent, events) && OrderlyFromStart(p, sent, events)
    ensures var log := Final(p, sent, events).log;
            forall i, j :: 0 <= i < j < |log| ==> log[i].v != log[j].v
  {
    StartOk(p, sent);
    RunStays(Start(p), p, sent, events, None);
  }
}
