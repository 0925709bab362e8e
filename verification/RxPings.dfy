/** What pings do to the window, told from the events alone: a restarted sender is
    recognised, and the window is emptied exactly when nothing was heard for long. */
module RxPings {
  import opened Prelude
  import opened SeqNumbers
  import opened Fragmentation
  import Reassembly
  import opened DefragPool
  import opened RxModel
  import opened RxRuns
  import RxWipes

  // ----- what the events say

  predicate IsPing(e: Event, timed: bool) {
    e.Ping? && e.timed == timed
  }

  /** The number of the last ping of a kind, 0 if there was none. */
  function LastNumber(events: seq<Event>, timed: bool): SeqNum {
    if events == [] then 0
    else if IsPing(events[|events| - 1], timed) then Num(events[|events| - 1].v)
    else LastNumber(events[..|events| - 1], timed)
  }

  /** It is that number: no ping of the kind comes after the one that carried it. */
  lemma {:induction false} LastNumberIs(events: seq<Event>, timed: bool, i: nat)
    requires i < |events| && IsPing(events[i], timed)
    requires forall j :: i < j < |events| ==> !IsPing(events[j], timed)
    ensures LastNumber(events, timed) == Num(events[i].v)
  {
    if i < |events| - 1 {
      LastNumberIs(events[..|events| - 1], timed, i);
    }
  }

  /** The event at `j` is an untimed ping that differs from the one before. */
  predicate Differs(events: seq<Event>, j: nat)
    requires j < |events|
  {
    IsPing(events[j], false) && Num(events[j].v) != LastNumber(events[..j], false)
  }

  /** Data came after the last untimed ping that differed from the one before. */
  ghost predicate DataSince(events: seq<Event>) {
    exists i :: 0 <= i < |events| && events[i].Data? && forall j :: i < j < |events| ==> !Differs(events, j)
  }

  lemma {:induction false} DataSinceNext(events: seq<Event>, e: Event)
    ensures DataSince(events + [e]) <==>
            e.Data? || (DataSince(events) && !(IsPing(e, false) && Num(e.v) != LastNumber(events, false)))
  {
    var all := events + [e];
    var n := |events|;
    assert all[..n] == events;
    forall j | 0 <= j < n
      ensures Differs(all, j) <==> Differs(events, j)
    {
      assert all[..j] == events[..j];
    }
    if e.Data? {
      assert all[n].Data?;
    } else {
      if i :| 0 <= i < |all| && all[i].Data? && forall j :: i < j < |all| ==> !Differs(all, j) {
        assert i < n && events[i].Data?;
        assert !Differs(all, n);
        assert forall j :: i < j < n ==> !Differs(events, j);
      }
      if i :| 0 <= i < n && events[i].Data? && forall j :: i < j < n ==> !Differs(events, j) {
        assert all[i].Data?;
        if !(IsPing(e, false) && Num(e.v) != LastNumber(events, false)) {
          assert !Differs(all, n);
          assert forall j :: i < j < |all| ==> !Differs(all, j);
        }
      }
    }
  }

  lemma {:induction false} LastNumberNext(events: seq<Event>, e: Event, timed: bool)
    ensures LastNumber(events + [e], timed) == if IsPing(e, timed) then Num(e.v) else LastNumber(events, timed)
  {
    assert (events + [e])[..|events|] == events;
  }

  // ----- the receiver remembers it

  ghost predicate Remembers(h: RxState, past: seq<Event>) {
    && h.timedRx == LastNumber(past, true) && h.untimedRx == LastNumber(past, false)
    && h.gotData == DataSince(past)
  }

  lemma LookupFields(h: RxState, p: Params, s: SeqNum, defrag: bool, clear: bool)
    ensures var h' := Lookup(h, p, s, defrag, clear).0;
            (h'.gotData, h'.untimedRx, h'.timedRx) == (h.gotData, h.untimedRx, h.timedRx)
  {
  }

  lemma DataKeepsTimed(h: RxState, p: Params, m: DataMsg, env: Env)
    requires Processable(h, p, m)
    ensures ProcessData(h, p, m, env).0.timedRx == h.timedRx
  {
    var h1 := Lookup(h.(gotData := true), p, m.seqNum, false, false).0;
    LookupFields(h.(gotData := true), p, m.seqNum, false, false);
    if m.fragNum > 1 {
      FindKeepsTimed(h1, p, m.seqNum, env.canGrow);
    }
  }

  lemma FindKeepsTimed(h: RxState, p: Params, s: SeqNum, canGrow: bool)
    requires h.bufs != []
    ensures FindBuf(h, p, s, canGrow).0.timedRx == h.timedRx
  {
    LookupFields(h, p, s, true, false);
  }

  lemma PingFields(h: RxState, p: Params, s: SeqNum, timed: bool)
    ensures var h' := ProcessPing(h, p, s, timed);
            && h'.timedRx == (if timed then s else h.timedRx)
            && h'.untimedRx == (if timed then h.untimedRx else s)
            && h'.gotData == (h.gotData && (timed || s == h.untimedRx))
  {
    LookupFields(h.(timedRx := s), p, s, false, true);
    var h1 := if s != h.untimedRx then h.(untimedRx := s, gotData := false) else h;
    LookupFields(h1, p, s, false, Wipes(h, s, false));
  }

  lemma DataStepFields(r: Run, p: Params, sent: Sent, v: int, frag: nat, env: Env)
    requires RunOk(r, p, sent) && Allowed(r, p, sent, Data(v, frag, env))
    ensures var h' := Step(r, p, sent, Data(v, frag, env)).h;
            h'.gotData && h'.untimedRx == r.h.untimedRx && h'.timedRx == r.h.timedRx
  {
    DataWorks(r, p, sent, v, frag, env);
    RxWipes.DataFields(r.h, p, Carries(sent(v), Num(v), frag), env);
    DataKeepsTimed(r.h, p, Carries(sent(v), Num(v), frag), env);
  }

  lemma StepRemembers(r: Run, p: Params, sent: Sent, e: Event, past: seq<Event>)
    requires RunOk(r, p, sent) && Allowed(r, p, sent, e) && Remembers(r.h, past)
    ensures Remembers(Step(r, p, sent, e).h, past + [e])
  {
    EventFields(r, p, sent, e);
    RemembersNext(r.h, Step(r, p, sent, e).h, past, e);
  }

  /** What an event does to the fields that pings go by. */
  lemma EventFields(r: Run, p: Params, sent: Sent, e: Event)
    requires RunOk(r, p, sent) && Allowed(r, p, sent, e)
    ensures FieldsAfter(r.h, Step(r, p, sent, e).h, e)
  {
    match e
    case Data(v, frag, env) => DataStepFields(r, p, sent, v, frag, env);
    case Ping(v, timed) => PingFields(r.h, p, Num(v), timed);
    case Disconnected =>
    case Housekeeping(_) =>
  }

  ghost predicate FieldsAfter(h: RxState, h': RxState, e: Event) {
    && h'.timedRx == (if IsPing(e, true) then Num(e.v) else h.timedRx)
    && h'.untimedRx == (if IsPing(e, false) then Num(e.v) else h.untimedRx)
    && h'.gotData == (e.Data? || (h.gotData && !(IsPing(e, false) && Num(e.v) != h.untimedRx)))
  }

  lemma {:induction false} RemembersNext(h: RxState, h': RxState, past: seq<Event>, e: Event)
    requires Remembers(h, past) && FieldsAfter(h, h', e)
    ensures Remembers(h', past + [e])
  {
    DataSinceNext(past, e);
    LastNumberNext(past, e, true);
    LastNumberNext(past, e, false);
  }

  lemma {:induction false} RunRemembers(r: Run, p: Params, sent: Sent, past: seq<Event>, events: seq<Event>, end: Run)
    requires Leads(r, p, sent, events, end) && Remembers(r.h, past)
    ensures Remembers(end.h, past + events)
    decreases |events|
  {
    if events == [] {
      LeadsNowhere(r, p, sent, end);
      assert past + events == past;
    } else {
      var r' := FirstRemembered(r, p, sent, past, events, end);
      Regroup(past, events);
      RunRemembers(r', p, sent, past + [events[0]], events[1..], end);
    }
  }

  lemma Regroup(past: seq<Event>, events: seq<Event>)
    requires events != []
    ensures past + [events[0]] + events[1..] == past + events
  {
  }

  lemma {:induction false} FirstRemembered(r: Run, p: Params, sent: Sent, past: seq<Event>, events: seq<Event>, end: Run) returns (r': Run)
    requires Leads(r, p, sent, events, end) && Remembers(r.h, past) && events != []
    ensures Leads(r', p, sent, events[1..], end) && Remembers(r'.h, past + [events[0]])
  {
    r' := LeadsFirst(r, p, sent, events, end);
    StepRemembers(r, p, sent, events[0], past);
  }

  lemma {:induction false} NothingRemembered(p: Params)
    ensures Remembers(Start(p).h, [])
  {
  }

  lemma FinalRemembers(p: Params, sent: Sent, events: seq<Event>)
    requires Possible(p, sent, events)
    ensures Remembers(Final(p, sent, events).h, events)
  {
    StartOk(p, sent);
    NothingRemembered(p);
    RunRemembers(Start(p), p, sent, [], events, Final(p, sent, events));
    assert [] + events == events;
  }

  // ----- what pings do

  /** Nothing is left of what was received. */
  ghost predicate Emptied(h: RxState) {
    && h.seen == EmptyRing() && h.seenDefrag == EmptyRing() && h.usage == NoUsage()
    && forall i :: 0 <= i < |h.bufs| ==> !h.bufs[i].inUse
  }

  lemma ClearedIsEmptied(h: RxState, p: Params, s: SeqNum)
    ensures var h' := Lookup(h, p, s, false, true).0;
            Emptied(h') && h'.rx == s && |h'.bufs| == |h.bufs|
  {
    var c := Cleared(h, s);
    forall i | 0 <= i < |c.bufs|
      ensures !c.bufs[i].inUse
    {
      assert c.bufs[i] == Reassembly.Zeroed();
    }
    assert InRing(s, s);
  }

  /** Over every run from the start, a timed ping that carries 0 after one that carried
      another number, as a sender that has restarted sends it, makes the receiver forget
      everything. */
  lemma {:induction false} RestartForgets(p: Params, sent: Sent, events: seq<Event>, v: int)
    requires Possible(p, sent, events) && Num(v) == 0 && LastNumber(events, true) != 0
    ensures var r' := Step(Final(p, sent, events), p, sent, Ping(v, true));
            && RunOk(r', p, sent) && Emptied(r'.h) && Idle(r'.h, p) && r'.done == {} && r'.tried == {}
            && r'.epoch == Final(p, sent, events).epoch + 1
  {
    FinalRemembers(p, sent, events);
    var r := Final(p, sent, events);
    StepOk(r, p, sent, Ping(v, true));
    ClearedIsEmptied(r.h.(timedRx := 0), p, 0);
  }

  /** The next whole packet is then delivered, under any number: also one delivered
      before. */
  lemma {:induction false} DeliveredAfterRestart(p: Params, sent: Sent, events: seq<Event>, v: int, w: int, env: Env)
    requires Possible(p, sent, events) && Num(v) == 0 && LastNumber(events, true) != 0
    requires Num(w) != 0 && sent(w).Frags() == 1 && env.takes
    ensures var r' := Step(Final(p, sent, events), p, sent, Ping(v, true));
            && RunOk(r', p, sent) && Allowed(r', p, sent, Data(w, 0, env))
            && Step(r', p, sent, Data(w, 0, env)).log == r'.log + [Delivery(w, r'.epoch, sent(w).payload)]
  {
    RestartForgets(p, sent, events, v);
    var r' := Step(Final(p, sent, events), p, sent, Ping(v, true));
    assert FragmentOf(sent(w), 0);
    FirstArrivalDelivered(r', p, sent, w, env);
  }

  /** Every other timed ping leaves rings, buffers, reference and samples alone. */
  lemma {:induction false} OtherTimedPings(p: Params, sent: Sent, events: seq<Event>, v: int)
    requires Possible(p, sent, events) && !(Num(v) == 0 && LastNumber(events, true) != 0)
    ensures var r := Final(p, sent, events);
            Step(r, p, sent, Ping(v, true)) == r.(h := r.h.(timedRx := Num(v)))
  {
    FinalRemembers(p, sent, events);
  }

  /** Over every run from the start, an untimed ping empties the window if and only if it
      differs from the one before and no data came since the last one that did. Otherwise
      everything delivered and tried stays known. */
  lemma {:induction false} UntimedPingEmptiesIff(p: Params, sent: Sent, events: seq<Event>, v: int)
    requires Possible(p, sent, events) && Allowed(Final(p, sent, events), p, sent, Ping(v, false))
    ensures var r := Final(p, sent, events);
            var r' := Step(r, p, sent, Ping(v, false));
            && RunOk(r', p, sent)
            && if Num(v) != LastNumber(events, false) && !DataSince(events)
               then Emptied(r'.h) && r'.h.rx == Num(v) && r'.epoch == r.epoch + 1 && r'.done == {} && r'.tried == {}
               else (r'.epoch, r'.done, r'.tried) == (r.epoch, r.done, r.tried)
  {
    FinalRemembers(p, sent, events);
    var r := Final(p, sent, events);
    StepOk(r, p, sent, Ping(v, false));
    var h1 := r.h.(untimedRx := Num(v), gotData := false);
    ClearedIsEmptied(h1, p, Num(v));
  }
}
