/** Numbering of outgoing packets (libknet/threads_tx.c). */
module Sender {
  import opened SeqNumbers
  import opened DefragPool
  import opened RxRuns

  const PING_EVERY := 8191

  /** The index after `v`: 0 is never used as a number, it marks a restart. */
  function NextIndex(v: int): int {
    if Num(v + 1) == 0 then v + 2 else v + 1
  }

  /** A ping goes to all nodes when this index is used. */
  predicate Pings(v: int) {
    Num(v) % PING_EVERY == 0
  }

  lemma NumStep(v: int)
    ensures Num(v + 1) == (Num(v) + 1) % 65536
  {
  }

  lemma NumAt(q: int, r: nat)
    requires r < 65536
    ensures Num(65536 * q + r) == r
  {
  }

  class Counter {
    var txSeqNum: SeqNum
    ghost var index: int

    ghost predicate Valid()
      reads this
    {
      index >= 0 && txSeqNum == Num(index) && (index > 0 ==> txSeqNum != 0)
    }

    constructor ()
      ensures Valid() && index == 0
    {
      txSeqNum, index := 0, 0;
    }

    method GetTxSeqNum() returns (n: SeqNum, ping: bool)
      requires Valid()
      modifies this
      ensures Valid() && index == NextIndex(old(index)) > old(index)
      ensures n == Num(index) && n != 0 && ping == Pings(index)
    {
      NumStep(index);
      NumStep(index + 1);
      txSeqNum := (txSeqNum + 1) % 65536;
      if txSeqNum == 0 {
        txSeqNum := (txSeqNum + 1) % 65536;
      }
      index := NextIndex(index);
      n := txSeqNum;
      ping := n % (SEQ_MAX / 8) == 0;
    }
  }

  /** The index of the `n`-th packet. */
  function Nth(n: nat): int {
    if n == 0 then 0 else NextIndex(Nth(n - 1))
  }

  lemma {:induction false} NthAt(q: nat, r: nat)
    requires r < 65535
    ensures Nth(65535 * q + r + 1) == 65536 * q + r + 1
    decreases q, r
  {
    if r > 0 {
      NthAt(q, r - 1);
      NumAt(q, r + 1);
    } else if q > 0 {
      NthAt(q - 1, 65534);
      NumAt(q, 0);
    }
  }

  /** Numbers run 1, 2, ..., 65535, 1, ...: the period is one short of the receiver's. */
  lemma {:induction false} NthIs(n: nat)
    requires n > 0
    ensures Nth(n) == n + (n - 1) / 65535 && Num(Nth(n)) == (n - 1) % 65535 + 1
  {
    var q, r := (n - 1) / 65535, (n - 1) % 65535;
    NthAt(q, r);
    NumAt(q, r + 1);
  }

  /** The last index at or before `v` that made the sender ping everybody. */
  function LastPing(v: int): int {
    var r := Num(v);
    if r >= PING_EVERY then v - r % PING_EVERY else v - r - 8
  }

  /** Between two pings lie at most 8198 indices, across the wrap too. */
  lemma PingsAreFrequent(v: int)
    requires Num(v) != 0
    ensures v - 8198 <= LastPing(v) <= v && Pings(LastPing(v)) && Num(LastPing(v)) != 0
    ensures forall w :: LastPing(v) < w <= v ==> !Pings(w) || Num(w) == 0
  {
    var r := Num(v);
    if r >= PING_EVERY {
      NumBack(v, r % PING_EVERY);
      NoMultipleBetween(r);
      forall w | LastPing(v) < w <= v
        ensures !Pings(w)
      {
        NumBack(v, v - w);
      }
    } else {
      NumBack(v, r + 8);
      forall w | LastPing(v) < w <= v
        ensures !Pings(w) || Num(w) == 0
      {
        NumBack(v, v - w);
      }
    }
  }

  lemma NumBack(v: int, d: nat)
    requires d <= 65535
    ensures Num(v - d) == if d <= Num(v) then Num(v) - d else Num(v) - d + 65536
  {
    assert v - d == 65536 * (v / 65536) + Num(v) - d;
  }

  lemma NoMultipleBetween(r: nat)
    ensures forall x :: r - r % PING_EVERY < x <= r ==> x % PING_EVERY != 0
  {
    forall x | r - r % PING_EVERY < x <= r
      ensures x % PING_EVERY != 0
    {
      assert x == PING_EVERY * (r / PING_EVERY) + (x - (r - r % PING_EVERY));
    }
  }

  /** A receiver that heard the last ping before `v`, or anything newer, can place `v`
      unless it is more than 4095 late, however large its buffer pool. */
  lemma PingsKeepReceiverInStep(p: Params, newest: int, v: int)
    requires Settled(p) && Num(v) != 0
    requires LastPing(v) <= newest <= v + 4095
    ensures InWindow(p, newest, v)
  {
    PingsAreFrequent(v);
    LargestPower(p.maxBufs);
  }

  // ----- whole runs

  /** Before this event the receiver heard the last ping sent before it, or something
      newer, unless it has heard nothing yet; and the event is at most 4095 late. */
  ghost predicate InTouch(r: Run, sent: Sent, e: Event) {
    match e
    case Data(v, frag, _) => Hears(r, v) && FragmentOf(sent(v), frag)
    case Ping(v, timed) => timed || Wiping(r, e) || Hears(r, v)
    case Disconnected => true
    case Housekeeping(_) => true
  }

  predicate Hears(r: Run, v: int) {
    Num(v) != 0 && (r.h.rx != 0 ==> LastPing(v) <= r.newest <= v + 4095)
  }

  lemma InTouchIsAllowed(r: Run, p: Params, sent: Sent, e: Event)
    requires RunOk(r, p, sent) && InTouch(r, sent, e)
    ensures Allowed(r, p, sent, e)
  {
    if r.h.rx != 0 && (e.Data? || (e.Ping? && !e.timed && !Wiping(r, e))) {
      PingsKeepReceiverInStep(p, r.newest, e.v);
    }
  }

  ghost predicate StaysInTouch(r: Run, p: Params, sent: Sent, events: seq<Event>)
    requires RunOk(r, p, sent)
    decreases |events|
  {
    events == [] ||
    (InTouch(r, sent, events[0]) &&
     (InTouchIsAllowed(r, p, sent, events[0]);
      StepOk(r, p, sent, events[0]);
      StaysInTouch(Step(r, p, sent, events[0]), p, sent, events[1..])))
  }

  /** A receiver that stays in touch can place every arrival of the run, however large
      its buffer pool: all theorems about runs hold for it. */
  lemma {:induction false} InTouchRuns(r: Run, p: Params, sent: Sent, events: seq<Event>)
    requires RunOk(r, p, sent) && StaysInTouch(r, p, sent, events)
    ensures Runs(r, p, sent, events)
    decreases |events|
  {
    if events != [] {
      InTouchIsAllowed(r, p, sent, events[0]);
      StepOk(r, p, sent, events[0]);
      InTouchRuns(Step(r, p, sent, events[0]), p, sent, events[1..]);
    }
  }

  ghost predicate InTouchFromStart(p: Params, sent: Sent, events: seq<Event>) {
    Settled(p) && Wellformed(sent) && (StartOk(p, sent); StaysInTouch(Start(p), p, sent, events))
  }

  lemma InTouchIsPossible(p: Params, sent: Sent, events: seq<Event>)
    requires InTouchFromStart(p, sent, events)
    ensures Possible(p, sent, events)
  {
    StartOk(p, sent);
    InTouchRuns(Start(p), p, sent, events);
  }
}
