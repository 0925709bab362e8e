/** Sequence numbers and the duplicate window (libknet/host.c).

A packet carries a 16-bit number. Behind every number stands an unbounded
index: packet `v` travels as `Num(v)`. The receiver keeps one flag per slot
of a 4096-slot ring and the newest number it has seen.
*/
module SeqNumbers {
  const SEQ_MAX := 65535
  const CBUFFER_SIZE := 4096

  /** How far ahead of the newest number an arrival may be and still be read as new. */
  const LOOKAHEAD := 61439

  type SeqNum = x: int | 0 <= x <= 65535

  type Ring = s: seq<bool> | |s| == 4096 witness seq(4096, _ => false)

  function Num(v: int): SeqNum {
    v % 65536
  }

  function Slot(v: int): nat {
    v % 4096
  }

  /** The 16-bit distance the receiver computes; one short when `s < rx`. */
  function SeqDist(rx: SeqNum, s: SeqNum): SeqNum {
    if s < rx then (SEQ_MAX - s + rx) % 65536 else (rx - s) % 65536
  }

  predicate InRing(rx: SeqNum, s: SeqNum) {
    SeqDist(rx, s) < CBUFFER_SIZE
  }

  /** How many numbers separate the newest number from `s`, going forward. */
  function Ahead(rx: SeqNum, s: SeqNum): nat {
    (s - rx) % 65536
  }

  /** The ring once the newest number moves on to `s`: every slot a number after
      `rx` and up to `s` falls into is empty, the others keep their flag. */
  function Advance(slots: Ring, rx: SeqNum, s: SeqNum): Ring {
    seq(4096, k requires 0 <= k < 4096 => (k - rx - 1) % 4096 >= Ahead(rx, s) && slots[k])
  }

  /** The ring agrees with the set `marked` on the 4096 newest indices, and
      nothing newer than `newest` is marked. */
  ghost predicate Tracks(slots: Ring, newest: int, marked: set<int>) {
    && (forall v :: newest - 4095 <= v <= newest ==> slots[Slot(v)] == (v in marked))
    && (forall v :: v in marked ==> v <= newest)
  }

  /** The distance test in terms of the true backward distance: one number more
      is taken as in the ring when no wrap-around lies in between. */
  lemma InRingExactly(rx: SeqNum, s: SeqNum)
    ensures InRing(rx, s) <==> (rx - s) % 65536 < 4096 || ((rx - s) % 65536 == 4096 && s < rx)
  {
    if s < rx {
      assert (rx - s) % 65536 == rx - s;
      assert SeqDist(rx, s) == rx - s - 1;
    }
  }

  /** Reading a number against the newest index gives back the true order of
      the two indices exactly for -4095 <= v - newest <= LOOKAHEAD, plus one
      more number at either end depending on the side of a wrap it is on. */
  lemma ReadsTrueOrder(newest: int, v: int)
    requires -65536 < v - newest < 65536
    ensures (InRing(Num(newest), Num(v)) <==> v <= newest) <==>
            (|| -4095 <= v - newest <= LOOKAHEAD
             || (v - newest == -4096 && Num(v) < Num(newest))
             || (v - newest == 61440 && Num(v) > Num(newest)))
    ensures newest < v ==> Ahead(Num(newest), Num(v)) == v - newest
  {
    InRingExactly(Num(newest), Num(v));
    NumDifference(newest, v);
    NumDifference(v, newest);
  }

  lemma NumDifference(v: int, w: int)
    requires -65536 < v - w < 65536
    ensures (Num(v) - Num(w)) % 65536 == if v < w then v - w + 65536 else v - w
  {
    assert (Num(v) - Num(w)) % 65536 == (v - w) % 65536;
  }

  lemma SlotOfNum(v: int)
    ensures Num(v) % 4096 == Slot(v)
  {
  }

  lemma SlotBehind(newest: int, u: int)
    ensures (Slot(u) - Num(newest) - 1) % 4096 == (u - newest - 1) % 4096
  {
    assert u - newest - 1 == (Slot(u) - Num(newest) - 1) + 4096 * (u / 4096 - 16 * (newest / 65536));
  }

  /** Which slots are emptied, seen from the indices of the new window. */
  lemma EmptiedSlot(newest: int, v: int, u: int)
    requires newest < v && v - 4095 <= u <= v
    ensures (Slot(u) - Num(newest) - 1) % 4096 < v - newest <==> newest < u
  {
    SlotBehind(newest, u);
    var d := u - newest - 1;
    if d >= 0 {
      assert d % 4096 <= d;
    } else {
      assert d % 4096 == d + 4096;
    }
  }

  /** Moving on to a newer index keeps the ring in step with the set. */
  lemma AdvanceTracks(slots: Ring, newest: int, v: int, marked: set<int>)
    requires Tracks(slots, newest, marked)
    requires newest < v < newest + 65536
    ensures Tracks(Advance(slots, Num(newest), Num(v)), v, marked)
  {
    ReadsTrueOrder(newest, v);
    var moved := Advance(slots, Num(newest), Num(v));
    forall u | v - 4095 <= u <= v
      ensures moved[Slot(u)] == (u in marked)
    {
      EmptiedSlot(newest, v, u);
      assert u <= newest ==> slots[Slot(u)] == (u in marked);
    }
  }

  lemma SlotsDiffer(u: int, v: int)
    requires u != v && -4096 < u - v < 4096
    ensures Slot(u) != Slot(v)
  {
    assert u - v == 4096 * (u / 4096 - v / 4096) + (Slot(u) - Slot(v));
  }

  /** Marking an index of the window touches no other index of the window. */
  lemma MarkTracks(slots: Ring, newest: int, v: int, marked: set<int>)
    requires Tracks(slots, newest, marked)
    requires newest - 4095 <= v <= newest
    ensures Tracks(slots[Num(v) % 4096 := true], newest, marked + {v})
  {
    SlotOfNum(v);
    var marks := slots[Num(v) % 4096 := true];
    forall u | newest - 4095 <= u <= newest
      ensures marks[Slot(u)] == (u in marked + {v})
    {
      if u != v {
        SlotsDiffer(u, v);
      }
    }
  }
}
