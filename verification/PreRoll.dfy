/** The ring of recently suppressed capture frames, and the sequence it stands for. */
module PreRoll {
  import opened MediaClock

  const PRE_ROLL_FRAMES := 5

  type Pcm = seq<int>

  datatype Slot = Slot(timestampUs: nat, samples: Pcm)

  // ---- As a sequence, oldest first

  predicate Follows(run: seq<Slot>, timestampUs: nat) {
    run != [] && run[|run| - 1].timestampUs + FRAME_US == timestampUs
  }

  /** A frame that does not follow the newest one starts a new run; a full ring loses its oldest frame. */
  function Pushed(run: seq<Slot>, capacity: nat, s: Slot): seq<Slot> {
    if capacity == 0 then run
    else
      var kept := if run != [] && !Follows(run, s.timestampUs) then [] else run;
      (if |kept| == capacity then kept[1..] else kept) + [s]
  }

  /** The run is handed out only if it ends right before the current frame. */
  function Flushed(run: seq<Slot>, timestampUs: nat): seq<Slot> {
    if Follows(run, timestampUs) then run else []
  }

  /** Consecutive frames of the media clock. */
  ghost predicate Contiguous(run: seq<Slot>) {
    forall i :: 0 < i < |run| ==> run[i].timestampUs == run[i - 1].timestampUs + FRAME_US
  }

  lemma {:induction false} PushedContiguous(run: seq<Slot>, capacity: nat, s: Slot)
    requires Contiguous(run) && |run| <= capacity
    ensures Contiguous(Pushed(run, capacity, s)) && |Pushed(run, capacity, s)| <= capacity
    ensures capacity > 0 ==> Pushed(run, capacity, s) != [] && Pushed(run, capacity, s)[|Pushed(run, capacity, s)| - 1] == s
  {
  }

  // ---- As an array

  lemma {:induction false} Wrap(x: nat, n: nat)
    requires n > 0 && x < 2 * n
    ensures x % n == if x < n then x else x - n
  {
    if x < n {
      SmallMod(x, n);
    } else {
      SmallMod(x - n, n);
      assert x == (x - n) + n;
      AddOnce(x - n, n);
    }
  }

  lemma {:induction false} SmallMod(x: nat, n: nat)
    requires x < n
    ensures x % n == x
  {
  }

  lemma {:induction false} AddOnce(x: nat, n: nat)
    requires x < n
    ensures (x + n) % n == x
  {
    var q, r := (x + n) / n, (x + n) % n;
    assert x + n == n * q + r;
    assert q == 1;
  }

  class PreRollRing {
    var slots: array<Slot>
    var head: nat
    var len: nat

    ghost predicate Valid()
      reads this
    {
      len <= slots.Length && (slots.Length > 0 ==> head < slots.Length)
    }

    ghost function At(i: nat): Slot
      reads this, slots
      requires Valid() && slots.Length > 0 && i < slots.Length
    {
      if head + i < slots.Length then slots[head + i] else slots[head + i - slots.Length]
    }

    /** The stored frames, oldest first. */
    ghost function Contents(): (run: seq<Slot>)
      reads this, slots
      requires Valid()
      ensures |run| == len && forall i :: 0 <= i < len ==> run[i] == At(i)
    {
      seq(len, i requires 0 <= i < len && Valid() && len <= slots.Length reads this, slots => At(i))
    }

    constructor (capacity: nat)
      ensures Valid() && fresh(slots) && slots.Length == capacity && Contents() == []
    {
      slots := new Slot[capacity](_ => Slot(0, []));
      head, len := 0, 0;
    }

    method NewestFollowedBy(timestampUs: nat) returns (follows: bool)
      requires Valid()
      ensures follows <==> Follows(Contents(), timestampUs)
    {
      if len == 0 {
        return false;
      }
      Wrap(head + len - 1, slots.Length);
      follows := slots[(head + len - 1) % slots.Length].timestampUs + FRAME_US == timestampUs;
    }

    method EvictOldest()
      requires Valid() && len > 0
      modifies this`head, this`len
      ensures Valid() && Contents() == old(Contents())[1..]
    {
      Wrap(head + 1, slots.Length);
      head := (head + 1) % slots.Length;
      len := len - 1;
      assert forall i :: 0 <= i < len ==> At(i) == old(At(i + 1));
    }

    method Append(s: Slot)
      requires Valid() && len < slots.Length
      modifies this`len, slots
      ensures Valid() && Contents() == old(Contents()) + [s]
    {
      Wrap(head + len, slots.Length);
      slots[(head + len) % slots.Length] := s;
      len := len + 1;
      assert forall i :: 0 <= i < len - 1 ==> At(i) == old(At(i));
      assert At(len - 1) == s;
    }

    /** Stashes one suppressed frame. */
    method Push(timestampUs: nat, samples: Pcm)
      requires Valid()
      modifies this`head, this`len, slots
      ensures Valid() && Contents() == Pushed(old(Contents()), slots.Length, Slot(timestampUs, samples))
    {
      if slots.Length == 0 {
        return;
      }
      var follows := NewestFollowedBy(timestampUs);
      if len > 0 && !follows {
        len := 0;
      }
      if len == slots.Length {
        EvictOldest();
      }
      Append(Slot(timestampUs, samples));
    }

    /** Hands out the stored frames, oldest first, if they lead right up to the current one; empty afterwards. */
    method FlushInto(currentTimestampUs: nat) returns (emitted: seq<Slot>)
      requires Valid()
      modifies this`len
      ensures Valid() && Contents() == [] && emitted == Flushed(old(Contents()), currentTimestampUs)
    {
      emitted := [];
      var follows := NewestFollowedBy(currentTimestampUs);
      ghost var run := Contents();
      if follows {
        for i := 0 to len
          invariant Valid() && Contents() == run && emitted == run[..i]
        {
          Wrap(head + i, slots.Length);
          emitted := emitted + [slots[(head + i) % slots.Length]];
        }
      }
      len := 0;
    }
  }
}
