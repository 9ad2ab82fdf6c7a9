/** The slot loop of get_free_slots in backend/api/calendar.py. Instants are seconds, offsets minutes of the day. */
module FreeSlots {
  import opened Options
  import opened Intervals
  import Division

  const MINUTE := 60
  const MAX_DURATION := 480

  datatype Slot = Slot(offset: int, available: bool)

  function SlotInterval(dayStart: int, offset: int, duration: int): Interval {
    Interval(dayStart + MINUTE * offset, dayStart + MINUTE * offset + MINUTE * duration)
  }

  predicate Free(i: Interval, busy: seq<Interval>) {
    forall k :: 0 <= k < |busy| ==> !Overlaps(i, busy[k])
  }

  /** How many meetings of the duration fit into the work hours. */
  function SlotCount(workStart: int, workEnd: int, duration: int): nat
    requires duration > 0
  {
    if workEnd <= workStart then 0 else 60 * (workEnd - workStart) / duration
  }

  function Offset(workStart: int, duration: int, k: nat): int {
    60 * workStart + k * duration
  }

  /** n is the number of slots when n of them fit and one more does not. */
  lemma SlotCountIs(workStart: int, workEnd: int, duration: int, n: nat)
    requires duration > 0 && Offset(workStart, duration, n) + duration > 60 * workEnd
    requires n > 0 ==> Offset(workStart, duration, n) <= 60 * workEnd
    ensures n == SlotCount(workStart, workEnd, duration)
  {
    var room := 60 * (workEnd - workStart);
    if n == 0 {
      assert room < duration;
      if workEnd > workStart {
        Division.QuotientIsUnique(room, 0, room, duration);
      }
    } else {
      assert n * duration >= duration by {
        assert (n - 1) * duration >= 0;
      }
      Division.QuotientIsUnique(room, n, room - n * duration, duration);
    }
  }

  /** None is the refusal of a duration outside 1 to 480 minutes. */
  method GetFreeSlots(dayStart: int, workStart: int, workEnd: int, duration: int, busy: seq<Interval>)
    returns (reply: Option<seq<Slot>>)
    ensures reply.None? <==> !(1 <= duration <= MAX_DURATION)
    ensures reply.Some? ==> |reply.value| == SlotCount(workStart, workEnd, duration)
    ensures reply.Some? ==> forall k :: 0 <= k < |reply.value| ==>
      reply.value[k].offset == Offset(workStart, duration, k)
    ensures reply.Some? ==> forall k :: 0 <= k < |reply.value| ==>
      (reply.value[k].available <==> Free(SlotInterval(dayStart, reply.value[k].offset, duration), busy))
  {
    if duration <= 0 || duration > MAX_DURATION {
      return None;
    }
    var slots: seq<Slot> := [];
    var end := 60 * workEnd;
    var dayWorkEnd := dayStart + MINUTE * end;
    var offset := 60 * workStart;
    ghost var i := 0;
    while offset < end
      invariant i >= 0 && offset == Offset(workStart, duration, i)
      invariant |slots| == i || (|slots| == i - 1 && offset > end)
      invariant slots != [] ==> Offset(workStart, duration, |slots|) <= end
      invariant forall k :: 0 <= k < |slots| ==> slots[k].offset == Offset(workStart, duration, k)
      invariant forall k :: 0 <= k < |slots| ==>
        (slots[k].available <==> Free(SlotInterval(dayStart, slots[k].offset, duration), busy))
      decreases end - offset
    {
      NextOffset(workStart, duration, i);
      var slotTime := dayStart + MINUTE * offset;
      var slotEnd := slotTime + MINUTE * duration;
      if slotEnd <= dayWorkEnd {
        var available := true;
        for j := 0 to |busy|
          invariant available && Free(Interval(slotTime, slotEnd), busy[..j])
        {
          if Overlaps(Interval(slotTime, slotEnd), busy[j]) {
            available := false;
            break;
          }
        }
        assert busy[..|busy|] == busy;
        slots := slots + [Slot(offset, available)];
      }
      offset := offset + duration;
      i := i + 1;
    }
    NextOffset(workStart, duration, |slots|);
    SlotCountIs(workStart, workEnd, duration, |slots|);
    return Some(slots);
  }

  lemma NextOffset(workStart: int, duration: int, k: nat)
    ensures Offset(workStart, duration, k + 1) == Offset(workStart, duration, k) + duration
  {
  }

  lemma {:induction false} OffsetsGrow(workStart: int, duration: int, j: nat, k: nat)
    requires duration > 0 && j <= k
    ensures Offset(workStart, duration, j) + (k - j) * duration == Offset(workStart, duration, k)
    ensures Offset(workStart, duration, j) <= Offset(workStart, duration, k)
    ensures j < k ==> Offset(workStart, duration, j) + duration <= Offset(workStart, duration, k)
    decreases k - j
  {
    if j < k {
      NextOffset(workStart, duration, k - 1);
      OffsetsGrow(workStart, duration, j, k - 1);
    }
  }

  /** All slots lie in the work hours and there is no room for one more. */
  lemma SlotsFillTheWorkHours(workStart: int, workEnd: int, duration: int, k: nat)
    requires duration > 0
    ensures k < SlotCount(workStart, workEnd, duration) <==> Offset(workStart, duration, k) + duration <= 60 * workEnd
    ensures k < SlotCount(workStart, workEnd, duration) ==> Offset(workStart, duration, k) >= 60 * workStart
  {
    var n := SlotCount(workStart, workEnd, duration);
    OffsetsGrow(workStart, duration, 0, k);
    assert workEnd > workStart ==> n * duration <= 60 * (workEnd - workStart) < (n + 1) * duration;
    NextOffset(workStart, duration, n);
    if k < n {
      OffsetsGrow(workStart, duration, k, n);
    } else {
      OffsetsGrow(workStart, duration, n, k);
    }
  }

  /** Each slot ends where the next begins, and no two share an instant. */
  lemma SlotsAreDisjoint(dayStart: int, workStart: int, duration: int, j: nat, k: nat)
    requires duration > 0 && j < k
    ensures var a, b := SlotInterval(dayStart, Offset(workStart, duration, j), duration),
                        SlotInterval(dayStart, Offset(workStart, duration, k), duration);
      !Overlaps(a, b) && a.end <= b.start && (k == j + 1 ==> a.end == b.start)
  {
    OffsetsGrow(workStart, duration, j, k);
    NextOffset(workStart, duration, j);
  }

  /** A busy interval takes a slot exactly when they share an instant, or when it is empty or inverted with both ends
      strictly inside the slot. */
  lemma BusyExactly(slot: Interval, busy: Interval)
    requires slot.start < slot.end
    ensures Overlaps(slot, busy) <==>
      (exists t :: Covers(slot, t) && Covers(busy, t)) || slot.start < busy.end <= busy.start < slot.end
  {
    if Overlaps(slot, busy) && busy.start < busy.end {
      var t := if slot.start < busy.start then busy.start else slot.start;
      assert Covers(slot, t) && Covers(busy, t);
    }
  }
}
