/** A 32-bit millisecond counter read against an unbounded clock, and the two busy-wait delays. */
module WrappingTime {

  const TWO32 := 0x1_0000_0000
  type word = x: int | 0 <= x < 0x1_0000_0000

  /** Unsigned 32-bit subtraction. */
  function Minus(a: word, b: word): word {
    (a - b) % TWO32
  }

  /** The difference of two readings is the time between them, modulo 2^32; so it is never more than
      the time between them, and it is that time exactly when less than one wrap has passed. */
  lemma DifferenceOfReadings(from: nat, to: nat)
    requires from <= to
    ensures Minus(to % TWO32, from % TWO32) == (to - from) % TWO32
    ensures Minus(to % TWO32, from % TWO32) <= to - from
    ensures Minus(to % TWO32, from % TWO32) == to - from <==> to - from < TWO32
  {
    var a, b := to / TWO32, from / TWO32;
    assert to % TWO32 - from % TWO32 == to - from - (a - b) * TWO32;
    ModShift(to - from, a - b);
  }

  lemma {:induction false} ModShift(x: int, k: int)
    ensures (x - k * TWO32) % TWO32 == x % TWO32
    decreases if k < 0 then -k else k
  {
    if k > 0 {
      ModShift(x, k - 1);
    } else if k < 0 {
      ModShift(x, k + 1);
    }
  }

  /** The exit test of a wait, for every delay and every pair of readings however far apart: it never passes
      early, and it passes exactly when it should within one wrap. */
  lemma ExitIsNeverEarly(start: nat, now: nat, delay: word)
    requires start <= now
    ensures Minus(now % TWO32, start % TWO32) >= delay ==> now - start >= delay
    ensures now - start < TWO32 ==> (Minus(now % TWO32, start % TWO32) >= delay <==> now - start >= delay)
  {
    DifferenceOfReadings(start, now);
  }

  function FirstOf(a: nat, b: nat): nat {
    if a <= b then a else b
  }

  class Clock {
    /** Milliseconds since power-up. */
    var now: nat
    /** Readings still to come before the next tick. */
    var polls: nat
    /** The longest time between two readings by the same loop. */
    const gap: nat

    constructor (longest: nat)
      requires longest > 0
      ensures now == 0 && gap == longest
    {
      gap := longest;
      now := 0;
      polls := 0;
    }

    /** Time passes, possibly none. */
    method Pass()
      requires gap > 0
      modifies this
      ensures (now == old(now) && polls < old(polls)) || old(now) < now <= old(now) + gap
    {
      if polls > 0 {
        polls := polls - 1;
      } else {
        var ms: nat := *;
        var next: nat := *;
        now := now + 1 + ms % gap;
        polls := next;
      }
    }

    /** The tick interrupt handlers of both time bases count with every millisecond; a reading sees the
        count as it is at some moment of the call. */
    method Read() returns (t: word)
      requires gap > 0
      modifies this
      ensures t == now % TWO32
      ensures (now == old(now) && polls < old(polls)) || old(now) < now <= old(now) + gap
    {
      Pass();
      t := now % TWO32;
    }

    /** HAL_Delay: for every moment to start it returns no earlier than asked and at the first reading that
        allows it to, provided a reading falls between the end of the delay and the wrap of the difference;
        when the counter is read every millisecond that is so for every delay. */
    method Delay(delay: word)
      requires gap > 0 && delay + gap <= TWO32
      modifies this
      ensures old(now) + delay <= now
      ensures now <= old(now) + delay + 2 * gap
    {
      var tickstart := Read();
      ghost var start := now;
      var tick := Read();
      DifferenceOfReadings(start, now);
      while Minus(tick, tickstart) < delay
        invariant start <= now && tick == now % TWO32
        invariant now - start < delay + gap || now - start <= gap
        invariant Minus(tick, tickstart) == (now - start) % TWO32
        decreases start + delay - now, polls
      {
        DifferenceOfReadings(start, now);
        tick := Read();
        DifferenceOfReadings(start, now);
      }
      DifferenceOfReadings(start, now);
    }

    /** msleep: the argument is compared as an unsigned number, and the loop also ends when the counter
        has wrapped: it returns at the first reading after the end of the sleep or the wrap of the counter,
        whichever comes first.  So it never returns early when the counter cannot wrap during the sleep,
        and always when it wraps at least one reading interval before the end. */
    method Sleep(ms: int) returns (ghost start: nat)
      requires gap > 0 && -0x8000_0000 <= ms < 0x8000_0000
      requires gap < TWO32 && ms % TWO32 + gap <= TWO32
      modifies this
      ensures old(now) <= start <= now
      ensures var stop := FirstOf(ms % TWO32, TWO32 - start % TWO32); stop <= now - start <= stop + gap
      ensures start % TWO32 + ms % TWO32 <= TWO32 ==> now - start >= ms % TWO32
      ensures start % TWO32 + ms % TWO32 >= TWO32 + gap ==> now - start < ms % TWO32
    {
      var limit := ms % TWO32;
      var t := Read();
      start := now;
      while true
        invariant old(now) <= start <= now && t == start % TWO32
        invariant start == now || (now - start < limit && start % TWO32 + (now - start) < TWO32)
        decreases start + limit - now, polls
      {
        ghost var before := now;
        var t1 := Read();
        WrapOfReading(start, now);
        DifferenceOfReadings(start, now);
        if Minus(t1, t) >= limit {
          break;
        }
        if t1 < t {
          break;
        }
      }
    }
  }

  /** A later reading is smaller than the first one exactly when the counter has wrapped in between. */
  lemma WrapOfReading(from: nat, to: nat)
    requires from <= to < from + TWO32
    ensures to % TWO32 < from % TWO32 <==> from % TWO32 + (to - from) >= TWO32
  {
    var q := from / TWO32;
    if from % TWO32 + (to - from) >= TWO32 {
      assert to == (q + 1) * TWO32 + (from % TWO32 + (to - from) - TWO32);
    } else {
      assert to == q * TWO32 + (from % TWO32 + (to - from));
    }
  }
}
