/** The software timers: a singly linked list of timer objects, scanned by the main loop.

    Each timer remembers, as history, when its event stamp was really taken and when it fired. */
module SoftTimers {
  import opened WrappingTime

  /** One firing: when the callback was called and when it came back, the stamp it counted from, and the
      period then.  Only the callbacks themselves put one on record. */
  datatype Firing = Firing(at: nat, until: nat, stamp: nat, period: nat)

  /** The test of the scan. */
  predicate Due(time: word, event: word, period: word) {
    Minus(time, event) >= period
  }

  /** A timer whose stamp is not after the time of the scan never passes the test before its period has
      truly passed, whatever the counter did; and it passes exactly then, if scanned within one wrap. */
  lemma DueIsNeverEarly(time: nat, stamp: nat, period: word)
    requires stamp <= time
    ensures Due(time % TWO32, stamp % TWO32, period) ==> time - stamp >= period
    ensures time - stamp < TWO32 ==> (Due(time % TWO32, stamp % TWO32, period) <==> time - stamp >= period)
  {
    DifferenceOfReadings(stamp, time);
  }

  /** A stamp taken after the scan read its time, as when one callback re-arms another timer, looks almost
      a whole wrap old: such a timer passes the test, with none of its period passed, exactly when the
      period is zero or at most what is left of the wrap. */
  lemma RearmedByAnother(time: nat, stamp: nat, period: word)
    requires time <= stamp <= time + TWO32
    ensures Due(time % TWO32, stamp % TWO32, period) <==>
      period == 0 || (stamp > time && period <= TWO32 - (stamp - time))
  {
    DifferenceOfReadings(time, stamp);
    if 0 < stamp - time < TWO32 {
      Opposite(stamp % TWO32, time % TWO32);
    }
  }

  lemma Opposite(a: word, b: word)
    requires a != b
    ensures Minus(b, a) == TWO32 - Minus(a, b)
  {}

  datatype Snapshot = Snapshot(period: word, event: word, active: bool, stamp: nat, firings: seq<Firing>)

  class Timer {
    var period: word
    var event: word
    var active: bool
    var next: Timer?
    ghost var stamp: nat
    ghost var firings: seq<Firing>

    /** A statically initialised timer. */
    constructor (p: word, a: bool)
      ensures period == p && active == a && event == 0 && stamp == 0 && firings == [] && next == null
    {
      period, event, active, next, stamp, firings := p, 0, a, null, 0, [];
    }

    /** The stamp is the real time of the event, and each firing came at least its period after the stamp
        it counted from, which is not before the end of the callback before it: so firings are a period
        apart. */
    ghost predicate Honest(now: nat)
      reads this`event, this`stamp, this`firings
    {
      Recorded(now) && (firings != [] ==> firings[|firings| - 1].until <= stamp)
    }

    /** The same between the end of a callback and the new stamp. */
    ghost predicate Recorded(now: nat)
      reads this`event, this`stamp, this`firings
    {
      && event == stamp % TWO32 && stamp <= now
      && (forall i :: 0 <= i < |firings| ==>
            firings[i].stamp + firings[i].period <= firings[i].at <= firings[i].until <= now)
      && (forall i :: 0 <= i < |firings| - 1 ==> firings[i].until <= firings[i + 1].stamp)
    }

    lemma HonestTells(now: nat)
      requires Honest(now)
      ensures Recorded(now) && (firings != [] ==> firings[|firings| - 1].until <= stamp)
    {}

    lemma HonestLater(now: nat, later: nat)
      requires Honest(now) && now <= later
      ensures Honest(later)
    {}

    /** Everything but the link. */
    ghost function Fields(): Snapshot
      reads this`period, this`event, this`active, this`stamp, this`firings
    {
      Snapshot(period, event, active, stamp, firings)
    }

    /** One callback more than before, at or after the time of the scan, counted from the stamp and with the
        period the timer had, and a stamp taken when it had come back. */
    ghost predicate FiredOnce(before: Snapshot, time: nat)
      reads this`stamp, this`firings
    {
      && |firings| == |before.firings| + 1 && firings[..|before.firings|] == before.firings
      && var f := firings[|before.firings|];
         f.stamp == before.stamp && f.period == before.period && time <= f.at && f.until <= stamp
    }

    /** What a scan at that time does to the timer. */
    ghost predicate Scanned(before: Snapshot, time: nat)
      reads this`period, this`event, this`active, this`stamp, this`firings
    {
      if before.active && Due(time % TWO32, before.event, before.period) then FiredOnce(before, time)
      else Fields() == before
    }
  }

  ghost predicate SetHonest(ts: set<Timer>, now: nat)
    reads ts`event, ts`stamp, ts`firings
  {
    forall t :: t in ts ==> t.Honest(now)
  }

  ghost predicate OthersHonest(ts: set<Timer>, but: Timer, now: nat)
    reads ts`event, ts`stamp, ts`firings
  {
    forall t :: t in ts && t != but ==> t.Honest(now)
  }

  ghost function FieldsOf(s: seq<Timer>): (r: seq<Snapshot>)
    reads s
    ensures |r| == |s| && forall i :: 0 <= i < |s| ==> r[i] == s[i].Fields()
    decreases s
  {
    if s == [] then [] else [s[0].Fields()] + FieldsOf(s[1..])
  }

  /** The list without the members of x, in the same order. */
  ghost function Without(s: seq<Timer>, x: set<Timer>): seq<Timer>
    decreases s
  {
    if s == [] then [] else (if s[0] in x then [] else [s[0]]) + Without(s[1..], x)
  }

  lemma {:induction false} WithoutJoin(a: seq<Timer>, b: seq<Timer>, x: set<Timer>)
    ensures Without(a + b, x) == Without(a, x) + Without(b, x)
    decreases a
  {
    if a == [] {
      assert a + b == b;
    } else {
      assert (a + b)[1..] == a[1..] + b;
      WithoutJoin(a[1..], b, x);
    }
  }

  lemma {:induction false} WithoutNone(s: seq<Timer>, x: set<Timer>)
    requires forall t :: t in s ==> t !in x
    ensures Without(s, x) == s
    decreases s
  {
    if s != [] {
      WithoutNone(s[1..], x);
    }
  }

  lemma {:induction false} WithoutMembers(s: seq<Timer>, x: set<Timer>)
    ensures forall t :: t in Without(s, x) <==> t in s && t !in x
    decreases s
  {
    if s != [] {
      WithoutMembers(s[1..], x);
    }
  }

  lemma InWithout(s: seq<Timer>, x: set<Timer>, t: Timer)
    ensures t in Without(s, x) <==> t in s && t !in x
  {
    WithoutMembers(s, x);
  }

  ghost predicate Distinct(s: seq<Timer>) {
    forall i, j :: 0 <= i < j < |s| ==> s[i] != s[j]
  }

  /** What the link of the element at i should be. */
  ghost function After(s: seq<Timer>, i: nat): Timer? {
    if i + 1 < |s| then s[i + 1] else null
  }

  class Scheduler {
    const clock: Clock
    var stmrs: Timer?
    ghost var list: seq<Timer>
    /** The times of the scans. */
    ghost var scans: seq<nat>

    constructor (c: Clock)
      ensures clock == c && list == [] && scans == [] && Valid()
    {
      clock := c;
      stmrs := null;
      list, scans := [], [];
    }

    /** The links run through the list, each timer once, to the end. */
    ghost predicate Valid()
      reads this`stmrs, this`list, list`next
    {
      && stmrs == (if list == [] then null else list[0])
      && (forall i :: 0 <= i < |list| ==> list[i].next == After(list, i))
      && Distinct(list)
    }

    ghost predicate AllHonest(now: nat)
      reads this`list, list`event, list`stamp, list`firings
    {
      forall t :: t in list ==> t.Honest(now)
    }

    lemma AllHonestLater(now: nat, later: nat)
      requires AllHonest(now) && now <= later
      ensures AllHonest(later)
    {
      forall t | t in list ensures t.Honest(later) {
        t.HonestLater(now, later);
      }
    }

    /** stmr_add, for a timer that is not in the list. */
    method Add(tmr: Timer)
      requires Valid() && tmr !in list
      modifies this`stmrs, this`list, tmr`next
      ensures Valid() && list == [tmr] + old(list)
    {
      tmr.next := stmrs;
      stmrs := tmr;
      list := [tmr] + list;
      forall i | 0 <= i < |list| ensures list[i].next == After(list, i) {
        if i > 0 {
          assert list[i] == old(list)[i - 1] && old(list[i - 1].next) == After(old(list), i - 1);
        }
      }
    }

    /** stmr_init, for a timer that is not in the list. */
    method Init(tmr: Timer)
      requires Valid() && tmr !in list
      modifies this`stmrs, this`list, tmr
      ensures Valid() && list == [tmr] + old(list)
      ensures tmr.period == 0 && tmr.event == 0 && !tmr.active && tmr.firings == [] && tmr.stamp == 0
    {
      tmr.period := 0;
      tmr.event := 0;
      tmr.active := false;
      tmr.stamp, tmr.firings := 0, [];
      Add(tmr);
    }

    /** Takes the timer behind position i out of the list. */
    method Unlink(ghost i: nat, t: Timer, tmr: Timer)
      requires Valid() && i + 1 < |list| && t == list[i] && tmr == list[i + 1]
      modifies this`list, t`next, tmr`next
      ensures Valid() && list == Without(old(list), {tmr}) && tmr.next == null
    {
      hide Without;
      ghost var was := list;
      SplitAt(was, i + 1);
      assert tmr.next == After(was, i + 1);
      t.next := tmr.next;
      tmr.next := null;
      list := was[..i + 1] + was[i + 2..];
      forall j | 0 <= j < |list| ensures list[j].next == After(list, j) {
        if j < i {
          assert list[j] == was[j] && was[j] != t && was[j] != tmr;
          assert was[j].next == After(was, j) == was[j + 1] == list[j + 1];
        } else if j > i {
          assert list[j] == was[j + 1] && was[j + 1] != t && was[j + 1] != tmr;
          assert was[j + 1].next == After(was, j + 1);
        }
      }
      assert stmrs == list[0];
      CutDistinct(was, i + 1);
    }

    method UnlinkHead(tmr: Timer)
      requires Valid() && tmr == stmrs
      modifies this`stmrs, this`list, tmr`next
      ensures Valid() && list == Without(old(list), {tmr}) && tmr.next == null
    {
      hide Without;
      SplitAt(list, 0);
      assert tmr.next == After(list, 0);
      stmrs := tmr.next;
      tmr.next := null;
      list := list[1..];
      forall i | 0 <= i < |list| ensures list[i].next == After(list, i) {
        assert list[i] == old(list)[i + 1] && old(list[i + 1].next) == After(old(list), i + 1);
      }
    }

    /** stmr_free: exactly that timer leaves the list, the others stay in order; nothing happens if it is
        not in the list. */
    method Free(tmr: Timer)
      requires Valid()
      modifies this`stmrs, this`list, (set t | t in list)`next
      ensures Valid() && list == Without(old(list), {tmr})
      ensures tmr in old(list) ==> tmr.next == null
      ensures tmr !in old(list) ==> list == old(list)
    {
      hide Without;
      if stmrs == null {
        WithoutNone(list, {tmr});
        return;
      }
      if tmr == stmrs {
        UnlinkHead(tmr);
        return;
      }
      var t := stmrs;
      ghost var i := 0;
      while t.next != null
        invariant 0 <= i < |list| && t == list[i] && tmr !in list[..i + 1]
        invariant Valid() && list == old(list)
        decreases |list| - i
      {
        assert t.next == After(list, i);
        if t.next == tmr {
          Unlink(i, t, tmr);
          return;
        }
        t := t.next;
        i := i + 1;
      }
      assert t.next == After(list, i);
      assert list[..i + 1] == list;
      WithoutNone(list, {tmr});
    }

    /** stmr_run. */
    method Run(tmr: Timer)
      requires clock.gap > 0
      modifies tmr`active, tmr`event, tmr`stamp, clock
      ensures tmr.active && tmr.event == tmr.stamp % TWO32 && tmr.stamp == clock.now
      ensures old(clock.now) <= clock.now <= old(clock.now) + clock.gap
      ensures old(tmr.Honest(clock.now)) ==> tmr.Honest(clock.now)
    {
      tmr.active := true;
      tmr.event := clock.Read();
      tmr.stamp := clock.now;
    }

    /** stmr_stop. */
    method Stop(tmr: Timer)
      modifies tmr`active
      ensures !tmr.active
    {
      tmr.active := false;
    }

    /** Application code lets time pass, re-arms, stops or retimes a timer; `all` are the timers it knows. */
    method Touch(t: Timer, ghost all: set<Timer>)
      requires clock.gap > 0 && t in all && SetHonest(all, clock.now)
      modifies clock, t`active, t`event, t`stamp, t`period
      ensures SetHonest(all, clock.now) && old(clock.now) <= clock.now
    {
      hide Timer.Honest;
      var choice: nat := *;
      if choice == 0 {
        clock.Pass();
        t.HonestLater(old(clock.now), clock.now);
      } else if choice == 1 {
        Run(t);
      } else if choice == 2 {
        Stop(t);
      } else {
        var ms: word := *;
        t.period := ms;
      }
      forall u | u in all ensures u.Honest(clock.now) {
        if u != t {
          u.HonestLater(old(clock.now), clock.now);
        }
      }
    }

    /** Whether a timer is in the list. */
    method Listed(tmr: Timer) returns (listed: bool)
      requires Valid()
      ensures listed <==> tmr in list
    {
      var t := stmrs;
      ghost var i := 0;
      while t != null
        invariant 0 <= i <= |list| && t == (if i < |list| then list[i] else null) && tmr !in list[..i]
        decreases |list| - i
      {
        if t == tmr {
          return true;
        }
        assert t.next == After(list, i);
        t := t.next;
        i := i + 1;
      }
      assert list[..i] == list;
      return false;
    }

    /** Puts a timer into the list unless it is there. */
    method Put(tmr: Timer) returns (ghost front: seq<Timer>)
      requires Valid()
      modifies this`stmrs, this`list, tmr`next
      ensures Valid() && list == front + old(list) && front == if tmr in old(list) then [] else [tmr]
    {
      hide Valid;
      var listed := Listed(tmr);
      front := if listed then [] else [tmr];
      if !listed {
        Add(tmr);
      }
    }

    /** A callback frees a timer, or puts it into the list: its own, or one not looked at in this scan. */
    method Relist(u: Timer, ghost t: Timer, ghost added0: seq<Timer>, ghost base: seq<Timer>, ghost freed0: bool)
      returns (ghost added: seq<Timer>, ghost freed: bool)
      requires Valid() && list == added0 + (if freed0 then Without(base, {t}) else base) && t in base && (u == t || u !in base)
      modifies this`stmrs, this`list, u`next, (set x | x in list)`next
      ensures Valid() && list == added + if freed then Without(base, {t}) else base
      ensures forall x :: x in list ==> x in old(list) || x == u
      ensures forall x :: x in added ==> x in added0 || (x == u && (x == t ==> freed))
      ensures freed0 ==> freed
    {
      hide Without, Valid;
      var free: bool := *;
      if free {
        added, freed := Without(added0, {u}), freed0 || u == t;
        FreedOne(added0, base, t, freed0, u);
        Free(u);
        forall x | x in list ensures x in old(list) {
          InWithout(old(list), {u}, x);
        }
        forall x | x in added ensures x in added0 {
          InWithout(added0, {u}, x);
        }
      } else {
        ghost var front := Put(u);
        added, freed := front + added0, freed0;
        forall x | x in list ensures x in old(list) || x == u {
          assert x in front || x in old(list);
        }
        forall x | x in added ensures x in added0 || (x == u && (x == t ==> freed)) {
          assert x in front || x in added0;
        }
      }
    }

    /** The callback of a timer: anything it may do, in any order, to its own timer, to the spare ones, which
        the scan does not look at, and to new ones.  The list is what callbacks have added in front of the
        rest. */
    method Callback(t: Timer, spare0: set<Timer>, ghost added0: seq<Timer>, ghost base: seq<Timer>)
      returns (spare: set<Timer>, ghost added: seq<Timer>, ghost freed: bool)
      requires Valid() && clock.gap > 0 && AllHonest(clock.now) && SetHonest(spare0, clock.now)
      requires list == added0 + base && t in base && t !in added0 && forall u :: u in base ==> u !in spare0
      requires t.stamp + t.period <= clock.now
      modifies this`stmrs, this`list, clock, t, spare0, (set u | u in list)`next
      ensures Valid() && OthersHonest(spare + (set u | u in list), t, clock.now) && old(clock.now) <= clock.now
      ensures spare0 <= spare && fresh(spare - spare0) && t !in spare
      ensures list == added + if freed then Without(base, {t}) else base
      ensures forall u :: u in added ==> u in added0 || u in spare || (u == t && freed)
      ensures t.firings == old(t.firings) + [Firing(old(clock.now), clock.now, old(t.stamp), old(t.period))]
      ensures t.Recorded(clock.now)
    {
      hide Without, Valid, Timer.Honest;
      spare, added, freed := spare0, added0, false;
      ghost var all := spare0 + (set u | u in list);
      ghost var stamp, period := t.stamp, t.period;
      assert t.Honest(clock.now);
      t.HonestTells(clock.now);
      var steps: nat := *;
      while steps > 0
        invariant Valid() && SetHonest(all, clock.now) && old(clock.now) <= clock.now
        invariant list == added + if freed then Without(base, {t}) else base
        invariant spare <= all && t in all && forall u :: u in list ==> u in all
        invariant forall u :: u in list ==> u in old(list) || u in spare
        invariant spare0 <= spare && fresh(spare - spare0) && forall u :: u in base ==> u !in spare
        invariant forall u :: u in added ==> u in added0 || u in spare || (u == t && freed)
        invariant t.firings == old(t.firings)
        decreases steps
      {
        steps := steps - 1;
        var u: Timer := t;
        var own: bool := *;
        if !own && spare != {} {
          u :| u in spare;
        }
        var choice: nat := *;
        if choice == 0 {
          added, freed := Relist(u, t, added, base, freed);
        } else if choice == 1 {
          var another := NewTimer();
          another.HonestLater(0, clock.now);
          spare, all := spare + {another}, all + {another};
        } else {
          Touch(u, all);
        }
      }
      t.HonestTells(clock.now);
      ghost var before := t.firings;
      t.firings := before + [Firing(old(clock.now), clock.now, stamp, period)];
      FiredRecorded(t, before, old(clock.now), clock.now, stamp, period);
      assert OthersHonest(all, t, clock.now);
    }

    /** A new timer, statically initialised. */
    static method NewTimer() returns (u: Timer)
      ensures fresh(u) && u.Honest(0)
    {
      var ms: word := *;
      var on: bool := *;
      u := new Timer(ms, on);
    }

    /** A due timer fires: its callback runs, then it gets a new stamp. */
    method Fire(t: Timer, ghost time: nat, spare0: set<Timer>, ghost added0: seq<Timer>, ghost base: seq<Timer>)
      returns (spare: set<Timer>, ghost added: seq<Timer>, ghost freed: bool)
      requires Valid() && clock.gap > 0 && AllHonest(clock.now) && SetHonest(spare0, clock.now) && time <= clock.now
      requires t.stamp <= time && Due(time % TWO32, t.event, t.period)
      requires list == added0 + base && t in base && t !in added0 && forall u :: u in base ==> u !in spare0
      modifies this`stmrs, this`list, clock, t, spare0, (set u | u in list)`next
      ensures Valid() && AllHonest(clock.now) && SetHonest(spare, clock.now) && old(clock.now) <= clock.now
      ensures spare0 <= spare && fresh(spare - spare0)
      ensures list == added + if freed then Without(base, {t}) else base
      ensures forall u :: u in added ==> u in added0 || u in spare || (u == t && freed)
      ensures t.FiredOnce(old(t.Fields()), time) && t.Honest(clock.now)
    {
      hide Without, Valid, Due, Timer.Honest;
      assert t.Honest(clock.now);
      t.HonestTells(clock.now);
      DueIsNeverEarly(time, t.stamp, t.period);
      spare, added, freed := Callback(t, spare0, added0, base);
      Stamp(t, spare + (set u | u in list) + {t});
    }

    /** The end of a firing: the new stamp. */
    method Stamp(t: Timer, ghost all: set<Timer>)
      requires clock.gap > 0 && t.Recorded(clock.now) && t in all && OthersHonest(all, t, clock.now)
      modifies clock, t`event, t`stamp
      ensures old(clock.now) <= t.stamp == clock.now && SetHonest(all, clock.now)
    {
      t.event := clock.Read();
      t.stamp := clock.now;
      forall u | u in all ensures u.Honest(clock.now) {
        if u != t {
          u.HonestLater(old(clock.now), clock.now);
        }
      }
    }

    /** A callback that was due puts its firing on record. */
    static lemma FiredRecorded(t: Timer, before: seq<Firing>, at: nat, until: nat, stamp: nat, period: nat)
      requires t.firings == before + [Firing(at, until, stamp, period)] && stamp + period <= at <= until
      requires t.event == t.stamp % TWO32 && t.stamp <= until
      requires forall i :: 0 <= i < |before| ==> before[i].stamp + before[i].period <= before[i].at <= before[i].until <= until
      requires forall i :: 0 <= i < |before| - 1 ==> before[i].until <= before[i + 1].stamp
      requires before != [] ==> before[|before| - 1].until <= stamp
      ensures t.Recorded(until)
    {}

    /** The list during a scan: what callbacks put in front, then the survivors among those done, then the
        rest. */
    ghost predicate Shape(added: seq<Timer>, done: seq<Timer>, freed: set<Timer>, rest: seq<Timer>)
      reads this`list
    {
      list == added + Without(done, freed) + rest && Distinct(done + rest) && forall u :: u in freed ==> u in done
    }

    /** What callbacks put in front: spare timers, new ones among them, or ones freed in this scan. */
    static ghost predicate InFront(added: seq<Timer>, spare: set<Timer>, freed: set<Timer>) {
      forall u :: u in added ==> u in spare || u in freed
    }

    static ghost predicate NotSpare(s: seq<Timer>, spare: set<Timer>) {
      forall u :: u in s ==> u !in spare
    }

    /** stmr: each timer listed on entry is looked at once; exactly the active ones that were due fire,
        once each, counted from their stamp on entry, whatever callbacks do to their own timers, to timers
        not in the list and to new ones; afterwards the list holds what callbacks put in, then the old ones
        in order without those their own callbacks freed. */
    method Scan(spare0: set<Timer>)
      returns (ghost time: nat, ghost before: seq<Snapshot>, spare: set<Timer>, ghost added: seq<Timer>, ghost freed: set<Timer>)
      requires Valid() && clock.gap > 0 && AllHonest(clock.now) && SetHonest(spare0, clock.now) && NotSpare(list, spare0)
      modifies this`stmrs, this`list, this`scans, clock, spare0, (set t | t in list)
      ensures scans == old(scans) + [time]
      ensures Valid() && AllHonest(clock.now) && SetHonest(spare, clock.now) && old(clock.now) <= time <= clock.now
      ensures before == old(FieldsOf(list)) && AllScanned(old(list), before, time, clock.now, freed)
      ensures list == added + Without(old(list), freed) && InFront(added, spare, freed)
      ensures spare0 <= spare && fresh(spare - spare0) && forall u :: u in freed ==> u in old(list)
    {
      hide Valid, Timer.Honest, FieldsOf, AllScanned, InFront, NotSpare;
      var now := clock.Read();
      time := clock.now;
      AllHonestLater(old(clock.now), time);
      SetHonestLater(spare0, old(clock.now), time);
      before := FieldsOf(list);
      spare, added, freed := Loop(now, time, before, spare0);
      scans := scans + [time];
    }

    /** The loop of the scan. */
    method Loop(now: word, ghost time: nat, ghost before: seq<Snapshot>, spare0: set<Timer>)
      returns (spare: set<Timer>, ghost added: seq<Timer>, ghost freed: set<Timer>)
      requires Valid() && clock.gap > 0 && AllHonest(clock.now) && SetHonest(spare0, clock.now) && NotSpare(list, spare0)
      requires now == time % TWO32 && time == clock.now && before == FieldsOf(list)
      modifies this`stmrs, this`list, clock, spare0, (set t | t in list)
      ensures Valid() && AllHonest(clock.now) && SetHonest(spare, clock.now) && time <= clock.now
      ensures AllScanned(old(list), before, time, clock.now, freed)
      ensures list == added + Without(old(list), freed) && InFront(added, spare, freed)
      ensures spare0 <= spare && fresh(spare - spare0) && forall u :: u in freed ==> u in old(list)
    {
      hide Valid, Timer.Fields, Timer.Honest, FieldsOf, AllHonest, AllScanned, AllAsBefore, Shape, Due, InFront;
      AllStamped(time, before);
      spare, added, freed := spare0, [], {};
      ghost var done: seq<Timer> := [];
      ghost var rest: seq<Timer> := list;
      NoneScanned(before, time, freed);
      var tmr := First(spare);
      while tmr != null
        invariant old(list) == done + rest && tmr == if rest == [] then null else rest[0]
        invariant time <= clock.now && Valid() && AllHonest(clock.now) && Shape(added, done, freed, rest)
        invariant SetHonest(spare, clock.now) && spare0 <= spare && fresh(spare - spare0)
        invariant InFront(added, spare, freed) && NotSpare(done + rest, spare)
        invariant forall u :: u in list ==> u in old(list) || u in spare
        invariant AllScanned(done, before, time, clock.now, freed)
        invariant AllAsBefore(rest, before, |done|, time)
        decreases |rest|
      {
        var t: Timer := tmr;
        Advance(done, rest);
        tmr, spare, added, freed := Turn(t, now, time, before, done, rest, spare, added, freed);
        done, rest := done + [t], rest[1..];
        ListFrom(added, done, freed, rest, spare);
      }
      FinalShape(added, done, freed, rest);
    }

    /** One turn of the scan: the link is followed first, then the timer is looked at. */
    method Turn(t: Timer, now: word, ghost time: nat, ghost before: seq<Snapshot>, ghost done: seq<Timer>,
                ghost rest: seq<Timer>, spare0: set<Timer>, ghost added0: seq<Timer>, ghost freed0: set<Timer>)
      returns (tmr: Timer?, spare: set<Timer>, ghost added: seq<Timer>, ghost freed: set<Timer>)
      requires Valid() && AllHonest(clock.now) && clock.gap > 0 && now == time % TWO32 && time <= clock.now
      requires SetHonest(spare0, clock.now) && InFront(added0, spare0, freed0) && NotSpare(done + rest, spare0)
      requires rest != [] && t == rest[0] && Shape(added0, done, freed0, rest)
      requires AllScanned(done, before, time, clock.now, freed0) && AllAsBefore(rest, before, |done|, time)
      modifies this`stmrs, this`list, clock, t, spare0, (set u | u in list)`next
      ensures Valid() && AllHonest(clock.now) && SetHonest(spare, clock.now) && old(clock.now) <= clock.now
      ensures tmr == if rest[1..] == [] then null else rest[1..][0]
      ensures Shape(added, done + [t], freed, rest[1..]) && InFront(added, spare, freed)
      ensures spare0 <= spare && fresh(spare - spare0)
      ensures AllScanned(done + [t], before, time, clock.now, freed) && AllAsBefore(rest[1..], before, |done| + 1, time)
    {
      hide Valid, Timer.Fields, Timer.Honest, Timer.Scanned, Timer.FiredOnce, AllHonest, AllScanned, AllAsBefore, Shape, Due,
        InFront;
      tmr := Following(added0, done, freed0, rest, t);
      ListMembers(added0, done, freed0, rest, spare0);
      NextAsBefore(rest, before, |done|, time);
      ghost var was := clock.now;
      spare, added, freed := Visit(t, now, time, done, rest, spare0, added0, freed0);
      EnoughSnapshots(rest[1..], before, |done| + 1, time);
      ScannedToo(done, before, time, was, clock.now, freed0, freed, t);
    }

    /** A callback that runs another timer. */
    method CallbackRunning(t: Timer, b: Timer)
      requires clock.gap > 0 && t != b
      modifies clock, t`firings, b`active, b`event, b`stamp
      ensures b.active && b.event == b.stamp % TWO32 && b.stamp == clock.now
      ensures old(clock.now) <= clock.now <= old(clock.now) + clock.gap
      ensures t.firings == old(t.firings) + [Firing(old(clock.now), clock.now, t.stamp, t.period)]
    {
      ghost var at := clock.now;
      Run(b);
      t.firings := t.firings + [Firing(at, clock.now, t.stamp, t.period)];
    }

    method CallbackDoingNothing(t: Timer)
      modifies t`firings
      ensures t.firings == old(t.firings) + [Firing(clock.now, clock.now, t.stamp, t.period)]
    {
      t.firings := t.firings + [Firing(clock.now, clock.now, t.stamp, t.period)];
    }

    /** The scan of a list of two when the first timer's callback runs the second.  When the first is due,
        the second fires in the same scan, at most one reading after it was armed, exactly when its period
        is zero, or it was armed after the scan took its time and its period is at most the rest of the
        wrap; a period longer than one reading takes then has not passed. */
    method ScanRearmingLater(a: Timer, b: Timer) returns (ghost time: nat, rearmed: bool, ghost armed: nat, early: bool)
      requires Valid() && list == [a, b] && 0 < clock.gap <= TWO32
      modifies clock, a`event, a`stamp, a`firings, b`active, b`event, b`stamp, b`firings
      ensures old(clock.now) <= time && b.period == old(b.period)
      ensures rearmed <==> old(a.active && Due(time % TWO32, a.event, a.period))
      ensures rearmed ==> time <= armed <= time + clock.gap &&
                          (early <==> b.period == 0 || (armed > time && b.period <= TWO32 - (armed - time)))
      ensures rearmed && early ==> |b.firings| == |old(b.firings)| + 1 &&
                                   b.firings[|old(b.firings)|].stamp == armed &&
                                   b.firings[|old(b.firings)|].at <= armed + clock.gap
      ensures rearmed && early && b.period > clock.gap ==> !b.Honest(clock.now)
    {
      assert a != b && a.next == After(list, 0) && b.next == After(list, 1);
      var now := clock.Read();
      time := clock.now;
      var tmr := stmrs;
      var t: Timer := tmr;
      tmr := tmr.next;
      rearmed, armed := t.active && Minus(now, t.event) >= t.period, time;
      if rearmed {
        CallbackRunning(t, b);
        armed := b.stamp;
        RearmedByAnother(time, armed, b.period);
        t.event := clock.Read();
        t.stamp := clock.now;
      }
      t := tmr;
      early := t.active && Minus(now, t.event) >= t.period;
      if early {
        CallbackDoingNothing(t);
        t.event := clock.Read();
        t.stamp := clock.now;
      }
    }

    /** Whatever the rest of the program does between two scans, to any timer. */
    method Between(known0: set<Timer>) returns (known: set<Timer>)
      requires Valid() && clock.gap > 0 && SetHonest(known0, clock.now) && forall u :: u in list ==> u in known0
      modifies this`stmrs, this`list, clock, known0
      ensures Valid() && SetHonest(known, clock.now) && forall u :: u in list ==> u in known
      ensures known0 <= known && fresh(known - known0)
    {
      hide Valid, Timer.Honest, Without;
      known := known0;
      var steps: nat := *;
      while steps > 0
        invariant Valid() && SetHonest(known, clock.now) && forall u :: u in list ==> u in known
        invariant known0 <= known && fresh(known - known0)
        decreases steps
      {
        steps := steps - 1;
        var u := NewTimer();
        u.HonestLater(0, clock.now);
        known := known + {u};
        u :| u in known;
        var choice: nat := *;
        if choice == 0 {
          ghost var was := list;
          Free(u);
          WithoutMembers(was, {u});
          assert forall x :: x in list ==> x in Without(was, {u});
        } else if choice == 1 {
          ghost var front := Put(u);
        } else {
          Touch(u, known);
        }
      }
    }

    /** The known timers that are not in the list. */
    method Unlisted(known: set<Timer>) returns (spare: set<Timer>)
      requires Valid()
      ensures spare <= known && forall u :: u in known ==> (u in spare <==> u !in list)
    {
      spare := known;
      var t := stmrs;
      ghost var i := 0;
      while t != null
        invariant 0 <= i <= |list| && t == (if i < |list| then list[i] else null)
        invariant spare <= known && forall u :: u in known ==> (u in spare <==> u !in list[..i])
        decreases |list| - i
      {
        assert t.next == After(list, i);
        assert list[..i + 1] == list[..i] + [t];
        spare := spare - {t};
        t := t.next;
        i := i + 1;
      }
      assert list[..i] == list;
    }

    /** The timer part of the main loop: scan, again and again, and between the scans anything.  Every timer
        there is, listed or not, whenever it was made, has fired only when due, a period apart. */
    method MainLoop(rounds: nat, known0: set<Timer>) returns (known: set<Timer>)
      requires Valid() && clock.gap > 0 && SetHonest(known0, clock.now) && forall u :: u in list ==> u in known0
      modifies this`stmrs, this`list, this`scans, clock, known0
      ensures |scans| == |old(scans)| + rounds
      ensures Valid() && SetHonest(known, clock.now) && forall u :: u in list ==> u in known
      ensures known0 <= known && fresh(known - known0)
    {
      hide Valid, AllScanned, Timer.Honest, AllHonest, InFront, NotSpare;
      known := known0;
      var n := rounds;
      while n > 0
        invariant Valid() && SetHonest(known, clock.now) && forall u :: u in list ==> u in known
        invariant known0 <= known && fresh(known - known0) && 0 <= n <= rounds && |scans| == |old(scans)| + rounds - n
        decreases n
      {
        n := n - 1;
        known := Between(known);
        known := OneScan(known);
      }
    }

    /** One scan, seen from the main loop. */
    method OneScan(known0: set<Timer>) returns (known: set<Timer>)
      requires Valid() && clock.gap > 0 && SetHonest(known0, clock.now) && forall u :: u in list ==> u in known0
      modifies this`stmrs, this`list, this`scans, clock, known0
      ensures |scans| == |old(scans)| + 1
      ensures Valid() && SetHonest(known, clock.now) && forall u :: u in list ==> u in known
      ensures known0 <= known && fresh(known - known0)
    {
      hide Valid, Timer.Honest, Without;
      ghost var listed := list;
      var spare := Unlisted(known0);
      ghost var time, before, added, freed;
      time, before, spare, added, freed := Scan(spare);
      WithoutMembers(listed, freed);
      known := known0 + spare;
      forall u | u in known ensures u.Honest(clock.now) {
        if u !in spare {
          assert u in listed;
          ScannedHonest(listed, before, time, clock.now, freed, u);
        }
      }
    }

    lemma AllStamped(time: nat, before: seq<Snapshot>)
      requires AllHonest(time) && before == FieldsOf(list)
      ensures AllAsBefore(list, before, 0, time)
    {
      hide Timer.Fields, FieldsOf;
      forall i | 0 <= i < |list| ensures list[i].stamp <= time {
        assert list[i].Honest(time);
      }
    }

    lemma ListMembers(added: seq<Timer>, done: seq<Timer>, freed: set<Timer>, rest: seq<Timer>, spare: set<Timer>)
      requires Shape(added, done, freed, rest) && rest != [] && InFront(added, spare, freed) && NotSpare(done + rest, spare)
      ensures rest[0] in list && rest[0] !in done && rest[0] !in rest[1..] && rest[0] !in added && rest[0] !in spare
      ensures forall u :: u in freed ==> u in done
      ensures NotSpare(done, spare) && NotSpare(rest, spare)
    {
      WithoutMembers(done, freed);
      DistinctAround(done, rest);
      assert rest[0] in done + rest;
    }

    lemma ListFrom(added: seq<Timer>, done: seq<Timer>, freed: set<Timer>, rest: seq<Timer>, spare: set<Timer>)
      requires Shape(added, done, freed, rest) && InFront(added, spare, freed)
      ensures forall u :: u in list ==> u in spare || u in done + rest
    {
      WithoutMembers(done, freed);
    }

    lemma FinalShape(added: seq<Timer>, done: seq<Timer>, freed: set<Timer>, rest: seq<Timer>)
      requires Shape(added, done, freed, rest) && rest == []
      ensures list == added + Without(done, freed) && done + rest == done && forall u :: u in freed ==> u in done
    {}

    /** The first timer of the list. */
    method First(ghost spare: set<Timer>) returns (tmr: Timer?)
      requires Valid() && NotSpare(list, spare)
      ensures (tmr == if list == [] then null else list[0]) && Shape([], [], {}, list) && InFront([], spare, {})
    {
      tmr := stmrs;
    }

    /** The timer after t, the first of what is left of the list as it was on entry. */
    method Following(ghost added: seq<Timer>, ghost done: seq<Timer>, ghost freed: set<Timer>, ghost rest: seq<Timer>, t: Timer)
      returns (tmr: Timer?)
      requires Valid() && rest != [] && t == rest[0] && Shape(added, done, freed, rest)
      ensures tmr == if rest[1..] == [] then null else rest[1..][0]
    {
      hide Without, Distinct;
      ghost var pos := |added + Without(done, freed)|;
      assert list[pos] == t;
      assert t.next == After(list, pos);
      tmr := t.next;
    }

    /** The timer is looked at, and fires if it is due. */
    method Visit(t: Timer, now: word, ghost time: nat, ghost done: seq<Timer>, ghost rest: seq<Timer>,
                 spare0: set<Timer>, ghost added0: seq<Timer>, ghost freed0: set<Timer>)
      returns (spare: set<Timer>, ghost added: seq<Timer>, ghost freed: set<Timer>)
      requires Valid() && AllHonest(clock.now) && clock.gap > 0 && now == time % TWO32 && t.stamp <= time <= clock.now
      requires SetHonest(spare0, clock.now) && InFront(added0, spare0, freed0) && NotSpare(done, spare0) && NotSpare(rest, spare0)
      requires rest != [] && t == rest[0] && t in list && t !in added0 && Shape(added0, done, freed0, rest)
      modifies this`stmrs, this`list, clock, t, spare0, (set u | u in list)`next
      ensures Valid() && AllHonest(clock.now) && SetHonest(spare, clock.now) && old(clock.now) <= clock.now
      ensures Shape(added, done + [t], freed, rest[1..]) && InFront(added, spare, freed)
      ensures spare0 <= spare && fresh(spare - spare0)
      ensures freed == freed0 || (freed == freed0 + {t} && t.FiredOnce(old(t.Fields()), time))
      ensures t.Scanned(old(t.Fields()), time) && t.Honest(clock.now)
    {
      hide Without, Valid, Timer.Honest, Timer.FiredOnce, Due, Distinct;
      spare, added, freed := spare0, added0, freed0;
      assert (done + [t]) + rest[1..] == done + rest;
      ShapeKept(done, rest, freed0, added0);
      if t.active && Due(now, t.event, t.period) {
        ghost var base := Without(done, freed0) + rest;
        WithoutMembers(done, freed0);
        assert added0 + Without(done, freed0) + rest == added0 + base;
        ghost var f;
        spare, added, f := Fire(t, time, spare0, added0, base);
        ShapeKept(done, rest, freed0, added);
        assert added + Without(done, freed0) + rest == added + base;
        if f {
          freed := freed0 + {t};
          ShapeFreed(done, rest, freed0);
          assert added + Without(done + [t], freed) + rest[1..] == added + (Without(done + [t], freed) + rest[1..]);
        }
      }
    }
  }

  /** What the scan has done to the timers it has passed. */
  ghost predicate AllScanned(ts: seq<Timer>, before: seq<Snapshot>, time: nat, now: nat, freed: set<Timer>)
    reads ts`period, ts`event, ts`active, ts`stamp, ts`firings
  {
    |ts| <= |before| && forall i :: 0 <= i < |ts| ==>
      && ts[i].Scanned(before[i], time) && ts[i].Honest(now)
      && (ts[i] in freed ==> ts[i].FiredOnce(before[i], time))
  }

  /** The timers it has not reached are as they were, with stamps not after its time. */
  ghost predicate AllAsBefore(ts: seq<Timer>, before: seq<Snapshot>, k: nat, time: nat)
    reads ts`period, ts`event, ts`active, ts`stamp, ts`firings
  {
    |before| == k + |ts| && forall i :: 0 <= i < |ts| ==> ts[i].Fields() == before[k + i] && ts[i].stamp <= time
  }

  lemma ScannedHonest(ts: seq<Timer>, before: seq<Snapshot>, time: nat, now: nat, freed: set<Timer>, u: Timer)
    requires AllScanned(ts, before, time, now, freed) && u in ts
    ensures u.Honest(now)
  {}

  lemma SetHonestLater(ts: set<Timer>, now: nat, later: nat)
    requires SetHonest(ts, now) && now <= later
    ensures SetHonest(ts, later)
  {
    forall t | t in ts ensures t.Honest(later) {
      t.HonestLater(now, later);
    }
  }

  lemma EnoughSnapshots(ts: seq<Timer>, before: seq<Snapshot>, k: nat, time: nat)
    requires AllAsBefore(ts, before, k, time)
    ensures k <= |before|
  {}

  lemma NoneScanned(before: seq<Snapshot>, time: nat, freed: set<Timer>)
    ensures forall now :: AllScanned([], before, time, now, freed)
  {}

  lemma NextAsBefore(rest: seq<Timer>, before: seq<Snapshot>, k: nat, time: nat)
    requires rest != [] && AllAsBefore(rest, before, k, time)
    ensures rest[0].Fields() == before[k] && rest[0].stamp <= time && AllAsBefore(rest[1..], before, k + 1, time)
  {
    hide Timer.Fields;
    var tail := rest[1..];
    forall i | 0 <= i < |tail| ensures tail[i].Fields() == before[k + 1 + i] && tail[i].stamp <= time {
      assert tail[i] == rest[i + 1] && rest[i + 1].Fields() == before[k + (i + 1)];
    }
  }

  lemma ScannedToo(done: seq<Timer>, before: seq<Snapshot>, time: nat, was: nat, now: nat, freed0: set<Timer>, freed: set<Timer>,
                   t: Timer)
    requires AllScanned(done, before, time, was, freed0) && was <= now && |done| < |before| && t !in done
    requires t.Scanned(before[|done|], time) && t.Honest(now) && forall u :: u in freed0 ==> u in done
    requires freed == freed0 || (freed == freed0 + {t} && t.FiredOnce(before[|done|], time))
    ensures AllScanned(done + [t], before, time, now, freed)
  {
    hide Timer.Honest, Timer.Scanned, Timer.FiredOnce;
    var ts := done + [t];
    forall i | 0 <= i < |ts|
      ensures ts[i].Scanned(before[i], time) && ts[i].Honest(now) && (ts[i] in freed ==> ts[i].FiredOnce(before[i], time))
    {
      if i < |done| {
        assert ts[i] == done[i];
        done[i].HonestLater(was, now);
      }
    }
  }

  lemma DistinctAround(done: seq<Timer>, rest: seq<Timer>)
    requires rest != [] && Distinct(done + rest)
    ensures rest[0] !in done && rest[0] !in rest[1..]
  {
    var all := done + rest;
    assert all[|done|] == rest[0];
    forall u | u in done ensures u != rest[0] {
      var i :| 0 <= i < |done| && done[i] == u;
      assert all[i] == u;
    }
    forall u | u in rest[1..] ensures u != rest[0] {
      var i :| 0 <= i < |rest[1..]| && rest[1..][i] == u;
      assert all[|done| + 1 + i] == u;
    }
  }

  lemma Advance(done: seq<Timer>, rest: seq<Timer>)
    requires rest != []
    ensures (done + [rest[0]]) + rest[1..] == done + rest && |done + [rest[0]]| == |done| + 1 && |rest[1..]| < |rest|
    ensures rest[0] in done + rest
  {}

  lemma WithoutOne(t: Timer, x: set<Timer>)
    ensures Without([t], x) == if t in x then [] else [t]
  {
    assert [t][1..] == [];
  }

  /** The list when the timer looked at stays. */
  lemma ShapeKept(done: seq<Timer>, rest: seq<Timer>, freed: set<Timer>, added: seq<Timer>)
    requires rest != [] && Distinct(done + rest) && forall u :: u in freed ==> u in done
    ensures added + Without(done + [rest[0]], freed) + rest[1..] == added + Without(done, freed) + rest
  {
    hide Without, Distinct;
    DistinctAround(done, rest);
    WithoutJoin(done, [rest[0]], freed);
    WithoutOne(rest[0], freed);
    assert rest == [rest[0]] + rest[1..];
  }

  /** The list when the timer looked at was freed. */
  lemma ShapeFreed(done: seq<Timer>, rest: seq<Timer>, freed: set<Timer>)
    requires rest != [] && Distinct(done + rest)
    ensures Without(Without(done, freed) + rest, {rest[0]}) == Without(done + [rest[0]], freed + {rest[0]}) + rest[1..]
  {
    hide Without, Distinct;
    var t := rest[0];
    DistinctAround(done, rest);
    var front := Without(done, freed);
    WithoutMembers(done, freed);
    WithoutJoin(front, rest, {t});
    WithoutNone(front, {t});
    FrontGrows(done, t, freed);
    assert rest == [t] + rest[1..];
    WithoutJoin([t], rest[1..], {t});
    WithoutOne(t, {t});
    WithoutNone(rest[1..], {t});
  }

  lemma FrontGrows(done: seq<Timer>, t: Timer, freed: set<Timer>)
    requires t !in done
    ensures Without(done + [t], freed + {t}) == Without(done, freed)
  {
    hide Without;
    WithoutJoin(done, [t], freed + {t});
    WithoutOne(t, freed + {t});
    SameWithout(done, freed, t);
  }

  lemma {:induction false} SameWithout(s: seq<Timer>, x: set<Timer>, t: Timer)
    requires t !in s
    ensures Without(s, x + {t}) == Without(s, x)
    decreases s
  {
    if s != [] {
      SameWithout(s[1..], x, t);
    }
  }

  lemma FreedOne(added: seq<Timer>, base: seq<Timer>, t: Timer, freed: bool, u: Timer)
    requires u == t || u !in base
    ensures Without(added + (if freed then Without(base, {t}) else base), {u})
         == Without(added, {u}) + if freed || u == t then Without(base, {t}) else base
  {
    hide Without;
    var rest := if freed then Without(base, {t}) else base;
    WithoutJoin(added, rest, {u});
    WithoutMembers(base, {t});
    if freed || u != t {
      WithoutNone(rest, {u});
    }
  }

  lemma CutDistinct(s: seq<Timer>, i: nat)
    requires i < |s| && Distinct(s)
    ensures Distinct(s[..i] + s[i + 1..])
  {
    var r := s[..i] + s[i + 1..];
    forall j, k | 0 <= j < k < |r| ensures r[j] != r[k] {
      assert r[j] == s[if j < i then j else j + 1] && r[k] == s[if k < i then k else k + 1];
    }
  }

  /** Leaving out the element at i. */
  lemma {:induction false} SplitAt(s: seq<Timer>, i: nat)
    requires i < |s| && Distinct(s)
    ensures Without(s, {s[i]}) == s[..i] + s[i + 1..]
    decreases i
  {
    if i == 0 {
      WithoutNone(s[1..], {s[0]});
    } else {
      SplitAt(s[1..], i - 1);
      CutTail(s, i);
      WithoutHead(s, {s[i]});
    }
  }

  lemma CutTail(s: seq<Timer>, i: nat)
    requires 0 < i < |s|
    ensures s[1..][i - 1] == s[i] && s[..i] + s[i + 1..] == [s[0]] + (s[1..][..i - 1] + s[1..][i..])
  {}

  lemma WithoutHead(s: seq<Timer>, gone: set<Timer>)
    requires s != [] && s[0] !in gone
    ensures Without(s, gone) == [s[0]] + Without(s[1..], gone)
  {}
}
