/** The host-wide pacing bucket: one file holds the next free slot, and any number of processes book
    slots in it under an exclusive file lock. Each booking is one step; the clock reading is an input, so
    a run is a sequence of bookings by arbitrary processes at arbitrary readings. */
module Pacer {
  import opened Contracts
  import opened Arith

  /** What one booking answers: a slot and how long to sleep for it, or how long to wait before the next try. */
  datatype Booking = Booked(slot: real, wait: real) | Denied(wait: real)

  function BookSlot(nextFree: real, interval: real, now: real, maxLead: Option<real>): (real, Booking) {
    var slot := MaxOf(now, nextFree);
    if maxLead.Some? && slot - now > maxLead.value then
      (nextFree, Denied(MaxOf(slot - now - maxLead.value, interval)))
    else (slot + interval, Booked(slot, slot - now))
  }

  /** One try at the file: the caller's clock reading and its lead limit, if it has one. */
  datatype Try = Try(now: real, maxLead: Option<real>)

  /** The file after a run of tries. */
  function NextFree(nextFree: real, interval: real, run: seq<Try>): real {
    if run == [] then nextFree
    else
      var last := run[|run| - 1];
      BookSlot(NextFree(nextFree, interval, run[..|run| - 1]), interval, last.now, last.maxLead).0
  }

  /** The slots handed out over a run, in booking order. */
  function Slots(nextFree: real, interval: real, run: seq<Try>): seq<real> {
    if run == [] then []
    else
      var init, last := run[..|run| - 1], run[|run| - 1];
      var booking := BookSlot(NextFree(nextFree, interval, init), interval, last.now, last.maxLead).1;
      Slots(nextFree, interval, init) + (if booking.Booked? then [booking.slot] else [])
  }

  /** WHO IS SERVED. A caller is denied if and only if the next free slot lies further ahead than its lead. Otherwise it gets
      that slot, or the present if that is later, and the next slot is an interval after it; told to wait, it would wake
      exactly at its slot. Denied, it waits at least an interval and until the slot is within its lead, and no longer. */
  lemma BookingByFields(nextFree: real, interval: real, now: real, maxLead: Option<real>)
    requires interval > 0.0 && (maxLead.Some? ==> maxLead.value >= 0.0)
    ensures var (free, booking) := BookSlot(nextFree, interval, now, maxLead);
            && (booking.Denied? <==> maxLead.Some? && nextFree > now + maxLead.value)
            && (booking.Booked? ==>
                  && booking.slot >= now && booking.slot >= nextFree && (booking.slot == now || booking.slot == nextFree)
                  && now + booking.wait == booking.slot && free == booking.slot + interval)
            && (booking.Denied? ==>
                  && free == nextFree && booking.wait >= interval && now + booking.wait + maxLead.value >= nextFree
                  && (booking.wait == interval || now + booking.wait + maxLead.value == nextFree))
  {
  }

  // ---------------------------------------------------------------- rate

  predicate Spaced(slots: seq<real>, interval: real) {
    forall i :: 0 <= i < |slots| - 1 ==> slots[i + 1] >= slots[i] + interval
  }

  /** Whatever the clocks say, consecutive bookings are an interval apart. */
  lemma {:induction false} SlotsSpaced(nextFree: real, interval: real, run: seq<Try>)
    ensures Spaced(Slots(nextFree, interval, run), interval)
    ensures var slots := Slots(nextFree, interval, run);
            slots != [] ==> NextFree(nextFree, interval, run) == slots[|slots| - 1] + interval
  {
    if run != [] {
      SlotsSpaced(nextFree, interval, run[..|run| - 1]);
    }
  }

  /** The slots that fall into the closed window from lo to hi. */
  function CountIn(slots: seq<real>, lo: real, hi: real): nat {
    if slots == [] then 0
    else
      var last := slots[|slots| - 1];
      CountIn(slots[..|slots| - 1], lo, hi) + if lo <= last <= hi then 1 else 0
  }

  lemma {:induction false} CountSpan(slots: seq<real>, interval: real, lo: real, hi: real)
    requires interval > 0.0 && Spaced(slots, interval)
    ensures var c := CountIn(slots, lo, hi);
            c > 0 ==> slots[|slots| - 1] >= lo + Intervals(c - 1, interval) && Intervals(c - 1, interval) <= hi - lo
  {
    if slots != [] {
      var init := slots[..|slots| - 1];
      CountSpan(init, interval, lo, hi);
      if CountIn(init, lo, hi) > 0 {
        assert slots[|slots| - 1] >= init[|init| - 1] + interval;
      }
    }
  }

  lemma FloorBound(c: nat, interval: real, width: real)
    requires interval > 0.0 && c as real * interval <= width
    ensures c <= (width / interval).Floor
  {
    var q := width / interval;
    assert q * interval == width;
    assert c as real > q ==> c as real * interval > q * interval;
  }

  /** Any window of length `width` holds at most floor(width / interval) + 1 slots, for every
      interleaving of bookings and every sequence of clock readings. */
  lemma RateBound(nextFree: real, interval: real, run: seq<Try>, lo: real, width: real)
    requires interval > 0.0 && width >= 0.0
    ensures CountIn(Slots(nextFree, interval, run), lo, lo + width) <= (width / interval).Floor + 1
  {
    var slots := Slots(nextFree, interval, run);
    SlotsSpaced(nextFree, interval, run);
    CountSpan(slots, interval, lo, lo + width);
    var c := CountIn(slots, lo, lo + width);
    var over := if c > 0 then c - 1 else 0;
    IntervalsMultiply(over, interval);
    FloorBound(over, interval, width);
  }

  // ---------------------------------------------------------------- backlog

  predicate Monotone(run: seq<Try>) {
    forall i, j :: 0 <= i < j < |run| ==> run[i].now <= run[j].now
  }

  /** Callers with a lead limit all use the same one or a smaller one. */
  predicate LeadsWithin(run: seq<Try>, limit: real) {
    forall i :: 0 <= i < |run| && run[i].maxLead.Some? ==> run[i].maxLead.value <= limit
  }

  function Unbounded(run: seq<Try>): nat {
    if run == [] then 0
    else Unbounded(run[..|run| - 1]) + if run[|run| - 1].maxLead.None? then 1 else 0
  }

  /** With a clock that never steps back, k bookings without a lead limit among any number with one leave a backlog of at
      most the limit and k + 1 intervals, or k intervals more than the file's first backlog if that was longer. */
  lemma {:induction false} BacklogBound(nextFree: real, interval: real, run: seq<Try>, limit: real)
    requires interval > 0.0 && limit >= 0.0 && run != [] && Monotone(run) && LeadsWithin(run, limit)
    ensures NextFree(nextFree, interval, run) - run[|run| - 1].now
            <= MaxOf(limit + interval, nextFree - run[0].now) + Intervals(Unbounded(run), interval)
  {
    var init := run[..|run| - 1];
    IntervalsNonNegative(Unbounded(init), interval);
    if init == [] {
      assert NextFree(nextFree, interval, init) == nextFree;
    } else {
      BacklogBound(nextFree, interval, init, limit);
    }
  }

  /** n equal tries at one reading. */
  function Crowd(now: real, maxLead: Option<real>, n: nat): seq<Try> { seq(n, i => Try(now, maxLead)) }

  /** A try served at a reading no later than the next free slot takes that slot. */
  lemma ServedAtOnce(free: real, interval: real, now: real, maxLead: Option<real>)
    requires free >= now && (maxLead.Some? ==> free - now <= maxLead.value)
    ensures BookSlot(free, interval, now, maxLead).0 == free + interval
  {
  }

  lemma CrowdLast(before: seq<Try>, now: real, maxLead: Option<real>, n: nat)
    requires n > 0
    ensures var run := before + Crowd(now, maxLead, n);
            run != [] && run[..|run| - 1] == before + Crowd(now, maxLead, n - 1) && run[|run| - 1] == Try(now, maxLead)
  {
    var run := before + Crowd(now, maxLead, n);
    assert run[..|run| - 1] == before + Crowd(now, maxLead, n - 1);
  }

  /** While its lead limit allows, every try of a crowd adds one interval to the backlog. */
  lemma {:induction false} CrowdServed(nextFree: real, interval: real, before: seq<Try>, now: real, maxLead: Option<real>, n: nat)
    requires interval > 0.0 && NextFree(nextFree, interval, before) >= now
    requires maxLead.Some? && n > 0 ==>
               NextFree(nextFree, interval, before) - now + Intervals(n - 1, interval) <= maxLead.value
    ensures NextFree(nextFree, interval, before + Crowd(now, maxLead, n))
            == NextFree(nextFree, interval, before) + Intervals(n, interval)
  {
    if n == 0 {
      assert before + Crowd(now, maxLead, n) == before;
    } else {
      CrowdServed(nextFree, interval, before, now, maxLead, n - 1);
      IntervalsNonNegative(n - 1, interval);
      CrowdLast(before, now, maxLead, n);
      ServedAtOnce(NextFree(nextFree, interval, before + Crowd(now, maxLead, n - 1)), interval, now, maxLead);
    }
  }

  lemma {:induction false} CrowdUnbounded(before: seq<Try>, now: real, maxLead: Option<real>, n: nat)
    ensures Unbounded(before + Crowd(now, maxLead, n)) == Unbounded(before) + if maxLead.None? then n else 0
  {
    if n == 0 {
      assert before + Crowd(now, maxLead, n) == before;
    } else {
      CrowdUnbounded(before, now, maxLead, n - 1);
      CrowdLast(before, now, maxLead, n);
    }
  }

  /** The bound is exact: a lead limit of j intervals and k unlimited bookings can reach it. */
  lemma BacklogReached(now: real, interval: real, j: nat, k: nat) returns (run: seq<Try>)
    requires interval > 0.0
    ensures run != [] && Monotone(run) && LeadsWithin(run, Intervals(j, interval)) && Unbounded(run) == k
    ensures run[0].now == now && run[|run| - 1].now == now
    ensures NextFree(now, interval, run) - now == Intervals(j, interval) + Intervals(k + 1, interval)
  {
    var limit := Intervals(j, interval);
    var bounded := [] + Crowd(now, Some(limit), j + 1);
    CrowdServed(now, interval, [], now, Some(limit), j + 1);
    IntervalsNonNegative(j + 1, interval);
    CrowdServed(now, interval, bounded, now, None, k);
    CrowdUnbounded([], now, Some(limit), j + 1);
    CrowdUnbounded(bounded, now, None, k);
    run := bounded + Crowd(now, None, k);
  }

  // ---------------------------------------------------------------- retry

  /** A denied caller that sleeps as told and meets no competitor is served on its first retry. */
  lemma FirstRetryServed(nextFree: real, interval: real, now: real, maxLead: real, later: real)
    requires maxLead > 0.0
    requires BookSlot(nextFree, interval, now, Some(maxLead)).1.Denied?
    requires later >= now + BookSlot(nextFree, interval, now, Some(maxLead)).1.wait
    ensures var (free, denied) := BookSlot(nextFree, interval, now, Some(maxLead));
            && free == nextFree
            && BookSlot(free, interval, later, Some(maxLead)).1.Booked?
            && BookSlot(free, interval, later, Some(maxLead)).1.slot >= nextFree
  {
  }

  /** One more try: what it does to the file and to the slots taken so far. */
  lemma TryAppends(nextFree: real, interval: real, run: seq<Try>, t: Try)
    ensures var (free, booking) := BookSlot(NextFree(nextFree, interval, run), interval, t.now, t.maxLead);
            && NextFree(nextFree, interval, run + [t]) == free
            && Slots(nextFree, interval, run + [t])
               == Slots(nextFree, interval, run) + if booking.Booked? then [booking.slot] else []
  {
    assert (run + [t])[..|run + [t]| - 1] == run;
  }

  // ---------------------------------------------------------------- the pacer object

  class PacingFile {
    var nextFree: real

    constructor ()
      ensures nextFree == 0.0
    {
      nextFree := 0.0;
    }
  }

  /** Sleeping lasts as long as asked and somewhat longer; callers may rely on no less. */
  method Sleep(now: real, duration: real, late: real) returns (later: real)
    requires late >= 0.0
    ensures later == now + duration + late
  {
    later := now + duration + late;
  }

  class HostPacer {
    const file: PacingFile
    const interval: real
    const maxLead: Option<real>

    constructor (file: PacingFile, maxRate: real, timePeriod: real, maxLead: Option<real>)
      requires maxRate > 0.0 && timePeriod > 0.0 && (maxLead.Some? ==> maxLead.value > 0.0)
      ensures Valid() && this.file == file && this.maxLead == maxLead && interval * maxRate == timePeriod
    {
      this.file, this.maxLead := file, maxLead;
      interval := timePeriod / maxRate;
      new;
      assert interval * maxRate == timePeriod;
      assert interval <= 0.0 ==> interval * maxRate <= 0.0;
    }

    ghost predicate Valid() { interval > 0.0 && (maxLead.Some? ==> maxLead.value > 0.0) }

    method Book(now: real) returns (booking: Booking)
      modifies file
      ensures (file.nextFree, booking) == BookSlot(old(file.nextFree), interval, now, maxLead)
    {
      var slot := MaxOf(now, file.nextFree);
      if maxLead.Some? && slot - now > maxLead.value {
        return Denied(MaxOf(slot - now - maxLead.value, interval));
      }
      file.nextFree := slot + interval;
      booking := Booked(slot, slot - now);
    }

    /** Blocks until the caller owns a slot; each sleep lasts as long as asked and somewhat longer. Without a competitor it
        tries once if the slot is within its lead and twice otherwise, takes exactly one slot, and wakes at it if its last
        sleep was exact. */
    method Acquire(now: real, retryLate: real, late: real) returns (slot: real, woken: real, ghost run: seq<Try>)
      requires Valid() && retryLate >= 0.0 && late >= 0.0
      modifies file
      ensures 1 <= |run| <= 2 && run[0].now == now && Monotone(run)
      ensures |run| == 1 <==> maxLead.None? || old(file.nextFree) <= now + maxLead.value
      ensures file.nextFree == NextFree(old(file.nextFree), interval, run)
      ensures Slots(old(file.nextFree), interval, run) == [slot]
      ensures slot <= woken <= slot + late && (slot > run[|run| - 1].now ==> woken == slot + late)
    {
      ghost var free := file.nextFree;
      run := [];
      var reading := now;
      var booking := Book(reading);
      TryAppends(free, interval, run, Try(reading, maxLead));
      run := run + [Try(reading, maxLead)];
      while booking.Denied?
        invariant 1 <= |run| <= 2 && run[0] == Try(now, maxLead) && Monotone(run)
        invariant |run| == 1 ==> reading == now && (file.nextFree, booking) == BookSlot(free, interval, now, maxLead)
        invariant |run| == 2 ==> booking.Booked? && maxLead.Some? && free > now + maxLead.value
        invariant file.nextFree == NextFree(free, interval, run)
        invariant Slots(free, interval, run) == if booking.Booked? then [booking.slot] else []
        invariant booking.Booked? ==> booking.slot == reading + booking.wait && booking.wait >= 0.0
        invariant run[|run| - 1].now == reading
        decreases booking.Denied?
      {
        reading := Sleep(reading, booking.wait, retryLate);
        FirstRetryServed(free, interval, now, maxLead.value, reading);
        TryAppends(free, interval, run, Try(reading, maxLead));
        booking := Book(reading);
        run := run + [Try(reading, maxLead)];
      }
      slot, woken := booking.slot, reading;
      if booking.wait > 0.0 {
        woken := Sleep(reading, booking.wait, late);
      }
    }
  }
}
