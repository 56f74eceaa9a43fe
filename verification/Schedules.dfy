/**
Due occurrences of backup schedules. Times are nanoseconds since the Unix epoch.
*/
module Schedules {
  import opened Options

  const SECOND := 1_000_000_000
  const CLOCK_SKEW := 5 * 60 * SECOND
  const LOOKBACK := 15
  const LOOKAHEAD := 100

  /** Wall-clock schedules through their local dates: the date of an instant, and the
      occurrence on a date, if its wall time exists there and the weekday matches. */
  datatype Calendar = Calendar(dateOf: int -> int, on: int -> Option<int>)

  datatype Schedule = Manual | Interval(hours: int) | Wall(calendar: Calendar)

  /** A later instant is on no earlier date. */
  predicate InOrder(c: Calendar, t: int, u: int) {
    t <= u ==> c.dateOf(t) <= c.dateOf(u)
  }

  ghost predicate Sound(c: Calendar) {
    && (forall t, u {:trigger InOrder(c, t, u)} :: InOrder(c, t, u))
    && (forall d :: c.on(d).Some? ==> c.dateOf(c.on(d).value) == d)
  }

  predicate ValidSchedule(s: Schedule) {
    s.Interval? ==> 1 <= s.hours <= 168
  }

  function Period(hours: int): int { hours * 3600 * SECOND }

  ghost predicate Multiple(t: int, p: int) { exists k: int :: t == Times(k, p) }

  function Times(k: int, p: int): int { k * p }

  ghost predicate Occurs(s: Schedule, t: int) {
    match s
    case Manual => false
    case Interval(hours) => Multiple(t, Period(hours))
    case Wall(c) => c.on(c.dateOf(t)) == Some(t)
  }

  /** The greatest occurrence not after `now`. */
  ghost predicate IsLatest(s: Schedule, now: int, t: int) {
    Occurs(s, t) && t <= now && forall u :: Occurs(s, u) && u <= now ==> u <= t
  }

  /** The `times` are the occurrences right after `from`, in order and without a gap. */
  ghost predicate AreNext(s: Schedule, from: int, times: seq<int>) {
    && (forall i :: 0 <= i < |times| ==> Occurs(s, times[i]) && from < times[i])
    && (forall i :: 0 < i < |times| ==> times[i - 1] < times[i])
    && (forall u :: Occurs(s, u) && from < u && times != [] && u <= times[|times| - 1] ==> u in times)
  }

  // -------------------------------------------------------------------------
  // Fixed intervals
  // -------------------------------------------------------------------------

  function Unix(t: int): int { t / SECOND }

  /** Integer division as Go defines it, towards zero. */
  function Quotient(a: int, b: int): int
    requires b > 0
  {
    if a >= 0 then a / b else -((-a) / b)
  }

  function IntervalDue(hours: int, now: int): int
    requires hours >= 1
  {
    Quotient(Unix(now), hours * 3600) * (hours * 3600) * SECOND
  }

  lemma TimesMonotone(a: int, b: int, p: int)
    requires a <= b && p >= 0
    ensures Times(a, p) <= Times(b, p)
  {
    assert Times(b, p) - Times(a, p) == (b - a) * p;
  }

  /** Two occurrences less than a period apart are the same. */
  lemma MultiplesApart(t: int, u: int, p: int)
    requires p > 0 && Multiple(t, p) && Multiple(u, p) && t < u
    ensures t + p <= u
  {
    var i: int :| t == Times(i, p);
    var k: int :| u == Times(k, p);
    if k <= i { TimesMonotone(k, i, p); }
    TimesMonotone(i + 1, k, p);
    assert Times(i + 1, p) == t + p;
  }

  lemma PeriodBracketsLatest(s: Schedule, now: int, t: int)
    requires s.Interval? && s.hours >= 1 && Multiple(t, Period(s.hours)) && t <= now < t + Period(s.hours)
    ensures IsLatest(s, now, t)
  {
    forall u | Occurs(s, u) && u <= now ensures u <= t {
      if t < u { MultiplesApart(t, u, Period(s.hours)); }
    }
  }

  lemma IntervalDueIsMultiple(hours: int, now: int)
    requires hours >= 1
    ensures Multiple(IntervalDue(hours, now), Period(hours))
  {
    var q := Quotient(Unix(now), hours * 3600);
    assert IntervalDue(hours, now) == Times(q, Period(hours)) by {
      assert q * (hours * 3600) * SECOND == q * (hours * 3600 * SECOND);
    }
  }

  lemma DivisionBrackets(a: int, b: int)
    requires b > 0
    ensures Times(a / b, b) <= a < Times(a / b, b) + b
  {
    assert a == b * (a / b) + a % b;
  }

  /** Since the epoch, the due time is the latest multiple of the interval. */
  lemma IntervalDueIsLatest(hours: int, now: int)
    requires hours >= 1 && Unix(now) >= 0
    ensures IsLatest(Interval(hours), now, IntervalDue(hours, now))
  {
    var seconds, unix := hours * 3600, Unix(now);
    var q := unix / seconds;
    DivisionBrackets(unix, seconds);
    DivisionBrackets(now, SECOND);
    IntervalDueIsMultiple(hours, now);
    PeriodBracketsLatest(Interval(hours), now, IntervalDue(hours, now));
  }

  /** Before the epoch, truncating division rounds up: the due time is the latest
      occurrence exactly from the epoch on, and before it only on whole intervals. */
  lemma IntervalDueIsLatestExactly(hours: int, now: int)
    requires hours >= 1
    ensures IsLatest(Interval(hours), now, IntervalDue(hours, now)) <==>
      Unix(now) >= 0 || Unix(now) % (hours * 3600) == 0
  {
    var seconds, unix := hours * 3600, Unix(now);
    if unix >= 0 {
      IntervalDueIsLatest(hours, now);
    } else {
      var q := (-unix) / seconds;
      var t := IntervalDue(hours, now);
      DivisionBrackets(now, SECOND);
      assert -unix == seconds * q + (-unix) % seconds;
      assert (-q) * seconds == -(seconds * q);
      assert t == (-(seconds * q)) * SECOND;
      NegatedRemainder(unix, seconds);
      if unix % seconds == 0 {
        assert t == unix * SECOND;
        assert Period(hours) >= SECOND;
        IntervalDueIsMultiple(hours, now);
        PeriodBracketsLatest(Interval(hours), now, t);
      } else {
        assert t >= (unix + 1) * SECOND;
      }
    }
  }

  /** An hour schedule asked one second before the epoch names the epoch, which is still to come. */
  lemma IntervalDueCanLieAhead()
    ensures IntervalDue(1, -SECOND) == 0 && !IsLatest(Interval(1), -SECOND, IntervalDue(1, -SECOND))
  {
    IntervalDueIsLatestExactly(1, -SECOND);
  }

  lemma NegatedRemainder(a: int, b: int)
    requires b > 0
    ensures a % b == 0 <==> (-a) % b == 0
  {
    assert a == b * (a / b) + a % b;
    assert -a == b * ((-a) / b) + (-a) % b;
    var k := a / b + (-a) / b;
    assert b * k == -(a % b) - (-a) % b;
    if k <= -2 { TimesMonotone(k, -2, b); }
    if k >= 1 { TimesMonotone(1, k, b); }
  }

  // -------------------------------------------------------------------------
  // latestDue and PreviewSchedule
  // -------------------------------------------------------------------------

  /** What a due time means: the latest occurrence, or none on the dates looked at. */
  ghost predicate DueMeans(s: Schedule, now: int, due: Option<int>) {
    match due
    case Some(t) => IsLatest(s, now, t)
    case None =>
      !ValidSchedule(s) || s.Manual? ||
      (s.Wall? && forall u :: Occurs(s, u) && u <= now ==> s.calendar.dateOf(u) <= s.calendar.dateOf(now) - LOOKBACK)
  }

  /** Before the epoch an interval schedule is only right on whole intervals. */
  predicate Exact(s: Schedule, now: int) {
    ValidSchedule(s) && s.Interval? ==> Unix(now) >= 0 || Unix(now) % (s.hours * 3600) == 0
  }

  method LatestDue(s: Schedule, now: int) returns (due: Option<int>)
    requires s.Wall? ==> Sound(s.calendar)
    ensures DueMeans(s, now, due) <==> Exact(s, now)
    ensures s.Interval? && ValidSchedule(s) ==> due.Some?
  {
    if !ValidSchedule(s) || s.Manual? { return None; }
    if s.Interval? {
      IntervalDueIsLatestExactly(s.hours, now);
      return Some(IntervalDue(s.hours, now));
    }
    var c := s.calendar;
    forall u | u <= now ensures c.dateOf(u) <= c.dateOf(now) {
      assert InOrder(c, u, now);
    }
    for days := 0 to LOOKBACK
      invariant forall u :: Occurs(s, u) && u <= now ==> c.dateOf(u) <= c.dateOf(now) - days
    {
      var candidate := c.on(c.dateOf(now) - days);
      if candidate.Some? && candidate.value <= now {
        forall u | Occurs(s, u) && u <= now ensures u <= candidate.value {
          assert InOrder(c, candidate.value, u);
        }
        return candidate;
      }
    }
    due := None;
  }

  lemma IntervalsFollow(s: Schedule, from: int, due: int, times: seq<int>)
    requires s.Interval? && s.hours >= 1 && IsLatest(s, from, due)
    requires forall i :: 0 <= i < |times| ==> times[i] == due + Times(i + 1, Period(s.hours))
    ensures AreNext(s, from, times)
  {
    var p := Period(s.hours);
    var k: int :| due == Times(k, p);
    forall i | 0 <= i < |times| ensures Occurs(s, times[i]) && from < times[i] {
      assert times[i] == Times(k + i + 1, p);
      assert Occurs(s, times[i]);
      TimesMonotone(1, i + 1, p);
    }
    forall u | Occurs(s, u) && from < u && times != [] && u <= times[|times| - 1] ensures u in times {
      var m: int :| u == Times(m, p);
      if m <= k { TimesMonotone(m, k, p); }
      if m > k + |times| {
        TimesMonotone(k + |times| + 1, m, p);
      }
      assert u == due + Times(m - k, p);
      assert u == times[m - k - 1];
    }
  }

  /** The `times` are the occurrences after `from` on dates before `date`, in order. */
  ghost predicate Scanned(s: Schedule, from: int, times: seq<int>, date: int)
    requires s.Wall?
  {
    && (forall i :: 0 <= i < |times| ==> Occurs(s, times[i]) && from < times[i] && s.calendar.dateOf(times[i]) < date)
    && (forall i :: 0 < i < |times| ==> times[i - 1] < times[i])
    && (forall u :: Occurs(s, u) && from < u && s.calendar.dateOf(u) < date ==> u in times)
  }

  lemma ScanStarts(s: Schedule, from: int)
    requires s.Wall? && Sound(s.calendar)
    ensures Scanned(s, from, [], s.calendar.dateOf(from))
  {
    forall u | from < u ensures s.calendar.dateOf(u) >= s.calendar.dateOf(from) {
      assert InOrder(s.calendar, from, u);
    }
  }

  lemma ScanSkips(s: Schedule, from: int, times: seq<int>, date: int)
    requires s.Wall? && Sound(s.calendar) && Scanned(s, from, times, date)
    requires s.calendar.on(date).None? || s.calendar.on(date).value <= from
    ensures Scanned(s, from, times, date + 1)
  {
    forall u | Occurs(s, u) && from < u && s.calendar.dateOf(u) < date + 1 ensures u in times {
      assert s.calendar.dateOf(u) < date;
    }
  }

  lemma ScanAdds(s: Schedule, from: int, times: seq<int>, date: int)
    requires s.Wall? && Sound(s.calendar) && Scanned(s, from, times, date)
    requires s.calendar.on(date).Some? && s.calendar.on(date).value > from
    ensures Scanned(s, from, times + [s.calendar.on(date).value], date + 1)
  {
    var t := s.calendar.on(date).value;
    forall i | 0 <= i < |times| ensures times[i] < t {
      assert InOrder(s.calendar, t, times[i]);
    }
    forall u | Occurs(s, u) && from < u && s.calendar.dateOf(u) < date + 1 ensures u in times + [t] {
      if s.calendar.dateOf(u) < date { assert u in times; } else { assert u == t; }
    }
  }

  lemma ScannedAreNext(s: Schedule, from: int, times: seq<int>, date: int)
    requires s.Wall? && Sound(s.calendar) && Scanned(s, from, times, date)
    ensures AreNext(s, from, times)
  {
    forall u | Occurs(s, u) && from < u && times != [] && u <= times[|times| - 1] ensures u in times {
      assert InOrder(s.calendar, u, times[|times| - 1]);
    }
  }

  /** The date scan of `PreviewSchedule`. */
  method ScanDates(s: Schedule, from: int, count: int) returns (times: seq<int>)
    requires s.Wall? && Sound(s.calendar) && count >= 1
    ensures AreNext(s, from, times) && |times| <= count
    ensures forall i :: 0 <= i < |times| ==> s.calendar.dateOf(times[i]) < s.calendar.dateOf(from) + LOOKAHEAD
    ensures |times| < count ==>
      forall u :: Occurs(s, u) && from < u && s.calendar.dateOf(u) < s.calendar.dateOf(from) + LOOKAHEAD ==> u in times
  {
    times := [];
    var c, days := s.calendar, 0;
    ScanStarts(s, from);
    while |times| < count && days < LOOKAHEAD
      invariant 0 <= days <= LOOKAHEAD && |times| <= count
      invariant Scanned(s, from, times, c.dateOf(from) + days)
    {
      var candidate := c.on(c.dateOf(from) + days);
      if candidate.Some? && from < candidate.value {
        ScanAdds(s, from, times, c.dateOf(from) + days);
        times := times + [candidate.value];
      } else {
        ScanSkips(s, from, times, c.dateOf(from) + days);
      }
      days := days + 1;
    }
    ScannedAreNext(s, from, times, c.dateOf(from) + days);
  }

  /** `PreviewSchedule`; `None` stands for its error. */
  method PreviewSchedule(s: Schedule, from: int, count: int) returns (next: Option<seq<int>>)
    requires s.Wall? ==> Sound(s.calendar)
    ensures next.None? <==> !ValidSchedule(s) || count < 1 || count > 10
    ensures next.Some? ==> |next.value| <= count
    ensures next.Some? && Exact(s, from) ==> AreNext(s, from, next.value)
    ensures next.Some? && s.Interval? ==> |next.value| == count
    ensures next.Some? && s.Wall? ==>
      forall i :: 0 <= i < |next.value| ==> s.calendar.dateOf(next.value[i]) < s.calendar.dateOf(from) + LOOKAHEAD
    ensures next.Some? && s.Wall? && |next.value| < count ==>
      forall u :: Occurs(s, u) && from < u && s.calendar.dateOf(u) < s.calendar.dateOf(from) + LOOKAHEAD ==>
        u in next.value
  {
    if !ValidSchedule(s) || count < 1 || count > 10 { return None; }
    var times: seq<int> := [];
    if s.Manual? { return Some(times); }
    if s.Interval? {
      var due := LatestDue(s, from);
      for i := 1 to count + 1
        invariant |times| == i - 1
        invariant forall k :: 0 <= k < |times| ==> times[k] == due.value + Times(k + 1, Period(s.hours))
      {
        times := times + [due.value + Times(i, Period(s.hours))];
      }
      if Exact(s, from) { IntervalsFollow(s, from, due.value, times); }
      return Some(times);
    }
    times := ScanDates(s, from, count);
    next := Some(times);
  }

  // -------------------------------------------------------------------------
  // Starting runs
  // -------------------------------------------------------------------------

  datatype Assignment = Assignment(enabled: bool, schedule: Schedule, last: Option<int>, activated: Option<int>)

  /** A destination of a plan. */
  datatype Slot = Slot(plan: PlanId, destination: nat)

  type PlanId = nat

  predicate OccurrencePending(last: Option<int>, due: int, now: int) {
    last.None? || last.value > now + CLOCK_SKEW || last.value < due
  }

  ghost predicate Increasing(dues: seq<int>) {
    forall i :: 0 < i < |dues| ==> dues[i - 1] < dues[i]
  }

  lemma {:induction false} StrictlyLater(dues: seq<int>, i: nat, k: nat)
    requires Increasing(dues) && i < k < |dues|
    ensures dues[i] < dues[k]
    decreases k - i
  {
    if i + 1 < k { StrictlyLater(dues, i, k - 1); }
  }

  /** A started occurrence is the newest of its slot and not in the future. */
  ghost predicate Latest(log: seq<int>, due: int, clock: int) {
    Increasing(log) && log != [] && log[|log| - 1] == due <= clock
  }

  /** Marking moves the watermark, and at most brings a future activation back to now. */
  ghost predicate Remarked(before: Assignment, after: Assignment, due: int, clock: int) {
    var ahead := before.activated.Some? && before.activated.value > clock + CLOCK_SKEW;
    after == before.(last := Some(due), activated := if ahead then Some(clock) else before.activated)
  }

  ghost predicate Before(dues: seq<int>, due: int) {
    dues != [] ==> dues[|dues| - 1] < due
  }

  /** What makes an occurrence startable: it is the latest one at some instant up to now, and newer
      than everything started for its slot. */
  ghost predicate Startable(a: Assignment, log: seq<int>, due: int, clock: int) {
    && a.enabled && due <= clock && Before(log, due)
    && exists now :: now <= clock && IsLatest(a.schedule, now, due)
  }

  /** Nothing to start: at some instant between the two there was no due occurrence, or not a new one. */
  ghost predicate Idle(a: Assignment, from: int, clock: int) {
    exists now, later, t :: Found(a, now, later, t) && from <= now && later <= clock
  }

  ghost predicate Found(a: Assignment, now: int, later: int, t: Option<int>) {
    now <= later && DueMeans(a.schedule, now, t) && (t.None? || !OccurrencePending(a.last, t.value, later))
  }

  /** An occurrence in sight that is newer than the watermark, or the first of a slot without one. */
  ghost predicate Owed(a: Assignment, u: int, clock: int) {
    && ValidSchedule(a.schedule) && Occurs(a.schedule, u) && (a.last.None? || a.last.value < u)
    && (a.schedule.Wall? ==>
          var c := a.schedule.calendar; Sound(c) && c.dateOf(clock) - LOOKBACK < c.dateOf(u))
  }

  lemma OwedIsPending(a: Assignment, u: int, clock: int, now: int, later: int, t: Option<int>)
    requires Owed(a, u, clock) && u <= now <= later <= clock && DueMeans(a.schedule, now, t)
    ensures t.Some? && OccurrencePending(a.last, t.value, later)
  {
    if a.schedule.Wall? { assert InOrder(a.schedule.calendar, now, clock); }
  }

  /** Such an occurrence has to be started: its slot cannot be passed over as idle. */
  lemma OwedIsNotPassedOver(a: Assignment, u: int, from: int, clock: int)
    requires Owed(a, u, clock) && u <= from <= clock
    ensures !Idle(a, from, clock)
  {
    forall now, later, t ensures !(Found(a, now, later, t) && from <= now && later <= clock) {
      if from <= now <= later <= clock && DueMeans(a.schedule, now, t) {
        OwedIsPending(a, u, clock, now, later, t);
      }
    }
  }

  lemma StillSo(a: Assignment, log: seq<int>, t: int, from: int, from': int, clock: int, clock': int)
    requires clock <= clock' && from' <= from
    ensures Startable(a, log, t, clock) ==> Startable(a, log, t, clock')
    ensures Idle(a, from, clock) ==> Idle(a, from', clock')
  {
    if Startable(a, log, t, clock) {
      var now :| now <= clock && IsLatest(a.schedule, now, t);
      assert now <= clock' && IsLatest(a.schedule, now, t);
    }
    if Idle(a, from, clock) {
      var now, later, due :| Found(a, now, later, due) && from <= now && later <= clock;
      assert Found(a, now, later, due) && from' <= now && later <= clock';
    }
  }

  /** The slots of a plan to start, and all that are owed an occurrence from before `from`. */
  ghost predicate Chosen(assignments: map<Slot, Assignment>, started: map<Slot, seq<int>>, plan: PlanId,
                         due: map<Slot, int>, from: int, clock: int)
  {
    && (forall s :: s in due ==>
          && s in assignments && s in started && s.plan == plan
          && Startable(assignments[s], started[s], due[s], clock))
    && (forall s :: s in assignments && s.plan == plan && assignments[s].enabled && s !in due ==>
          Idle(assignments[s], from, clock))
    && (forall s, u | s in assignments && s.plan == plan && assignments[s].enabled &&
                      Owed(assignments[s], u, clock) && u <= from :: s in due)
  }

  /** The log after starting the due occurrences. */
  function Logged(started: map<Slot, seq<int>>, due: map<Slot, int>): map<Slot, seq<int>> {
    map s | s in started :: if s in due then started[s] + [due[s]] else started[s]
  }

  /** The watermark of a slot is the latest occurrence it started, never a future one. */
  ghost predicate Marked(a: Assignment, log: seq<int>, clock: int) {
    Increasing(log) && (log != [] ==> a.last == Some(log[|log| - 1]) && log[|log| - 1] <= clock)
  }

  ghost predicate Fine(unmarked: map<Slot, int>, s: Slot, a: Assignment, log: seq<int>, clock: int) {
    if s in unmarked then Latest(log, unmarked[s], clock) else Marked(a, log, clock)
  }

  /** The scheduler's state. `started` lists, for each slot, the occurrences it started. */
  class Scheduler {
    var enabledPlans: set<PlanId>
    var assignments: map<Slot, Assignment>
    var clock: int
    ghost var started: map<Slot, seq<int>>

    /** The slots in `unmarked` have started an occurrence that their watermark does not show yet. */
    ghost predicate Kept(unmarked: map<Slot, int>) reads this {
      && clock >= 0 && started.Keys == assignments.Keys
      && unmarked.Keys <= assignments.Keys
      && (forall s :: s in assignments && s in started ==> Fine(unmarked, s, assignments[s], started[s], clock))
      && (forall s :: s in assignments && assignments[s].schedule.Wall? ==> Sound(assignments[s].schedule.calendar))
    }

    ghost predicate Valid() reads this {
      Kept(map[])
    }

    constructor (enabledPlans: set<PlanId>, assignments: map<Slot, Assignment>, clock: int)
      requires clock >= 0
      requires forall s :: s in assignments && assignments[s].schedule.Wall? ==> Sound(assignments[s].schedule.calendar)
      ensures Valid() && this.assignments == assignments && this.clock == clock
      ensures forall s :: s in started ==> started[s] == []
    {
      this.enabledPlans, this.assignments, this.clock := enabledPlans, assignments, clock;
      started := map s | s in assignments :: [];
    }

    /** The clock never goes back. */
    method Now() returns (now: int)
      requires Valid()
      modifies this`clock
      ensures Valid() && old(clock) <= clock == now
    {
      var passed: int := *;
      if passed > 0 { clock := clock + passed; }
      now := clock;
    }

    method DueOccurrence(s: Slot) returns (due: Option<int>)
      requires Valid() && s in assignments
      modifies this`clock
      ensures Valid() && old(clock) <= clock
      ensures due.Some? ==> Startable(assignments[s], started[s], due.value, clock)
      ensures due.None? && assignments[s].enabled ==> Idle(assignments[s], old(clock), clock)
    {
      var a := assignments[s];
      if !a.enabled { return None; }
      var now := Now();
      due := LatestDue(a.schedule, now);
      ghost var found := due;
      var later := Now();
      assert Fine(map[], s, a, started[s], clock);
      if due.Some? && !OccurrencePending(a.last, due.value, later) { due := None; }
      assert due.None? ==> Found(a, now, later, found);
    }

    /** The due slots of one plan: all of them, and no others. */
    method DueSlots(plan: PlanId) returns (due: map<Slot, int>)
      requires Valid()
      modifies this`clock
      ensures Valid() && old(clock) <= clock
      ensures forall s :: s in due ==>
        s in assignments && s.plan == plan && Startable(assignments[s], started[s], due[s], clock)
      ensures forall s :: s in assignments && s.plan == plan && assignments[s].enabled && s !in due ==>
        Idle(assignments[s], old(clock), clock)
    {
      due := map[];
      var left := set s | s in assignments && s.plan == plan;
      while left != {}
        invariant Valid() && old(clock) <= clock
        invariant forall s :: s in left ==> s in assignments && s.plan == plan && s !in due
        invariant forall s :: s in due ==>
          s in assignments && s.plan == plan && Startable(assignments[s], started[s], due[s], clock)
        invariant forall s :: s in assignments && s.plan == plan && assignments[s].enabled && s !in due.Keys + left ==>
          Idle(assignments[s], old(clock), clock)
        decreases left
      {
        var s :| s in left;
        left := left - {s};
        label before:
        var occurrence := DueOccurrence(s);
        forall x | x in assignments
          ensures x in due && Startable(assignments[x], started[x], due[x], old@before(clock)) ==>
                  Startable(assignments[x], started[x], due[x], clock)
          ensures Idle(assignments[x], old(clock), old@before(clock)) ==> Idle(assignments[x], old(clock), clock)
          ensures Idle(assignments[x], old@before(clock), clock) ==> Idle(assignments[x], old(clock), clock)
        {
          var t := if x in due then due[x] else 0;
          StillSo(assignments[x], started[x], t, old(clock), old(clock), old@before(clock), clock);
          StillSo(assignments[x], started[x], t, old@before(clock), old(clock), clock, clock);
        }
        if occurrence.Some? { due := due[s := occurrence.value]; }
      }
    }

    /** The same, with what must be among them: every slot that was owed an occurrence on entry. */
    method OwedSlots(plan: PlanId) returns (due: map<Slot, int>)
      requires Valid()
      modifies this`clock
      ensures Valid() && old(clock) <= clock
      ensures Chosen(assignments, started, plan, due, old(clock), clock)
    {
      due := DueSlots(plan);
      forall s, u | s in assignments && s.plan == plan && assignments[s].enabled &&
                    Owed(assignments[s], u, clock) && u <= old(clock)
        ensures s in due
      {
        OwedIsNotPassedOver(assignments[s], u, old(clock), clock);
      }
    }

    /** The run for the due occurrences starts; no watermark has moved yet. */
    ghost method Launch(due: map<Slot, int>)
      requires Valid()
      requires forall s :: s in due ==> s in assignments && Startable(assignments[s], started[s], due[s], clock)
      modifies this`started
      ensures Kept(due) && started == Logged(old(started), due)
    {
      forall s | s in assignments ensures Fine(due, s, assignments[s], Logged(started, due)[s], clock) {
        assert Fine(map[], s, assignments[s], started[s], clock);
      }
      started := Logged(started, due);
    }

    /** The watermark of one slot of a started run. */
    method Mark(s: Slot, due: int, ghost unmarked: map<Slot, int>)
      requires Kept(unmarked) && s in unmarked && unmarked[s] == due
      modifies this`assignments
      ensures Kept(unmarked - {s})
      ensures assignments == old(assignments)[s := assignments[s]]
      ensures Remarked(old(assignments)[s], assignments[s], due, clock)
    {
      var a := assignments[s];
      var activated := if a.activated.Some? && a.activated.value > clock + CLOCK_SKEW then Some(clock) else a.activated;
      assignments := assignments[s := a.(last := Some(due), activated := activated)];
    }

    /** `scheduleRuns` for one plan: one run for all its due slots, and then their watermarks. */
    method RunPlan(plan: PlanId, admitted: bool) returns (ran: bool, ghost due: map<Slot, int>)
      requires Valid()
      modifies this`assignments, this`clock, this`started
      ensures Valid() && old(clock) <= clock && assignments.Keys == old(assignments).Keys
      ensures if plan in enabledPlans then Chosen(old(assignments), old(started), plan, due, old(clock), clock)
              else due == map[]
      ensures ran <==> plan in enabledPlans && due != map[] && admitted
      ensures started == if ran then Logged(old(started), due) else old(started)
      ensures forall s :: s in assignments ==>
        if ran && s in due then Remarked(old(assignments)[s], assignments[s], due[s], clock)
        else assignments[s] == old(assignments)[s]
    {
      due := map[];
      if plan !in enabledPlans { return false, due; }
      var found := OwedSlots(plan);
      due := found;
      if found == map[] || !admitted { return false, due; }
      StartAll(found);
      ran := true;
    }

    /** The run starts, and then its watermarks move. */
    method StartAll(due: map<Slot, int>)
      requires Valid()
      requires forall s :: s in due ==> s in assignments && Startable(assignments[s], started[s], due[s], clock)
      modifies this`assignments, this`started
      ensures Valid() && assignments.Keys == old(assignments).Keys && started == Logged(old(started), due)
      ensures forall s :: s in assignments ==>
        if s in due then Remarked(old(assignments)[s], assignments[s], due[s], clock)
        else assignments[s] == old(assignments)[s]
    {
      Launch(due);
      MarkAll(due);
    }

    /** The watermarks of a started run. */
    method MarkAll(due: map<Slot, int>)
      requires Kept(due)
      modifies this`assignments
      ensures Valid() && assignments.Keys == old(assignments).Keys
      ensures forall s :: s in assignments ==>
        if s in due then Remarked(old(assignments)[s], assignments[s], due[s], clock)
        else assignments[s] == old(assignments)[s]
    {
      ghost var unmarked := due;
      var left := due.Keys;
      while left != {}
        invariant Kept(unmarked) && unmarked.Keys == left <= due.Keys
        invariant forall s :: s in left ==> unmarked[s] == due[s]
        invariant assignments.Keys == old(assignments).Keys
        invariant forall s :: s in assignments ==>
          if s in due && s !in left then Remarked(old(assignments)[s], assignments[s], due[s], clock)
          else assignments[s] == old(assignments)[s]
        decreases left
      {
        var s :| s in left;
        Mark(s, due[s], unmarked);
        left, unmarked := left - {s}, unmarked - {s};
      }
      assert unmarked == map[];
    }

    /** Any number of scheduler ticks on a clock that never goes back: the occurrences a slot
        starts strictly increase, so none is started twice. */
    method Run(ticks: nat)
      requires Valid()
      modifies this
      ensures Valid() && assignments.Keys == old(assignments).Keys
      ensures forall s :: s in started ==> s in old(started) && old(started)[s] <= started[s]
      ensures forall s, i, k :: s in started && 0 <= i < k < |started[s]| ==> started[s][i] < started[s][k]
    {
      for i := 0 to ticks
        invariant Valid() && assignments.Keys == old(assignments).Keys
        invariant forall s :: s in started ==> s in old(started) && old(started)[s] <= started[s]
      {
        var left := enabledPlans;
        while left != {}
          invariant Valid() && assignments.Keys == old(assignments).Keys
          invariant forall s :: s in started ==> s in old(started) && old(started)[s] <= started[s]
          decreases left
        {
          var p :| p in left;
          left := left - {p};
          var admitted: bool := *;
          ghost var due;
          var ran;
          ran, due := RunPlan(p, admitted);
        }
      }
      forall s, i, k | s in started && 0 <= i < k < |started[s]| ensures started[s][i] < started[s][k] {
        assert Fine(map[], s, assignments[s], started[s], clock);
        StrictlyLater(started[s], i, k);
      }
    }
  }

  // -------------------------------------------------------------------------
  // The first missed deadline
  // -------------------------------------------------------------------------

  predicate NotFuture(t: Option<int>, now: int) { t.Some? && t.value <= now + CLOCK_SKEW }

  /** Where monitoring starts counting: after the capture, or from the activation on. */
  function CountFrom(a: Assignment, captured: Option<int>, now: int): Option<int> {
    var from := if NotFuture(captured, now) then captured else None;
    if NotFuture(a.activated, now) && (from.None? || a.activated.value - 1 > from.value)
    then Some(a.activated.value - 1)
    else from
  }

  ghost predicate OutstandingMeans(a: Assignment, captured: Option<int>, now: int, grace: int, due: Option<int>) {
    match CountFrom(a, captured, now)
    case None => DueMeans(a.schedule, now - grace - 1, due)
    case Some(from) =>
      match due
      case Some(t) =>
        && ValidSchedule(a.schedule) && AreNext(a.schedule, from, [t]) && t <= now
        && (a.schedule.Wall? ==> a.schedule.calendar.dateOf(t) < a.schedule.calendar.dateOf(from) + LOOKAHEAD)
      case None =>
        !ValidSchedule(a.schedule) || a.schedule.Manual? ||
        forall u :: Occurs(a.schedule, u) && from < u <= now ==>
          a.schedule.Wall? && a.schedule.calendar.dateOf(u) >= a.schedule.calendar.dateOf(from) + LOOKAHEAD
  }

  method FirstOutstandingDue(a: Assignment, captured: Option<int>, now: int, grace: int) returns (due: Option<int>)
    requires a.schedule.Wall? ==> Sound(a.schedule.calendar)
    ensures var from := CountFrom(a, captured, now);
            Exact(a.schedule, if from.None? then now - grace - 1 else from.value) ==>
              OutstandingMeans(a, captured, now, grace, due)
  {
    var from := CountFrom(a, captured, now);
    if from.None? {
      due := LatestDue(a.schedule, now - grace - 1);
      return;
    }
    var next := PreviewSchedule(a.schedule, from.value, 1);
    if next.None? || next.value == [] || next.value[0] > now { return None; }
    assert next.value == [next.value[0]];
    due := Some(next.value[0]);
  }

  /** Advancing the clock cannot renew the grace of a copy that was not replaced: with the
      capture or the activation in the past, the first missed deadline stays the same. */
  lemma MissedDeadlineStays(
    a: Assignment, captured: Option<int>, now: int, now': int, grace: int, due: Option<int>, due': Option<int>)
    requires now <= now'
    requires captured.Some? ==> NotFuture(captured, now)
    requires a.activated.Some? ==> NotFuture(a.activated, now)
    requires captured.Some? || a.activated.Some?
    requires OutstandingMeans(a, captured, now, grace, due) && due.Some?
    requires OutstandingMeans(a, captured, now', grace, due')
    ensures due' == due
  {
    var from := CountFrom(a, captured, now).value;
    assert CountFrom(a, captured, now') == Some(from);
    var s, t := a.schedule, due.value;
    assert [t][0] == t;
    assert Occurs(s, t) && from < t <= now';
    assert due'.Some?;
    var u := due'.value;
    assert [u][0] == u;
    assert t <= u ==> t in [u];
    assert u <= t ==> u in [t];
  }

  /** Without either, the reported deadline follows the clock. */
  lemma LegacyDeadlineMoves(hours: int, grace: int, k: nat)
    requires 1 <= hours <= 168 && grace >= 0
    ensures var a := Assignment(true, Interval(hours), None, None);
            var p := Period(hours);
            OutstandingMeans(a, None, Times(k, p) + grace + 1, grace, Some(Times(k, p)))
  {
    PeriodBracketsLatest(Interval(hours), Times(k, Period(hours)), Times(k, Period(hours)));
  }
}
