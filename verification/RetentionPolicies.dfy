/**
Which recovery points a retention policy keeps: the newest of each of the last populated
days, weeks and months, and the oldest point while there are fewer periods than asked for.
*/
module RetentionPolicies {
  type Id = nat
  type Time = int
  type Period = nat

  datatype Snapshot = Snapshot(id: Id, time: Time)

  datatype Policy = Policy(daily: int, weekly: int, monthly: int)

  /** The calendar period of an instant, for each rule of a policy. */
  datatype Calendar = Calendar(day: Time -> Period, week: Time -> Period, month: Time -> Period)

  // -------------------------------------------------------------------------
  // The reference definition
  // -------------------------------------------------------------------------

  /** Newest first; equal capture times are ordered by identifier. */
  predicate Newer(a: Snapshot, b: Snapshot) {
    a.time > b.time || (a.time == b.time && a.id < b.id)
  }

  ghost function NewerThan(s: set<Snapshot>, x: Snapshot): set<Snapshot> {
    set y | y in s && Newer(y, x)
  }

  ghost function Periods(s: set<Snapshot>, period: Time -> Period): set<Period> {
    set y | y in s :: period(y.time)
  }

  /** The newest snapshot of its period. */
  ghost predicate First(s: set<Snapshot>, period: Time -> Period, x: Snapshot) {
    x in s && forall y :: y in s && period(y.time) == period(x.time) ==> !Newer(y, x)
  }

  ghost predicate Oldest(s: set<Snapshot>, x: Snapshot) {
    x in s && forall y :: y in s ==> !Newer(x, y)
  }

  ghost predicate Newest(s: set<Snapshot>, x: Snapshot) {
    x in s && forall y :: y in s ==> !Newer(y, x)
  }

  /** The newest of its period, with fewer newer periods than the rule asks for. */
  ghost predicate Leads(s: set<Snapshot>, count: int, period: Time -> Period, x: Snapshot) {
    First(s, period, x) && |Periods(NewerThan(s, x), period)| < count
  }

  ghost predicate Kept(s: set<Snapshot>, count: int, period: Time -> Period, x: Snapshot) {
    count > 0 && (Leads(s, count, period, x) || (Oldest(s, x) && |Periods(s, period)| < count))
  }

  ghost predicate Retained(s: set<Snapshot>, policy: Policy, calendar: Calendar, x: Snapshot) {
    || Kept(s, policy.daily, calendar.day, x)
    || Kept(s, policy.weekly, calendar.week, x)
    || Kept(s, policy.monthly, calendar.month, x)
  }

  ghost function Survivors(s: set<Snapshot>, policy: Policy, calendar: Calendar): set<Snapshot> {
    set x | x in s && Retained(s, policy, calendar, x)
  }

  // -------------------------------------------------------------------------
  // Laws of the definition
  // -------------------------------------------------------------------------

  lemma SubsetSize<T>(a: set<T>, b: set<T>)
    requires a <= b
    ensures |a| <= |b|
  {
    assert b == a + (b - a);
  }

  /** Losing other snapshots never makes a rule give up one that it kept. */
  lemma FewerSnapshotsKeepMore(s: set<Snapshot>, t: set<Snapshot>, count: int, period: Time -> Period, x: Snapshot)
    requires t <= s && x in t && Kept(s, count, period, x)
    ensures Kept(t, count, period, x)
  {
    SubsetSize(Periods(NewerThan(t, x), period), Periods(NewerThan(s, x), period));
    SubsetSize(Periods(t, period), Periods(s, period));
  }

  /** Running the policy again on what it kept keeps all of it. */
  lemma RetentionIsIdempotent(s: set<Snapshot>, policy: Policy, calendar: Calendar)
    ensures Survivors(Survivors(s, policy, calendar), policy, calendar) == Survivors(s, policy, calendar)
  {
    var t := Survivors(s, policy, calendar);
    forall x | x in t ensures Retained(t, policy, calendar, x) {
      if Kept(s, policy.daily, calendar.day, x) { FewerSnapshotsKeepMore(s, t, policy.daily, calendar.day, x); }
      if Kept(s, policy.weekly, calendar.week, x) { FewerSnapshotsKeepMore(s, t, policy.weekly, calendar.week, x); }
      if Kept(s, policy.monthly, calendar.month, x) { FewerSnapshotsKeepMore(s, t, policy.monthly, calendar.month, x); }
    }
  }

  /** Raising any count never drops a snapshot. */
  lemma RetentionIsMonotone(s: set<Snapshot>, p: Policy, q: Policy, calendar: Calendar)
    requires p.daily <= q.daily && p.weekly <= q.weekly && p.monthly <= q.monthly
    ensures Survivors(s, p, calendar) <= Survivors(s, q, calendar)
  {
  }

  /** The newest snapshot survives exactly when some rule asks for at least one period. */
  lemma NewestSurvivesExactlyWhen(s: set<Snapshot>, policy: Policy, calendar: Calendar, x: Snapshot)
    requires Newest(s, x)
    ensures Retained(s, policy, calendar, x) <==> policy.daily > 0 || policy.weekly > 0 || policy.monthly > 0
  {
    NewestLeads(s, policy.daily, calendar.day, x);
    NewestLeads(s, policy.weekly, calendar.week, x);
    NewestLeads(s, policy.monthly, calendar.month, x);
  }

  lemma NewestLeads(s: set<Snapshot>, count: int, period: Time -> Period, x: Snapshot)
    requires Newest(s, x)
    ensures count > 0 ==> Leads(s, count, period, x)
  {
    assert NewerThan(s, x) == {};
    assert Periods(NewerThan(s, x), period) == {};
  }

  ghost function Leaders(s: set<Snapshot>, count: int, period: Time -> Period): set<Snapshot> {
    set x | x in s && Leads(s, count, period, x)
  }

  lemma {:induction false} OldestExists(s: set<Snapshot>) returns (x: Snapshot)
    requires s != {}
    ensures Oldest(s, x)
  {
    x :| x in s;
    if s != {x} {
      var z := x;
      var y := OldestExists(s - {x});
      assert s == (s - {z}) + {z};
      if Newer(x, y) { x := y; }
      forall w | w in s ensures !Newer(x, w) {
        if w != z { assert w in s - {z} && !Newer(y, w); }
      }
    }
  }

  lemma LeadersWithoutOldest(s: set<Snapshot>, count: int, period: Time -> Period, x: Snapshot)
    requires Oldest(s, x)
    ensures Leaders(s, count, period) - {x} == Leaders(s - {x}, count, period)
    ensures Leads(s, count, period, x) <==>
      period(x.time) !in Periods(s - {x}, period) && |Periods(s - {x}, period)| < count
  {
    var t := s - {x};
    forall y | y in t ensures Leads(s, count, period, y) <==> Leads(t, count, period, y) {
      assert NewerThan(s, y) == NewerThan(t, y);
    }
    assert NewerThan(s, x) == t;
  }

  lemma PeriodsWith(t: set<Snapshot>, period: Time -> Period, x: Snapshot)
    ensures Periods(t + {x}, period) == Periods(t, period) + {period(x.time)}
  {
  }

  lemma PeriodsStep(s: set<Snapshot>, period: Time -> Period, x: Snapshot)
    requires x in s
    ensures |Periods(s, period)| ==
      |Periods(s - {x}, period)| + if period(x.time) in Periods(s - {x}, period) then 0 else 1
  {
    PeriodsWith(s - {x}, period, x);
    assert s == s - {x} + {x};
  }

  lemma WithoutSize<T>(a: set<T>, x: T)
    ensures |a| == |a - {x}| + if x in a then 1 else 0
  {
    if x in a { assert a == a - {x} + {x}; } else { assert a == a - {x}; }
  }

  lemma LeadersStep(s: set<Snapshot>, count: int, period: Time -> Period, x: Snapshot)
    requires Oldest(s, x)
    ensures |Leaders(s, count, period)| == |Leaders(s - {x}, count, period)| +
      if period(x.time) !in Periods(s - {x}, period) && |Periods(s - {x}, period)| < count then 1 else 0
  {
    LeadersWithoutOldest(s, count, period, x);
    WithoutSize(Leaders(s, count, period), x);
  }

  /** Each rule keeps the newest snapshot of as many periods as it asks for, or of all there are. */
  lemma {:induction false} LeadersCount(s: set<Snapshot>, count: nat, period: Time -> Period)
    ensures |Leaders(s, count, period)| == if |Periods(s, period)| < count then |Periods(s, period)| else count
    decreases |s|
  {
    if s == {} {
      assert Leaders(s, count, period) == {} && Periods(s, period) == {};
    } else {
      var x := OldestExists(s);
      LeadersCount(s - {x}, count, period);
      LeadersStep(s, count, period, x);
      PeriodsStep(s, period, x);
    }
  }

  // -------------------------------------------------------------------------
  // Sorting
  // -------------------------------------------------------------------------

  ghost predicate StrictWeak(before: (Snapshot, Snapshot) -> bool) {
    && (forall a, b :: before(a, b) ==> !before(b, a))
    && (forall a, b, c :: !before(b, a) && !before(c, b) ==> !before(c, a))
  }

  predicate SortedBy(s: seq<Snapshot>, before: (Snapshot, Snapshot) -> bool) {
    forall i, k :: 0 <= i < k < |s| ==> !before(s[k], s[i])
  }

  lemma InsertedIsSorted(s: seq<Snapshot>, x: Snapshot, i: nat, before: (Snapshot, Snapshot) -> bool)
    requires StrictWeak(before) && SortedBy(s, before) && i <= |s|
    requires forall k :: i <= k < |s| ==> before(x, s[k])
    requires i > 0 ==> !before(x, s[i - 1])
    ensures SortedBy(s[..i] + [x] + s[i..], before)
  {
    var r := s[..i] + [x] + s[i..];
    forall a, b | 0 <= a < b < |r| ensures !before(r[b], r[a]) {
      if b == i {
        assert r[a] == s[a];
        assert a < i - 1 ==> !before(s[i - 1], s[a]);
      } else if a == i {
        assert r[b] == s[b - 1];
      } else {
        var a', b' := if a < i then a else a - 1, if b < i then b else b - 1;
        assert r[a] == s[a'] && r[b] == s[b'];
      }
    }
  }

  method Insert(s: seq<Snapshot>, x: Snapshot, before: (Snapshot, Snapshot) -> bool) returns (r: seq<Snapshot>)
    requires StrictWeak(before) && SortedBy(s, before)
    ensures SortedBy(r, before) && multiset(r) == multiset(s) + multiset{x}
  {
    var i := |s|;
    while i > 0 && before(x, s[i - 1])
      invariant 0 <= i <= |s|
      invariant forall k :: i <= k < |s| ==> before(x, s[k])
    {
      i := i - 1;
    }
    InsertedIsSorted(s, x, i, before);
    r := s[..i] + [x] + s[i..];
    assert s == s[..i] + s[i..];
  }

  method Sort(s: seq<Snapshot>, before: (Snapshot, Snapshot) -> bool) returns (r: seq<Snapshot>)
    requires StrictWeak(before)
    ensures SortedBy(r, before) && multiset(r) == multiset(s)
  {
    r := [];
    for i := 0 to |s|
      invariant SortedBy(r, before) && multiset(r) == multiset(s[..i])
    {
      r := Insert(r, s[i], before);
      assert s[..i + 1] == s[..i] + [s[i]];
    }
    assert s[..|s|] == s;
  }

  // -------------------------------------------------------------------------
  // The bucket walk
  // -------------------------------------------------------------------------

  ghost function Elements(s: seq<Snapshot>): set<Snapshot> {
    set x | x in s
  }

  predicate InPlace(s: seq<Snapshot>, i: int, k: int) {
    0 <= i < k < |s| ==> !Newer(s[k], s[i])
  }

  ghost predicate NewestFirst(s: seq<Snapshot>) {
    forall i, k {:trigger InPlace(s, i, k)} :: InPlace(s, i, k)
  }

  ghost predicate LeaderId(s: set<Snapshot>, count: int, period: Time -> Period, ordered: seq<Snapshot>, id: Id) {
    exists k :: 0 <= k < |ordered| && ordered[k].id == id && Leads(s, count, period, ordered[k])
  }

  /** A snapshot of a period not met yet is the newest of it, and everything before is newer. */
  lemma NewPeriodLeads(ordered: seq<Snapshot>, i: nat, count: int, period: Time -> Period)
    requires NewestFirst(ordered) && i < |ordered|
    requires period(ordered[i].time) !in Periods(Elements(ordered[..i]), period)
    ensures Leads(Elements(ordered), count, period, ordered[i]) <==>
      |Periods(Elements(ordered[..i]), period)| < count
  {
    var s, x := Elements(ordered), ordered[i];
    forall y | y in s && Newer(y, x) ensures y in ordered[..i] {
      var k :| 0 <= k < |ordered| && ordered[k] == y;
      assert InPlace(ordered, i, k);
    }
    forall y | y in ordered[..i] ensures Newer(y, x) {
      var k :| 0 <= k < i && ordered[k] == y;
      assert InPlace(ordered, k, i) && y in Elements(ordered[..i]);
      assert period(y.time) in Periods(Elements(ordered[..i]), period);
    }
    assert NewerThan(s, x) == Elements(ordered[..i]);
    forall y | y in s && Newer(y, x) ensures period(y.time) != period(x.time) {
      assert y in Elements(ordered[..i]);
    }
  }

  /** A snapshot of a period met already leads only if it was met itself. */
  lemma OldPeriodAdds(ordered: seq<Snapshot>, i: nat, count: int, period: Time -> Period)
    requires NewestFirst(ordered) && i < |ordered|
    requires period(ordered[i].time) in Periods(Elements(ordered[..i]), period)
    ensures Leads(Elements(ordered), count, period, ordered[i]) ==> ordered[i] in ordered[..i]
  {
    var x := ordered[i];
    var y :| y in Elements(ordered[..i]) && period(y.time) == period(x.time);
    var k :| 0 <= k < i && ordered[k] == y;
    assert InPlace(ordered, k, i);
  }

  /** Once the rule has its periods, nothing later leads that was not met. */
  lemma FullRuleEnds(ordered: seq<Snapshot>, i: nat, k: nat, count: int, period: Time -> Period)
    requires NewestFirst(ordered) && i <= k < |ordered|
    requires |Periods(Elements(ordered[..i]), period)| >= count
    ensures Leads(Elements(ordered), count, period, ordered[k]) ==> ordered[k] in ordered[..i]
  {
    var s, x := Elements(ordered), ordered[k];
    if x !in ordered[..i] {
      forall y | y in ordered[..i] ensures Newer(y, x) && y in s {
        var j :| 0 <= j < i && ordered[j] == y;
        assert InPlace(ordered, j, k);
      }
      SubsetSize(Periods(Elements(ordered[..i]), period), Periods(NewerThan(s, x), period));
    }
  }

  /** The identifiers one rule keeps. */
  ghost predicate KeptId(s: set<Snapshot>, count: int, period: Time -> Period, id: Id) {
    exists x :: x in s && x.id == id && Kept(s, count, period, x)
  }

  lemma KeptIdMeans(ordered: seq<Snapshot>, count: int, period: Time -> Period, id: Id)
    requires NewestFirst(ordered) && count > 0
    ensures KeptId(Elements(ordered), count, period, id) <==>
      LeaderId(Elements(ordered), count, period, ordered, id) ||
      (ordered != [] && |Periods(Elements(ordered), period)| < count && ordered[|ordered| - 1].id == id)
  {
    var s := Elements(ordered);
    if KeptId(s, count, period, id) {
      var x :| x in s && x.id == id && Kept(s, count, period, x);
      var k :| 0 <= k < |ordered| && ordered[k] == x;
      if !Leads(s, count, period, x) {
        assert !Newer(x, ordered[|ordered| - 1]);
        assert InPlace(ordered, k, |ordered| - 1);
      }
    }
    if LeaderId(s, count, period, ordered, id) {
      var k :| 0 <= k < |ordered| && ordered[k].id == id && Leads(s, count, period, ordered[k]);
      assert Kept(s, count, period, ordered[k]);
    }
    if ordered != [] && |Periods(s, period)| < count && ordered[|ordered| - 1].id == id {
      forall y | y in s ensures !Newer(ordered[|ordered| - 1], y) {
        var k :| 0 <= k < |ordered| && ordered[k] == y;
        assert InPlace(ordered, k, |ordered| - 1);
      }
      assert Oldest(s, ordered[|ordered| - 1]);
      assert Kept(s, count, period, ordered[|ordered| - 1]);
    }
  }

  lemma PeriodsGrow(ordered: seq<Snapshot>, i: nat, period: Time -> Period)
    requires i < |ordered|
    ensures Periods(Elements(ordered[..i + 1]), period) ==
      Periods(Elements(ordered[..i]), period) + {period(ordered[i].time)}
  {
    assert Elements(ordered[..i + 1]) == Elements(ordered[..i]) + {ordered[i]};
    PeriodsWith(Elements(ordered[..i]), period, ordered[i]);
  }

  lemma PeriodsPrefix(ordered: seq<Snapshot>, i: nat, period: Time -> Period)
    requires i <= |ordered|
    ensures |Periods(Elements(ordered[..i]), period)| <= |Periods(Elements(ordered), period)|
  {
    SubsetSize(Periods(Elements(ordered[..i]), period), Periods(Elements(ordered), period));
  }

  lemma LeaderIdsGrow(s: set<Snapshot>, count: int, period: Time -> Period, grown: seq<Snapshot>)
    requires grown != []
    ensures forall id :: LeaderId(s, count, period, grown, id) <==>
      LeaderId(s, count, period, grown[..|grown| - 1], id) ||
      (grown[|grown| - 1].id == id && Leads(s, count, period, grown[|grown| - 1]))
  {
    var n := |grown| - 1;
    forall id ensures LeaderId(s, count, period, grown, id) <==>
      LeaderId(s, count, period, grown[..n], id) || (grown[n].id == id && Leads(s, count, period, grown[n]))
    {
      if LeaderId(s, count, period, grown[..n], id) {
        var k :| 0 <= k < n && grown[..n][k].id == id && Leads(s, count, period, grown[..n][k]);
        assert grown[k] == grown[..n][k];
      }
      if LeaderId(s, count, period, grown, id) {
        var k :| 0 <= k < |grown| && grown[k].id == id && Leads(s, count, period, grown[k]);
        assert k < n ==> grown[..n][k] == grown[k];
      }
    }
  }

  lemma FullWalkIsDone(ordered: seq<Snapshot>, i: nat, count: int, period: Time -> Period)
    requires NewestFirst(ordered) && i <= |ordered|
    requires |Periods(Elements(ordered[..i]), period)| >= count
    ensures forall id :: LeaderId(Elements(ordered), count, period, ordered, id) <==>
      LeaderId(Elements(ordered), count, period, ordered[..i], id)
  {
    var s := Elements(ordered);
    forall id ensures LeaderId(s, count, period, ordered, id) <==> LeaderId(s, count, period, ordered[..i], id) {
      if LeaderId(s, count, period, ordered, id) {
        var k :| 0 <= k < |ordered| && ordered[k].id == id && Leads(s, count, period, ordered[k]);
        if k >= i { FullRuleEnds(ordered, i, k, count, period); }
        assert ordered[k] in ordered[..i];
        var j :| 0 <= j < i && ordered[..i][j] == ordered[k];
      }
      if LeaderId(s, count, period, ordered[..i], id) {
        var k :| 0 <= k < i && ordered[..i][k].id == id && Leads(s, count, period, ordered[..i][k]);
        assert ordered[k] == ordered[..i][k];
      }
    }
  }

  /** What the walk knows after `i` snapshots. */
  ghost predicate Walked(
    ordered: seq<Snapshot>, i: nat, count: int, period: Time -> Period, leaders: set<Id>, periods: set<Period>)
  {
    && i <= |ordered| && periods == Periods(Elements(ordered[..i]), period)
    && forall id :: id in leaders <==> LeaderId(Elements(ordered), count, period, ordered[..i], id)
  }

  lemma WalkSkips(
    ordered: seq<Snapshot>, i: nat, count: int, period: Time -> Period, leaders: set<Id>, periods: set<Period>)
    requires NewestFirst(ordered) && i < |ordered| && Walked(ordered, i, count, period, leaders, periods)
    requires period(ordered[i].time) in periods
    ensures Walked(ordered, i + 1, count, period, leaders, periods)
  {
    var s, grown := Elements(ordered), ordered[..i + 1];
    assert grown[..i] == ordered[..i];
    PeriodsGrow(ordered, i, period);
    OldPeriodAdds(ordered, i, count, period);
    LeaderIdsGrow(s, count, period, grown);
    if Leads(s, count, period, ordered[i]) {
      var k :| 0 <= k < i && ordered[..i][k] == ordered[i];
      assert LeaderId(s, count, period, ordered[..i], ordered[i].id);
    }
  }

  lemma WalkTakes(
    ordered: seq<Snapshot>, i: nat, count: int, period: Time -> Period, leaders: set<Id>, periods: set<Period>)
    requires NewestFirst(ordered) && i < |ordered| && Walked(ordered, i, count, period, leaders, periods)
    requires period(ordered[i].time) !in periods && |periods| < count
    ensures Walked(ordered, i + 1, count, period, leaders + {ordered[i].id}, periods + {period(ordered[i].time)})
  {
    var grown := ordered[..i + 1];
    assert grown[..i] == ordered[..i];
    PeriodsGrow(ordered, i, period);
    NewPeriodLeads(ordered, i, count, period);
    LeaderIdsGrow(Elements(ordered), count, period, grown);
  }

  /** What the walk is for: the leaders, and whether the rule got all the periods it asks for. */
  ghost predicate Finds(
    ordered: seq<Snapshot>, count: int, period: Time -> Period, leaders: set<Id>, periods: set<Period>)
  {
    && (forall id :: id in leaders <==> LeaderId(Elements(ordered), count, period, ordered, id))
    && (|periods| < count <==> |Periods(Elements(ordered), period)| < count)
  }

  lemma WalkStarts(ordered: seq<Snapshot>, count: int, period: Time -> Period)
    ensures Walked(ordered, 0, count, period, {}, {})
  {
  }

  lemma WalkEnds(
    ordered: seq<Snapshot>, i: nat, count: int, period: Time -> Period, leaders: set<Id>, periods: set<Period>)
    requires NewestFirst(ordered) && Walked(ordered, i, count, period, leaders, periods)
    requires i == |ordered| || |periods| >= count
    ensures Finds(ordered, count, period, leaders, periods)
  {
    if i == |ordered| {
      assert ordered[..i] == ordered;
    } else {
      FullWalkIsDone(ordered, i, count, period);
      PeriodsPrefix(ordered, i, period);
    }
  }

  /** One round of the walk: a new period is taken, unless the rule has all it asks for. */
  method WalkOne(ordered: seq<Snapshot>, i: nat, count: int, period: Time -> Period,
                 leaders: set<Id>, periods: set<Period>)
    returns (full: bool, leaders': set<Id>, periods': set<Period>)
    requires NewestFirst(ordered) && i < |ordered| && Walked(ordered, i, count, period, leaders, periods)
    ensures full ==> |periods| >= count && leaders' == leaders && periods' == periods
    ensures !full ==> Walked(ordered, i + 1, count, period, leaders', periods')
  {
    full, leaders', periods' := false, leaders, periods;
    var x := ordered[i];
    if period(x.time) in periods {
      WalkSkips(ordered, i, count, period, leaders, periods);
    } else if |periods| >= count {
      full := true;
    } else {
      WalkTakes(ordered, i, count, period, leaders, periods);
      periods', leaders' := periods + {period(x.time)}, leaders + {x.id};
    }
  }

  /** The walk over the newest-first list for one rule. */
  method WalkBucket(ordered: seq<Snapshot>, count: int, period: Time -> Period)
    returns (leaders: set<Id>, periods: set<Period>)
    requires NewestFirst(ordered)
    ensures Finds(ordered, count, period, leaders, periods)
  {
    leaders, periods := {}, {};
    var i, full := 0, false;
    WalkStarts(ordered, count, period);
    while i < |ordered| && !full
      invariant 0 <= i <= |ordered| && Walked(ordered, i, count, period, leaders, periods)
      invariant full ==> |periods| >= count
      decreases |ordered| - i, !full
    {
      full, leaders, periods := WalkOne(ordered, i, count, period, leaders, periods);
      if !full { i := i + 1; }
    }
    WalkEnds(ordered, i, count, period, leaders, periods);
  }

  method KeepBucket(ordered: seq<Snapshot>, count: int, period: Time -> Period) returns (keep: set<Id>)
    requires NewestFirst(ordered)
    ensures forall id :: id in keep <==> KeptId(Elements(ordered), count, period, id)
  {
    if count <= 0 { return {}; }
    var periods;
    keep, periods := WalkBucket(ordered, count, period);
    forall id ensures KeptId(Elements(ordered), count, period, id) <==>
      id in keep || (ordered != [] && |periods| < count && ordered[|ordered| - 1].id == id)
    {
      KeptIdMeans(ordered, count, period, id);
    }
    if |periods| < count && ordered != [] {
      keep := keep + {ordered[|ordered| - 1].id};
    }
  }

  ghost predicate RetainedId(s: set<Snapshot>, policy: Policy, calendar: Calendar, id: Id) {
    exists x :: x in s && x.id == id && Retained(s, policy, calendar, x)
  }

  /** `retainedSnapshotIDs`: whatever the order of the list, exactly the survivors. */
  method RetainedSnapshotIds(snapshots: seq<Snapshot>, policy: Policy, calendar: Calendar) returns (keep: set<Id>)
    ensures forall id :: id in keep <==> RetainedId(Elements(snapshots), policy, calendar, id)
  {
    NewerIsStrict();
    var ordered := Sort(snapshots, Newer);
    assert Elements(ordered) == Elements(snapshots) by { SameElements(ordered, snapshots); }
    assert NewestFirst(ordered);
    var daily := KeepBucket(ordered, policy.daily, calendar.day);
    var weekly := KeepBucket(ordered, policy.weekly, calendar.week);
    var monthly := KeepBucket(ordered, policy.monthly, calendar.month);
    keep := daily + weekly + monthly;
    forall id ensures id in keep <==> RetainedId(Elements(snapshots), policy, calendar, id) {
      RetainedIdMeans(Elements(snapshots), policy, calendar, id);
    }
  }

  lemma NewerIsStrict()
    ensures StrictWeak(Newer)
  {
  }

  lemma SameElements(a: seq<Snapshot>, b: seq<Snapshot>)
    requires multiset(a) == multiset(b)
    ensures Elements(a) == Elements(b)
  {
    forall x ensures x in a <==> x in b {
      assert x in a <==> x in multiset(a);
    }
  }

  lemma RetainedIdMeans(s: set<Snapshot>, policy: Policy, calendar: Calendar, id: Id)
    ensures RetainedId(s, policy, calendar, id) <==>
      KeptId(s, policy.daily, calendar.day, id) || KeptId(s, policy.weekly, calendar.week, id) ||
      KeptId(s, policy.monthly, calendar.month, id)
  {
    if KeptId(s, policy.daily, calendar.day, id) {
      var x :| x in s && x.id == id && Kept(s, policy.daily, calendar.day, x);
      assert Retained(s, policy, calendar, x);
    }
    if KeptId(s, policy.weekly, calendar.week, id) {
      var x :| x in s && x.id == id && Kept(s, policy.weekly, calendar.week, x);
      assert Retained(s, policy, calendar, x);
    }
    if KeptId(s, policy.monthly, calendar.month, id) {
      var x :| x in s && x.id == id && Kept(s, policy.monthly, calendar.month, x);
      assert Retained(s, policy, calendar, x);
    }
  }
}
