/**
A retention pass: classifying the listed recovery points through a bounded cache, starting
where the last pass stopped, and deleting the complete ones that the policy gives up.
*/
module Retentions {
  import opened RetentionPolicies

  /** Names a snapshot of a destination in the classification cache. */
  datatype Key = Key(destination: nat, id: Id)

  datatype Status = Complete | Incomplete | Legacy | Unsupported | Invalid | Unrecognised

  datatype Evidence = Evidence(version: int, status: Status, at: Time)

  /** What reading back a snapshot says of it. */
  datatype Answer = Classified(status: Status) | Unavailable

  datatype Error = Ok | Blocked | Unavailing | Failed

  const MAX_EVIDENCE := 4096
  const CLASSIFICATION_VERSION := 1
  const CHECKS_PER_PASS := 64
  const BATCH := 128

  type Cache = map<Key, Evidence>

  // -------------------------------------------------------------------------
  // The bounded cache
  // -------------------------------------------------------------------------

  predicate Usable(cache: Cache, k: Key) {
    && k in cache && cache[k].version == CLASSIFICATION_VERSION && cache[k].at != 0
    && cache[k].status != Unrecognised
  }

  predicate Precedes(a: Key, b: Key) {
    a.destination < b.destination || (a.destination == b.destination && a.id < b.id)
  }

  /** The order of eviction: oldest first, then by key. */
  predicate GoesFirst(cache: Cache, a: Key, b: Key)
    requires a in cache && b in cache
  {
    cache[a].at < cache[b].at || (cache[a].at == cache[b].at && Precedes(a, b))
  }

  method OldestEntry(cache: Cache) returns (oldest: Key)
    requires cache != map[]
    ensures oldest in cache && forall k :: k in cache && k != oldest ==> GoesFirst(cache, oldest, k)
  {
    oldest :| oldest in cache;
    var left := cache.Keys - {oldest};
    while left != {}
      invariant oldest in cache && left <= cache.Keys
      invariant forall k :: k in cache && k !in left && k != oldest ==> GoesFirst(cache, oldest, k)
      decreases left
    {
      var k :| k in left;
      left := left - {k};
      if k != oldest && GoesFirst(cache, k, oldest) { oldest := k; }
    }
  }

  /** What the eviction loop leaves of a full cache. */
  ghost predicate Trimmed(full: Cache, cache: Cache) {
    && (forall k :: k in cache ==> k in full && cache[k] == full[k])
    && (forall d, k :: d in full && d !in cache && k in cache ==> GoesFirst(full, d, k))
  }

  /** Drops the oldest entries, and no more than the bound demands. */
  method Trim(full: Cache) returns (cache: Cache)
    ensures Trimmed(full, cache)
    ensures |cache| == if |full| <= MAX_EVIDENCE then |full| else MAX_EVIDENCE
    ensures |full| <= MAX_EVIDENCE ==> cache == full
  {
    cache := full;
    while |cache| > MAX_EVIDENCE
      invariant Trimmed(full, cache)
      invariant |full| > MAX_EVIDENCE ==> |cache| >= MAX_EVIDENCE
      invariant |full| <= MAX_EVIDENCE ==> cache == full
      decreases |cache|
    {
      var oldest := OldestEntry(cache);
      assert (cache - {oldest}).Keys == cache.Keys - {oldest};
      cache := cache - {oldest};
    }
  }

  ghost predicate Oldest(cache: Cache, d: Key) {
    d in cache && forall x :: x in cache && x != d ==> GoesFirst(cache, d, x)
  }

  /** Remembering one more classification costs another one its place exactly if the cache is full and
      the other is the oldest. */
  lemma EvictedExactlyWhen(cache: Cache, k: Key, e: Evidence, cache': Cache, d: Key)
    requires |cache| <= MAX_EVIDENCE && d in cache && d != k
    requires Trimmed(cache[k := e], cache')
    requires |cache'| == if |cache[k := e]| <= MAX_EVIDENCE then |cache[k := e]| else MAX_EVIDENCE
    ensures d !in cache' <==> |cache| == MAX_EVIDENCE && k !in cache && Oldest(cache[k := e], d)
  {
    var full := cache[k := e];
    var gone := full.Keys - cache'.Keys;
    assert cache'.Keys <= full.Keys && full.Keys == cache.Keys + {k};
    assert |gone| == |full.Keys| - |cache'.Keys|;
    if d !in cache' {
      assert d in gone;
      OneLeft(gone, d);
      forall x | x in full && x != d ensures GoesFirst(full, d, x) {
        assert x !in gone;
      }
    } else if |gone| > 0 {
      var x :| x in gone;
      assert GoesFirst(full, x, d);
    }
  }

  lemma OneLeft(s: set<Key>, d: Key)
    requires d in s && |s| <= 1
    ensures s == {d}
  {
    assert |s - {d}| == 0;
  }

  // -------------------------------------------------------------------------
  // The cyclic walk
  // -------------------------------------------------------------------------

  ghost predicate ById(s: seq<Snapshot>) {
    forall i, k :: 0 <= i < k < |s| ==> s[i].id < s[k].id
  }

  /** The first position from `i` on whose identifier is after the cursor. */
  function After(listed: seq<Snapshot>, cursor: int, i: nat): (r: nat)
    requires i <= |listed|
    ensures i <= r <= |listed| && (r < |listed| ==> listed[r].id > cursor)
    ensures forall k :: i <= k < r ==> listed[k].id <= cursor
    decreases |listed| - i
  {
    if i == |listed| || listed[i].id > cursor then i else After(listed, cursor, i + 1)
  }

  function Start(listed: seq<Snapshot>, cursor: int): (r: nat)
    ensures listed != [] ==> r < |listed|
  {
    var i := After(listed, cursor, 0);
    if i == |listed| then 0 else i
  }

  /** The position of a step of the walk around the list. */
  function Around(start: nat, step: nat, n: nat): (r: nat)
    requires start < n && step < n
    ensures r < n
  {
    if start + step < n then start + step else start + step - n
  }

  function At(listed: seq<Snapshot>, start: nat, step: nat): Snapshot
    requires start < |listed| && step < |listed|
  {
    listed[Around(start, step, |listed|)]
  }

  function Times(a: int, b: int): int {
    a * b
  }

  lemma TimesMonotone(a: int, b: int, n: nat)
    requires a <= b
    ensures Times(a, n) <= Times(b, n)
  {
    assert Times(b, n) - Times(a, n) == (b - a) * n;
  }

  lemma DivisionBrackets(s: nat, n: nat)
    requires n > 0
    ensures Times(s / n, n) + s % n == s
  {
    assert s == n * (s / n) + s % n;
  }

  /** Less than twice around, the remainder is at most one subtraction away. */
  lemma OnceAround(s: nat, n: nat)
    requires s < 2 * n
    ensures s % n == if s < n then s else s - n
  {
    DivisionBrackets(s, n);
    var q := s / n;
    if q >= 2 { TimesMonotone(2, q, n); }
    if q == 1 && s < n { TimesMonotone(1, q, n); }
    if q <= 0 { TimesMonotone(q, 0, n); }
    if q < 0 { TimesMonotone(q, -1, n); }
  }

  lemma AroundIsModulo(start: nat, step: nat, n: nat)
    requires start < n && step < n
    ensures (start + step) % n == Around(start, step, n)
  {
    OnceAround(start + step, n);
  }

  /** How many steps the walk takes from its start to a position. */
  function Offset(listed: seq<Snapshot>, cursor: int, k: nat): (r: nat)
    requires k < |listed|
    ensures r < |listed| && Around(Start(listed, cursor), r, |listed|) == k
  {
    var start := Start(listed, cursor);
    if k >= start then k - start else k - start + |listed|
  }

  lemma StartAfter(listed: seq<Snapshot>, p: nat)
    requires ById(listed) && p < |listed|
    ensures Start(listed, listed[p].id) == if p + 1 < |listed| then p + 1 else 0
  {
    var r := After(listed, listed[p].id, 0);
    assert p + 1 < |listed| ==> listed[p].id < listed[p + 1].id;
    assert forall i :: 0 <= i < p ==> listed[i].id < listed[p].id;
  }

  /** After a pass that stopped at some offset, every later position is that much nearer. */
  lemma CursorAdvances(listed: seq<Snapshot>, cursor: int, last: nat, k: nat)
    requires ById(listed) && k < |listed| && last < Offset(listed, cursor, k)
    ensures var stopped := At(listed, Start(listed, cursor), last).id;
            Offset(listed, stopped, k) == Offset(listed, cursor, k) - last - 1
  {
    StartAfter(listed, Around(Start(listed, cursor), last, |listed|));
  }

  /** Snapshots with no capture time, or one in the future, take no part. */
  predicate Eligible(x: Snapshot, valid: Id -> bool, limit: Time) {
    valid(x.id) && x.time != 0 && x.time <= limit
  }

  predicate Known(cache: Cache, legacy: set<Key>, k: Key) {
    Usable(cache, k) || k in legacy
  }

  predicate KnownComplete(cache: Cache, legacy: set<Key>, k: Key) {
    if Usable(cache, k) then cache[k].status == Complete else k in legacy
  }

  /** A snapshot may count as complete if some evidence of the pass says so. */
  predicate Supported(cache: Cache, legacy: set<Key>, probe: Id -> Answer, k: Key) {
    (Usable(cache, k) && cache[k].status == Complete) || k in legacy || probe(k.id) == Classified(Complete)
  }

  /** Every entry is one the pass started with or an answer it got. */
  ghost predicate Derived(before: Cache, asked: set<Id>, probe: Id -> Answer, cache: Cache) {
    forall k :: k in cache ==>
      (k in before && cache[k] == before[k]) || (k.id in asked && probe(k.id) == Classified(cache[k].status))
  }

  /** The checks since a log was of some length. */
  ghost function Since(n: nat, log: seq<Id>): set<Id> {
    set i | n <= i < |log| :: log[i]
  }

  lemma SinceMore(n: nat, log: seq<Id>, id: Id)
    requires n <= |log|
    ensures Since(n, log + [id]) == Since(n, log) + {id}
    ensures Since(|log|, log) == {}
  {
    var more := log + [id];
    assert more[|log|] == id;
    forall x | x in Since(n, log) ensures x in Since(n, more) {
      var i :| n <= i < |log| && log[i] == x;
      assert more[i] == x;
    }
  }

  lemma SinceGrows(n: nat, m: nat, log: seq<Id>, longer: seq<Id>)
    requires n <= m <= |log| && log <= longer
    ensures Since(n, log) <= Since(n, longer) && Since(m, longer) <= Since(n, longer)
  {
    forall x | x in Since(n, log) ensures x in Since(n, longer) {
      var i :| n <= i < |log| && log[i] == x;
      assert longer[i] == x;
    }
  }

  /** A snapshot is looked at if it was classified before the pass, or asked about and answered. */
  predicate Settled(before: Cache, legacy: set<Key>, asked: set<Id>, probe: Id -> Answer, k: Key) {
    Known(before, legacy, k) || (k.id in asked && probe(k.id).Classified?)
  }

  /** What one pass found: the cache and cursor it started from, the cursor it left, the snapshots
      it looked at, those it asked about and the offset of the last of these. */
  datatype Pass = Pass(cache: Cache, from: int, to: int, looked: set<Id>, asked: set<Id>, last: int)

  /** A pass looks only at what it can classify, asks within its budget, and leaves nothing
      eligible unlooked at but beyond the place where the next pass starts. */
  ghost predicate Faithful(listed: seq<Snapshot>, legacy: set<Key>, destination: nat, valid: Id -> bool, limit: Time,
                           probe: Id -> Answer, pass: Pass)
  {
    && listed != [] && |pass.asked| <= CHECKS_PER_PASS
    && (forall id :: id in pass.looked ==> Settled(pass.cache, legacy, pass.asked, probe, Key(destination, id)))
    && Covers(listed, Start(listed, pass.from), pass.to, pass.looked, pass.last, valid, limit)
  }

  /** Each pass starts where the one before it stopped. */
  ghost predicate Consecutive(passes: seq<Pass>) {
    forall p :: 0 < p < |passes| ==> passes[p].from == passes[p - 1].to
  }

  /** Each pass is faithful to its answers, and asked only what is in the log. */
  ghost predicate AllFaithful(listed: seq<Snapshot>, legacy: set<Key>, destination: nat, valid: Id -> bool,
                              limit: Time, probes: seq<Id -> Answer>, passes: seq<Pass>, ids: set<Id>)
  {
    && |passes| <= |probes|
    && forall p :: 0 <= p < |passes| ==>
         Faithful(listed, legacy, destination, valid, limit, probes[p], passes[p]) && passes[p].asked <= ids
  }

  lemma AnotherPass(listed: seq<Snapshot>, legacy: set<Key>, destination: nat, valid: Id -> bool, limit: Time,
                    probes: seq<Id -> Answer>, passes: seq<Pass>, ids: set<Id>, pass: Pass, more: set<Id>)
    requires AllFaithful(listed, legacy, destination, valid, limit, probes, passes, ids) && |passes| < |probes|
    requires Faithful(listed, legacy, destination, valid, limit, probes[|passes|], pass)
    requires ids <= more && pass.asked <= more
    requires Consecutive(passes) && (passes != [] ==> pass.from == passes[|passes| - 1].to)
    ensures AllFaithful(listed, legacy, destination, valid, limit, probes, passes + [pass], more)
    ensures Consecutive(passes + [pass])
  {
  }

  lemma {:induction false} NearerEachPass(listed: seq<Snapshot>, legacy: set<Key>, destination: nat, valid: Id -> bool,
                                          limit: Time, probes: seq<Id -> Answer>, passes: seq<Pass>, ids: set<Id>,
                                          k: nat, n: nat)
    requires ById(listed) && k < |listed| && Eligible(listed[k], valid, limit)
    requires AllFaithful(listed, legacy, destination, valid, limit, probes, passes, ids)
    requires Consecutive(passes) && 0 < n <= |passes|
    requires forall p :: 0 <= p < n ==> listed[k].id !in passes[p].looked
    ensures Offset(listed, passes[n - 1].to, k) < |listed| - n * CHECKS_PER_PASS
  {
    var pass := passes[n - 1];
    if n > 1 { NearerEachPass(listed, legacy, destination, valid, limit, probes, passes, ids, k, n - 1); }
    assert Faithful(listed, legacy, destination, valid, limit, probes[n - 1], pass);
    assert At(listed, Start(listed, pass.from), Offset(listed, pass.from, k)) == listed[k];
    CursorAdvances(listed, pass.from, pass.last, k);
  }

  /** Fairness: over an unchanged list, every eligible snapshot is looked at within as many passes
      as full budgets cover the list, whatever becomes of the cache between them. */
  lemma EverySnapshotIsLookedAt(listed: seq<Snapshot>, legacy: set<Key>, destination: nat, valid: Id -> bool,
                                limit: Time, probes: seq<Id -> Answer>, passes: seq<Pass>, ids: set<Id>, k: nat)
    requires ById(listed) && k < |listed| && Eligible(listed[k], valid, limit)
    requires AllFaithful(listed, legacy, destination, valid, limit, probes, passes, ids)
    requires Consecutive(passes) && |passes| * CHECKS_PER_PASS >= |listed|
    ensures exists p :: 0 <= p < |passes| && listed[k].id in passes[p].looked
  {
    if forall p :: 0 <= p < |passes| ==> listed[k].id !in passes[p].looked {
      NearerEachPass(listed, legacy, destination, valid, limit, probes, passes, ids, k, |passes|);
    }
  }

  /** What the walk knows after `i` steps. `looked` are the snapshots it could classify; `last` is
      the offset of its last check, if there was one. */
  ghost predicate Progress(listed: seq<Snapshot>, cursor: int, start: nat, i: nat, looked: set<Id>, last: int,
                           left: nat, valid: Id -> bool, limit: Time)
  {
    && start < |listed| && i <= |listed| && -1 <= last < i && CHECKS_PER_PASS - left <= last + 1
    && (last >= 0 ==> cursor == At(listed, start, last).id)
    && forall k :: 0 <= k < i ==> Handled(At(listed, start, k), k, looked, last, left, valid, limit)
  }

  predicate Handled(x: Snapshot, k: nat, looked: set<Id>, last: int, left: nat, valid: Id -> bool, limit: Time) {
    Eligible(x, valid, limit) ==> x.id in looked || (left == 0 && last < k)
  }

  lemma WalkStep(listed: seq<Snapshot>, cursor: int, start: nat, i: nat, looked: set<Id>, last: int, left: nat,
                 valid: Id -> bool, limit: Time, seen: bool, checked: bool)
    requires Progress(listed, cursor, start, i, looked, last, left, valid, limit) && i < |listed|
    requires checked ==> left > 0 && seen
    requires Eligible(At(listed, start, i), valid, limit) && !seen ==> left == 0
    ensures var x := At(listed, start, i);
      Progress(listed, if checked then x.id else cursor, start, i + 1, if seen then looked + {x.id} else looked,
               if checked then i else last, if checked then left - 1 else left, valid, limit)
  {
    forall k | 0 <= k < i && checked && Eligible(At(listed, start, k), valid, limit)
      ensures At(listed, start, k).id in looked
    {
      assert Handled(At(listed, start, k), k, looked, last, left, valid, limit);
    }
  }

  /** What a finished walk leaves for the next one. */
  ghost predicate Covers(listed: seq<Snapshot>, start: nat, cursor: int, looked: set<Id>, last: int,
                         valid: Id -> bool, limit: Time)
    requires start < |listed|
  {
    forall k :: 0 <= k < |listed| && Eligible(At(listed, start, k), valid, limit) &&
                At(listed, start, k).id !in looked ==>
      CHECKS_PER_PASS - 1 <= last < k && cursor == At(listed, start, last).id
  }

  lemma WalkMeetsOnce(listed: seq<Snapshot>, start: nat, i: nat, k: nat)
    requires ById(listed) && start < |listed| && i < k < |listed|
    ensures At(listed, start, i).id != At(listed, start, k).id
  {
    var a, b := Around(start, i, |listed|), Around(start, k, |listed|);
    if a < b { assert listed[a].id < listed[b].id; } else { assert listed[b].id < listed[a].id; }
  }

  /** The snapshots a walk may call complete. */
  ghost predicate Credible(cache: Cache, legacy: set<Key>, probe: Id -> Answer, destination: nat,
                           valid: Id -> bool, limit: Time, x: Snapshot)
  {
    Eligible(x, valid, limit) && Supported(cache, legacy, probe, Key(destination, x.id))
  }

  ghost predicate Met(listed: seq<Snapshot>, start: nat, i: nat, x: Snapshot)
    requires start < |listed| && i <= |listed|
  {
    exists k :: 0 <= k < i && At(listed, start, k) == x
  }

  /** Credible snapshots from the first `i` steps, each at most once. */
  ghost predicate Collected(listed: seq<Snapshot>, start: nat, i: nat, verified: seq<Snapshot>)
    requires start < |listed| && i <= |listed|
  {
    && (forall a :: 0 <= a < |verified| ==> Met(listed, start, i, verified[a]))
    && (forall a, b :: 0 <= a < b < |verified| ==> verified[a].id != verified[b].id)
  }

  /** What a pass starts with. */
  datatype View = View(cache: Cache, legacy: set<Key>, destination: nat)

  /** What a pass must say of a snapshot it has passed: whoever was asked is judged by the answer, the
      others by the evidence the pass started with. Evidence that the pass itself evicts from the full
      cache may be gone before its snapshot's turn; then only legacy evidence is left, if there is any. */
  ghost predicate Verdict(y: Snapshot, looked: bool, complete: bool, asked: bool, view: View, cache: Cache,
                          valid: Id -> bool, limit: Time, probe: Id -> Answer)
  {
    var k := Key(view.destination, y.id);
    if !Eligible(y, valid, limit) then !looked && !complete && !asked
    else if asked then looked && (complete <==> probe(y.id) == Classified(Complete))
    else if Usable(view.cache, k) && k in cache then looked && (complete <==> view.cache[k].status == Complete)
    else if k in view.legacy then looked && (!Usable(view.cache, k) || view.cache[k].status == Complete ==> complete)
    else
      && (looked ==> Usable(view.cache, k))
      && (complete <==> looked && view.cache[k].status == Complete)
  }

  ghost predicate Judged(y: Snapshot, looked: set<Id>, verified: seq<Snapshot>, ids: set<Id>, view: View, cache: Cache,
                         valid: Id -> bool, limit: Time, probe: Id -> Answer)
  {
    Verdict(y, y.id in looked, y in verified, y.id in ids, view, cache, valid, limit, probe)
  }

  /** While nothing is evicted, the verdicts are those of the answers and of the evidence from before. */
  lemma UnevictedVerdictIsExact(y: Snapshot, looked: set<Id>, verified: seq<Snapshot>, ids: set<Id>, view: View,
                                cache: Cache, valid: Id -> bool, limit: Time, probe: Id -> Answer)
    requires Judged(y, looked, verified, ids, view, cache, valid, limit, probe) && view.cache.Keys <= cache.Keys
    ensures var k := Key(view.destination, y.id);
            y in verified <==>
              && Eligible(y, valid, limit)
              && if y.id in ids then probe(y.id) == Classified(Complete)
                 else KnownComplete(view.cache, view.legacy, k)
  {
  }

  /** With room for every answer, nothing is evicted. */
  ghost predicate Roomy(before: Cache, ids: set<Id>, cache: Cache) {
    |before| + |ids| <= MAX_EVIDENCE ==> before.Keys <= cache.Keys && |cache| <= |before| + |ids|
  }

  /** Nothing but the answer about `id` comes into the cache. */
  ghost predicate OnlyGains(before: Cache, cache: Cache, id: Id) {
    forall k :: k in cache && k.id != id ==> k in before
  }

  ghost predicate MetId(listed: seq<Snapshot>, start: nat, i: nat, id: Id)
    requires start < |listed| && i <= |listed|
  {
    exists k :: 0 <= k < i && At(listed, start, k).id == id
  }

  /** Only snapshots of the first `i` steps were looked at, and all of these are judged. */
  ghost predicate Verdicts(listed: seq<Snapshot>, start: nat, i: nat, looked: set<Id>, verified: seq<Snapshot>,
                           ids: set<Id>, view: View, cache: Cache, valid: Id -> bool, limit: Time, probe: Id -> Answer)
    requires start < |listed| && i <= |listed|
  {
    && (forall id :: id in looked ==> MetId(listed, start, i, id))
    && (forall m {:trigger Step(m)} :: 0 <= m < i && Step(m) ==>
          Judged(At(listed, start, m), looked, verified, ids, view, cache, valid, limit, probe))
  }

  /** Names a step of the walk, so that a verdict is looked up by its step alone. */
  ghost predicate Step(m: int) { true }

  lemma JudgeOne(listed: seq<Snapshot>, start: nat, i: nat, looked: set<Id>, verified: seq<Snapshot>, ids: set<Id>,
                 view: View, cache: Cache, cache': Cache, valid: Id -> bool, limit: Time, probe: Id -> Answer,
                 seen: bool, complete: bool, checked: bool)
    requires ById(listed) && start < |listed| && i < |listed|
    requires Verdicts(listed, start, i, looked, verified, ids, view, cache, valid, limit, probe)
    requires Collected(listed, start, i, verified) && forall id :: id in ids ==> MetId(listed, start, i, id)
    requires OnlyGains(cache, cache', At(listed, start, i).id)
    requires Verdict(At(listed, start, i), seen, complete, checked, view, cache', valid, limit, probe)
    ensures var x := At(listed, start, i);
            Verdicts(listed, start, i + 1, if seen then looked + {x.id} else looked,
                     if complete then verified + [x] else verified, if checked then ids + {x.id} else ids,
                     view, cache', valid, limit, probe)
  {
    var x := At(listed, start, i);
    var looked' := if seen then looked + {x.id} else looked;
    var verified' := if complete then verified + [x] else verified;
    var ids' := if checked then ids + {x.id} else ids;
    LookedIsMet(listed, start, i, looked, looked');
    NotMetYet(listed, start, i, looked, verified, ids);
    JudgedNow(x, seen, complete, checked, looked, verified, ids, view, cache', valid, limit, probe);
    JudgedBefore(listed, start, i, looked, verified, ids, looked', verified', ids', view, cache, cache',
                 valid, limit, probe);
  }

  lemma LookedIsMet(listed: seq<Snapshot>, start: nat, i: nat, looked: set<Id>, looked': set<Id>)
    requires start < |listed| && i < |listed| && forall id :: id in looked ==> MetId(listed, start, i, id)
    requires looked' <= looked + {At(listed, start, i).id}
    ensures forall id :: id in looked' ==> MetId(listed, start, i + 1, id)
  {
    forall id | id in looked' ensures MetId(listed, start, i + 1, id) {
      if id in looked {
        var k :| 0 <= k < i && At(listed, start, k).id == id;
        assert At(listed, start, k).id == id;
      }
    }
  }

  lemma JudgedBefore(listed: seq<Snapshot>, start: nat, i: nat, looked: set<Id>, verified: seq<Snapshot>, ids: set<Id>,
                     looked': set<Id>, verified': seq<Snapshot>, ids': set<Id>, view: View, cache: Cache, cache': Cache,
                     valid: Id -> bool, limit: Time, probe: Id -> Answer)
    requires ById(listed) && start < |listed| && i < |listed|
    requires Verdicts(listed, start, i, looked, verified, ids, view, cache, valid, limit, probe)
    requires var x := At(listed, start, i);
             && (looked' == looked || looked' == looked + {x.id})
             && (verified' == verified || verified' == verified + [x])
             && (ids' == ids || ids' == ids + {x.id})
             && OnlyGains(cache, cache', x.id)
    ensures forall m {:trigger Step(m)} :: 0 <= m < i && Step(m) ==>
      Judged(At(listed, start, m), looked', verified', ids', view, cache', valid, limit, probe)
  {
    forall m | 0 <= m < i && Step(m)
      ensures Judged(At(listed, start, m), looked', verified', ids', view, cache', valid, limit, probe)
    {
      WalkMeetsOnce(listed, start, m, i);
      JudgedStays(At(listed, start, m), At(listed, start, i), looked, verified, ids, looked', verified', ids', view,
                  cache, cache', valid, limit, probe);
    }
  }

  lemma JudgedNow(x: Snapshot, seen: bool, complete: bool, checked: bool, looked: set<Id>, verified: seq<Snapshot>,
                  ids: set<Id>, view: View, cache: Cache, valid: Id -> bool, limit: Time, probe: Id -> Answer)
    requires Verdict(x, seen, complete, checked, view, cache, valid, limit, probe)
    requires x.id !in looked && x !in verified && x.id !in ids
    ensures Judged(x, if seen then looked + {x.id} else looked, if complete then verified + [x] else verified,
                   if checked then ids + {x.id} else ids, view, cache, valid, limit, probe)
  {
  }

  lemma JudgedStays(y: Snapshot, x: Snapshot, looked: set<Id>, verified: seq<Snapshot>, ids: set<Id>,
                    looked': set<Id>, verified': seq<Snapshot>, ids': set<Id>, view: View, cache: Cache, cache': Cache,
                    valid: Id -> bool, limit: Time, probe: Id -> Answer)
    requires Judged(y, looked, verified, ids, view, cache, valid, limit, probe) && y.id != x.id
    requires looked' == looked || looked' == looked + {x.id}
    requires verified' == verified || verified' == verified + [x]
    requires ids' == ids || ids' == ids + {x.id}
    requires OnlyGains(cache, cache', x.id)
    ensures Judged(y, looked', verified', ids', view, cache', valid, limit, probe)
  {
    VerdictStays(y, y.id in looked, y in verified, y.id in ids, view, cache, cache', valid, limit, probe);
    assert y.id in looked' <==> y.id in looked;
    assert y in verified' <==> y in verified;
    assert y.id in ids' <==> y.id in ids;
  }

  lemma VerdictStays(y: Snapshot, looked: bool, complete: bool, asked: bool, view: View, cache: Cache, cache': Cache,
                     valid: Id -> bool, limit: Time, probe: Id -> Answer)
    requires Verdict(y, looked, complete, asked, view, cache, valid, limit, probe)
    requires var k := Key(view.destination, y.id); k in cache' ==> k in cache
    ensures Verdict(y, looked, complete, asked, view, cache', valid, limit, probe)
  {
  }

  /** The walk goes round the whole list. */
  lemma WalkMeetsAll(listed: seq<Snapshot>, start: nat, x: Snapshot) returns (m: nat)
    requires start < |listed| && x in listed
    ensures m < |listed| && At(listed, start, m) == x
  {
    var k :| 0 <= k < |listed| && listed[k] == x;
    m := if k >= start then k - start else k + |listed| - start;
  }

  /** Whatever a finished walk did not look at, it had no check left for. */
  lemma UnlookedIsUnaffordable(listed: seq<Snapshot>, cursor: int, start: nat, looked: set<Id>, last: int, left: nat,
                               valid: Id -> bool, limit: Time, x: Snapshot)
    requires Progress(listed, cursor, start, |listed|, looked, last, left, valid, limit)
    requires x in listed && Eligible(x, valid, limit) && x.id !in looked
    ensures left == 0
  {
    var m := WalkMeetsAll(listed, start, x);
    assert Handled(At(listed, start, m), m, looked, last, left, valid, limit);
  }

  /** Every listed snapshot has its verdict. */
  lemma AllJudged(listed: seq<Snapshot>, start: nat, looked: set<Id>, verified: seq<Snapshot>, ids: set<Id>,
                  view: View, cache: Cache, valid: Id -> bool, limit: Time, probe: Id -> Answer)
    requires start < |listed|
    requires Verdicts(listed, start, |listed|, looked, verified, ids, view, cache, valid, limit, probe)
    ensures forall x :: x in listed ==> Judged(x, looked, verified, ids, view, cache, valid, limit, probe)
  {
    forall x | x in listed
      ensures Judged(x, looked, verified, ids, view, cache, valid, limit, probe)
    {
      var m := WalkMeetsAll(listed, start, x);
      assert Step(m) && Judged(At(listed, start, m), looked, verified, ids, view, cache, valid, limit, probe);
    }
  }

  lemma NotMetYet(listed: seq<Snapshot>, start: nat, i: nat, looked: set<Id>, verified: seq<Snapshot>, ids: set<Id>)
    requires ById(listed) && start < |listed| && i < |listed| && Collected(listed, start, i, verified)
    requires forall id :: id in looked || id in ids ==> MetId(listed, start, i, id)
    ensures At(listed, start, i).id !in looked && At(listed, start, i).id !in ids
    ensures At(listed, start, i) !in verified
  {
    forall k | 0 <= k < i ensures At(listed, start, k).id != At(listed, start, i).id {
      WalkMeetsOnce(listed, start, k, i);
    }
    forall a | 0 <= a < |verified| ensures verified[a] != At(listed, start, i) {
      assert Met(listed, start, i, verified[a]);
    }
  }

  /** Only snapshots met so far were asked about, and whatever was looked at is settled. */
  ghost predicate Answered(listed: seq<Snapshot>, start: nat, i: nat, ids: set<Id>, looked: set<Id>,
                           before: Cache, legacy: set<Key>, destination: nat, probe: Id -> Answer)
    requires start < |listed| && i <= |listed|
  {
    && (forall id :: id in ids ==> MetId(listed, start, i, id) && probe(id) != Unavailable)
    && (forall id :: id in looked ==> Settled(before, legacy, ids, probe, Key(destination, id)))
  }

  lemma NotAskedYet(listed: seq<Snapshot>, start: nat, i: nat, ids: set<Id>)
    requires ById(listed) && start < |listed| && i < |listed|
    requires forall id :: id in ids ==> MetId(listed, start, i, id)
    ensures At(listed, start, i).id !in ids
  {
    forall k | 0 <= k < i ensures At(listed, start, k).id != At(listed, start, i).id {
      WalkMeetsOnce(listed, start, k, i);
    }
  }

  lemma AnswerOne(listed: seq<Snapshot>, start: nat, i: nat, ids: set<Id>, looked: set<Id>, before: Cache,
                  legacy: set<Key>, destination: nat, probe: Id -> Answer, seen: bool, checked: bool)
    requires start < |listed| && i < |listed|
    requires Answered(listed, start, i, ids, looked, before, legacy, destination, probe)
    requires checked ==> probe(At(listed, start, i).id) != Unavailable
    requires var x := At(listed, start, i);
             seen ==> Settled(before, legacy, if checked then {x.id} else {}, probe, Key(destination, x.id))
    ensures var x := At(listed, start, i);
            Answered(listed, start, i + 1, if checked then ids + {x.id} else ids,
                     if seen then looked + {x.id} else looked, before, legacy, destination, probe)
  {
    var x := At(listed, start, i);
    forall id | id in ids + {x.id} ensures MetId(listed, start, i + 1, id) {
      if id in ids {
        var k :| 0 <= k < i && At(listed, start, k).id == id;
        assert At(listed, start, k).id == id;
      }
    }
  }

  lemma CollectOne(listed: seq<Snapshot>, start: nat, i: nat, verified: seq<Snapshot>)
    requires ById(listed) && start < |listed| && i < |listed| && Collected(listed, start, i, verified)
    ensures Collected(listed, start, i + 1, verified)
    ensures Collected(listed, start, i + 1, verified + [At(listed, start, i)])
  {
    var x := At(listed, start, i);
    forall a | 0 <= a < |verified|
      ensures verified[a].id != x.id
      ensures Met(listed, start, i + 1, verified[a])
    {
      assert Met(listed, start, i, verified[a]);
      var k :| 0 <= k < i && At(listed, start, k) == verified[a];
      WalkMeetsOnce(listed, start, k, i);
    }
  }

  /** What a walk has looked at and asked about, and the offset of its last check. */
  datatype Notes = Notes(looked: set<Id>, ids: set<Id>, last: int)

  /** Everything the walk keeps up, after `i` steps. */
  ghost predicate OnTrack(listed: seq<Snapshot>, start: nat, i: nat, cursor: int, looked: set<Id>, last: int, left: nat,
                          verified: seq<Snapshot>, ids: set<Id>, cache: Cache, view: View,
                          valid: Id -> bool, limit: Time, probe: Id -> Answer)
    requires start < |listed| && i <= |listed|
  {
    && Progress(listed, cursor, start, i, looked, last, left, valid, limit)
    && Collected(listed, start, i, verified)
    && Verdicts(listed, start, i, looked, verified, ids, view, cache, valid, limit, probe)
    && Answered(listed, start, i, ids, looked, view.cache, view.legacy, view.destination, probe)
    && forall x :: x in verified ==> Credible(view.cache, view.legacy, probe, view.destination, valid, limit, x)
  }

  lemma OnTrackStep(listed: seq<Snapshot>, start: nat, i: nat, cursor: int, looked: set<Id>, last: int, left: nat,
                    verified: seq<Snapshot>, ids: set<Id>, cache: Cache, cache': Cache, view: View,
                    valid: Id -> bool, limit: Time, probe: Id -> Answer, seen: bool, complete: bool, checked: bool)
    requires ById(listed) && start < |listed| && i < |listed|
    requires OnTrack(listed, start, i, cursor, looked, last, left, verified, ids, cache, view, valid, limit, probe)
    requires OnlyGains(cache, cache', At(listed, start, i).id)
    requires Verdict(At(listed, start, i), seen, complete, checked, view, cache', valid, limit, probe)
    requires checked ==> left > 0 && seen && probe(At(listed, start, i).id) != Unavailable
    requires Eligible(At(listed, start, i), valid, limit) && !seen ==> left == 0
    requires complete ==>
      Credible(view.cache, view.legacy, probe, view.destination, valid, limit, At(listed, start, i))
    requires var x := At(listed, start, i);
             seen ==> Settled(view.cache, view.legacy, if checked then {x.id} else {}, probe,
                              Key(view.destination, x.id))
    ensures var x := At(listed, start, i);
            OnTrack(listed, start, i + 1, if checked then x.id else cursor, if seen then looked + {x.id} else looked,
                    if checked then i else last, if checked then left - 1 else left,
                    if complete then verified + [x] else verified, if checked then ids + {x.id} else ids,
                    cache', view, valid, limit, probe)
  {
    CollectOne(listed, start, i, verified);
    JudgeOne(listed, start, i, looked, verified, ids, view, cache, cache', valid, limit, probe,
             seen, complete, checked);
    AnswerOne(listed, start, i, ids, looked, view.cache, view.legacy, view.destination, probe, seen, checked);
    WalkStep(listed, cursor, start, i, looked, last, left, valid, limit, seen, checked);
  }

  // -------------------------------------------------------------------------
  // Deleting
  // -------------------------------------------------------------------------

  predicate KeepsAll(policy: Policy) {
    policy.daily == 0 && policy.weekly == 0 && policy.monthly == 0
  }

  predicate SomeRule(policy: Policy) {
    policy.daily > 0 || policy.weekly > 0 || policy.monthly > 0
  }

  ghost predicate DistinctIds(s: seq<Snapshot>) {
    forall i, k :: 0 <= i < k < |s| ==> s[i].id != s[k].id
  }

  ghost predicate Unique(s: seq<Id>) {
    forall i, k :: 0 <= i < k < |s| ==> s[i] != s[k]
  }

  function Concat(batches: seq<seq<Id>>): seq<Id> {
    if batches == [] then [] else Concat(batches[..|batches| - 1]) + batches[|batches| - 1]
  }

  /** The deletion list: verified snapshots that are not kept, in the order of the walk. */
  function Removals(verified: seq<Snapshot>, keep: set<Id>): seq<Id> {
    if verified == [] then [] else
      var n := |verified| - 1;
      Removals(verified[..n], keep) + if verified[n].id in keep then [] else [verified[n].id]
  }

  lemma {:induction false} RemovalsMean(verified: seq<Snapshot>, keep: set<Id>)
    ensures forall id :: id in Removals(verified, keep) <==> id !in keep && exists x :: x in verified && x.id == id
    ensures DistinctIds(verified) ==> Unique(Removals(verified, keep))
  {
    if verified != [] {
      var n := |verified| - 1;
      RemovalsMean(verified[..n], keep);
      assert verified == verified[..n] + [verified[n]];
    }
  }

  /** Only unkept snapshots go, and all of them do if no command fails. */
  ghost predicate Deletes(verified: seq<Snapshot>, policy: Policy, calendar: Calendar, checkpoint: set<Id>,
                          deleted: seq<Id>, all: bool)
  {
    && (forall id :: id in deleted ==> Goes(verified, policy, calendar, checkpoint, id))
    && (all ==> KeepsAll(policy) || forall id :: Goes(verified, policy, calendar, checkpoint, id) ==> id in deleted)
  }

  ghost predicate Goes(verified: seq<Snapshot>, policy: Policy, calendar: Calendar, checkpoint: set<Id>, id: Id) {
    && id !in checkpoint && !RetainedId(Elements(verified), policy, calendar, id)
    && exists x :: x in verified && x.id == id
  }

  lemma ConcatMore(batches: seq<seq<Id>>, left: seq<Id>, n: nat, whole: seq<Id>)
    requires n <= |left| && Concat(batches) + left == whole
    ensures Concat(batches + [left[..n]]) + left[n..] == whole
  {
    var more := batches + [left[..n]];
    assert more[..|more| - 1] == batches;
    assert left == left[..n] + left[n..];
  }

  /** Issues the deletions in batches until one fails. */
  method Forget(remove: seq<Id>, fails: seq<Id> -> bool) returns (error: Error, batches: seq<seq<Id>>)
    ensures forall b :: b in batches ==> 0 < |b| <= BATCH
    ensures Concat(batches) <= remove && (error == Ok ==> Concat(batches) == remove)
    ensures error == if exists b :: b in batches && fails(b) then Failed else Ok
  {
    var left := remove;
    batches := [];
    while left != []
      invariant forall b :: b in batches ==> 0 < |b| <= BATCH
      invariant Concat(batches) + left == remove
      invariant forall b :: b in batches ==> !fails(b)
      decreases |left|
    {
      var n := if |left| < BATCH then |left| else BATCH;
      ConcatMore(batches, left, n, remove);
      batches := batches + [left[..n]];
      left := left[n..];
      if fails(batches[|batches| - 1]) { return Failed, batches; }
    }
    error := Ok;
  }

  lemma DeletionsMean(verified: seq<Snapshot>, keep: set<Id>, policy: Policy, calendar: Calendar, checkpoint: set<Id>,
                      deleted: seq<Id>, all: bool)
    requires forall id :: id in keep <==> RetainedId(Elements(verified), policy, calendar, id)
    requires DistinctIds(verified) && deleted <= Removals(verified, keep + checkpoint)
    requires all ==> deleted == Removals(verified, keep + checkpoint)
    ensures Unique(deleted) && Deletes(verified, policy, calendar, checkpoint, deleted, all)
  {
    var removals := Removals(verified, keep + checkpoint);
    RemovalsMean(verified, keep + checkpoint);
    forall id ensures id in removals <==> Goes(verified, policy, calendar, checkpoint, id) {}
    forall id | id in deleted ensures id in removals {
      var i :| 0 <= i < |deleted| && deleted[i] == id;
      assert removals[i] == id;
    }
  }

  predicate IdBefore(a: Snapshot, b: Snapshot) {
    a.id < b.id
  }

  method SortById(s: seq<Snapshot>) returns (r: seq<Snapshot>)
    requires DistinctIds(s)
    ensures ById(r) && multiset(r) == multiset(s)
  {
    r := Sort(s, IdBefore);
    DistinctSurvives(s, r);
  }

  lemma DistinctSurvives(s: seq<Snapshot>, r: seq<Snapshot>)
    requires DistinctIds(s) && multiset(r) == multiset(s)
    ensures DistinctIds(r)
  {
    forall i, k | 0 <= i < k < |r| ensures r[i].id != r[k].id {
      if r[i].id == r[k].id {
        SameElements(r, s);
        assert r[i] in Elements(r) && r[k] in Elements(r);
        TwiceInSequence(r, i, k);
        OnceInSequence(s, r[i]);
      }
    }
  }

  lemma TwiceInSequence(r: seq<Snapshot>, i: nat, k: nat)
    requires i < k < |r|
    ensures r[i] == r[k] ==> multiset(r)[r[i]] >= 2
  {
    assert r == r[..i] + [r[i]] + r[i + 1..k] + [r[k]] + r[k + 1..];
  }

  lemma {:induction false} OnceInSequence(s: seq<Snapshot>, x: Snapshot)
    requires DistinctIds(s)
    ensures multiset(s)[x] <= 1
  {
    if s != [] {
      var n := |s| - 1;
      assert s == s[..n] + [s[n]];
      OnceInSequence(s[..n], x);
      if s[n] == x { assert x !in s[..n]; }
    }
  }

  lemma WalkedAreListed(listed: seq<Snapshot>, start: nat, verified: seq<Snapshot>)
    requires start < |listed| && Collected(listed, start, |listed|, verified)
    ensures forall x :: x in verified ==> x in Elements(listed)
    ensures DistinctIds(verified)
  {
    forall x | x in verified ensures x in listed {
      var a :| 0 <= a < |verified| && verified[a] == x;
      assert Met(listed, start, |listed|, verified[a]);
    }
  }

  /** The newest complete snapshot is never deleted, if evidence tells the truth and some rule
      asks for a period. */
  lemma NewestIsNeverDeleted(inventory: seq<Snapshot>, verified: seq<Snapshot>, policy: Policy, calendar: Calendar,
                             checkpoint: set<Id>, truth: set<Snapshot>, x: Snapshot)
    requires DistinctIds(inventory) && Elements(verified) <= truth <= Elements(inventory)
    requires Newest(truth, x) && SomeRule(policy)
    ensures !Goes(verified, policy, calendar, checkpoint, x.id)
  {
    if x in verified {
      NewestSurvivesExactlyWhen(Elements(verified), policy, calendar, x);
    } else {
      forall y | y in verified ensures y.id != x.id {
        assert y in Elements(verified) && y in Elements(inventory) && x in Elements(inventory);
      }
    }
  }

  /** With no positive count the newest verified snapshot is given up like any other; negative
      counts get past the keep-all test, and only plan validation rules them out. */
  lemma NewestGoesExactlyWhen(verified: seq<Snapshot>, policy: Policy, calendar: Calendar, checkpoint: set<Id>,
                              x: Snapshot)
    requires DistinctIds(verified) && Newest(Elements(verified), x)
    ensures Goes(verified, policy, calendar, checkpoint, x.id) <==> x.id !in checkpoint && !SomeRule(policy)
  {
    NewestSurvivesExactlyWhen(Elements(verified), policy, calendar, x);
    if !SomeRule(policy) {
      assert forall y :: !Retained(Elements(verified), policy, calendar, y);
    }
  }

  lemma NegativeCountGivesUpNewest(policy: Policy, calendar: Calendar, x: Snapshot)
    requires policy == Policy(-1, 0, 0)
    ensures !KeepsAll(policy) && Goes([x], policy, calendar, {}, x.id)
  {
    assert x in [x];
    assert Newest(Elements([x]), x);
    NewestGoesExactlyWhen([x], policy, calendar, {}, x);
  }

  // -------------------------------------------------------------------------
  // The pass
  // -------------------------------------------------------------------------

  class Retention {
    const destination: nat
    var cache: Cache
    var legacy: set<Key>
    var cursor: int
    ghost var asked: seq<Id>

    constructor (destination: nat)
      ensures cache == map[] && legacy == {} && cursor == -1 && this.destination == destination && asked == []
    {
      this.destination, cache, legacy, cursor, asked := destination, map[], {}, -1, [];
    }

    method Remember(k: Key, status: Status, at: Time)
      modifies this`cache
      ensures |cache| <= MAX_EVIDENCE && Trimmed(old(cache)[k := Evidence(CLASSIFICATION_VERSION, status, at)], cache)
      ensures |old(cache)| < MAX_EVIDENCE ==> cache == old(cache)[k := Evidence(CLASSIFICATION_VERSION, status, at)]
      ensures |old(cache)| < MAX_EVIDENCE ==> |cache| <= |old(cache)| + 1
    {
      cache := Trim(cache[k := Evidence(CLASSIFICATION_VERSION, status, at)]);
    }

    /** Reads a snapshot back; every such check is logged. */
    method Verify(id: Id, probe: Id -> Answer) returns (answer: Answer)
      modifies this`asked
      ensures asked == old(asked) + [id] && answer == probe(id)
    {
      asked := asked + [id];
      answer := probe(id);
    }

    /** Classifies one snapshot, with what is left of the budget. */
    method Classify(x: Snapshot, probe: Id -> Answer, at: Time, left: nat)
      returns (looked: bool, complete: bool, checked: bool, available: bool)
      modifies this`cache, this`cursor, this`asked
      ensures |old(cache)| <= MAX_EVIDENCE ==> |cache| <= MAX_EVIDENCE
      ensures asked == if checked then old(asked) + [x.id] else old(asked)
      ensures forall before, ids :: old(Derived(before, ids, probe, cache)) ==>
        Derived(before, if checked then ids + {x.id} else ids, probe, cache)
      ensures OnlyGains(old(cache), cache, x.id) && (!checked ==> cache == old(cache))
      ensures |old(cache)| < MAX_EVIDENCE ==> old(cache).Keys <= cache.Keys && |cache| <= |old(cache)| + 1
      ensures checked <==> left > 0 && !Known(old(cache), legacy, Key(destination, x.id))
      ensures cursor == if checked then x.id else old(cursor)
      ensures looked <==> Known(old(cache), legacy, Key(destination, x.id)) || (checked && available)
      ensures available <==> !(checked && probe(x.id) == Unavailable)
      ensures var k := Key(destination, x.id);
              complete <==> looked && if Known(old(cache), legacy, k) then KnownComplete(old(cache), legacy, k)
                                      else probe(x.id) == Classified(Complete)
    {
      var k := Key(destination, x.id);
      looked, complete, checked, available := false, false, false, true;
      if Known(cache, legacy, k) {
        return true, KnownComplete(cache, legacy, k), false, true;
      }
      if left == 0 { return; }
      checked := true;
      var answer := Verify(x.id, probe);
      cursor := x.id;
      match answer {
        case Unavailable => available := false;
        case Classified(status) =>
          Remember(k, status, at);
          looked, complete := true, status == Complete;
      }
    }

    /** One step of the walk, in terms of the evidence the pass began with. */
    method Look(x: Snapshot, valid: Id -> bool, limit: Time, probe: Id -> Answer, at: Time, left: nat,
                ghost before: Cache, ghost ids: set<Id>)
      returns (seen: bool, complete: bool, checked: bool, available: bool)
      requires Derived(before, ids, probe, cache) && x.id !in ids
      modifies this`cache, this`cursor, this`asked
      ensures asked == if checked then old(asked) + [x.id] else old(asked)
      ensures Derived(before, if checked then ids + {x.id} else ids, probe, cache)
      ensures |old(cache)| <= MAX_EVIDENCE ==> |cache| <= MAX_EVIDENCE
      ensures complete ==> Credible(before, legacy, probe, destination, valid, limit, x)
      ensures available ==>
        Verdict(x, seen, complete, checked, View(before, legacy, destination), cache, valid, limit, probe)
      ensures OnlyGains(old(cache), cache, x.id)
      ensures Roomy(before, ids, old(cache)) ==> Roomy(before, if checked then ids + {x.id} else ids, cache)
      ensures cursor == if checked then x.id else old(cursor)
      ensures available ==> (checked ==> left > 0 && seen) && (Eligible(x, valid, limit) && !seen ==> left == 0)
      ensures available <==> !(checked && probe(x.id) == Unavailable)
      ensures seen ==> Settled(before, legacy, if checked then {x.id} else {}, probe, Key(destination, x.id))
    {
      seen, complete, checked, available := false, false, false, true;
      if Eligible(x, valid, limit) {
        seen, complete, checked, available := Classify(x, probe, at, left);
      }
    }

    /** A walk in progress, by what it has seen and asked since the log was of length `n`. */
    ghost predicate Running(listed: seq<Snapshot>, start: nat, i: nat, left: nat, verified: seq<Snapshot>, notes: Notes,
                            n: nat, view: View, valid: Id -> bool, limit: Time, probe: Id -> Answer)
      reads this
      requires start < |listed| && i <= |listed|
    {
      && n <= |asked| && notes.ids == Since(n, asked) && |notes.ids| + left == CHECKS_PER_PASS
      && view.legacy == legacy && view.destination == destination && Derived(view.cache, notes.ids, probe, cache)
      && Roomy(view.cache, notes.ids, cache)
      && OnTrack(listed, start, i, cursor, notes.looked, notes.last, left, verified, notes.ids, cache, view,
                 valid, limit, probe)
    }

    /** One round of the walk; it ends the pass if a check gets no answer. */
    method Round(listed: seq<Snapshot>, start: nat, i: nat, left: nat, verified: seq<Snapshot>, ghost notes: Notes,
                 ghost n: nat, ghost view: View, valid: Id -> bool, limit: Time, probe: Id -> Answer, at: Time)
      returns (available: bool, left': nat, verified': seq<Snapshot>, ghost notes': Notes)
      requires ById(listed) && start < |listed| && i < |listed|
      requires Running(listed, start, i, left, verified, notes, n, view, valid, limit, probe)
      modifies this`cache, this`cursor, this`asked
      ensures old(asked) <= asked && (|old(cache)| <= MAX_EVIDENCE ==> |cache| <= MAX_EVIDENCE)
      ensures notes'.ids == Since(n, asked)
      ensures available ==> Running(listed, start, i + 1, left', verified', notes', n, view, valid, limit, probe)
      ensures !available ==> verified' == verified && exists id :: id in notes'.ids && probe(id) == Unavailable
    {
      AroundIsModulo(start, i, |listed|);
      var x := listed[(start + i) % |listed|];
      NotAskedYet(listed, start, i, notes.ids);
      ghost var before := cursor;
      SinceMore(n, asked, x.id);
      left', verified', notes' := left, verified, notes;
      var seen, complete, checked;
      seen, complete, checked, available := Look(x, valid, limit, probe, at, left, view.cache, notes.ids);
      if checked { notes' := notes'.(ids := notes.ids + {x.id}); }
      if !available {
        assert x.id in notes'.ids;
        return;
      }
      OnTrackStep(listed, start, i, before, notes.looked, notes.last, left, verified, notes.ids, old(cache), cache,
                  view, valid, limit, probe, seen, complete, checked);
      if checked { left', notes' := left - 1, notes'.(last := i); }
      if seen { notes' := notes'.(looked := notes.looked + {x.id}); }
      if complete { verified' := verified + [x]; }
    }

    /** The walk of a pass. Whatever is neither looked at nor ineligible lies beyond the place
        where the next pass will start, at least a full budget further on; a check without an
        answer ends the pass. */
    method Walk(listed: seq<Snapshot>, valid: Id -> bool, limit: Time, probe: Id -> Answer, at: Time)
      returns (verified: seq<Snapshot>, available: bool, ghost pass: Pass)
      requires ById(listed) && listed != []
      modifies this`cache, this`cursor, this`asked
      ensures old(asked) <= asked && pass.cache == old(cache) && pass.from == old(cursor) && pass.to == cursor
      ensures pass.asked == Since(|old(asked)|, asked)
      ensures available <==> forall id :: id in pass.asked ==> probe(id) != Unavailable
      ensures available ==> Faithful(listed, legacy, destination, valid, limit, probe, pass)
      ensures forall x :: x in verified ==> Credible(old(cache), legacy, probe, destination, valid, limit, x)
      ensures available ==> Collected(listed, Start(listed, old(cursor)), |listed|, verified)
      ensures available ==> Verdicts(listed, Start(listed, old(cursor)), |listed|, pass.looked, verified, pass.asked,
                                     View(old(cache), legacy, destination), cache, valid, limit, probe)
      ensures available ==> Roomy(old(cache), pass.asked, cache)
      ensures available ==> forall x :: x in listed && Eligible(x, valid, limit) && x.id !in pass.looked ==>
        |pass.asked| == CHECKS_PER_PASS
      ensures |old(cache)| <= MAX_EVIDENCE ==> |cache| <= MAX_EVIDENCE
    {
      var start := Start(listed, cursor);
      var left: nat := CHECKS_PER_PASS;
      ghost var n, view, notes := |asked|, View(cache, legacy, destination), Notes({}, {}, -1);
      SinceMore(|asked|, asked, 0);
      verified, available := [], true;
      for i := 0 to |listed|
        invariant old(asked) <= asked && (|old(cache)| <= MAX_EVIDENCE ==> |cache| <= MAX_EVIDENCE)
        invariant Running(listed, start, i, left, verified, notes, n, view, valid, limit, probe)
      {
        available, left, verified, notes :=
          Round(listed, start, i, left, verified, notes, n, view, valid, limit, probe, at);
        if !available {
          pass := Pass(old(cache), old(cursor), cursor, notes.looked, notes.ids, notes.last);
          return;
        }
      }
      available := true;
      pass := Pass(old(cache), old(cursor), cursor, notes.looked, notes.ids, notes.last);
      forall x | x in listed && Eligible(x, valid, limit) && x.id !in pass.looked
        ensures |pass.asked| == CHECKS_PER_PASS
      {
        UnlookedIsUnaffordable(listed, cursor, start, notes.looked, notes.last, left, valid, limit, x);
      }
    }

    /** Passes over an unchanged list with every check answered: each is faithful and starts where
        the last one stopped, so every eligible snapshot is looked at in time. */
    method Passes(listed: seq<Snapshot>, valid: Id -> bool, limit: Time, probes: seq<Id -> Answer>)
      returns (ghost passes: seq<Pass>)
      requires ById(listed) && listed != []
      requires forall p, id :: 0 <= p < |probes| ==> probes[p](id) != Unavailable
      modifies this`cache, this`cursor, this`asked
      ensures |passes| == |probes| && Consecutive(passes) && old(asked) <= asked
      ensures passes != [] ==> passes[0].from == old(cursor) && passes[|passes| - 1].to == cursor
      ensures AllFaithful(listed, legacy, destination, valid, limit, probes, passes, Since(|old(asked)|, asked))
      ensures |probes| * CHECKS_PER_PASS >= |listed| ==>
        forall k :: 0 <= k < |listed| && Eligible(listed[k], valid, limit) ==>
          exists p :: 0 <= p < |passes| && listed[k].id in passes[p].looked
    {
      passes := [];
      ghost var ids := Since(|old(asked)|, asked);
      for p := 0 to |probes|
        invariant |passes| == p && Consecutive(passes) && old(asked) <= asked && ids == Since(|old(asked)|, asked)
        invariant if passes == [] then cursor == old(cursor)
                  else passes[0].from == old(cursor) && passes[|passes| - 1].to == cursor
        invariant AllFaithful(listed, legacy, destination, valid, limit, probes, passes, ids)
      {
        var other: Cache, at: Time := *, *;
        cache := other;
        ghost var pass, logged := Pass(map[], 0, 0, {}, {}, 0), asked;
        var verified, available;
        verified, available, pass := Walk(listed, valid, limit, probes[p], at);
        SinceGrows(|old(asked)|, |logged|, logged, asked);
        AnotherPass(listed, legacy, destination, valid, limit, probes, passes, ids, pass, Since(|old(asked)|, asked));
        passes, ids := passes + [pass], Since(|old(asked)|, asked);
      }
      if |probes| * CHECKS_PER_PASS >= |listed| {
        forall k | 0 <= k < |listed| && Eligible(listed[k], valid, limit)
          ensures exists p :: 0 <= p < |passes| && listed[k].id in passes[p].looked
        {
          EverySnapshotIsLookedAt(listed, legacy, destination, valid, limit, probes, passes, ids, k);
        }
      }
    }

    /** What the pass says of the whole inventory, `pass` being what it looked at and asked. */
    ghost predicate Assessed(inventory: seq<Snapshot>, verified: seq<Snapshot>, pass: Pass, valid: Id -> bool,
                             limit: Time, probe: Id -> Answer)
      reads this
    {
      && (forall x :: x in inventory ==>
            Judged(x, pass.looked, verified, pass.asked, View(pass.cache, legacy, destination), cache,
                   valid, limit, probe))
      && Roomy(pass.cache, pass.asked, cache)
      && (forall x :: x in inventory && Eligible(x, valid, limit) && x.id !in pass.looked ==>
            |pass.asked| == CHECKS_PER_PASS)
    }

    /** Lists the inventory by identifier and classifies it. */
    method Gather(inventory: seq<Snapshot>, valid: Id -> bool, limit: Time, probe: Id -> Answer, at: Time)
      returns (complete: seq<Snapshot>, available: bool, ghost pass: Pass)
      requires DistinctIds(inventory)
      modifies this`cache, this`cursor, this`asked
      ensures old(asked) <= asked && pass.cache == old(cache) && pass.asked == Since(|old(asked)|, asked)
      ensures available <==> forall id :: id in pass.asked ==> probe(id) != Unavailable
      ensures forall x :: x in complete ==> Credible(old(cache), legacy, probe, destination, valid, limit, x)
      ensures available ==> DistinctIds(complete) && Elements(complete) <= Elements(inventory)
      ensures available ==> Assessed(inventory, complete, pass, valid, limit, probe)
    {
      var listed := SortById(inventory);
      SameElements(listed, inventory);
      if listed == [] {
        assert Since(|old(asked)|, asked) == {};
        assert forall x :: x in inventory ==> x in Elements(listed);
        return [], true, Pass(cache, cursor, cursor, {}, {}, -1);
      }
      complete, available, pass := Walk(listed, valid, limit, probe, at);
      if available {
        WalkedAreListed(listed, Start(listed, old(cursor)), complete);
        AllJudged(listed, Start(listed, old(cursor)), pass.looked, complete, pass.asked,
                  View(old(cache), legacy, destination), cache, valid, limit, probe);
        assert forall x :: x in inventory ==> x in Elements(inventory) && x in listed;
      }
    }

    /** `retain`: the batches are the deletions issued, in order. A check of the pass that got no
        answer means no deletion at all. `broken` and `unsaved` say that listing the inventory or
        saving the evidence fails, and `fails` which deletions do. */
    method Retain(inventory: seq<Snapshot>, policy: Policy, calendar: Calendar, blocked: bool, checkpoint: set<Id>,
                  valid: Id -> bool, limit: Time, probe: Id -> Answer, at: Time,
                  broken: bool, unsaved: bool, fails: seq<Id> -> bool)
      returns (error: Error, batches: seq<seq<Id>>, ghost verified: seq<Snapshot>, ghost pass: Pass)
      requires DistinctIds(inventory)
      modifies this`cache, this`cursor, this`asked
      ensures forall b :: b in batches ==> 0 < |b| <= BATCH
      ensures Elements(verified) <= Elements(inventory)
      ensures forall x :: x in verified ==> Credible(old(cache), legacy, probe, destination, valid, limit, x)
      ensures Unique(Concat(batches)) && Deletes(verified, policy, calendar, checkpoint, Concat(batches), error == Ok)
      ensures old(asked) <= asked && pass.cache == old(cache) && pass.asked == Since(|old(asked)|, asked)
      ensures batches != [] || (error == Ok && !KeepsAll(policy)) ==>
        !blocked && forall id :: id in Since(|old(asked)|, asked) ==> probe(id) != Unavailable
      ensures batches != [] || (error == Ok && !KeepsAll(policy)) ==>
        Assessed(inventory, verified, pass, valid, limit, probe)
      ensures KeepsAll(policy) || blocked ==> batches == [] && asked == old(asked)
      ensures error == Unavailing <==> exists id :: id in Since(|old(asked)|, asked) && probe(id) == Unavailable
      ensures error == Blocked <==> blocked && !KeepsAll(policy)
      ensures error == Failed ==> broken || unsaved || exists b :: b in batches && fails(b)
    {
      batches, verified, pass := [], [], Pass(cache, cursor, cursor, {}, {}, -1);
      assert Since(|old(asked)|, asked) == {};
      if KeepsAll(policy) { return Ok, batches, [], pass; }
      if blocked { return Blocked, batches, [], pass; }
      if broken { return Failed, batches, [], pass; }
      var complete, available;
      complete, available, pass := Gather(inventory, valid, limit, probe, at);
      if !available { return Unavailing, batches, [], pass; }
      verified := complete;
      var keep := RetainedSnapshotIds(complete, policy, calendar);
      if unsaved { return Failed, batches, [], pass; }
      error, batches := Forget(Removals(complete, keep + checkpoint), fails);
      DeletionsMean(complete, keep, policy, calendar, checkpoint, Concat(batches), error == Ok);
    }
  }
}
