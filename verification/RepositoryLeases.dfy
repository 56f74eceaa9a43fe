/**
Reader and writer leases over repository keys: which jobs and readers may use a
repository, and why a release always meets the key it reserved.
*/
module RepositoryLeases {
  /** Stands for the digest of a normalised repository address. */
  type Key = nat
  type DestinationId = nat
  type JobId = nat
  type LeaseId = nat

  /** One destination of a run; `pending` if it still has work to do. */
  datatype Copy = Copy(destination: DestinationId, pending: bool)

  datatype Error = Ok | NotFound | Invalid | Busy | Refused

  /** The leases a service has handed out. `leases` are the release closures of readers
      that have not run yet; `active` are the jobs between their start and final release. */
  datatype State = State(
    destinations: map<DestinationId, Key>,
    jobs: map<Key, JobId>,
    readers: map<Key, int>,
    activeReaders: int,
    leases: map<LeaseId, Key>,
    active: set<JobId>)

  // -------------------------------------------------------------------------
  // Counting
  // -------------------------------------------------------------------------

  ghost function Holding(leases: map<LeaseId, Key>, k: Key): set<LeaseId> {
    set l | l in leases && leases[l] == k
  }

  ghost function Pick(keys: set<Key>): (k: Key)
    requires keys != {}
    ensures k in keys
  {
    var k :| k in keys; k
  }

  ghost function Sum(readers: map<Key, int>, keys: set<Key>): int
    requires keys <= readers.Keys
  {
    if keys == {} then 0 else var k := Pick(keys); readers[k] + Sum(readers, keys - {k})
  }

  ghost function HoldingAny(leases: map<LeaseId, Key>, keys: set<Key>): set<LeaseId> {
    set l | l in leases && leases[l] in keys
  }

  lemma {:induction false} SumCountsLeases(leases: map<LeaseId, Key>, readers: map<Key, int>, keys: set<Key>)
    requires keys <= readers.Keys && forall k :: k in keys ==> readers[k] == |Holding(leases, k)|
    ensures Sum(readers, keys) == |HoldingAny(leases, keys)|
    decreases keys
  {
    if keys == {} {
      assert HoldingAny(leases, keys) == {};
    } else {
      var k := Pick(keys);
      SumCountsLeases(leases, readers, keys - {k});
      var rest, own := HoldingAny(leases, keys - {k}), Holding(leases, k);
      assert rest !! own;
      assert HoldingAny(leases, keys) == rest + own;
      assert |rest + own| == |rest| + |own|;
    }
  }

  // -------------------------------------------------------------------------
  // The invariant
  // -------------------------------------------------------------------------

  /** The reader counts are the numbers of leases not released yet. */
  ghost predicate Counted(readers: map<Key, int>, leases: map<LeaseId, Key>) {
    && (forall k {:trigger Holding(leases, k)} :: k in readers <==> Holding(leases, k) != {})
    && (forall k {:trigger Holding(leases, k)} :: k in readers ==> readers[k] == |Holding(leases, k)|)
  }

  /** The keys reserved belong to active jobs, and each of these has at least one. */
  ghost predicate Reserved(jobs: map<Key, JobId>, active: set<JobId>) {
    && (forall k :: k in jobs ==> jobs[k] in active)
    && (forall j :: j in active ==> HasKey(jobs, j))
  }

  ghost predicate HasKey(jobs: map<Key, JobId>, j: JobId) {
    exists k :: Holds(jobs, j, k)
  }

  predicate Holds(jobs: map<Key, JobId>, j: JobId, k: Key) {
    k in jobs && jobs[k] == j
  }

  predicate Owns(destinations: map<DestinationId, Key>, d: DestinationId, k: Key) {
    d in destinations && destinations[d] == k
  }

  ghost predicate Configured(destinations: map<DestinationId, Key>, k: Key) {
    exists d :: Owns(destinations, d, k)
  }

  /** Every leased key is the key of exactly one configured destination. */
  ghost predicate Anchored(destinations: map<DestinationId, Key>, jobs: map<Key, JobId>, leases: map<LeaseId, Key>) {
    && (forall k :: k in jobs ==> Configured(destinations, k))
    && (forall l :: l in leases ==> Configured(destinations, leases[l]))
    && (forall a, b, k :: Owns(destinations, a, k) && Owns(destinations, b, k) ==> a == b)
  }

  ghost predicate Consistent(s: State) {
    && s.jobs.Keys !! s.readers.Keys
    && Counted(s.readers, s.leases) && s.activeReaders == |s.leases|
    && Reserved(s.jobs, s.active)
    && Anchored(s.destinations, s.jobs, s.leases)
  }

  /** No repository has a job and a reader, and the reader total adds up. */
  lemma ReadersAddUp(s: State)
    requires Consistent(s)
    ensures s.activeReaders == Sum(s.readers, s.readers.Keys)
    ensures forall k :: k in s.readers ==> s.readers[k] > 0 && k !in s.jobs
  {
    SumCountsLeases(s.leases, s.readers, s.readers.Keys);
    forall l | l in s.leases ensures s.leases[l] in s.readers {
      assert l in Holding(s.leases, s.leases[l]);
    }
    assert HoldingAny(s.leases, s.readers.Keys) == s.leases.Keys;
    forall k | k in s.readers ensures s.readers[k] > 0 && k !in s.jobs {
      assert |Holding(s.leases, k)| != 0;
    }
  }

  predicate Leased(s: State) {
    s.jobs != map[] || s.leases != map[]
  }

  // -------------------------------------------------------------------------
  // Steps
  // -------------------------------------------------------------------------

  function Increment(readers: map<Key, int>, k: Key): map<Key, int> {
    readers[k := (if k in readers then readers[k] else 0) + 1]
  }

  function Decrement(readers: map<Key, int>, k: Key): map<Key, int>
    requires k in readers
  {
    if readers[k] == 1 then readers - {k} else readers[k := readers[k] - 1]
  }

  function Read(s: State, k: Key, l: LeaseId): State {
    s.(readers := Increment(s.readers, k), activeReaders := s.activeReaders + 1, leases := s.leases[l := k])
  }

  function Unread(s: State, l: LeaseId): State
    requires l in s.leases && s.leases[l] in s.readers
  {
    s.(readers := Decrement(s.readers, s.leases[l]), activeReaders := s.activeReaders - 1, leases := s.leases - {l})
  }

  lemma HoldingMore(leases: map<LeaseId, Key>, k: Key, l: LeaseId, x: Key)
    requires l !in leases
    ensures Holding(leases[l := k], x) == if x == k then Holding(leases, x) + {l} else Holding(leases, x)
    ensures x == k ==> |Holding(leases[l := k], x)| == |Holding(leases, x)| + 1
  {
    assert l !in Holding(leases, k);
  }

  lemma HoldingLess(leases: map<LeaseId, Key>, l: LeaseId, x: Key)
    requires l in leases
    ensures Holding(leases - {l}, x) == if x == leases[l] then Holding(leases, x) - {l} else Holding(leases, x)
    ensures x == leases[l] ==> |Holding(leases - {l}, x)| == |Holding(leases, x)| - 1
  {
    assert l in Holding(leases, leases[l]);
  }

  lemma CountUp(readers: map<Key, int>, leases: map<LeaseId, Key>, k: Key, l: LeaseId)
    requires Counted(readers, leases) && l !in leases
    ensures Counted(Increment(readers, k), leases[l := k])
    ensures |leases[l := k]| == |leases| + 1
  {
    var readers', leases' := Increment(readers, k), leases[l := k];
    forall x ensures x in readers' <==> Holding(leases', x) != {}
             ensures x in readers' ==> readers'[x] == |Holding(leases', x)|
    {
      HoldingMore(leases, k, l, x);
      if x == k {
        assert l in Holding(leases', x);
        if k !in readers { assert |Holding(leases, k)| == 0; }
      }
    }
    assert leases'.Keys == leases.Keys + {l};
  }

  lemma CountDown(readers: map<Key, int>, leases: map<LeaseId, Key>, l: LeaseId)
    requires Counted(readers, leases) && l in leases
    ensures leases[l] in readers && Counted(Decrement(readers, leases[l]), leases - {l})
    ensures |leases - {l}| == |leases| - 1
  {
    var k := leases[l];
    assert l in Holding(leases, k);
    forall x ensures Holding(leases - {l}, x) == if x == k then Holding(leases, x) - {l} else Holding(leases, x) {
      HoldingLess(leases, l, x);
    }
    HoldingLess(leases, l, k);
    assert readers[k] == 1 <==> Holding(leases - {l}, k) == {};
    assert (leases - {l}).Keys == leases.Keys - {l};
  }

  lemma ReadKeepsConsistent(s: State, k: Key, l: LeaseId)
    requires Consistent(s) && k !in s.jobs && Configured(s.destinations, k) && l !in s.leases
    ensures Consistent(Read(s, k, l))
  {
    CountUp(s.readers, s.leases, k, l);
  }

  lemma UnreadKeepsConsistent(s: State, l: LeaseId)
    requires Consistent(s) && l in s.leases
    ensures s.leases[l] in s.readers && Consistent(Unread(s, l))
  {
    CountDown(s.readers, s.leases, l);
  }

  /** Releasing a read lease takes back exactly what acquiring it added. */
  lemma UnreadUndoesRead(s: State, k: Key, l: LeaseId)
    requires Consistent(s) && l !in s.leases
    ensures Unread(Read(s, k, l), l) == s
  {
    if k in s.readers {
      assert |Holding(s.leases, k)| != 0;
      assert Increment(s.readers, k)[k] != 1;
    }
    assert Decrement(Increment(s.readers, k), k) == s.readers;
    assert s.leases[l := k] - {l} == s.leases;
  }

  /** The keys a run needs: those of its copies with pending work. */
  ghost function Needed(destinations: map<DestinationId, Key>, copies: seq<Copy>): set<Key> {
    if copies == [] then {} else
      var last, rest := copies[|copies| - 1], Needed(destinations, copies[..|copies| - 1]);
      if last.pending && last.destination in destinations then rest + {destinations[last.destination]} else rest
  }

  lemma {:induction false} NeededHas(destinations: map<DestinationId, Key>, copies: seq<Copy>, i: nat)
    requires i < |copies| && copies[i].pending && copies[i].destination in destinations
    ensures destinations[copies[i].destination] in Needed(destinations, copies)
  {
    if i < |copies| - 1 {
      NeededHas(destinations, copies[..|copies| - 1], i);
    }
  }

  /** `Needed` has the keys of pending copies only. */
  lemma {:induction false} NeededOnly(destinations: map<DestinationId, Key>, copies: seq<Copy>, k: Key)
    requires k in Needed(destinations, copies)
    ensures exists i :: 0 <= i < |copies| && copies[i].pending && Owns(destinations, copies[i].destination, k)
  {
    var n := |copies| - 1;
    if k in Needed(destinations, copies[..n]) {
      NeededOnly(destinations, copies[..n], k);
      var i :| 0 <= i < n && copies[..n][i].pending && Owns(destinations, copies[..n][i].destination, k);
      assert copies[i] == copies[..n][i];
    } else {
      assert Owns(destinations, copies[n].destination, k);
    }
  }

  predicate SameRepository(destinations: map<DestinationId, Key>, a: Copy, b: Copy) {
    && a.pending && b.pending && a.destination in destinations && b.destination in destinations
    && destinations[a.destination] == destinations[b.destination]
  }

  function Mark(jobs: map<Key, JobId>, keys: set<Key>, job: JobId): map<Key, JobId> {
    jobs + (map k | k in keys :: job)
  }

  lemma MarkMore(jobs: map<Key, JobId>, keys: set<Key>, job: JobId, k: Key)
    ensures Mark(jobs, keys + {k}, job) == Mark(jobs, keys, job)[k := job]
    ensures Mark(jobs, {}, job) == jobs
  {
  }

  function Reserve(s: State, job: JobId, keys: set<Key>): State {
    s.(jobs := Mark(s.jobs, keys, job), active := s.active + {job})
  }

  function Released(s: State, job: JobId): State {
    s.(jobs := map k | k in s.jobs && s.jobs[k] != job :: s.jobs[k], active := s.active - {job})
  }

  lemma ReserveKeepsReserved(jobs: map<Key, JobId>, active: set<JobId>, job: JobId, keys: set<Key>)
    requires Reserved(jobs, active) && keys != {} && keys !! jobs.Keys
    ensures Reserved(Mark(jobs, keys, job), active + {job})
  {
    var jobs' := Mark(jobs, keys, job);
    forall j | j in active + {job} ensures HasKey(jobs', j) {
      if j == job {
        var k :| k in keys;
        assert Holds(jobs', j, k);
      } else {
        var k :| Holds(jobs, j, k);
        assert Holds(jobs', j, k);
      }
    }
  }

  lemma ReserveKeepsConsistent(s: State, job: JobId, keys: set<Key>)
    requires Consistent(s) && keys != {} && keys !! s.jobs.Keys && keys !! s.readers.Keys
    requires forall k :: k in keys ==> Configured(s.destinations, k)
    ensures Consistent(Reserve(s, job, keys))
  {
    ReserveKeepsReserved(s.jobs, s.active, job, keys);
    assert Reserve(s, job, keys).jobs.Keys == s.jobs.Keys + keys;
  }

  lemma ReleaseKeepsConsistent(s: State, job: JobId)
    requires Consistent(s)
    ensures Consistent(Released(s, job))
  {
    var s' := Released(s, job);
    forall j | j in s'.active ensures HasKey(s'.jobs, j) {
      var k :| Holds(s.jobs, j, k);
      assert Holds(s'.jobs, j, k);
    }
  }

  /** The final release of a new job leaves what was there before it. */
  lemma ReleaseUndoesReserve(s: State, job: JobId, keys: set<Key>)
    requires Reserved(s.jobs, s.active) && job !in s.active && keys !! s.jobs.Keys
    ensures Released(Reserve(s, job, keys), job) == s
  {
    var jobs' := Released(Reserve(s, job, keys), job).jobs;
    forall k ensures k in jobs' <==> k in s.jobs ensures k in jobs' ==> jobs'[k] == s.jobs[k] {}
    assert jobs' == s.jobs;
    assert s.active + {job} - {job} == s.active;
  }

  lemma ShrinkKeepsConsistent(s: State, k: Key, other: Key)
    requires Consistent(s) && k in s.jobs && other in s.jobs && other != k && s.jobs[other] == s.jobs[k]
    ensures Consistent(s.(jobs := s.jobs - {k}))
  {
    var jobs' := s.jobs - {k};
    forall j | j in s.active ensures HasKey(jobs', j) {
      var x :| Holds(s.jobs, j, x);
      assert Holds(jobs', j, if x == k then other else x);
    }
  }

  lemma AddKeepsConsistent(s: State, id: DestinationId, k: Key)
    requires Consistent(s) && !Leased(s)
    requires forall d :: d in s.destinations && d != id ==> s.destinations[d] != k
    ensures Consistent(s.(destinations := s.destinations[id := k]))
  {
    var d' := s.destinations[id := k];
    forall a, b, x | Owns(d', a, x) && Owns(d', b, x) ensures a == b {
      if a != id && b != id {
        assert Owns(s.destinations, a, x) && Owns(s.destinations, b, x);
      }
    }
  }

  lemma DropKeepsConsistent(s: State, id: DestinationId)
    requires Consistent(s) && !Leased(s)
    ensures Consistent(s.(destinations := s.destinations - {id}))
  {
    var d' := s.destinations - {id};
    forall a, b, k | Owns(d', a, k) && Owns(d', b, k) ensures a == b {
      assert Owns(s.destinations, a, k) && Owns(s.destinations, b, k);
    }
  }

  // -------------------------------------------------------------------------
  // Whole runs
  // -------------------------------------------------------------------------

  /** One critical section: no destination changes into or out of a leased state, and whoever keeps
      a lease keeps it on the same key. */
  ghost predicate Moves(a: State, b: State) {
    && (Leased(a) || Leased(b) ==> a.destinations == b.destinations)
    && (forall l :: l in a.leases && l in b.leases ==> a.leases[l] == b.leases[l])
    && (forall k :: k in a.jobs && k in b.jobs ==> a.jobs[k] == b.jobs[k])
  }

  ghost predicate History(states: seq<State>) {
    && (forall i :: 0 <= i < |states| ==> Consistent(states[i]))
    && (forall i :: 0 < i < |states| ==> Moves(states[i - 1], states[i]))
  }

  lemma HistoryGrows(states: seq<State>, s: State)
    requires History(states) && Consistent(s) && (states != [] ==> Moves(states[|states| - 1], s))
    ensures History(states + [s])
  {
  }

  /** From the first lease of a stretch to the last, the destinations are fixed. */
  lemma {:induction false} DestinationsArePinned(states: seq<State>, i: nat, k: nat)
    requires History(states) && i <= k < |states| && forall m :: i <= m <= k ==> Leased(states[m])
    ensures states[k].destinations == states[i].destinations
    decreases k
  {
    if i < k {
      DestinationsArePinned(states, i, k - 1);
      assert Moves(states[k - 1], states[k]) && Leased(states[k]);
    }
  }

  /** A read lease is released under the key it was taken for, and that key is still counted and still
      the key of the same destinations. */
  lemma {:induction false} ReadReleaseMeetsItsKey(states: seq<State>, i: nat, k: nat, l: LeaseId)
    requires History(states) && i <= k < |states| && forall m :: i <= m <= k ==> l in states[m].leases
    ensures states[k].leases[l] == states[i].leases[l] && states[k].leases[l] in states[k].readers
    ensures states[k].destinations == states[i].destinations
    decreases k
  {
    assert Consistent(states[k]);
    assert l in Holding(states[k].leases, states[k].leases[l]);
    if i < k {
      ReadReleaseMeetsItsKey(states, i, k - 1, l);
      assert Moves(states[k - 1], states[k]);
    }
  }

  /** A job that gives up a destination meets the key it reserved for it: while the job holds the key,
      the destination keeps it, and no reader gets in. */
  lemma {:induction false} JobReleaseMeetsItsKey(
    states: seq<State>, i: nat, k: nat, d: DestinationId, key: Key, job: JobId)
    requires History(states) && i <= k < |states| && Owns(states[i].destinations, d, key)
    requires forall m :: i <= m <= k ==> key in states[m].jobs
    requires states[i].jobs[key] == job
    ensures Owns(states[k].destinations, d, key) && Holds(states[k].jobs, job, key) && key !in states[k].readers
    decreases k
  {
    assert Consistent(states[k]) && key in states[k].jobs;
    if i < k {
      JobReleaseMeetsItsKey(states, i, k - 1, d, key, job);
      assert Moves(states[k - 1], states[k]);
    }
  }

  /** The loop of `reserveRepositoriesLocked`. */
  method MarkPending(destinations: map<DestinationId, Key>, jobs: map<Key, JobId>, job: JobId, copies: seq<Copy>)
    returns (marked: map<Key, JobId>)
    requires forall i :: 0 <= i < |copies| && copies[i].pending ==> copies[i].destination in destinations
    ensures marked == Mark(jobs, Needed(destinations, copies), job)
  {
    marked := jobs;
    MarkMore(jobs, {}, job, 0);
    for i := 0 to |copies|
      invariant marked == Mark(jobs, Needed(destinations, copies[..i]), job)
    {
      assert copies[..i + 1][..i] == copies[..i];
      if copies[i].pending {
        var key := destinations[copies[i].destination];
        MarkMore(jobs, Needed(destinations, copies[..i]), job, key);
        marked := marked[key := job];
      }
    }
    assert copies[..|copies|] == copies;
  }

  /** The service under its mutex: each method is one critical section. */
  class Service {
    var destinations: map<DestinationId, Key>
    var jobs: map<Key, JobId>
    var readers: map<Key, int>
    var activeReaders: int
    var leases: map<LeaseId, Key>
    var nextLease: LeaseId
    ghost var active: set<JobId>

    ghost function Now(): State reads this {
      State(destinations, jobs, readers, activeReaders, leases, active)
    }

    ghost predicate Valid() reads this {
      Consistent(Now()) && forall l :: l in leases ==> l < nextLease
    }

    constructor ()
      ensures Valid() && Now() == State(map[], map[], map[], 0, map[], {})
    {
      destinations, jobs, readers, activeReaders, leases, nextLease, active := map[], map[], map[], 0, map[], 0, {};
    }

    /** `beginRepositoryRead`. */
    method BeginRead(id: DestinationId) returns (error: Error, lease: LeaseId)
      requires Valid()
      modifies this
      ensures Valid()
      ensures error == Ok ==> id in old(destinations) && old(destinations)[id] !in old(jobs) && lease !in old(leases) &&
                              Now() == Read(old(Now()), old(destinations)[id], lease)
      ensures error != Ok ==> Now() == old(Now())
      ensures error == NotFound <==> id !in old(destinations)
      ensures error == Busy <==> id in old(destinations) && old(destinations)[id] in old(jobs)
      ensures error == Ok || error == NotFound || error == Busy
    {
      lease := nextLease;
      if id !in destinations { return NotFound, lease; }
      var key := destinations[id];
      if key in jobs { return Busy, lease; }
      assert Owns(destinations, id, key);
      ReadKeepsConsistent(Now(), key, lease);
      readers := readers[key := (if key in readers then readers[key] else 0) + 1];
      activeReaders, leases, nextLease := activeReaders + 1, leases[lease := key], nextLease + 1;
      error := Ok;
      assert Now() == Read(old(Now()), key, lease);
    }

    /** The release closure of a read: it works once, on the key it was made for. */
    method EndRead(lease: LeaseId)
      requires Valid()
      modifies this
      ensures Valid()
      ensures lease !in old(leases) ==> Now() == old(Now())
      ensures lease in old(leases) ==> old(leases)[lease] in old(readers) && Now() == Unread(old(Now()), lease)
    {
      if lease !in leases { return; }
      UnreadKeepsConsistent(Now(), lease);
      var key := leases[lease];
      readers := readers[key := readers[key] - 1];
      if readers[key] == 0 { readers := readers - {key}; }
      activeReaders, leases := activeReaders - 1, leases - {lease};
      assert readers == Decrement(old(readers), key);
      assert Now() == Unread(old(Now()), lease);
    }

    /** `repositoryResourcesLocked`: every needed repository exists, is named once and is free. */
    method RepositoryResources(copies: seq<Copy>) returns (error: Error, keys: set<Key>)
      ensures error == Ok ==> keys == Needed(destinations, copies) && keys !! jobs.Keys && keys !! readers.Keys
      ensures error == Ok ==>
        forall i :: 0 <= i < |copies| && copies[i].pending ==> copies[i].destination in destinations
      ensures error == Ok ==> forall i, k :: 0 <= i < k < |copies| && copies[i].pending && copies[k].pending ==>
        copies[i].destination != copies[k].destination
      ensures error == NotFound ==>
        exists i :: 0 <= i < |copies| && copies[i].pending && copies[i].destination !in destinations
      ensures error == Invalid ==>
        exists i, k :: 0 <= i < k < |copies| && SameRepository(destinations, copies[i], copies[k])
      ensures error == Busy ==> exists k :: k in Needed(destinations, copies) && (k in jobs || k in readers)
      ensures error != Refused
    {
      keys := {};
      for i := 0 to |copies|
        invariant keys == Needed(destinations, copies[..i]) && keys !! jobs.Keys && keys !! readers.Keys
        invariant forall a :: 0 <= a < i && copies[a].pending ==> copies[a].destination in destinations
        invariant forall a, b :: 0 <= a < b < i && copies[a].pending && copies[b].pending ==>
          copies[a].destination != copies[b].destination
      {
        assert copies[..i + 1][..i] == copies[..i];
        if copies[i].pending {
          if copies[i].destination !in destinations { return NotFound, keys; }
          var key := destinations[copies[i].destination];
          if key in keys {
            NeededOnly(destinations, copies[..i], key);
            ghost var a :| 0 <= a < i && copies[..i][a].pending && Owns(destinations, copies[..i][a].destination, key);
            assert SameRepository(destinations, copies[a], copies[i]);
            return Invalid, keys;
          }
          if key in jobs || key in readers {
            NeededHas(destinations, copies, i);
            return Busy, keys;
          }
          forall a | 0 <= a < i && copies[a].pending ensures copies[a].destination != copies[i].destination {
            NeededHas(destinations, copies[..i], a);
          }
          keys := keys + {key};
        }
      }
      assert copies[..|copies|] == copies;
      error := Ok;
    }

    method ReserveRepositories(job: JobId, copies: seq<Copy>)
      requires forall i :: 0 <= i < |copies| && copies[i].pending ==> copies[i].destination in destinations
      modifies this`jobs, this`active
      ensures Now() == Reserve(old(Now()), job, Needed(destinations, copies))
    {
      jobs := MarkPending(destinations, jobs, job, copies);
      active := active + {job};
    }

    /** The loop of `releaseRepositories`, also run when a start cannot be persisted. */
    method ReleaseRepositories(job: JobId)
      modifies this`jobs, this`active
      ensures Now() == Released(old(Now()), job)
    {
      var left := jobs.Keys;
      while left != {}
        invariant left <= old(jobs).Keys
        invariant jobs == map k | k in old(jobs) && (k in left || old(jobs)[k] != job) :: old(jobs)[k]
        invariant active == old(active)
        decreases left
      {
        var key :| key in left;
        left := left - {key};
        if jobs[key] == job {
          jobs := jobs - {key};
        }
      }
      active := active - {job};
    }

    /** `StartRun` and `StartRetry` once the copies are chosen: reserve every repository with
        pending work, or leave the leases exactly as they were. */
    method StartRun(job: JobId, copies: seq<Copy>, accepted: bool, persisted: bool) returns (error: Error)
      requires Valid() && job !in active
      modifies this
      ensures Valid()
      ensures error == Ok ==> Now() == Reserve(old(Now()), job, Needed(old(destinations), copies)) &&
                              Needed(old(destinations), copies) !! old(jobs).Keys + old(readers).Keys
      ensures error != Ok ==> Now() == old(Now())
      ensures error == Ok ==> accepted && persisted
    {
      if forall i :: 0 <= i < |copies| ==> !copies[i].pending { return Invalid; }
      ghost var one :| 0 <= one < |copies| && copies[one].pending;
      var keys;
      error, keys := RepositoryResources(copies);
      if error != Ok { return; }
      if !accepted { return Refused; }
      NeededHas(destinations, copies, one);
      forall k | k in keys ensures Configured(destinations, k) {
        NeededOnly(destinations, copies, k);
      }
      ReserveKeepsConsistent(Now(), job, keys);
      ReserveRepositories(job, copies);
      if !persisted {
        ReleaseUndoesReserve(old(Now()), job, keys);
        ReleaseRepositories(job);
        error := Refused;
      }
    }

    /** `StartRepositoryJob`: one repository, for a check, a restore or maintenance. */
    method StartRepositoryJob(job: JobId, id: DestinationId, accepted: bool) returns (error: Error)
      requires Valid() && job !in active
      modifies this
      ensures Valid()
      ensures error == Ok ==> id in old(destinations) && Now() == Reserve(old(Now()), job, {old(destinations)[id]}) &&
                              old(destinations)[id] !in old(jobs) && old(destinations)[id] !in old(readers)
      ensures error != Ok ==> Now() == old(Now())
      ensures id in old(destinations) && accepted ==>
        (error == Busy <==> old(destinations)[id] in old(jobs) || old(destinations)[id] in old(readers))
      ensures error == NotFound <==> id !in old(destinations)
      ensures error == Refused ==> !accepted
      ensures error != Invalid
    {
      if id !in destinations { return NotFound; }
      var key := destinations[id];
      if key in readers || key in jobs { return Busy; }
      if !accepted { return Refused; }
      assert Owns(destinations, id, key);
      ReserveKeepsConsistent(Now(), job, {key});
      MarkMore(jobs, {}, job, key);
      assert {} + {key} == {key};
      jobs, active := jobs[key := job], active + {job};
      error := Ok;
      assert Now() == Reserve(old(Now()), job, {key});
    }

    /** The final release of a job. */
    method FinishJob(job: JobId)
      requires Valid()
      modifies this
      ensures Valid() && Now() == Released(old(Now()), job)
    {
      ReleaseKeepsConsistent(Now(), job);
      ReleaseRepositories(job);
    }

    /** `releaseCompletedRepository`: gives up a finished destination, never the last one. */
    method ReleaseCompleted(job: JobId, id: DestinationId, accepted: bool) returns (error: Error)
      requires Valid()
      modifies this
      ensures Valid()
      ensures jobs == old(jobs) || (id in destinations && Holds(old(jobs), job, destinations[id]) &&
                                    jobs == old(jobs) - {destinations[id]} && HasKey(jobs, job))
      ensures Now() == old(Now()).(jobs := jobs)
      ensures error != Ok ==> !accepted && jobs == old(jobs)
      ensures accepted && id in destinations && Holds(old(jobs), job, destinations[id]) && jobs == old(jobs) ==>
        forall k :: Holds(old(jobs), job, k) ==> k == destinations[id]
    {
      error := Ok;
      if id !in destinations { return; }
      var completed := destinations[id];
      if !Holds(jobs, job, completed) { return; }
      var remaining := set k | k in jobs && jobs[k] == job && k != completed;
      if remaining == {} {
        forall k | Holds(jobs, job, k) ensures k == completed {
          assert k != completed ==> k in remaining;
        }
        return;
      }
      if !accepted { return Refused; }
      ghost var other :| other in remaining;
      ShrinkKeepsConsistent(Now(), completed, other);
      jobs := jobs - {completed};
      assert Holds(jobs, job, other);
      assert Now() == old(Now()).(jobs := jobs);
    }

    /** `configurationBusyLocked`; `other` stands for running runs and pending restore deletions. */
    method ConfigurationBusy(other: bool) returns (busy: bool)
      requires Valid()
      ensures busy <==> other || Leased(Now())
    {
      busy := jobs != map[] || activeReaders > 0 || other;
      assert leases == map[] <==> |leases| == 0;
    }

    /** `SaveDestination` after input validation; `known` says whether the caller named an identifier. */
    method SaveDestination(known: bool, id: DestinationId, key: Key, other: bool, persisted: bool)
      returns (error: Error)
      requires Valid() && (known || id !in destinations)
      modifies this
      ensures Valid()
      ensures Now() == old(Now()).(destinations := destinations)
      ensures destinations == old(destinations) || (!known && destinations == old(destinations)[id := key])
      ensures Leased(old(Now())) ==> destinations == old(destinations)
      ensures error == Ok <==>
        persisted && !other && !Leased(old(Now())) && (known ==> Owns(old(destinations), id, key)) &&
        forall d :: Owns(old(destinations), d, key) ==> d == id
      ensures destinations == if error == Ok then old(destinations)[id := key] else old(destinations)
    {
      var busy := ConfigurationBusy(other);
      if busy { return Busy; }
      if exists d :: d in destinations && d != id && Owns(destinations, d, key) { return Invalid; }
      if known && id !in destinations { return NotFound; }
      if id in destinations && destinations[id] != key { return Invalid; }
      if !persisted { return Refused; }
      destinations := destinations[id := key];
      error := Ok;
      AddKeepsConsistent(old(Now()), id, key);
      assert Now() == old(Now()).(destinations := old(destinations)[id := key]);
      assert known ==> destinations == old(destinations);
    }

    /** `inUse` says that a plan still assigns the destination. */
    method DeleteDestination(id: DestinationId, other: bool, inUse: bool, persisted: bool) returns (error: Error)
      requires Valid()
      modifies this
      ensures Valid()
      ensures Now() == old(Now()).(destinations := destinations)
      ensures destinations == if error == Ok then old(destinations) - {id} else old(destinations)
      ensures error == Ok <==> !other && !Leased(old(Now())) && id in old(destinations) && !inUse && persisted
      ensures error == Busy <==> other || Leased(old(Now()))
      ensures error == Invalid ==> inUse
    {
      var busy := ConfigurationBusy(other);
      if busy { return Busy; }
      if id !in destinations { return NotFound; }
      if inUse { return Invalid; }
      if !persisted { return Refused; }
      destinations := destinations - {id};
      error := Ok;
      DropKeepsConsistent(old(Now()), id);
      assert Now() == old(Now()).(destinations := old(destinations) - {id});
    }

    /** Any run of the service, as the states between its critical sections. */
    method Lifetime(steps: nat) returns (ghost states: seq<State>)
      requires Valid()
      modifies this
      ensures Valid() && History(states) && |states| == steps + 1
      ensures states[0] == old(Now()) && states[steps] == Now()
    {
      states := [Now()];
      for i := 0 to steps
        invariant Valid() && History(states) && |states| == i + 1 && states[0] == old(Now()) && states[i] == Now()
      {
        Step();
        HistoryGrows(states, Now());
        states := states + [Now()];
      }
    }

    method Step()
      requires Valid()
      modifies this
      ensures Valid() && Moves(old(Now()), Now())
    {
      var choice: int, id: int, job: int, key: int, a: bool, b: bool, c: bool := *, *, *, *, *, *, *;
      var copies: seq<Copy> := *;
      if id < 0 || job < 0 || key < 0 { return; }
      var error, lease := Ok, 0;
      match choice {
        case 0 => error, lease := BeginRead(id);
        case 1 => EndRead(id);
        case 2 => error := ReleaseCompleted(job, id, a);
        case 3 => FinishJob(job);
        case 4 => error := DeleteDestination(id, a, b, c);
        case 5 => if a || id !in destinations { error := SaveDestination(a, id, key, c, b); }
        case 6 => StartAny(job, id, copies, a, b);
        case _ =>
      }
    }

    /** A start with the identifier of a new job. */
    method StartAny(job: JobId, id: DestinationId, copies: seq<Copy>, a: bool, b: bool)
      requires Valid()
      modifies this
      ensures Valid() && Moves(old(Now()), Now())
    {
      var error := Ok;
      if exists k :: k in jobs && Holds(jobs, job, k) { return; }
      if copies == [] {
        error := StartRepositoryJob(job, id, a);
      } else {
        error := StartRun(job, copies, a, b);
      }
    }
  }
}
