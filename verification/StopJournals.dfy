/**
The writer stop journal of a capture or restore run: what is durable before and
after each Docker call, and what a crash between any two effects leaves behind.
*/
module StopJournals {
  type ContainerId = string
  type RunId = string

  /** `Unset` is the phase a version 1 journal has for each of its writers. */
  datatype Phase = Unset | Planned | StopRequested | Stopped | Resumed

  datatype Writer = Writer(id: ContainerId, running: bool)

  datatype Journal = Journal(version: int, writers: seq<Writer>, hold: bool, phases: map<ContainerId, Phase>)

  /** `stopping`: the daemon holds a stop request it has not carried out yet. */
  datatype Container = Container(running: bool, stopping: bool)

  /** What must be remembered about the past to judge an instant: the containers the
      service must not leave stopped, and the restore runs whose target writes began,
      whose whole apply and validation succeeded, and whose hold an operator cleared. */
  datatype Ledger = Ledger(
    owed: set<ContainerId>,
    writing: set<RunId>,
    applied: set<RunId>,
    acknowledged: set<RunId>)

  datatype World = World(containers: map<ContainerId, Container>, disk: map<RunId, Journal>, ledger: Ledger)

  datatype Outcome = Ok | Failed | Crashed

  datatype Resolution = Retry | AcknowledgeHold | AcknowledgeMissing(inspected: bool, reasonLength: nat) | Unsupported

  datatype Observation = Unknown | Missing | Present

  function PhaseOf(j: Journal, id: ContainerId): Phase {
    if id in j.phases then j.phases[id] else Unset
  }

  /** A writer that `resume` has to handle: neither untouched nor already restarted. */
  predicate Unfinished(j: Journal, w: Writer) {
    w.running && PhaseOf(j, w.id) != Planned && PhaseOf(j, w.id) != Resumed
  }

  predicate Names(j: Journal, id: ContainerId) {
    Writer(id, true) in j.writers && PhaseOf(j, id) != Planned && PhaseOf(j, id) != Resumed
  }

  ghost function Ids(j: Journal): set<ContainerId> {
    set w | w in j.writers :: w.id
  }

  predicate ValidJournal(j: Journal) {
    && (j.version == 1 || j.version == 2)
    && (forall i, k :: 0 <= i < k < |j.writers| ==> j.writers[i].id != j.writers[k].id)
    && (j.version == 2 ==> forall w :: w in j.writers ==> PhaseOf(j, w.id) != Unset)
  }

  function NewStopJournal(writers: seq<Writer>): Journal {
    Journal(2, writers, false, map w | w in writers :: w.id := Planned)
  }

  // -------------------------------------------------------------------------
  // Safety of one instant and of one step
  // -------------------------------------------------------------------------

  predicate UpIn(containers: map<ContainerId, Container>, c: ContainerId) {
    c in containers ==> containers[c].running && !containers[c].stopping
  }

  ghost predicate Up(w: World, c: ContainerId) {
    UpIn(w.containers, c)
  }

  ghost predicate Journaled(w: World, c: ContainerId) {
    exists run :: run in w.disk && Names(w.disk[run], c)
  }

  /** No owed container is stopped, or about to be, unless a journal on disk says so. */
  ghost predicate Safe(w: World) {
    forall c :: c in w.ledger.owed ==> Up(w, c) || Journaled(w, c)
  }

  /** A phase of `Stopped` on disk rules out a stop still outstanding in the daemon. */
  ghost predicate Fenced(w: World) {
    forall run, c ::
      run in w.disk && Names(w.disk[run], c) && PhaseOf(w.disk[run], c) == Stopped && c in w.containers ==>
      !w.containers[c].stopping
  }

  ghost predicate Disjoint(disk: map<RunId, Journal>) {
    forall a, b :: a in disk && b in disk && a != b ==> Ids(disk[a]) !! Ids(disk[b])
  }

  /** Target writes of `run` began, did not complete, and nobody inspected them. */
  ghost predicate Incomplete(w: World, run: RunId) {
    run in w.ledger.writing && run !in w.ledger.applied && run !in w.ledger.acknowledged
  }

  ghost predicate Held(w: World) {
    forall run :: Incomplete(w, run) ==> run in w.disk && w.disk[run].hold
  }

  /** A step starts no journaled writer of a restore that stays incomplete. */
  ghost predicate NoEarlyStart(w: World, w': World) {
    forall run, c :: Incomplete(w, run) && Incomplete(w', run) && run in w.disk && c in Ids(w.disk[run]) &&
                     c in w.containers && c in w'.containers && w'.containers[c].running ==>
      w.containers[c].running
  }

  /** The journal of a half-written restore keeps its writers. */
  ghost predicate SameWriters(w: World, w': World) {
    forall run :: Incomplete(w, run) && Incomplete(w', run) && run in w.disk && run in w'.disk ==>
      w'.disk[run].writers == w.disk[run].writers
  }

  predicate HeldOn(w: World, run: RunId) {
    run in w.disk && w.disk[run].hold
  }

  /** `c` is a writer of a journal on disk whose run was applied, or is acknowledged by this step. */
  ghost predicate Excuses(w: World, w': World, run: RunId, c: ContainerId) {
    && run in w.disk && c in Ids(w.disk[run])
    && (run in w.ledger.applied || run in w'.ledger.acknowledged)
  }

  /** How the ledger may change: in steps of its own, and only so that each milestone is backed by a
      held journal on disk and no container stops being owed but as a writer of a run that was
      applied or is being acknowledged. */
  ghost predicate Accounted(w: World, w': World) {
    var l, l' := w.ledger, w'.ledger;
    && (l' != l ==> w'.containers == w.containers && w'.disk == w.disk)
    && l.writing <= l'.writing && l.applied <= l'.applied && l.acknowledged <= l'.acknowledged && l'.owed <= l.owed
    && (forall run :: run in l'.writing && run !in l.writing ==> HeldOn(w, run))
    && (forall run :: run in l'.applied && run !in l.applied ==> run in l.writing && HeldOn(w, run))
    && (forall run :: run in l'.acknowledged && run !in l.acknowledged ==> HeldOn(w, run))
    && (forall c :: c in l.owed && c !in l'.owed ==> exists run :: Excuses(w, w', run, c))
  }

  /** One step of the service, of Docker or of an operator. */
  ghost predicate GoodStep(w: World, w': World) {
    && w'.containers.Keys <= w.containers.Keys
    && NoEarlyStart(w, w') && SameWriters(w, w') && Accounted(w, w')
  }

  ghost predicate Good(reliable: bool, w: World) {
    && Held(w)
    && Disjoint(w.disk)
    && (reliable ==> Safe(w) && Fenced(w))
  }

  ghost function At(h: seq<World>, i: nat): World
    requires i < |h|
  {
    h[i]
  }

  /** Every instant of a history is good and every step between two of them is. */
  ghost predicate GoodHistory(reliable: bool, h: seq<World>) {
    forall i: nat {:trigger At(h, i)} :: i < |h| ==>
      Good(reliable, At(h, i)) && (i > 0 ==> GoodStep(h[i - 1], At(h, i)))
  }

  lemma GoodLast(reliable: bool, h: seq<World>)
    requires GoodHistory(reliable, h) && |h| > 0
    ensures Good(reliable, h[|h| - 1])
  {
    var _ := At(h, |h| - 1);
  }

  lemma HeldLast(reliable: bool, h: seq<World>)
    requires GoodHistory(reliable, h) && |h| > 0
    ensures Held(h[|h| - 1])
  {
    GoodLast(reliable, h);
  }

  lemma DisjointLast(reliable: bool, h: seq<World>)
    requires GoodHistory(reliable, h) && |h| > 0
    ensures Disjoint(h[|h| - 1].disk)
  {
    GoodLast(reliable, h);
  }

  lemma GoodExtension(reliable: bool, h: seq<World>, w: World)
    requires GoodHistory(reliable, h) && Good(reliable, w)
    requires |h| > 0 ==> GoodStep(h[|h| - 1], w)
    ensures GoodHistory(reliable, h + [w])
  {
    var ext := h + [w];
    forall i: nat | i < |ext| ensures Good(reliable, At(ext, i)) && (i > 0 ==> GoodStep(ext[i - 1], At(ext, i))) {
      if i < |h| {
        assert At(ext, i) == At(h, i);
      }
    }
  }

  lemma StepOf(reliable: bool, h: seq<World>, k: nat)
    requires GoodHistory(reliable, h) && k < |h|
    ensures Good(reliable, h[k]) && (k > 0 ==> GoodStep(h[k - 1], h[k]))
  {
    var _ := At(h, k);
  }

  /** Before instant `i` some journal named `c`, and its run was applied or acknowledged by then. */
  ghost predicate Released(h: seq<World>, i: nat, c: ContainerId) {
    exists k, run :: ReleasedBy(h, k, i, run, c)
  }

  ghost predicate ReleasedBy(h: seq<World>, k: int, i: nat, run: RunId, c: ContainerId) {
    && 0 <= k < i < |h| && run in h[k].disk && c in Ids(h[k].disk[run])
    && (run in h[i].ledger.applied || run in h[i].ledger.acknowledged)
  }

  lemma {:induction false} OwedUntilReleased(reliable: bool, h: seq<World>, i: nat, c: ContainerId)
    requires GoodHistory(reliable, h) && i < |h| && c in h[0].ledger.owed
    ensures c in h[i].ledger.owed || Released(h, i, c)
  {
    if i > 0 {
      OwedUntilReleased(reliable, h, i - 1, c);
      StepOf(reliable, h, i);
      if Released(h, i - 1, c) {
        var k, run :| ReleasedBy(h, k, i - 1, run, c);
        assert ReleasedBy(h, k, i, run, c);
      } else if c !in h[i].ledger.owed {
        var run :| Excuses(h[i - 1], h[i], run, c);
        assert ReleasedBy(h, i - 1, i, run, c);
      }
    }
  }

  /** What a good history promises: a container that was running at its start and is down at any
      later instant, so also after a crash there, is named by a journal on disk for recovery, or a
      journal named it before whose restore was applied or which an operator acknowledged. */
  lemma NeverForgotten(h: seq<World>, i: nat, c: ContainerId)
    requires GoodHistory(true, h) && i < |h| && c in h[0].ledger.owed
    requires c in h[i].containers && !h[i].containers[c].running
    ensures (exists run :: run in h[i].disk && Writer(c, true) in h[i].disk[run].writers &&
                           PhaseOf(h[i].disk[run], c) !in {Planned, Resumed}) ||
            Released(h, i, c)
  {
    OwedUntilReleased(true, h, i, c);
    if c in h[i].ledger.owed {
      StepOf(true, h, i);
      assert !Up(h[i], c);
      var run :| run in h[i].disk && Names(h[i].disk[run], c);
    }
  }

  /** And a restore that began to write stays held on disk, with the same writers and none of them
      started, until the whole of it was applied or an operator acknowledged it. */
  lemma {:induction false} HeldUntilInspected(
    reliable: bool, h: seq<World>, i: nat, k: nat, run: RunId, c: ContainerId)
    requires GoodHistory(reliable, h) && i <= k < |h| && run in h[i].ledger.writing
    requires run !in h[k].ledger.applied && run !in h[k].ledger.acknowledged
    ensures run in h[k].ledger.writing && run !in h[i].ledger.applied && run !in h[i].ledger.acknowledged
    ensures HeldOn(h[i], run) && HeldOn(h[k], run) && h[k].disk[run].writers == h[i].disk[run].writers
    ensures c in Ids(h[i].disk[run]) && c in h[k].containers ==>
      c in h[i].containers && (!h[i].containers[c].running ==> !h[k].containers[c].running)
    decreases k
  {
    StepOf(reliable, h, k);
    if i < k {
      assert run !in h[k - 1].ledger.applied && run !in h[k - 1].ledger.acknowledged;
      HeldUntilInspected(reliable, h, i, k - 1, run, c);
      assert Incomplete(h[k - 1], run) && Incomplete(h[k], run);
      assert Ids(h[k - 1].disk[run]) == Ids(h[i].disk[run]);
    } else {
      assert Incomplete(h[k], run);
    }
  }

  /** What a call for one container leaves of the others: they keep their state, or an outstanding
      stop is carried out. */
  ghost predicate Calm(before: map<ContainerId, Container>, after: map<ContainerId, Container>, c: ContainerId) {
    && after.Keys <= before.Keys
    && forall x :: x in after && x != c ==>
         after[x] == before[x] || (before[x].stopping && after[x] == Container(false, false))
  }

  /** What the daemon and other Docker clients do meanwhile: outstanding stops are
      carried out and containers are removed. */
  ghost predicate Settled(before: map<ContainerId, Container>, after: map<ContainerId, Container>) {
    && after.Keys <= before.Keys
    && forall c :: c in after ==> after[c] == before[c] || (before[c].stopping && after[c] == Container(false, false))
  }

  lemma SettlingKeepsGood(reliable: bool, w: World, containers: map<ContainerId, Container>)
    requires Good(reliable, w) && Settled(w.containers, containers)
    ensures Good(reliable, w.(containers := containers)) && GoodStep(w, w.(containers := containers))
  {
    var w' := w.(containers := containers);
    assert forall run :: Incomplete(w', run) ==> Incomplete(w, run);
    if reliable {
      forall c | c in w'.ledger.owed ensures Up(w', c) || Journaled(w', c) {
        if Journaled(w, c) {
          var run :| run in w.disk && Names(w.disk[run], c);
          assert run in w'.disk && Names(w'.disk[run], c);
        } else {
          assert Up(w, c);
        }
      }
    }
  }

  lemma RemovalKeepsGood(reliable: bool, w: World, run: RunId)
    requires Good(reliable, w) && !Incomplete(w, run)
    requires reliable && run in w.disk ==> forall c :: c in w.ledger.owed && Names(w.disk[run], c) ==> Up(w, c)
    ensures Good(reliable, w.(disk := w.disk - {run})) && GoodStep(w, w.(disk := w.disk - {run}))
  {
    var w' := w.(disk := w.disk - {run});
    assert forall r :: Incomplete(w', r) <==> Incomplete(w, r);
    if reliable {
      forall c | c in w'.ledger.owed ensures Up(w', c) || Journaled(w', c) {
        assert Up(w', c) <==> Up(w, c);
        if Journaled(w, c) && !Up(w, c) {
          var r :| r in w.disk && Names(w.disk[r], c);
          assert r in w'.disk && Names(w'.disk[r], c);
        }
      }
    }
  }

  lemma StoppingKeepsGood(reliable: bool, w: World, c: ContainerId, next: Container)
    requires Good(reliable, w) && c in w.containers
    requires reliable ==> exists run :: run in w.disk && Names(w.disk[run], c) && PhaseOf(w.disk[run], c) != Stopped
    requires next == Container(false, false) || next == w.containers[c].(stopping := true)
    ensures var w' := w.(containers := w.containers[c := next]); Good(reliable, w') && GoodStep(w, w')
  {
    var w' := w.(containers := w.containers[c := next]);
    assert forall r :: Incomplete(w', r) <==> Incomplete(w, r);
    if reliable {
      var run :| run in w.disk && Names(w.disk[run], c) && PhaseOf(w.disk[run], c) != Stopped;
      forall x | x in w'.ledger.owed ensures Up(w', x) || Journaled(w', x) {
        if x == c {
          assert run in w'.disk && Names(w'.disk[run], x);
        } else if Journaled(w, x) {
          var r :| r in w.disk && Names(w.disk[r], x);
          assert r in w'.disk && Names(w'.disk[r], x);
        } else {
          assert Up(w, x);
        }
      }
      forall r | r in w'.disk && Names(w'.disk[r], c) ensures r == run {
        assert Writer(c, true) in w.disk[r].writers && Writer(c, true) in w.disk[run].writers;
        assert c in Ids(w.disk[r]) && c in Ids(w.disk[run]);
      }
    }
  }

  lemma StartingKeepsGood(reliable: bool, w: World, c: ContainerId)
    requires Good(reliable, w) && c in w.containers
    requires forall run :: Incomplete(w, run) ==> run in w.disk && c !in Ids(w.disk[run])
    ensures var w' := w.(containers := w.containers[c := w.containers[c].(running := true)]);
            Good(reliable, w') && GoodStep(w, w')
  {
    var w' := w.(containers := w.containers[c := w.containers[c].(running := true)]);
    assert forall r :: Incomplete(w', r) <==> Incomplete(w, r);
    if reliable {
      forall x | x in w'.ledger.owed ensures Up(w', x) || Journaled(w', x) {
        if Journaled(w, x) {
          var r :| r in w.disk && Names(w.disk[r], x);
          assert r in w'.disk && Names(w'.disk[r], x);
        } else {
          assert Up(w, x);
        }
      }
    }
  }

  lemma SavingKeepsGood(reliable: bool, w: World, run: RunId, j: Journal)
    requires Good(reliable, w)
    requires if run in w.disk then j.writers == w.disk[run].writers else w.disk == map[]
    requires Incomplete(w, run) ==> j.hold
    requires reliable && run in w.disk ==>
      forall c :: c in w.ledger.owed && Names(w.disk[run], c) && !Names(j, c) ==> Up(w, c)
    requires reliable ==>
      forall c :: Names(j, c) && PhaseOf(j, c) == Stopped && c in w.containers ==> !w.containers[c].stopping
    ensures Good(reliable, w.(disk := w.disk[run := j]))
  {
    var w' := w.(disk := w.disk[run := j]);
    assert forall r :: Incomplete(w', r) <==> Incomplete(w, r);
    if reliable {
      forall c | c in w'.ledger.owed ensures Up(w', c) || Journaled(w', c) {
        assert Up(w', c) <==> Up(w, c);
        if !Up(w, c) {
          var r :| r in w.disk && Names(w.disk[r], c);
          assert r in w'.disk && Names(w'.disk[r], c);
        }
      }
    }
  }

  lemma LedgerKeepsGood(reliable: bool, w: World, ledger: Ledger)
    requires Good(reliable, w) && Accounted(w, w.(ledger := ledger))
    ensures Good(reliable, w.(ledger := ledger)) && GoodStep(w, w.(ledger := ledger))
  {
    var w' := w.(ledger := ledger);
    if reliable {
      forall c | c in ledger.owed ensures Up(w', c) || Journaled(w', c) {
        if Journaled(w, c) {
          var r :| r in w.disk && Names(w.disk[r], c);
          assert r in w'.disk && Names(w'.disk[r], c);
        } else {
          assert Up(w, c);
        }
      }
    }
  }

  /** An applied run, or one that an operator acknowledges, may give its writers up. */
  lemma GivingUpIsAccounted(w: World, run: RunId, ledger: Ledger)
    requires run in w.disk && ledger.owed == w.ledger.owed - Ids(w.disk[run])
    requires ledger.writing == w.ledger.writing && ledger.applied == w.ledger.applied
    requires if w.disk[run].hold then ledger.acknowledged <= w.ledger.acknowledged + {run}
             else ledger.acknowledged == w.ledger.acknowledged
    requires w.ledger.acknowledged <= ledger.acknowledged
    requires run in w.ledger.applied || run in ledger.acknowledged
    ensures Accounted(w, w.(ledger := ledger))
  {
    forall c | c in w.ledger.owed && c !in ledger.owed ensures exists r :: Excuses(w, w.(ledger := ledger), r, c) {
      assert Excuses(w, w.(ledger := ledger), run, c);
    }
  }

  /** With all writers of a journal finished, nothing but another journal can excuse an
      owed one for being down, and journals share no container. */
  lemma FinishedWritersAreUp(w: World, run: RunId, j: Journal)
    requires Safe(w) && Disjoint(w.disk) && run in w.disk && w.disk[run].writers == j.writers
    requires forall x :: x in j.writers ==> !Unfinished(w.disk[run], x)
    ensures forall x :: x in j.writers && x.id in w.ledger.owed ==> Up(w, x.id)
  {
    forall x | x in j.writers && x.id in w.ledger.owed ensures Up(w, x.id) {
      assert x.id in Ids(w.disk[run]);
      assert forall r :: r in w.disk && Names(w.disk[r], x.id) ==> x.id in Ids(w.disk[r]);
    }
  }

  /** `observeJournalWriters`: what a Docker listing says about each journaled writer. */
  function Observe(j: Journal, listing: set<ContainerId>, discovered: bool): map<ContainerId, Observation> {
    map w | w in j.writers :: w.id := if !discovered then Unknown else if w.id in listing then Present else Missing
  }

  predicate CanAcknowledgeMissing(j: Journal, seen: map<ContainerId, Observation>) {
    && !j.hold
    && (forall w :: w in j.writers && Unfinished(j, w) ==> w.id in seen && seen[w.id] == Missing)
    && (exists w :: w in j.writers && Unfinished(j, w))
  }

  /** When an operator's action applies to a journal. */
  predicate Admits(action: Resolution, j: Journal, listing: set<ContainerId>, discovered: bool) {
    match action
    case Retry => !j.hold
    case AcknowledgeHold => j.hold
    case AcknowledgeMissing(inspected, reasonLength) =>
      !j.hold && inspected && 8 <= reasonLength <= 1000 && CanAcknowledgeMissing(j, Observe(j, listing, discovered))
    case Unsupported => false
  }

  // -------------------------------------------------------------------------
  // Instants of one call, and when a failed save makes them unsafe
  // -------------------------------------------------------------------------

  /** What a call may add to the history. A stop or start first sees outstanding stops settle; without
      success it may or may not have been delivered. */
  ghost predicate StopRun(w: World, c: ContainerId, o: Outcome, ws: seq<World>) {
    && 1 <= |ws| <= 2 && ws[0] == w.(containers := ws[0].containers) && Settled(w.containers, ws[0].containers)
    && (|ws| == 1 ==> o != Ok)
    && (|ws| == 2 ==> c in ws[0].containers)
    && (|ws| == 2 ==> var next := if o == Ok then Container(false, false) else ws[0].containers[c].(stopping := true);
                      ws[1] == w.(containers := ws[0].containers[c := next]))
  }

  ghost predicate StartRun(w: World, c: ContainerId, o: Outcome, ws: seq<World>) {
    && 1 <= |ws| <= 2 && ws[0] == w.(containers := ws[0].containers) && Settled(w.containers, ws[0].containers)
    && (|ws| == 1 ==> o != Ok)
    && (|ws| == 2 ==> c in ws[0].containers)
    && (|ws| == 2 ==> ws[1] == w.(containers := ws[0].containers[c := ws[0].containers[c].(running := true)]))
  }

  ghost predicate SaveRun(w: World, run: RunId, j: Journal, o: Outcome, ws: seq<World>) {
    ws == [w.(disk := w.disk[run := j])] || (ws == [] && o != Ok)
  }

  ghost function Last(w: World, ws: seq<World>): World {
    if ws == [] then w else ws[|ws| - 1]
  }

  /** The instants of resuming one writer, by call, with the outcomes of the stop and the start. */
  datatype Rounds = Rounds(stop: seq<World>, stopped: Outcome, start: seq<World>, started: Outcome, save: seq<World>)

  /** A stop recorded as complete that is outstanding all the same; the fence would be skipped. */
  predicate Outstanding(j: Journal, containers: map<ContainerId, Container>, c: ContainerId) {
    PhaseOf(j, c) == Stopped && c in containers && containers[c].stopping
  }

  lemma Joined(h: seq<World>, a: seq<World>, b: seq<World>, c: seq<World>)
    ensures h + a + (b + c) == h + (a + b + c)
  {
  }

  lemma Composed(w: World, run: RunId, j: Journal, c: ContainerId, o: Outcome, r: Rounds, w1: World)
    requires if PhaseOf(j, c) == Stopped then r.stop == [] else StopRun(w, c, Ok, r.stop)
    requires r.stopped == Ok && Last(w, r.stop) == w1 && StartRun(w1, c, r.started, r.start)
    requires if r.started == Ok then SaveRun(Last(w1, r.start), run, j.(phases := j.phases[c := Resumed]), o, r.save)
             else r.save == [] && o == r.started
    ensures ResumeRun(w, run, j, c, o, r)
  {
  }

  /** Another view of a journal whose only news is that more writers run again. */
  ghost predicate Later(j: Journal, j': Journal) {
    j'.writers == j.writers && forall c :: PhaseOf(j', c) == PhaseOf(j, c) || PhaseOf(j', c) == Resumed
  }

  /** What work on a journal leaves of the containers it does not name. */
  ghost predicate Elsewhere(before: map<ContainerId, Container>, after: map<ContainerId, Container>, j: Journal) {
    && after.Keys <= before.Keys
    && forall x :: x in after && !Names(j, x) ==>
         after[x] == before[x] || (before[x].stopping && after[x] == Container(false, false))
  }

  /** How far `resume` has got: what it had to handle and has marked is up, and nothing else got an
      outstanding stop. */
  ghost predicate Handled(journal: Journal, before: map<ContainerId, Container>,
                          j: Journal, containers: map<ContainerId, Container>)
  {
    && Later(journal, j) && Elsewhere(before, containers, journal)
    && forall c :: Names(journal, c) && !Outstanding(journal, before, c) ==>
         if Names(j, c) then !Outstanding(j, containers, c) else UpIn(containers, c)
  }

  lemma HandledStep(journal: Journal, before: map<ContainerId, Container>, j: Journal, j': Journal,
                    c: ContainerId, containers: map<ContainerId, Container>, containers': map<ContainerId, Container>)
    requires Handled(journal, before, j, containers) && Calm(containers, containers', c)
    requires j' == j || j' == j.(phases := j.phases[c := Resumed])
    requires j' != j && !Outstanding(j, containers, c) ==> UpIn(containers', c)
    requires Names(j, c)
    requires Outstanding(j, containers', c) ==> Outstanding(j, containers, c)
    ensures Handled(journal, before, j', containers')
  {
    assert Names(journal, c);
    assert forall x :: x != c ==> PhaseOf(j', x) == PhaseOf(j, x);
  }

  // -------------------------------------------------------------------------
  // Calls that fail, and what a failure excuses
  // -------------------------------------------------------------------------

  /** A call that did not succeed. The stop with which `resume` fences a writer is a call of its own. */
  datatype Call = SaveCall(run: RunId) | RemoveCall(run: RunId)
                | StopCall(c: ContainerId) | FenceCall(c: ContainerId) | StartCall(c: ContainerId)

  ghost predicate Concerns(call: Call, run: RunId, j: Journal) {
    match call
    case SaveCall(r) => r == run
    case RemoveCall(r) => r == run
    case StopCall(c) => c in Ids(j)
    case FenceCall(c) => c in Ids(j)
    case StartCall(c) => c in Ids(j)
  }

  /** Since the log had `from` entries, every failed call was one for `run`. */
  ghost predicate OwnFailures(log: seq<Call>, from: nat, run: RunId, j: Journal) {
    forall i :: from <= i < |log| ==> Concerns(log[i], run, j)
  }

  ghost predicate Troubled(log: seq<Call>, from: nat, run: RunId, j: Journal) {
    exists i :: from <= i < |log| && Concerns(log[i], run, j)
  }

  lemma OwnFailuresAdd(log: seq<Call>, log': seq<Call>, from: nat, run: RunId, j: Journal, j': Journal)
    requires OwnFailures(log, from, run, j) && OwnFailures(log', |log|, run, j')
    requires log <= log' && j'.writers == j.writers
    ensures OwnFailures(log', from, run, j)
  {
    forall i | from <= i < |log'|
      ensures Concerns(log'[i], run, j)
    {
      if i < |log| { assert log'[i] == log[i]; } else { assert Concerns(log'[i], run, j'); }
    }
  }

  /** Docker refused to fence or to start `c`. */
  ghost predicate Refused(log: seq<Call>, from: nat, c: ContainerId) {
    exists i :: from <= i < |log| && (log[i] == FenceCall(c) || log[i] == StartCall(c))
  }

  /** The call of a round of `resume` that did not succeed, for a round that did not. */
  function FailedCall(r: Rounds, run: RunId, c: ContainerId): Call {
    if r.stopped != Ok then FenceCall(c) else if r.started != Ok then StartCall(c) else SaveCall(run)
  }

  lemma OneFailure(log: seq<Call>, call: Call, run: RunId, j: Journal, c: ContainerId)
    requires Concerns(call, run, j)
    ensures OwnFailures(log + [call], |log|, run, j)
    ensures call == FenceCall(c) || call == StartCall(c) ==> Refused(log + [call], |log|, c)
  {
    assert (log + [call])[|log|] == call;
  }

  /** Nothing that was up is down, but what Docker refused to fence or to start. */
  ghost predicate NoneLost(before: map<ContainerId, Container>, after: map<ContainerId, Container>,
                           log: seq<Call>, from: nat)
  {
    forall c :: UpIn(before, c) ==> UpIn(after, c) || Refused(log, from, c)
  }

  /** What was up is up, or the journal says that it has to be started again. */
  ghost predicate Covered(before: map<ContainerId, Container>, after: map<ContainerId, Container>, j: Journal) {
    forall c :: UpIn(before, c) ==> UpIn(after, c) || Names(j, c)
  }

  /** No stop that the journal records as complete is outstanding. */
  ghost predicate Quiet(j: Journal, containers: map<ContainerId, Container>) {
    forall c :: Names(j, c) ==> !Outstanding(j, containers, c)
  }

  lemma StoppingCovers(first: map<ContainerId, Container>, journal: Journal, before: map<ContainerId, Container>,
                       j: Journal, containers: map<ContainerId, Container>, c: ContainerId)
    requires Covered(first, before, journal) && Quiet(journal, before) && Calm(before, containers, c)
    requires j.writers == journal.writers && forall x :: x != c ==> PhaseOf(j, x) == PhaseOf(journal, x)
    requires Names(j, c) && !Outstanding(j, containers, c)
    ensures Covered(first, containers, j) && Quiet(j, containers)
  {
    forall x | x != c
      ensures UpIn(before, x) ==> UpIn(containers, x)
      ensures Names(j, x) ==> Names(journal, x) && !Outstanding(j, containers, x)
      ensures Names(journal, x) ==> Names(j, x)
    {
      if Names(journal, x) { assert !Outstanding(journal, before, x); }
    }
  }

  lemma SettlingCovers(first: map<ContainerId, Container>, before: map<ContainerId, Container>,
                       after: map<ContainerId, Container>, j: Journal)
    requires Covered(first, before, j) && Quiet(j, before) && Settled(before, after)
    ensures Covered(first, after, j) && Quiet(j, after)
  {
    forall c | Names(j, c)
      ensures !Outstanding(j, after, c)
    {
      assert !Outstanding(j, before, c);
    }
  }

  /** Reliable saves keep a recorded stop from being outstanding. */
  lemma QuietLast(h: seq<World>, run: RunId, j: Journal)
    requires GoodHistory(true, h) && |h| > 0
    requires var disk := h[|h| - 1].disk;
             if run in disk then disk[run].writers == j.writers && disk[run].phases == j.phases
             else forall x :: x in j.writers ==> !Unfinished(j, x)
    ensures Quiet(j, h[|h| - 1].containers)
  {
    GoodLast(true, h);
    ghost var w := h[|h| - 1];
    forall c | Names(j, c)
      ensures !Outstanding(j, w.containers, c)
    {
      assert Unfinished(j, Writer(c, true));
      assert Names(w.disk[run], c) && PhaseOf(w.disk[run], c) == PhaseOf(j, c);
    }
  }

  /** Once nothing that was up is missing from the journal, what is still named was refused. */
  lemma CoveredIsNoneLost(first: map<ContainerId, Container>, after: map<ContainerId, Container>, j: Journal,
                          log: seq<Call>, log': seq<Call>, from: nat)
    requires Covered(first, after, j) && from <= |log| && log <= log'
    requires forall c :: Names(j, c) ==> Refused(log', |log|, c)
    ensures NoneLost(first, after, log', from)
  {
    forall c | UpIn(first, c) && !UpIn(after, c)
      ensures Refused(log', from, c)
    {
      RefusedStays(log', log', |log|, from, c);
    }
  }

  lemma ResumingCovers(first: map<ContainerId, Container>, journal: Journal,
                       before: map<ContainerId, Container>, j: Journal, containers: map<ContainerId, Container>)
    requires Covered(first, before, journal) && Quiet(journal, before)
    requires Handled(journal, before, j, containers)
    ensures Covered(first, containers, j) && Quiet(j, containers)
  {
    forall c | UpIn(first, c) && !Names(j, c)
      ensures UpIn(containers, c)
    {
      if Names(journal, c) { assert !Outstanding(journal, before, c); }
    }
    forall c | Names(j, c)
      ensures !Outstanding(j, containers, c)
    {
      assert Names(journal, c) && !Outstanding(journal, before, c);
    }
  }

  /** What recovering one journal achieves: each writer it names is up, or Docker refused it; the journal
      goes only with all of them up, and stays only if a call for its run failed. On a host whose saves
      fail, a stop recorded as complete may be outstanding all the same. */
  ghost predicate Recovered(sure: bool, run: RunId, j: Journal, before: map<ContainerId, Container>,
                            containers: map<ContainerId, Container>, present: bool, log: seq<Call>, from: nat)
  {
    && (forall c :: Names(j, c) ==>
          || UpIn(containers, c)
          || (!sure && Outstanding(j, before, c))
          || (present && Refused(log, from, c)))
    && (present ==> Troubled(log, from, run, j))
  }

  lemma ResumedIsRecovered(sure: bool, run: RunId, journal: Journal, before: map<ContainerId, Container>, j: Journal,
                           containers: map<ContainerId, Container>, present: bool, log: seq<Call>, from: nat)
    requires Handled(journal, before, j, containers)
    requires forall c :: Names(j, c) ==> present && Refused(log, from, c)
    requires OwnFailures(log, from, run, journal) && (present ==> from < |log|) && (sure ==> Quiet(journal, before))
    ensures Recovered(sure, run, journal, before, containers, present, log, from)
    ensures NoneLost(before, containers, log, from)
  {
    if present { assert Concerns(log[from], run, journal); }
    forall c | UpIn(before, c) && !UpIn(containers, c)
      ensures Refused(log, from, c)
    {
      assert Names(journal, c);
      assert !Outstanding(journal, before, c);
    }
  }

  ghost predicate NoNewStops(j: Journal, before: map<ContainerId, Container>, after: map<ContainerId, Container>) {
    forall c :: Names(j, c) && Outstanding(j, after, c) ==> Outstanding(j, before, c)
  }

  lemma RefusedStays(log: seq<Call>, log': seq<Call>, from: nat, from': nat, c: ContainerId)
    requires log <= log' && from' <= from && Refused(log, from, c)
    ensures Refused(log', from', c)
  {
    var i :| from <= i < |log| && (log[i] == FenceCall(c) || log[i] == StartCall(c));
    assert log'[i] == log[i];
  }

  lemma TroubledStays(log: seq<Call>, log': seq<Call>, from: nat, from': nat, run: RunId, j: Journal)
    requires log <= log' && from' <= from && Troubled(log, from, run, j)
    ensures Troubled(log', from', run, j)
  {
    var i :| from <= i < |log| && Concerns(log[i], run, j);
    assert log'[i] == log[i];
  }

  /** Work on a journal with other writers does not undo a recovery. */
  lemma RecoveredStays(sure: bool, run: RunId, j: Journal, other: Journal, before: map<ContainerId, Container>,
                       containers: map<ContainerId, Container>, containers': map<ContainerId, Container>,
                       present: bool, log: seq<Call>, log': seq<Call>, from: nat)
    requires Recovered(sure, run, j, before, containers, present, log, from)
    requires Elsewhere(containers, containers', other) && Ids(j) !! Ids(other) && log <= log'
    ensures Recovered(sure, run, j, before, containers', present, log', from)
  {
    if present { TroubledStays(log, log', from, from, run, j); }
    forall c | Names(j, c) && !(!sure && Outstanding(j, before, c)) && !UpIn(containers', c)
      ensures present && Refused(log', from, c)
    {
      assert c in Ids(j) && Writer(c, true) in j.writers;
      assert Names(other, c) ==> Writer(c, true) in other.writers && c in Ids(other);
      RefusedStays(log, log', from, from, c);
    }
  }

  lemma RecoveredSince(sure: bool, run: RunId, j: Journal, before: map<ContainerId, Container>,
                       before': map<ContainerId, Container>, containers: map<ContainerId, Container>,
                       present: bool, log: seq<Call>, from: nat, from': nat)
    requires Recovered(sure, run, j, before, containers, present, log, from)
    requires NoNewStops(j, before', before) && from' <= from
    ensures Recovered(sure, run, j, before', containers, present, log, from')
  {
    if present { TroubledStays(log, log, from, from', run, j); }
    forall c | Names(j, c) && !(!sure && Outstanding(j, before', c)) && !UpIn(containers, c)
      ensures present && Refused(log, from', c)
    {
      RefusedStays(log, log, from, from', c);
    }
  }

  lemma NoNewStopsStays(j: Journal, other: Journal, before: map<ContainerId, Container>,
                        mid: map<ContainerId, Container>, after: map<ContainerId, Container>)
    requires NoNewStops(j, before, mid) && Elsewhere(mid, after, other) && Ids(j) !! Ids(other)
    ensures NoNewStops(j, before, after)
  {
    forall c | Names(j, c) && Outstanding(j, after, c)
      ensures Outstanding(j, before, c)
    {
      assert c in Ids(j);
      assert Names(other, c) ==> Writer(c, true) in other.writers && c in Ids(other);
    }
  }

  /** No journal but that of `run` changes, comes or goes. */
  ghost predicate Others(disk: map<RunId, Journal>, disk': map<RunId, Journal>, run: RunId) {
    && (forall r :: r != run ==> (r in disk' <==> r in disk))
    && (forall r :: r != run && r in disk && r in disk' ==> disk'[r] == disk[r])
  }

  /** A journal that `Recover` resumes. */
  predicate Resumable(disk: map<RunId, Journal>, readable: set<RunId>, run: RunId) {
    run in disk && run in readable && ValidJournal(disk[run]) && !disk[run].hold
  }

  ghost predicate AllResumable(disk: map<RunId, Journal>, readable: set<RunId>) {
    forall run :: run in disk ==> Resumable(disk, readable, run)
  }

  /** The journals in `done` are recovered and those in `todo` are as they were found. */
  ghost predicate AllRecovered(sure: bool, journals: map<RunId, Journal>, done: set<RunId>, todo: set<RunId>,
                               before: map<ContainerId, Container>, containers: map<ContainerId, Container>,
                               present: set<RunId>, log: seq<Call>, from: nat)
  {
    && (forall run :: run in done && run in journals ==>
          Recovered(sure, run, journals[run], before, containers, run in present, log, from))
    && (forall run :: run in todo && run in journals ==> NoNewStops(journals[run], before, containers))
  }

  /** What `Recover` leaves of the journals: those in `todo` and those that are held. */
  ghost predicate Remaining(journals: map<RunId, Journal>, disk: map<RunId, Journal>, todo: set<RunId>) {
    && disk.Keys <= journals.Keys && todo <= journals.Keys
    && forall run :: run in journals && (run in todo || journals[run].hold) ==>
         run in disk && disk[run] == journals[run]
  }

  lemma RemainingStep(journals: map<RunId, Journal>, disk: map<RunId, Journal>, disk': map<RunId, Journal>,
                      todo: set<RunId>, run: RunId)
    requires Remaining(journals, disk, todo + {run}) && Others(disk, disk', run) && run !in todo
    requires run in journals && (journals[run].hold ==> disk' == disk)
    ensures Remaining(journals, disk', todo)
  {
  }

  lemma AllRecoveredStep(sure: bool, journals: map<RunId, Journal>, done: set<RunId>, todo: set<RunId>, run: RunId,
                         before: map<ContainerId, Container>, containers: map<ContainerId, Container>,
                         containers': map<ContainerId, Container>, present: set<RunId>, present': set<RunId>,
                         log: seq<Call>, log': seq<Call>, from: nat)
    requires AllRecovered(sure, journals, done, todo, before, containers, present, log, from)
    requires run in journals && run !in done && run !in todo && Disjoint(journals) && log <= log'
    requires Elsewhere(containers, containers', journals[run])
    requires Recovered(sure, run, journals[run], before, containers', run in present', log', from)
    requires forall r :: r != run ==> (r in present <==> r in present')
    ensures AllRecovered(sure, journals, done + {run}, todo, before, containers', present', log', from)
  {
    forall r | r in done && r in journals
      ensures Recovered(sure, r, journals[r], before, containers', r in present', log', from)
    {
      RecoveredStays(sure, r, journals[r], journals[run], before, containers, containers', r in present, log, log',
                     from);
    }
    forall r | r in todo && r in journals
      ensures NoNewStops(journals[r], before, containers')
    {
      NoNewStopsStays(journals[r], journals[run], before, containers, containers');
    }
  }

  lemma NoneLostSince(before: map<ContainerId, Container>, after: map<ContainerId, Container>, log: seq<Call>,
                      from: nat, from': nat)
    requires NoneLost(before, after, log, from) && from' <= from
    ensures NoneLost(before, after, log, from')
  {
    forall c | UpIn(before, c) && !UpIn(after, c)
      ensures Refused(log, from', c)
    {
      RefusedStays(log, log, from, from', c);
    }
  }

  lemma NoneLostThen(before: map<ContainerId, Container>, mid: map<ContainerId, Container>,
                     after: map<ContainerId, Container>, log: seq<Call>, log': seq<Call>, from: nat)
    requires NoneLost(before, mid, log, from) && NoneLost(mid, after, log', |log|) && log <= log' && from <= |log|
    ensures NoneLost(before, after, log', from)
  {
    forall c | UpIn(before, c) && !UpIn(after, c)
      ensures Refused(log', from, c)
    {
      if UpIn(mid, c) { RefusedStays(log', log', |log|, from, c); } else { RefusedStays(log, log', from, from, c); }
    }
  }

  /** One round of `resume` for a writer it does not skip: fence unless the stop completed, start, mark. */
  ghost predicate ResumeRun(w: World, run: RunId, j: Journal, c: ContainerId, o: Outcome, r: Rounds) {
    && (if PhaseOf(j, c) == Stopped then r.stop == [] && r.stopped == Ok else StopRun(w, c, r.stopped, r.stop))
    && if r.stopped != Ok then r.start == [] && r.save == [] && o == r.stopped
       else
         && StartRun(Last(w, r.stop), c, r.started, r.start)
         && if r.started != Ok then r.save == [] && o == r.started
            else SaveRun(Last(Last(w, r.stop), r.start), run, j.(phases := j.phases[c := Resumed]), o, r.save)
  }

  ghost predicate SafeFor(w: World, c: ContainerId) {
    Up(w, c) || Journaled(w, c)
  }

  ghost predicate AllSafe(ws: seq<World>, c: ContainerId) {
    forall i :: 0 <= i < |ws| ==> SafeFor(ws[i], c)
  }

  ghost predicate RoundsSafe(r: Rounds, c: ContainerId) {
    AllSafe(r.stop, c) && AllSafe(r.start, c) && AllSafe(r.save, c)
  }

  /** Whatever happens to the calls, resuming a writer is safe for it. */
  ghost predicate AlwaysSafe(w: World, run: RunId, j: Journal, c: ContainerId) {
    forall o, r :: ResumeRun(w, run, j, c, o, r) ==> RoundsSafe(r, c)
  }

  lemma OnlyItsJournal(w: World, run: RunId, c: ContainerId)
    requires Disjoint(w.disk) && run in w.disk && c in Ids(w.disk[run])
    ensures Journaled(w, c) <==> Names(w.disk[run], c)
  {
    assert forall r :: r in w.disk && Names(w.disk[r], c) ==> c in Ids(w.disk[r]);
  }

  lemma JournaledAfter(w: World, w': World, c: ContainerId)
    requires w'.disk == w.disk
    ensures Journaled(w', c) <==> Journaled(w, c)
  {
  }

  /** A journal on disk that names the writer, or a stop known to be complete, covers every instant. */
  lemma ResumingIsSafe(w: World, run: RunId, j: Journal, c: ContainerId, o: Outcome, r: Rounds)
    requires SafeFor(w, c) && ResumeRun(w, run, j, c, o, r)
    requires Journaled(w, c) || PhaseOf(j, c) == Stopped
    requires PhaseOf(j, c) == Stopped && c in w.containers ==> !w.containers[c].stopping
    ensures RoundsSafe(r, c)
  {
    forall i | 0 <= i < |r.stop| ensures SafeFor(r.stop[i], c) {
      JournaledAfter(w, r.stop[i], c);
    }
    if r.stopped == Ok {
      var w1 := Last(w, r.stop);
      JournaledAfter(w, w1, c);
      forall i | 0 <= i < |r.start| ensures SafeFor(r.start[i], c) {
        JournaledAfter(w1, r.start[i], c);
      }
      if r.started == Ok {
        assert Up(Last(w1, r.start), c);
      }
    }
  }

  /** A stop that a crash cuts short, once delivered, is outstanding. */
  lemma FenceCutShort(w: World, run: RunId, j: Journal, c: ContainerId) returns (r: Rounds)
    requires c in w.containers && PhaseOf(j, c) != Stopped && !Journaled(w, c)
    ensures ResumeRun(w, run, j, c, Crashed, r) && !RoundsSafe(r, c)
  {
    var w' := w.(containers := w.containers[c := w.containers[c].(stopping := true)]);
    r := Rounds([w, w'], Crashed, [], Ok, []);
    assert w == w.(containers := w.containers);
    JournaledAfter(w, w', c);
    assert !SafeFor(r.stop[1], c);
  }

  /** On any host, and so after any failed save, resuming a writer that is owed is safe at every instant
      exactly when its journal on disk names it before the fence, or no stop is issued. */
  lemma ResumeIsSafeExactlyWhen(w: World, run: RunId, j: Journal, c: ContainerId)
    requires Disjoint(w.disk) && run in w.disk && w.disk[run].writers == j.writers && Names(j, c)
    requires SafeFor(w, c) && c in w.containers && (PhaseOf(j, c) == Stopped ==> !w.containers[c].stopping)
    ensures AlwaysSafe(w, run, j, c) <==> Names(w.disk[run], c) || PhaseOf(j, c) == Stopped
  {
    assert c in Ids(w.disk[run]) by { assert Writer(c, true) in w.disk[run].writers; }
    OnlyItsJournal(w, run, c);
    if Names(w.disk[run], c) || PhaseOf(j, c) == Stopped {
      forall o, r | ResumeRun(w, run, j, c, o, r) ensures RoundsSafe(r, c) {
        ResumingIsSafe(w, run, j, c, o, r);
      }
    } else {
      var r := FenceCutShort(w, run, j, c);
    }
  }

  /** The run that forgets a writer. The journal is planned and the container runs. Saving the intent
      fails and leaves the plan on disk; the deferred resume fences the writer and the process dies
      before it starts it again; recovery finds nothing unfinished in the plan and drops it. The
      container is down, owed, and in no journal. */
  lemma ForgottenWriter(c: ContainerId, run: RunId, w: World, j: Journal)
    requires c in w.containers && w.containers[c] == Container(true, false) && c in w.ledger.owed
    requires w.disk == map[run := NewStopJournal([Writer(c, true)])]
    requires j == w.disk[run].(phases := w.disk[run].phases[c := StopRequested])
    ensures var down := w.(containers := w.containers[c := Container(false, false)]);
            var after := down.(disk := down.disk - {run});
            && SaveRun(w, run, j, Failed, [])
            && Unfinished(j, Writer(c, true))
            && ResumeRun(w, run, j, c, Crashed, Rounds([w, down], Ok, [down], Crashed, []))
            && (forall x :: x in down.disk[run].writers ==> !Unfinished(down.disk[run], x))
            && c in after.ledger.owed && !Up(after, c) && !Journaled(after, c)
  {
    var down := w.(containers := w.containers[c := Container(false, false)]);
    assert w == w.(containers := w.containers) && down == down.(containers := down.containers);
    assert [w, down][1] == down && Last(w, [w, down]) == down;
    assert PhaseOf(j, c) == StopRequested;
    assert PhaseOf(w.disk[run], c) == Planned;
  }

  // -------------------------------------------------------------------------
  // The capture service at work
  // -------------------------------------------------------------------------

  /** The Docker host and the journal directory. Every effect is appended to
      `history`, so a statement about the history is a statement about every point at
      which the process can be killed. A result of `Crashed` ends the running operation
      without its deferred calls, and its in-memory journal is lost. Every call that does not succeed is
      appended to `failures`.
      `reliable`: journal saves complete or the process dies; they return no error. */
  class Host {
    var containers: map<ContainerId, Container>
    var disk: map<RunId, Journal>
    ghost var ledger: Ledger
    ghost var history: seq<World>
    ghost var failures: seq<Call>
    const reliable: bool

    ghost function Now(): World
      reads this`containers, this`disk, this`ledger
    {
      World(containers, disk, ledger)
    }

    ghost predicate Valid()
      reads this`containers, this`disk, this`ledger, this`history
    {
      && |history| > 0
      && history[|history| - 1] == Now()
      && GoodHistory(reliable, history)
    }

    constructor (initial: map<ContainerId, Container>, reliable: bool)
      ensures Valid() && fresh(this) && this.reliable == reliable && containers == initial && disk == map[]
      ensures history == [Now()]
      ensures ledger.owed == (set c | c in initial && initial[c] == Container(true, false))
    {
      containers, disk, failures := initial, map[], [];
      ledger := Ledger(set c | c in initial && initial[c] == Container(true, false), {}, {}, {});
      this.reliable := reliable;
      new;
      history := [];
      assert forall c :: c in ledger.owed ==> Up(Now(), c);
      GoodExtension(reliable, history, Now());
      history := [Now()];
    }

    ghost method Record()
      requires |history| > 0 && GoodHistory(reliable, history)
      requires Good(reliable, Now()) && GoodStep(history[|history| - 1], Now())
      modifies this`history
      ensures Valid() && history == old(history) + [Now()]
    {
      GoodExtension(reliable, history, Now());
      history := history + [Now()];
    }

    /** Time passes: the daemon carries out outstanding stops, containers are removed. */
    method Settle()
      requires Valid()
      modifies this`containers, this`history
      ensures Valid() && Settled(old(containers), containers) && history == old(history) + [Now()]
    {
      GoodLast(reliable, history);
      var finished: set<ContainerId>, gone: set<ContainerId> := *, *;
      ghost var w := Now();
      var next := map c | c in containers && c !in gone ::
        if c in finished && containers[c].stopping then Container(false, false) else containers[c];
      SettlingKeepsGood(reliable, w, next);
      containers := next;
      Record();
    }

    /** `saveStopJournal`: an atomic replacement of the run's journal file. The rename may have happened
        before an error is reported, for the directory is synced after it. */
    method Save(run: RunId, j: Journal) returns (o: Outcome)
      requires Valid()
      requires Good(reliable, Now().(disk := disk[run := j]))
      requires Incomplete(Now(), run) ==> run in disk && j.writers == disk[run].writers
      modifies this`disk, this`history, this`failures
      ensures Valid() && old(history) <= history && SaveRun(old(Now()), run, j, o, history[|old(history)|..])
      ensures o == Ok ==> disk == old(disk)[run := j]
      ensures disk == old(disk) || disk == old(disk)[run := j]
      ensures o == Failed ==> !reliable
      ensures failures == if o == Ok then old(failures) else old(failures) + [SaveCall(run)]
    {
      var outcome: Outcome, durable: bool := *, *;
      o := if outcome == Failed && reliable then Ok else outcome;
      if o != Ok { failures := failures + [SaveCall(run)]; }
      if o != Ok && !durable { return; }
      disk := disk[run := j];
      Record();
    }

    /** `removeJournal`: a failed directory sync may report an error after the removal. */
    method Remove(run: RunId) returns (o: Outcome)
      requires Valid() && !Incomplete(Now(), run)
      requires reliable && run in disk ==> forall c :: c in ledger.owed && Names(disk[run], c) ==> Up(Now(), c)
      modifies this`disk, this`history, this`failures
      ensures Valid() && old(history) <= history
      ensures disk == old(disk) || disk == old(disk) - {run}
      ensures o == Ok ==> disk == old(disk) - {run}
      ensures failures == if o == Ok then old(failures) else old(failures) + [RemoveCall(run)]
    {
      var removed: bool, outcome: Outcome := *, *;
      if outcome != Ok { failures := failures + [RemoveCall(run)]; }
      if outcome != Ok && !removed { return outcome; }
      GoodLast(reliable, history);
      RemovalKeepsGood(reliable, Now(), run);
      disk := disk - {run};
      Record();
      o := outcome;
    }

    /** `docker stop`. An error says nothing about whether the daemon received the request. */
    method DockerStop(c: ContainerId, fencing: bool) returns (o: Outcome)
      requires Valid()
      requires reliable ==> exists run :: run in disk && Names(disk[run], c) && PhaseOf(disk[run], c) != Stopped
      modifies this`containers, this`history, this`failures
      ensures Valid() && old(history) <= history && StopRun(old(Now()), c, o, history[|old(history)|..])
      ensures Calm(old(containers), containers, c)
      ensures c in containers && containers[c].running ==> old(containers[c]).running
      ensures o == Ok ==> c in containers && containers[c] == Container(false, false)
      ensures var call := if fencing then FenceCall(c) else StopCall(c);
              failures == if o == Ok then old(failures) else old(failures) + [call]
    {
      Settle();
      var outcome: Outcome, delivered: bool := *, *;
      if c !in containers && outcome == Ok { outcome := Failed; }
      if outcome != Ok { failures := failures + [if fencing then FenceCall(c) else StopCall(c)]; }
      if c !in containers || (outcome != Ok && !delivered) { return outcome; }
      var next := if outcome == Ok then Container(false, false) else containers[c].(stopping := true);
      GoodLast(reliable, history);
      StoppingKeepsGood(reliable, Now(), c, next);
      containers := containers[c := next];
      Record();
      o := outcome;
    }

    /** `docker start`. A pending stop survives it, which is why `resume` fences first. */
    method DockerStart(c: ContainerId) returns (o: Outcome)
      requires Valid()
      requires forall run :: Incomplete(Now(), run) ==> run in disk && c !in Ids(disk[run])
      modifies this`containers, this`history, this`failures
      ensures Valid() && old(history) <= history && StartRun(old(Now()), c, o, history[|old(history)|..])
      ensures Calm(old(containers), containers, c)
      ensures c in containers ==> containers[c].stopping ==> old(containers[c]).stopping
      ensures o == Ok ==> c in containers && containers[c].running
      ensures failures == if o == Ok then old(failures) else old(failures) + [StartCall(c)]
    {
      Settle();
      var outcome: Outcome, delivered: bool := *, *;
      if c !in containers && outcome == Ok { outcome := Failed; }
      if outcome != Ok { failures := failures + [StartCall(c)]; }
      if c !in containers || (outcome != Ok && !delivered) { return outcome; }
      GoodLast(reliable, history);
      StartingKeepsGood(reliable, Now(), c);
      containers := containers[c := containers[c].(running := true)];
      Record();
      o := outcome;
    }

    /** What `resume` and `stopJournalWriter` rely on: the in-memory journal agrees with the
        one on disk (saves being reliable), and its run is not a half-written restore. */
    ghost predicate Follows(run: RunId, j: Journal)
      reads this`containers, this`disk, this`ledger
    {
      && !Incomplete(Now(), run)
      && (if run in disk then disk[run].writers == j.writers else forall w :: w in j.writers ==> !Unfinished(j, w))
      && (reliable && run in disk ==> disk[run].phases == j.phases)
    }

    /** Set one writer's phase in memory and make the journal durable. */
    method SavePhase(run: RunId, journal: Journal, id: ContainerId, phase: Phase) returns (o: Outcome, j: Journal)
      requires Valid() && Follows(run, journal) && run in disk
      requires phase == StopRequested || phase == Stopped || phase == Resumed
      requires reliable && id in containers && phase != StopRequested ==> !containers[id].stopping
      requires reliable && id in containers && phase == Resumed ==> containers[id].running
      modifies this`disk, this`history, this`failures
      ensures Valid() && old(history) <= history && SaveRun(old(Now()), run, j, o, history[|old(history)|..])
      ensures disk == old(disk) || disk == old(disk)[run := j]
      ensures j == journal.(phases := journal.phases[id := phase])
      ensures o != Crashed ==> Follows(run, j)
      ensures o == Ok ==> disk == old(disk)[run := j]
      ensures o == Failed ==> !reliable
      ensures failures == if o == Ok then old(failures) else old(failures) + [SaveCall(run)]
    {
      j := journal.(phases := journal.phases[id := phase]);
      assert forall c :: c != id ==> PhaseOf(j, c) == PhaseOf(journal, c);
      GoodLast(reliable, history);
      SavingKeepsGood(reliable, Now(), run, j);
      o := Save(run, j);
    }

    /** The stop and its completion on disk, once the intent is there. */
    method StopIntended(run: RunId, journal: Journal, c: ContainerId) returns (o: Outcome, j: Journal)
      requires Valid() && Follows(run, journal) && run in disk
      requires Names(journal, c) && PhaseOf(journal, c) == StopRequested && (reliable ==> Names(disk[run], c))
      modifies this`containers, this`disk, this`history, this`failures
      ensures Valid() && old(history) <= history
      ensures run in disk && disk == old(disk)[run := disk[run]]
      ensures j == journal || j == journal.(phases := journal.phases[c := Stopped])
      ensures o != Crashed ==> Follows(run, j)
      ensures o == Ok ==> j != journal && c in containers && containers[c] == Container(false, false)
      ensures old(failures) <= failures && (o != Ok ==> old(failures) < failures)
      ensures !Outstanding(j, containers, c) && Calm(old(containers), containers, c)
    {
      j := journal;
      o := DockerStop(c, false);
      if o != Ok { return; }
      o, j := SavePhase(run, j, c, Stopped);
    }

    /** `stopJournalWriter`: intent on disk, then the stop, then its completion on disk. */
    method StopJournalWriter(run: RunId, journal: Journal, writer: Writer) returns (o: Outcome, j: Journal)
      requires Valid() && Follows(run, journal) && run in disk
      requires writer in journal.writers && writer.running
      modifies this`containers, this`disk, this`history, this`failures
      ensures Valid() && old(history) <= history
      ensures run in disk && disk == old(disk)[run := disk[run]]
      ensures j.writers == journal.writers && j.hold == journal.hold
      ensures o != Crashed ==> Follows(run, j)
      ensures o == Ok ==> j.phases == journal.phases[writer.id := StopRequested][writer.id := Stopped]
      ensures o == Ok ==> writer.id in containers && containers[writer.id] == Container(false, false)
      ensures old(failures) <= failures && (o != Ok ==> old(failures) < failures)
      ensures forall c :: c != writer.id ==> PhaseOf(j, c) == PhaseOf(journal, c)
      ensures Names(j, writer.id) && !Outstanding(j, containers, writer.id)
      ensures Calm(old(containers), containers, writer.id)
    {
      assert writer == Writer(writer.id, true);
      o, j := SavePhase(run, journal, writer.id, StopRequested);
      if o != Ok { return; }
      o, j := StopIntended(run, j, writer.id);
    }

    /** The fence of `resume`: stop again unless the stop is recorded as complete. */
    method Fence(run: RunId, journal: Journal, c: ContainerId) returns (o: Outcome, ghost ws: seq<World>)
      requires Valid() && Follows(run, journal) && run in disk && Names(journal, c)
      modifies this`containers, this`history, this`failures
      ensures Valid() && history == old(history) + ws && Follows(run, journal)
      ensures if PhaseOf(journal, c) == Stopped then ws == [] && o == Ok else StopRun(old(Now()), c, o, ws)
      ensures Last(old(Now()), ws) == Now()
      ensures o == Ok && (reliable || !Outstanding(journal, old(containers), c)) && c in containers ==>
        !containers[c].stopping
      ensures Calm(old(containers), containers, c)
      ensures failures == if o == Ok then old(failures) else old(failures) + [FenceCall(c)]
    {
      GoodLast(reliable, history);
      o, ws := Ok, [];
      if PhaseOf(journal, c) != Stopped {
        o := DockerStop(c, true);
        ws := history[|old(history)|..];
      }
    }

    /** Start the fenced writer and mark it. */
    method Restart(run: RunId, journal: Journal, c: ContainerId)
      returns (o: Outcome, j: Journal, started: Outcome, ghost start: seq<World>, ghost save: seq<World>)
      requires Valid() && Follows(run, journal) && run in disk && c in Ids(journal)
      requires reliable && c in containers ==> !containers[c].stopping
      modifies this`containers, this`disk, this`history, this`failures
      ensures Valid() && history == old(history) + (start + save) && StartRun(old(Now()), c, started, start)
      ensures j == if started == Ok then journal.(phases := journal.phases[c := Resumed]) else journal
      ensures if started == Ok then SaveRun(Last(old(Now()), start), run, j, o, save) else save == [] && o == started
      ensures run in disk && disk == old(disk)[run := disk[run]]
      ensures o != Crashed ==> Follows(run, j)
      ensures started == Ok && (reliable || !old(c in containers && containers[c].stopping)) ==> Up(Now(), c)
      ensures c in containers && containers[c].stopping ==> old(containers[c]).stopping
      ensures Calm(old(containers), containers, c)
      ensures var call := if started == Ok then SaveCall(run) else StartCall(c);
              failures == if o == Ok then old(failures) else old(failures) + [call]
    {
      GoodLast(reliable, history);
      j, save := journal, [];
      started := DockerStart(c);
      start, o := history[|old(history)|..], started;
      if started != Ok { return; }
      ghost var before := history;
      o, j := SavePhase(run, j, c, Resumed);
      save := history[|before|..];
    }

    /** One round of the loop in `resume`, for a writer it does not skip. */
    method ResumeWriter(run: RunId, journal: Journal, writer: Writer)
      returns (o: Outcome, j: Journal, ghost r: Rounds)
      requires Valid() && Follows(run, journal) && run in disk
      requires writer in journal.writers && Unfinished(journal, writer)
      modifies this`containers, this`disk, this`history, this`failures
      ensures Valid() && history == old(history) + (r.stop + r.start + r.save)
      ensures ResumeRun(old(Now()), run, journal, writer.id, o, r)
      ensures run in disk && disk == old(disk)[run := disk[run]]
      ensures o != Crashed ==> Follows(run, j)
      ensures j == journal || j == journal.(phases := journal.phases[writer.id := Resumed])
      ensures o == Ok ==> j == journal.(phases := journal.phases[writer.id := Resumed])
      ensures j != journal && (reliable || !Outstanding(journal, old(containers), writer.id)) ==> Up(Now(), writer.id)
      ensures Calm(old(containers), containers, writer.id)
      ensures Outstanding(journal, containers, writer.id) ==> Outstanding(journal, old(containers), writer.id)
      ensures failures == if o == Ok then old(failures) else old(failures) + [FailedCall(r, run, writer.id)]
      ensures o == Ok || (r.stopped == Ok && r.started == Ok) <==> j != journal
    {
      assert Names(journal, writer.id) && writer.id in Ids(journal);
      ghost var stop, start, save;
      o, stop := Fence(run, journal, writer.id);
      j := journal;
      if o != Ok {
        r := Rounds(stop, o, [], Ok, []);
        assert stop + [] + [] == stop;
        return;
      }
      ghost var w1, fenced := Now(), history;
      var started;
      o, j, started, start, save := Restart(run, journal, writer.id);
      r := Rounds(stop, Ok, start, started, save);
      Composed(old(Now()), run, journal, writer.id, o, r, w1);
      Joined(old(history), stop, start, save);
    }

    /** The same without its instants: who was stopped and started, and which call failed. */
    method ResumeDue(run: RunId, journal: Journal, writer: Writer) returns (o: Outcome, j: Journal)
      requires Valid() && Follows(run, journal) && run in disk
      requires writer in journal.writers && Unfinished(journal, writer)
      modifies this`containers, this`disk, this`history, this`failures
      ensures Valid() && old(history) <= history && (o != Crashed ==> Follows(run, j))
      ensures run in disk && disk == old(disk)[run := disk[run]]
      ensures j == journal || j == journal.(phases := journal.phases[writer.id := Resumed])
      ensures j != journal && (reliable || !Outstanding(journal, old(containers), writer.id)) ==> Up(Now(), writer.id)
      ensures Calm(old(containers), containers, writer.id)
      ensures Outstanding(journal, containers, writer.id) ==> Outstanding(journal, old(containers), writer.id)
      ensures old(failures) <= failures && (o != Ok ==> old(failures) < failures)
      ensures OwnFailures(failures, |old(failures)|, run, journal)
      ensures j == journal ==> o != Ok && Refused(failures, |old(failures)|, writer.id)
    {
      ghost var rounds;
      o, j, rounds := ResumeWriter(run, journal, writer);
      assert writer.id in Ids(journal);
      if o != Ok { OneFailure(old(failures), FailedCall(rounds, run, writer.id), run, journal, writer.id); }
    }

    /** One round of the loop in `resume`, skipping writers that were not stopped or run again. */
    method ResumeRound(run: RunId, journal: Journal, writer: Writer,
                       ghost first: Journal, ghost before: map<ContainerId, Container>)
      returns (o: Outcome, j: Journal)
      requires Valid() && Follows(run, journal) && writer in journal.writers
      requires Handled(first, before, journal, containers)
      modifies this`containers, this`disk, this`history, this`failures
      ensures Valid() && old(history) <= history && (o != Crashed ==> Follows(run, j))
      ensures if run in old(disk) then run in disk && disk == old(disk)[run := disk[run]] else disk == old(disk)
      ensures Handled(first, before, j, containers)
      ensures forall w :: !Unfinished(journal, w) ==> !Unfinished(j, w)
      ensures o == Ok ==> !Unfinished(j, writer)
      ensures old(failures) <= failures && (o != Ok ==> old(failures) < failures)
      ensures OwnFailures(failures, |old(failures)|, run, journal)
      ensures Unfinished(j, writer) ==> Refused(failures, |old(failures)|, writer.id)
    {
      o, j := Ok, journal;
      if !Unfinished(journal, writer) { return; }
      assert writer == Writer(writer.id, true);
      o, j := ResumeDue(run, journal, writer);
      HandledStep(first, before, journal, j, writer.id, old(containers), containers);
    }

    /** The loop of `resume`: the in-memory journal it returns carries the phases the caller's shares. */
    method ResumeAll(run: RunId, journal: Journal) returns (o: Outcome, j: Journal)
      requires Valid() && Follows(run, journal)
      modifies this`containers, this`disk, this`history, this`failures
      ensures Valid() && old(history) <= history
      ensures j.writers == journal.writers && (o != Crashed ==> Follows(run, j))
      ensures if run in old(disk) then run in disk && disk == old(disk)[run := disk[run]] else disk == old(disk)
      ensures o != Crashed ==> Handled(journal, old(containers), j, containers)
      ensures o == Ok ==> forall w :: w in journal.writers ==> !Unfinished(j, w)
      ensures old(failures) <= failures && (o != Ok ==> old(failures) < failures)
      ensures OwnFailures(failures, |old(failures)|, run, journal)
      ensures o != Crashed ==> forall c :: Names(j, c) ==> Refused(failures, |old(failures)|, c)
    {
      j := journal;
      var failed := false;
      for i := 0 to |journal.writers|
        invariant Valid() && Follows(run, j) && old(history) <= history
        invariant if run in old(disk) then run in disk && disk == old(disk)[run := disk[run]] else disk == old(disk)
        invariant Handled(journal, old(containers), j, containers)
        invariant !failed ==> forall k :: 0 <= k < i ==> !Unfinished(j, journal.writers[k])
        invariant old(failures) <= failures && (failed ==> old(failures) < failures)
        invariant OwnFailures(failures, |old(failures)|, run, journal)
        invariant forall k :: 0 <= k < i && Unfinished(j, journal.writers[k]) ==>
          Refused(failures, |old(failures)|, journal.writers[k].id)
      {
        ghost var j0, log := j, failures;
        var step;
        step, j := ResumeRound(run, j, journal.writers[i], journal, old(containers));
        OwnFailuresAdd(log, failures, |old(failures)|, run, journal, j0);
        if step == Crashed { return Crashed, j; }
        failed := failed || step == Failed;
        forall k | 0 <= k <= i && Unfinished(j, journal.writers[k])
          ensures Refused(failures, |old(failures)|, journal.writers[k].id)
        {
          RefusedStays(if k < i then log else failures, failures, if k < i then |old(failures)| else |log|,
                       |old(failures)|, journal.writers[k].id);
        }
      }
      o := if failed then Failed else Ok;
      forall c | Names(j, c)
        ensures Refused(failures, |old(failures)|, c)
      {
        var k :| 0 <= k < |j.writers| && j.writers[k] == Writer(c, true);
        assert Unfinished(j, journal.writers[k]);
      }
    }

    /** The end of `resume`: every writer runs, and the journal goes. */
    method Retire(run: RunId, j: Journal) returns (o: Outcome)
      requires Valid() && Follows(run, j) && forall w :: w in j.writers ==> !Unfinished(j, w)
      modifies this`disk, this`history, this`failures
      ensures Valid() && old(history) <= history && (o != Crashed ==> Follows(run, j))
      ensures disk == old(disk) || disk == old(disk) - {run}
      ensures o == Ok ==> run !in disk
      ensures run in old(disk) && reliable ==> forall w :: w in j.writers && w.id in ledger.owed ==> Up(Now(), w.id)
      ensures failures == if o == Ok then old(failures) else old(failures) + [RemoveCall(run)]
    {
      GoodLast(reliable, history);
      if reliable && run in disk { FinishedWritersAreUp(Now(), run, j); }
      assert reliable && run in disk ==> forall c :: Names(disk[run], c) ==> Unfinished(j, Writer(c, true));
      o := Remove(run);
    }

    /** `resume`: fence, restart and mark every unfinished writer, each on its own; the journal goes
        only when all of them run. */
    method Resume(run: RunId, journal: Journal) returns (o: Outcome, j: Journal)
      requires Valid() && Follows(run, journal)
      modifies this`containers, this`disk, this`history, this`failures
      ensures Valid() && old(history) <= history
      ensures j.writers == journal.writers && (o != Crashed ==> Follows(run, j))
      ensures disk - {run} == old(disk) - {run} && (run in disk ==> run in old(disk))
      ensures o == Ok ==> run !in disk
      ensures run in old(disk) && run !in disk ==> forall w :: w in journal.writers ==> !Unfinished(j, w)
      ensures run in old(disk) && run !in disk ==> forall w :: w in journal.writers && Unfinished(journal, w) ==>
        Up(Now(), w.id) || (!reliable && Outstanding(journal, old(containers), w.id))
      ensures run in old(disk) && run !in disk && reliable ==>
        forall w :: w in journal.writers && w.id in ledger.owed ==> Up(Now(), w.id)
      ensures o != Crashed ==> Handled(journal, old(containers), j, containers)
      ensures o != Crashed ==> forall c :: Names(j, c) ==> run in disk && Refused(failures, |old(failures)|, c)
      ensures OwnFailures(failures, |old(failures)|, run, journal)
      ensures old(failures) <= failures && (o != Ok ==> old(failures) < failures)
      ensures o != Crashed ==>
        Recovered(reliable, run, journal, old(containers), containers, run in disk, failures, |old(failures)|)
      ensures o != Crashed ==> NoneLost(old(containers), containers, failures, |old(failures)|)
    {
      if reliable { QuietLast(history, run, journal); }
      o, j := ResumeAll(run, journal);
      assert forall w :: w in journal.writers && Unfinished(journal, w) ==> Names(journal, w.id) by {
        assert forall w :: w in journal.writers && w.running ==> w == Writer(w.id, true);
      }
      if o == Ok {
        assert forall c :: Names(j, c) ==> Unfinished(j, Writer(c, true));
        ghost var log := failures;
        o := Retire(run, j);
        OneFailure(log, RemoveCall(run), run, journal, "");
        OwnFailuresAdd(log, failures, |old(failures)|, run, journal, journal);
      }
      if o != Crashed {
        ResumedIsRecovered(reliable, run, journal, old(containers), j, containers, run in disk, failures,
                           |old(failures)|);
      }
    }

    /** One journal that `Recover` does not skip. */
    method RecoverOne(run: RunId, ghost before: map<ContainerId, Container>, ghost from: nat) returns (o: Outcome)
      requires Valid() && run in disk && !disk[run].hold && from <= |failures|
      requires NoNewStops(disk[run], before, containers) && NoneLost(before, containers, failures, from)
      modifies this`containers, this`disk, this`history, this`failures
      ensures Valid() && old(history) <= history
      ensures Others(old(disk), disk, run) && (o == Ok ==> run !in disk)
      ensures old(failures) <= failures && (o != Ok ==> old(failures) < failures)
      ensures o != Crashed ==>
        Recovered(reliable, run, old(disk)[run], before, containers, run in disk, failures, from)
      ensures o != Crashed ==> NoneLost(before, containers, failures, from)
      ensures o != Crashed ==> Elsewhere(old(containers), containers, old(disk)[run])
    {
      GoodLast(reliable, history);
      var j;
      o, j := Resume(run, disk[run]);
      assert forall r :: r in old(disk) && r != run ==> r in old(disk) - {run};
      assert forall r :: r in disk && r != run ==> r in disk - {run};
      if o == Crashed { return; }
      RecoveredSince(reliable, run, old(disk)[run], old(containers), before, containers, run in disk, failures,
                     |old(failures)|, from);
      NoneLostThen(before, old(containers), containers, old(failures), failures, from);
    }

    /** One round of the loop in `Recover`. */
    method RecoverRound(run: RunId, readable: set<RunId>, ghost journals: map<RunId, Journal>, ghost done: set<RunId>,
                        ghost todo: set<RunId>, ghost before: map<ContainerId, Container>, ghost from: nat)
      returns (o: Outcome, ghost done': set<RunId>)
      requires Valid() && run in disk && run in journals && disk[run] == journals[run] && from <= |failures|
      requires run !in done && run !in todo && Disjoint(journals)
      requires NoneLost(before, containers, failures, from)
      requires AllRecovered(reliable, journals, done, todo + {run}, before, containers, disk.Keys, failures, from)
      modifies this`containers, this`disk, this`history, this`failures
      ensures Valid() && old(history) <= history
      ensures Others(old(disk), disk, run) && (o == Ok ==> run !in disk)
      ensures journals[run].hold ==> disk == old(disk)
      ensures old(failures) <= failures && (o != Ok && Resumable(journals, readable, run) ==> old(failures) < failures)
      ensures done' == if Resumable(journals, readable, run) then done + {run} else done
      ensures o != Crashed ==> NoneLost(before, containers, failures, from)
      ensures o != Crashed ==>
        AllRecovered(reliable, journals, done', todo, before, containers, disk.Keys, failures, from)
    {
      o, done' := Failed, done;
      if run in readable && ValidJournal(disk[run]) && !disk[run].hold {
        done' := done + {run};
        o := RecoverOne(run, before, from);
        if o == Crashed { return; }
        AllRecoveredStep(reliable, journals, done, todo, run, before, old(containers), containers,
                         old(disk).Keys, disk.Keys, old(failures), failures, from);
      }
    }

    /** `Recover`: compensate every journal that is not held; any failure blocks new work. `listable` and
        `readable` say what can be read of the journal directory. */
    method Recover(listable: bool, readable: set<RunId>) returns (o: Outcome)
      requires Valid()
      modifies this`containers, this`disk, this`history, this`failures
      ensures Valid() && old(history) <= history
      ensures disk.Keys <= old(disk).Keys
      ensures o == Ok ==> disk == map[]
      ensures forall run :: run in old(disk) && old(disk)[run].hold ==> run in disk && disk[run] == old(disk)[run]
      ensures listable && o != Crashed ==> forall run :: Resumable(old(disk), readable, run) ==>
        Recovered(reliable, run, old(disk)[run], old(containers), containers, run in disk, failures, |old(failures)|)
      ensures o != Crashed ==> NoneLost(old(containers), containers, failures, |old(failures)|)
      ensures old(failures) <= failures
      ensures o != Ok && listable && AllResumable(old(disk), readable) ==> old(failures) < failures
    {
      if !listable { return Failed; }
      DisjointLast(reliable, history);
      var entries, failed := disk.Keys, false;
      ghost var done: set<RunId> := {};
      while entries != {}
        invariant Valid() && old(history) <= history
        invariant Remaining(old(disk), disk, entries)
        invariant !failed ==> disk.Keys <= entries
        invariant old(failures) <= failures
        invariant failed && AllResumable(old(disk), readable) ==> old(failures) < failures
        invariant NoneLost(old(containers), containers, failures, |old(failures)|)
        invariant forall run :: Resumable(old(disk), readable, run) ==> run in entries || run in done
        invariant done !! entries && done <= old(disk).Keys
        invariant AllRecovered(reliable, old(disk), done, entries, old(containers), containers, disk.Keys, failures,
                               |old(failures)|)
        decreases entries
      {
        var run :| run in entries;
        assert entries - {run} + {run} == entries;
        entries := entries - {run};
        ghost var disk0 := disk;
        var step;
        step, done := RecoverRound(run, readable, old(disk), done, entries, old(containers), |old(failures)|);
        RemainingStep(old(disk), disk0, disk, entries, run);
        if step == Crashed { return Crashed; }
        failed := failed || step == Failed;
      }
      o := if failed then Failed else Ok;
    }

    /** Save the first journal of a run. `Recover` left no journal behind. */
    method Begin(run: RunId, writers: seq<Writer>) returns (o: Outcome, j: Journal)
      requires Valid() && disk == map[] && run !in ledger.writing
      modifies this`disk, this`history, this`failures
      ensures Valid() && old(history) <= history
      ensures j == NewStopJournal(writers)
      ensures o == Ok ==> disk == map[run := j] && Follows(run, j)
      ensures o != Ok ==> disk == map[] || disk == map[run := j]
      ensures old(failures) <= failures && (o != Ok ==> old(failures) < failures)
      ensures Quiet(j, containers)
    {
      j := NewStopJournal(writers);
      assert forall c :: !Names(j, c);
      GoodLast(reliable, history);
      SavingKeepsGood(reliable, Now(), run, j);
      o := Save(run, j);
      assert map[][run := j] == map[run := j];
    }

    /** The stop loop shared by `Prepare` and `ApplyRestore`. */
    method StopAll(run: RunId, journal: Journal) returns (o: Outcome, j: Journal)
      requires Valid() && Follows(run, journal) && run in disk
      requires (forall w :: w in journal.writers ==> w.running) && Quiet(journal, containers)
      modifies this`containers, this`disk, this`history, this`failures
      ensures Valid() && old(history) <= history
      ensures run in disk && disk == old(disk)[run := disk[run]]
      ensures j.writers == journal.writers && j.hold == journal.hold && (o != Crashed ==> Follows(run, j))
      ensures o == Ok ==> forall w :: w in journal.writers ==> PhaseOf(j, w.id) == Stopped
      ensures old(failures) <= failures && (o != Ok ==> old(failures) < failures)
      ensures Covered(old(containers), containers, j) && Quiet(j, containers)
    {
      j, o := journal, Ok;
      for i := 0 to |journal.writers|
        invariant Valid() && old(history) <= history && Follows(run, j) && o == Ok
        invariant run in disk && disk == old(disk)[run := disk[run]]
        invariant j.writers == journal.writers && j.hold == journal.hold
        invariant forall k :: 0 <= k < i ==> PhaseOf(j, journal.writers[k].id) == Stopped
        invariant old(failures) <= failures
        invariant Covered(old(containers), containers, j) && Quiet(j, containers)
      {
        ghost var j0, containers0 := j, containers;
        o, j := StopJournalWriter(run, j, journal.writers[i]);
        StoppingCovers(old(containers), j0, containers0, j, containers, journal.writers[i].id);
        if o != Ok { return; }
      }
    }

    /** `resume` after stops of this very run: nothing that was up at first is lost. */
    method ResumeAfter(run: RunId, journal: Journal, ghost first: map<ContainerId, Container>, ghost from: nat)
      returns (o: Outcome, j: Journal)
      requires Valid() && Follows(run, journal) && from <= |failures|
      requires Covered(first, containers, journal) && Quiet(journal, containers)
      modifies this`containers, this`disk, this`history, this`failures
      ensures Valid() && old(history) <= history
      ensures o != Crashed ==> Follows(run, j)
      ensures disk - {run} == old(disk) - {run} && (run in disk ==> run in old(disk))
      ensures old(failures) <= failures && (o != Ok ==> old(failures) < failures)
      ensures o == Ok ==> run !in disk && forall c :: Names(journal, c) ==> Up(Now(), c)
      ensures o != Crashed ==> NoneLost(first, containers, failures, from)
      ensures o != Crashed ==> Covered(first, containers, j) && Quiet(j, containers)
    {
      o, j := Resume(run, journal);
      if o == Crashed { return; }
      ResumingCovers(first, journal, old(containers), j, containers);
      CoveredIsNoneLost(first, containers, j, old(failures), failures, from);
    }

    /** The part of `Prepare` between the first journal save and its deferred resume: the
        writers are resumed once after the capture, and again by the deferred call unless
        that succeeded. `captured` is the outcome of the capture itself. */
    method CaptureStopped(run: RunId, journal: Journal, captured: Outcome) returns (o: Outcome)
      requires Valid() && Follows(run, journal) && run in disk
      requires (forall w :: w in journal.writers ==> w.running) && Quiet(journal, containers)
      modifies this`containers, this`disk, this`history, this`failures
      ensures Valid() && old(history) <= history
      ensures disk - {run} == old(disk) - {run}
      ensures o == Ok ==> run !in disk && forall w :: w in journal.writers ==> Up(Now(), w.id)
      ensures o != Crashed ==> NoneLost(old(containers), containers, failures, |old(failures)|)
      ensures old(failures) <= failures && (o != Ok && captured == Ok ==> old(failures) < failures)
      ensures o != Crashed && run in disk ==> old(failures) < failures
    {
      var j, deferred;
      o, j := StopAll(run, journal);
      if o == Crashed { return; }
      if o == Ok {
        ghost var before := containers;
        Settle();
        SettlingCovers(old(containers), before, containers, j);
        o := captured;
        if o == Crashed { return; }
      }
      if o == Ok {
        assert forall w :: w in journal.writers ==> w == Writer(w.id, true) && Names(j, w.id);
        o, j := ResumeAfter(run, j, old(containers), |old(failures)|);
        if o != Failed { return; }
      }
      deferred, j := ResumeAfter(run, j, old(containers), |old(failures)|);
      o := if deferred == Crashed then Crashed else Failed;
    }

    /** `Prepare`: recover, journal and stop the running writers, capture, resume them. The outcomes
        of admission, capture and indexing are given. */
    method Prepare(run: RunId, writers: seq<Writer>, listable: bool, readable: set<RunId>,
                   admitted: Outcome, captured: Outcome, indexed: Outcome)
      returns (o: Outcome)
      requires Valid() && run !in ledger.writing
      requires forall w :: w in writers ==> w.running
      modifies this`containers, this`disk, this`history, this`failures
      ensures Valid() && old(history) <= history
      ensures o == Ok ==> disk == map[] && forall w :: w in writers ==> Up(Now(), w.id)
      ensures o != Crashed ==> NoneLost(old(containers), containers, failures, |old(failures)|)
      ensures old(failures) <= failures
      ensures o != Ok && listable && AllResumable(old(disk), readable) && admitted == captured == indexed == Ok ==>
        old(failures) < failures
    {
      o := Recover(listable, readable);
      if o != Ok { return; }
      if admitted != Ok || writers == [] { return admitted; }
      ghost var recovered, log := containers, failures;
      var j;
      o, j := Begin(run, writers);
      if o != Ok { return; }
      o := CaptureStopped(run, j, captured);
      assert o == Ok ==> disk == disk - {run};
      if o != Crashed { NoneLostThen(old(containers), recovered, containers, log, failures, |old(failures)|); }
      if o == Ok { o := indexed; }
    }

    /** A milestone of the run that changes neither the host nor the disk. */
    ghost method Note(next: Ledger)
      requires Valid() && Accounted(Now(), Now().(ledger := next))
      modifies this`ledger, this`history
      ensures Valid() && old(history) <= history && ledger == next
    {
      GoodLast(reliable, history);
      LedgerKeepsGood(reliable, Now(), next);
      ledger := next;
      Record();
    }

    /** The durable write intent: from here on a crash leaves the run held. */
    method SaveHold(run: RunId, journal: Journal) returns (o: Outcome)
      requires Valid() && Follows(run, journal) && run in disk
      modifies this`disk, this`history, this`failures
      ensures Valid() && old(history) <= history
      ensures disk == old(disk) || disk == old(disk)[run := journal.(hold := true)]
      ensures o == Ok ==> disk == old(disk)[run := journal.(hold := true)]
      ensures o != Crashed ==> Follows(run, journal)
      ensures old(failures) <= failures && (o != Ok ==> old(failures) < failures)
    {
      GoodLast(reliable, history);
      SavingKeepsGood(reliable, Now(), run, journal.(hold := true));
      o := Save(run, journal.(hold := true));
    }

    /** Apply every prepared archive and validate the restored definitions. */
    method WriteTargets(run: RunId, written: Outcome) returns (o: Outcome)
      requires Valid() && run in disk && disk[run].hold
      modifies this`ledger, this`containers, this`history
      ensures Valid() && old(history) <= history
      ensures ledger == old(ledger).(writing := old(ledger).writing + {run},
                                     applied := if o == Ok then old(ledger).applied + {run} else old(ledger).applied)
      ensures o == written && Settled(old(containers), containers)
    {
      GoodLast(reliable, history);
      Note(ledger.(writing := ledger.writing + {run}));
      Settle();
      o := written;
      if o != Ok { return; }
      GoodLast(reliable, history);
      Note(ledger.(applied := ledger.applied + {run}));
    }

    /** The journal of a run whose writers nobody is owed any more goes. */
    method LetGo(run: RunId, ghost next: Ledger) returns (o: Outcome)
      requires Valid() && run in disk && Accounted(Now(), Now().(ledger := next))
      requires next.owed == ledger.owed - Ids(disk[run]) && !Incomplete(Now().(ledger := next), run)
      modifies this`disk, this`ledger, this`history, this`failures
      ensures Valid() && old(history) <= history && ledger == next
      ensures disk == old(disk) || disk == old(disk) - {run}
      ensures o == Ok ==> run !in disk
      ensures old(failures) <= failures && (o != Ok ==> old(failures) < failures)
    {
      Note(next);
      assert forall c :: Names(disk[run], c) ==> c in Ids(disk[run]);
      o := Remove(run);
    }

    /** The write half of `ApplyRestore`: nothing is written unless the hold is durable. */
    method WriteHeld(run: RunId, journal: Journal, written: Outcome) returns (o: Outcome, writesStarted: bool)
      requires Valid() && Follows(run, journal) && run in disk && run !in ledger.writing && run !in ledger.applied
      modifies this
      ensures Valid() && old(history) <= history
      ensures disk == old(disk) || disk == old(disk)[run := journal.(hold := true)]
      ensures ledger.acknowledged == old(ledger).acknowledged && ledger.owed == old(ledger).owed
      ensures ledger.writing == if writesStarted then old(ledger).writing + {run} else old(ledger).writing
      ensures ledger.applied == if writesStarted && o == Ok then old(ledger).applied + {run} else old(ledger).applied
      ensures writesStarted ==> disk == old(disk)[run := journal.(hold := true)]
      ensures o == Ok ==> writesStarted
      ensures o != Crashed && (!writesStarted || o == Ok) ==> Follows(run, journal)
      ensures Settled(old(containers), containers)
      ensures old(failures) <= failures && (o != Ok && written == Ok ==> old(failures) < failures)
    {
      writesStarted := false;
      o := SaveHold(run, journal);
      if o != Ok { return; }
      writesStarted := true;
      o := WriteTargets(run, written);
    }

    /** The deferred call of `ApplyRestore`: resume, or let the journal of a completed restore go. */
    method Unwind(run: RunId, journal: Journal, sofar: Outcome, writesStarted: bool, resumeServices: bool,
                  ghost first: map<ContainerId, Container>, ghost from: nat)
      returns (o: Outcome)
      requires Valid() && run in disk && sofar != Crashed && (sofar == Ok ==> writesStarted)
      requires !writesStarted || sofar == Ok ==> Follows(run, journal)
      requires writesStarted <==> run in ledger.writing
      requires writesStarted && sofar == Ok <==> run in ledger.applied
      requires sofar == Ok ==> forall w :: w in journal.writers ==> Unfinished(journal, w)
      requires Covered(first, containers, journal) && Quiet(journal, containers) && from <= |failures|
      modifies this
      ensures Valid() && old(history) <= history
      ensures disk - {run} == old(disk) - {run}
      ensures o == Ok ==> sofar == Ok && run !in disk
      ensures o == Ok && resumeServices ==> forall w :: w in journal.writers ==> Up(Now(), w.id)
      ensures ledger == old(ledger) ||
              (sofar == Ok && !resumeServices && ledger == old(ledger).(owed := old(ledger).owed - Ids(journal)))
      ensures old(failures) <= failures && (o != Ok && sofar == Ok ==> old(failures) < failures)
      ensures o != Crashed && (!writesStarted || (sofar == Ok && resumeServices)) ==>
        NoneLost(first, containers, failures, from)
      ensures o != Crashed && !writesStarted && run in disk ==> old(failures) < failures
    {
      o := sofar;
      if !writesStarted || (o == Ok && resumeServices) {
        assert forall c :: Names(journal.(hold := false), c) <==> Names(journal, c);
        assert o == Ok ==> forall w :: w in journal.writers ==> w == Writer(w.id, true) && Names(journal, w.id);
        var resumed, _ := ResumeAfter(run, journal.(hold := false), first, from);
        o := if o == Ok || resumed == Crashed then resumed else o;
      } else if o == Ok {
        GivingUpIsAccounted(Now(), run, ledger.(owed := ledger.owed - Ids(disk[run])));
        assert Ids(disk[run]) == Ids(journal);
        o := LetGo(run, ledger.(owed := ledger.owed - Ids(disk[run])));
      }
    }

    /** `ApplyRestore` from the recheck on, its deferred call included. */
    method Finish(run: RunId, journal: Journal, sofar: Outcome, written: Outcome, resumeServices: bool,
                  ghost first: map<ContainerId, Container>)
      returns (o: Outcome)
      requires Valid() && Follows(run, journal) && run in disk && run !in ledger.writing && run !in ledger.applied
      requires sofar == Ok ==> forall w :: w in journal.writers ==> Unfinished(journal, w)
      requires sofar != Crashed
      requires Covered(first, containers, journal) && Quiet(journal, containers)
      modifies this
      ensures Valid() && old(history) <= history
      ensures disk - {run} == old(disk) - {run}
      ensures o == Ok ==> run in ledger.applied && run !in disk
      ensures o == Ok && resumeServices ==> forall w :: w in journal.writers ==> Up(Now(), w.id)
      ensures ledger.acknowledged == old(ledger).acknowledged
      ensures ledger.writing <= old(ledger).writing + {run} && ledger.applied <= old(ledger).applied + {run}
      ensures resumeServices ==> ledger.owed == old(ledger).owed
      ensures ledger.owed == old(ledger).owed ||
              (run in ledger.applied && ledger.owed == old(ledger).owed - Ids(journal))
      ensures old(failures) <= failures && (o != Ok && sofar == written == Ok ==> old(failures) < failures)
      ensures sofar == Ok || o != Ok
      ensures o != Crashed && (run !in ledger.writing || (run in ledger.applied && resumeServices)) ==>
        NoneLost(first, containers, failures, |old(failures)|)
      ensures o != Crashed && run !in ledger.writing && run in disk ==> old(failures) < failures
    {
      var writesStarted := false;
      o := sofar;
      if o == Ok {
        o, writesStarted := WriteHeld(run, journal, written);
        SettlingCovers(first, old(containers), containers, journal);
        if o == Crashed { return; }
      }
      o := Unwind(run, journal, o, writesStarted, resumeServices, first, |old(failures)|);
    }

    /** `ApplyRestore` with its journal on disk: stop the writers, recheck, write. */
    method ApplyStopped(run: RunId, journal: Journal, recheck: Outcome, written: Outcome, resumeServices: bool)
      returns (o: Outcome)
      requires Valid() && Follows(run, journal) && run in disk && run !in ledger.writing && run !in ledger.applied
      requires (forall w :: w in journal.writers ==> w.running) && Quiet(journal, containers)
      modifies this
      ensures Valid() && old(history) <= history
      ensures disk - {run} == old(disk) - {run}
      ensures o == Ok ==> run in ledger.applied && run !in disk
      ensures o == Ok && resumeServices ==> forall w :: w in journal.writers ==> Up(Now(), w.id)
      ensures ledger.acknowledged == old(ledger).acknowledged
      ensures ledger.writing <= old(ledger).writing + {run} && ledger.applied <= old(ledger).applied + {run}
      ensures resumeServices ==> ledger.owed == old(ledger).owed
      ensures ledger.owed == old(ledger).owed ||
              (run in ledger.applied && ledger.owed == old(ledger).owed - Ids(journal))
      ensures old(failures) <= failures && (o != Ok && recheck == written == Ok ==> old(failures) < failures)
      ensures o != Crashed && (run !in ledger.writing || (run in ledger.applied && resumeServices)) ==>
        NoneLost(old(containers), containers, failures, |old(failures)|)
      ensures o != Crashed && run !in ledger.writing && run in disk ==> old(failures) < failures
    {
      var j;
      o, j := StopAll(run, journal);
      if o == Crashed { return; }
      o := if o == Ok then recheck else o;
      if o == Crashed { return; }
      assert Ids(j) == Ids(journal);
      ghost var log := failures;
      o := Finish(run, j, o, written, resumeServices, old(containers));
      if o != Crashed && (run !in ledger.writing || (run in ledger.applied && resumeServices)) {
        NoneLostSince(old(containers), containers, failures, |log|, |old(failures)|);
      }
    }

    /** `ApplyRestore`: stop the writers, recheck, make the hold durable, and only then
        write. The deferred call resumes when nothing was written, or when everything was
        and resuming was asked for; after a failed write the hold stays. */
    method ApplyRestore(run: RunId, writers: seq<Writer>, resumeServices: bool, listable: bool, readable: set<RunId>,
                        preflight: Outcome, recheck: Outcome, written: Outcome)
      returns (o: Outcome)
      requires Valid() && run !in ledger.writing && run !in ledger.applied
      requires forall w :: w in writers ==> w.running
      modifies this
      ensures Valid() && old(history) <= history
      ensures ledger.acknowledged == old(ledger).acknowledged
      ensures ledger.writing <= old(ledger).writing + {run} && ledger.applied <= old(ledger).applied + {run}
      ensures o == Ok ==> run in ledger.applied && disk == map[]
      ensures o == Ok && resumeServices ==> forall w :: w in writers ==> Up(Now(), w.id)
      ensures resumeServices ==> ledger.owed == old(ledger).owed
      ensures ledger.owed == old(ledger).owed ||
              (run in ledger.applied && ledger.owed == old(ledger).owed - Ids(NewStopJournal(writers)))
      ensures run in ledger.writing && run !in ledger.applied && run !in ledger.acknowledged ==>
        run in disk && disk[run].hold
      ensures o != Crashed && (run !in ledger.writing || (run in ledger.applied && resumeServices)) ==>
        NoneLost(old(containers), containers, failures, |old(failures)|)
      ensures old(failures) <= failures
      ensures o != Ok && listable && AllResumable(old(disk), readable) && preflight == recheck == written == Ok ==>
        old(failures) < failures
    {
      o := Recover(listable, readable);
      if o != Ok { return; }
      if preflight != Ok { return preflight; }
      ghost var recovered, log := containers, failures;
      var j;
      o, j := Begin(run, writers);
      if o != Ok { return; }
      ghost var log' := failures;
      o := ApplyStopped(run, j, recheck, written, resumeServices);
      HeldLast(reliable, history);
      assert o == Ok ==> disk == disk - {run};
      if o != Crashed && (run !in ledger.writing || (run in ledger.applied && resumeServices)) {
        NoneLostSince(recovered, containers, failures, |log'|, |log|);
        NoneLostThen(old(containers), recovered, containers, log, failures, |old(failures)|);
      }
    }

    /** `ResolveRecoveryWithInput`: an operator retries, or gives up a journal after inspection. */
    method ResolveRecovery(run: RunId, action: Resolution, readable: bool, discovered: bool, recorded: Outcome)
      returns (o: Outcome)
      requires Valid()
      modifies this
      ensures Valid() && old(history) <= history
      ensures disk - {run} == old(disk) - {run} && (run in disk ==> run in old(disk))
      ensures run in old(disk) && old(disk)[run].hold && action != AcknowledgeHold ==>
        o == Failed && disk == old(disk) && containers == old(containers) && ledger == old(ledger)
      ensures action != AcknowledgeHold ==> ledger == old(ledger)
      ensures ledger != old(ledger) ==>
        run in old(disk) && ledger == old(ledger).(acknowledged := old(ledger).acknowledged + {run},
                                                   owed := old(ledger).owed - Ids(old(disk)[run]))
      ensures o == Ok ==> run in old(disk) && run !in disk
      ensures o == Ok && reliable ==>
        forall w :: w in old(disk)[run].writers && Unfinished(old(disk)[run], w) && w.id in ledger.owed ==>
          Up(Now(), w.id)
      ensures o != Crashed && action != AcknowledgeHold ==>
        NoneLost(old(containers), containers, failures, |old(failures)|)
      ensures old(failures) <= failures
      ensures o != Ok && readable && recorded == Ok && run in old(disk) && ValidJournal(old(disk)[run]) &&
              Admits(action, old(disk)[run], old(containers).Keys, discovered) ==>
        old(failures) < failures
    {
      if run !in disk || !readable || !ValidJournal(disk[run]) { return Failed; }
      var j := disk[run];
      GoodLast(reliable, history);
      match action
      case Retry =>
        if j.hold { return Failed; }
        o, j := Resume(run, j);
      case AcknowledgeHold =>
        if !j.hold { return Failed; }
        if recorded != Ok { return recorded; }
        ghost var next := ledger.(acknowledged := ledger.acknowledged + {run}, owed := ledger.owed - Ids(j));
        GivingUpIsAccounted(Now(), run, next);
        o := LetGo(run, next);
      case AcknowledgeMissing(inspected, reasonLength) =>
        if !inspected || reasonLength < 8 || reasonLength > 1000 { return Failed; }
        if !CanAcknowledgeMissing(j, Observe(j, containers.Keys, discovered)) { return Failed; }
        if recorded != Ok { return recorded; }
        assert forall c :: Names(j, c) ==> Writer(c, true) in j.writers && Unfinished(j, Writer(c, true));
        o := Remove(run);
      case Unsupported =>
        o := Failed;
    }

    /** Any number of operations in any order, each succeeding, failing or crashing
        anywhere: the history of the whole lifetime is good. Run IDs are never reused. */
    method Lifetime(runs: seq<RunId>)
      requires Valid()
      requires forall i, k :: 0 <= i < k < |runs| ==> runs[i] != runs[k]
      requires forall run :: run in runs ==> run !in ledger.writing && run !in ledger.applied
      modifies this
      ensures Valid() && old(history) <= history
    {
      for i := 0 to |runs|
        invariant Valid() && old(history) <= history
        invariant forall k :: i <= k < |runs| ==> runs[k] !in ledger.writing && runs[k] !in ledger.applied
      {
        var kind: int, run: RunId, writers: seq<Writer>, resumeServices: bool, action: Resolution := *, *, *, *, *;
        var listable: bool, readable: set<RunId>, a: Outcome, b: Outcome, c: Outcome := *, *, *, *, *;
        var outcome;
        if kind == 0 {
          outcome := Recover(listable, readable);
        } else if kind == 1 {
          outcome := ResolveRecovery(run, action, run in readable, listable, a);
        } else if kind == 2 && forall w :: w in writers ==> w.running {
          outcome := Prepare(runs[i], writers, listable, readable, a, b, c);
        } else if kind == 3 && forall w :: w in writers ==> w.running {
          outcome := ApplyRestore(runs[i], writers, resumeServices, listable, readable, a, b, c);
        } else {
          Settle();
        }
      }
    }
  }
}
