/**
The failure budget of a repository check: which reports of failing backend calls
stop it, judged over the whole history of reports.
*/
module CheckWatchdogs {
  type Key = string

  const QUIET_RESET := 6 * 60
  const BUDGET := 10 * 60
  const CAUSE_LIMIT := 128
  const CAUSE_BYTES := 4096

  /** One line of a diagnostic record, as the watchdog distinguishes them. */
  datatype Line =
    | VanishedLock(key: Key)
    | Recovered(key: Key)
    | Damage
    | ReadRetry(key: Key)
    | ReadFailed(cancelled: bool)
    | LegacyFailure
    | Unrelated

  datatype Report = Report(at: int, line: Line)

  datatype Window = Window(deadline: int, last: int)

  type Pending = map<Key, Window>

  // -------------------------------------------------------------------------
  // What one line does
  // -------------------------------------------------------------------------

  function Prune(p: Pending, now: int): Pending {
    map k | k in p && now - p[k].last <= QUIET_RESET :: p[k]
  }

  function Admit(p: Pending, budget: int, now: int, key: Key): Pending {
    var q := Prune(p, now);
    if key in q then q[key := q[key].(last := now)]
    else if |q| < CAUSE_LIMIT && |key| <= CAUSE_BYTES then q[key := Window(now + budget, now)]
    else q
  }

  predicate Due(p: Pending, now: int) {
    exists k :: k in p && p[k].deadline <= now
  }

  function After(p: Pending, budget: int, r: Report): Pending {
    match r.line
    case VanishedLock(k) => p - {k}
    case Recovered(k) => p - {k}
    case ReadRetry(k) => Admit(p, budget, r.at, k)
    case _ => p
  }

  predicate Stops(p: Pending, budget: int, r: Report) {
    match r.line
    case ReadRetry(k) => Due(After(p, budget, r), r.at)
    case ReadFailed(cancelled) => !cancelled
    case LegacyFailure => true
    case _ => false
  }

  // -------------------------------------------------------------------------
  // What the history says
  // -------------------------------------------------------------------------

  /** The times at which `key` was reported failing since it last recovered. */
  function Reports(log: seq<Report>, key: Key): seq<int> {
    if log == [] then []
    else
      var earlier := Reports(log[..|log| - 1], key);
      var r := log[|log| - 1];
      if r.line == Recovered(key) || r.line == VanishedLock(key) then []
      else if r.line == ReadRetry(key) then earlier + [r.at]
      else earlier
  }

  ghost predicate Tail(run: seq<int>, whole: seq<int>) {
    |run| <= |whole| && run == whole[|whole| - |run|..]
  }

  /** `run` is the tail of `key`'s unrecovered reports, no two of them further apart than
      the quiet reset, and `w` opens with its first and closes with its last. */
  ghost predicate IsRun(log: seq<Report>, key: Key, budget: int, w: Window, run: seq<int>) {
    && run != []
    && Tail(run, Reports(log, key))
    && (forall i :: 0 < i < |run| ==> run[i] - run[i - 1] <= QUIET_RESET)
    && w == Window(run[0] + budget, run[|run| - 1])
  }

  ghost predicate Justified(p: Pending, budget: int, log: seq<Report>) {
    forall k :: k in p ==> Backed(log, k, budget, p[k])
  }

  ghost predicate Backed(log: seq<Report>, key: Key, budget: int, w: Window) {
    exists run :: IsRun(log, key, budget, w, run)
  }

  ghost predicate LongFailing(log: seq<Report>, key: Key, budget: int, w: Window, run: seq<int>, now: int) {
    IsRun(log, key, budget, w, run) && run[0] + budget <= now && now - run[|run| - 1] <= QUIET_RESET
  }

  ghost predicate Sustained(p: Pending, budget: int, log: seq<Report>, now: int) {
    exists k, run :: k in p && LongFailing(log, k, budget, p[k], run, now)
  }

  lemma ReportsAfter(log: seq<Report>, r: Report, k: Key)
    ensures Reports(log + [r], k) ==
      if r.line == Recovered(k) || r.line == VanishedLock(k) then []
      else if r.line == ReadRetry(k) then Reports(log, k) + [r.at]
      else Reports(log, k)
  {
    assert (log + [r])[..|log|] == log;
  }

  lemma RunGrows(log: seq<Report>, r: Report, k: Key, budget: int, w: Window, run: seq<int>)
    requires IsRun(log, k, budget, w, run) && r.line == ReadRetry(k) && r.at - w.last <= QUIET_RESET
    ensures IsRun(log + [r], k, budget, w.(last := r.at), run + [r.at])
  {
    ReportsAfter(log, r, k);
    var whole := Reports(log, k);
    assert (whole + [r.at])[|whole| - |run|..] == whole[|whole| - |run|..] + [r.at];
  }

  lemma RunStarts(log: seq<Report>, r: Report, k: Key, budget: int)
    requires r.line == ReadRetry(k)
    ensures IsRun(log + [r], k, budget, Window(r.at + budget, r.at), [r.at])
  {
    ReportsAfter(log, r, k);
  }

  lemma RunStays(log: seq<Report>, r: Report, k: Key, budget: int, w: Window, run: seq<int>)
    requires IsRun(log, k, budget, w, run)
    requires r.line != Recovered(k) && r.line != VanishedLock(k) && r.line != ReadRetry(k)
    ensures IsRun(log + [r], k, budget, w, run)
  {
    ReportsAfter(log, r, k);
  }

  /** Where an open window comes from: it is new, renewed, or was open before. */
  lemma WindowAfter(p: Pending, budget: int, r: Report, k: Key)
    requires k in After(p, budget, r)
    ensures var w := After(p, budget, r)[k];
      if r.line == ReadRetry(k) && k !in Prune(p, r.at) then w == Window(r.at + budget, r.at)
      else if r.line == ReadRetry(k) then k in p && r.at - p[k].last <= QUIET_RESET && w == p[k].(last := r.at)
      else k in p && w == p[k] && r.line != Recovered(k) && r.line != VanishedLock(k)
  {
  }

  lemma WindowJustified(p: Pending, budget: int, log: seq<Report>, r: Report, k: Key)
    requires Justified(p, budget, log) && k in After(p, budget, r)
    ensures Backed(log + [r], k, budget, After(p, budget, r)[k])
  {
    WindowAfter(p, budget, r, k);
    if r.line == ReadRetry(k) && k !in Prune(p, r.at) {
      RunStarts(log, r, k, budget);
    } else {
      assert Backed(log, k, budget, p[k]);
      var run :| IsRun(log, k, budget, p[k], run);
      if r.line == ReadRetry(k) {
        RunGrows(log, r, k, budget, p[k], run);
      } else {
        RunStays(log, r, k, budget, p[k], run);
      }
    }
  }

  /** Every window stays justified by the reports of its operation. */
  lemma StepJustified(p: Pending, budget: int, log: seq<Report>, r: Report)
    requires Justified(p, budget, log)
    ensures Justified(After(p, budget, r), budget, log + [r])
  {
    forall k | k in After(p, budget, r) ensures Backed(log + [r], k, budget, After(p, budget, r)[k]) {
      WindowJustified(p, budget, log, r, k);
    }
  }

  /** A retry never extends the deadline of a window that stays open. */
  lemma DeadlinesNeverMove(p: Pending, budget: int, r: Report, k: Key)
    requires r.line.ReadRetry? && k in p && r.at - p[k].last <= QUIET_RESET
    ensures k in After(p, budget, r) && After(p, budget, r)[k].deadline == p[k].deadline
  {
  }

  /** When a retry stops the check, one operation has been failing for at least the
      budget: its first report is that old, its latest no older than the quiet reset, and
      in between it neither recovered nor paused for longer than that. */
  lemma RetryStopIsSustained(p: Pending, budget: int, log: seq<Report>, r: Report)
    requires Justified(p, budget, log) && r.line.ReadRetry? && Stops(p, budget, r)
    ensures Sustained(After(p, budget, r), budget, log + [r], r.at)
  {
    StepJustified(p, budget, log, r);
    var p' := After(p, budget, r);
    var k :| k in p' && p'[k].deadline <= r.at;
    assert Backed(log + [r], k, budget, p'[k]);
    var run :| IsRun(log + [r], k, budget, p'[k], run);
    assert LongFailing(log + [r], k, budget, p'[k], run, r.at);
  }

  /** The reports of an operation, taken by themselves, span the whole budget. */
  ghost predicate Spans(p: Pending, budget: int, log: seq<Report>, k: Key) {
    k in p && exists run :: IsRun(log, k, budget, p[k], run) && run[|run| - 1] - run[0] >= budget
  }

  /** No window had run out at its own latest report: the check was not stopped before. */
  ghost predicate Unexpired(p: Pending) {
    forall k :: k in p ==> p[k].last < p[k].deadline
  }

  lemma UnexpiredUntilStopped(p: Pending, budget: int, r: Report)
    requires Unexpired(p) && budget > 0 && !Stops(p, budget, r)
    ensures Unexpired(After(p, budget, r))
  {
  }

  /** A justified window shows its span: it closed after its deadline. */
  lemma SpansMeans(p: Pending, budget: int, log: seq<Report>, k: Key)
    requires Justified(p, budget, log)
    ensures Spans(p, budget, log, k) <==> k in p && p[k].deadline <= p[k].last
  {
    if k in p {
      assert Backed(log, k, budget, p[k]);
      var run :| IsRun(log, k, budget, p[k], run);
      assert p[k].last - p[k].deadline == run[|run| - 1] - run[0] - budget;
    }
  }

  /** Some operation's own reports span the budget exactly when the stopping report comes
      from an operation whose open window has run out; a stop on behalf of another
      operation only shows that its first report is old enough. */
  lemma SpanExactlyWhenOwnWindowDue(p: Pending, budget: int, log: seq<Report>, r: Report)
    requires Justified(p, budget, log) && Unexpired(p) && budget > 0 && r.line.ReadRetry?
    ensures (exists k :: Spans(After(p, budget, r), budget, log + [r], k)) <==>
            r.line.key in Prune(p, r.at) && p[r.line.key].deadline <= r.at
  {
    StepJustified(p, budget, log, r);
    var p', own := After(p, budget, r), r.line.key;
    SpansMeans(p', budget, log + [r], own);
    if own in Prune(p, r.at) && p[own].deadline <= r.at {
      WindowAfter(p, budget, r, own);
      assert Spans(p', budget, log + [r], own);
    }
    forall k | Spans(p', budget, log + [r], k)
      ensures k == own && own in Prune(p, r.at) && p[own].deadline <= r.at
    {
      SpansMeans(p', budget, log + [r], k);
      WindowAfter(p, budget, r, k);
    }
  }

  // -------------------------------------------------------------------------
  // Whole histories
  // -------------------------------------------------------------------------

  function Replay(budget: int, log: seq<Report>): Pending {
    if log == [] then map[] else After(Replay(budget, log[..|log| - 1]), budget, log[|log| - 1])
  }

  lemma ReplayMore(budget: int, log: seq<Report>, r: Report)
    ensures Replay(budget, log + [r]) == After(Replay(budget, log), budget, r)
  {
    assert (log + [r])[..|log|] == log;
  }

  predicate NeverStopped(budget: int, log: seq<Report>) {
    log == [] ||
    (NeverStopped(budget, log[..|log| - 1]) && !Stops(Replay(budget, log[..|log| - 1]), budget, log[|log| - 1]))
  }

  /** Whether the report at some place of a history stops the check. */
  predicate StopsAt(budget: int, log: seq<Report>, i: int) {
    0 <= i < |log| && Stops(Replay(budget, log[..i]), budget, log[i])
  }

  /** A later report changes nothing about earlier ones. */
  lemma StopsBefore(budget: int, log: seq<Report>, r: Report, i: nat)
    requires i <= |log|
    ensures StopsAt(budget, log + [r], i) <==>
      if i < |log| then StopsAt(budget, log, i) else Stops(Replay(budget, log), budget, r)
  {
    assert (log + [r])[..i] == log[..i];
    assert log[..|log|] == log;
  }

  /** No report from place `n` on stops the check. */
  ghost predicate Quiet(budget: int, log: seq<Report>, n: nat) {
    forall k :: n <= k < |log| ==> !StopsAt(budget, log, k)
  }

  /** The last report stops the check, and none from place `n` on before it. */
  ghost predicate StopsLast(budget: int, log: seq<Report>, n: nat) {
    n < |log| && StopsAt(budget, log, |log| - 1) && forall k :: n <= k < |log| - 1 ==> !StopsAt(budget, log, k)
  }

  lemma StopsAfter(budget: int, log: seq<Report>, r: Report, n: nat)
    requires n <= |log| && Quiet(budget, log, n)
    ensures if Stops(Replay(budget, log), budget, r) then StopsLast(budget, log + [r], n)
            else Quiet(budget, log + [r], n)
  {
    forall k | n <= k < |log| ensures !StopsAt(budget, log + [r], k) {
      StopsBefore(budget, log, r, k);
    }
    StopsBefore(budget, log, r, |log|);
  }

  /** A retry that stops a check, after any history, shows a sustained failure. */
  lemma StopIsSustained(budget: int, log: seq<Report>, r: Report)
    requires r.line.ReadRetry? && Stops(Replay(budget, log), budget, r)
    ensures Sustained(Replay(budget, log + [r]), budget, log + [r], r.at)
  {
    ReplaySound(budget, log);
    ReplayMore(budget, log, r);
    RetryStopIsSustained(Replay(budget, log), budget, log, r);
  }

  /** The lines of a record as reports of one instant. */
  function Stamped(now: int, lines: seq<Line>): seq<Report> {
    seq(|lines|, i requires 0 <= i < |lines| => Report(now, lines[i]))
  }

  /** `log` is an earlier history followed by the first `n` lines of a record. */
  ghost predicate Read(log: seq<Report>, earlier: seq<Report>, now: int, record: seq<Line>, n: nat) {
    n <= |record| && log == earlier + Stamped(now, record[..n])
  }

  lemma ReadMore(log: seq<Report>, earlier: seq<Report>, now: int, record: seq<Line>, n: nat)
    requires Read(log, earlier, now, record, n) && n < |record|
    ensures Read(log + [Report(now, record[n])], earlier, now, record, n + 1)
  {
    assert Stamped(now, record[..n + 1]) == Stamped(now, record[..n]) + [Report(now, record[n])];
  }

  lemma {:induction false} ReplaySound(budget: int, log: seq<Report>)
    ensures Justified(Replay(budget, log), budget, log)
    ensures budget > 0 && NeverStopped(budget, log) ==> Unexpired(Replay(budget, log))
  {
    if log != [] {
      var before, r := log[..|log| - 1], log[|log| - 1];
      ReplaySound(budget, before);
      assert before + [r] == log;
      StepJustified(Replay(budget, before), budget, before, r);
      if budget > 0 && NeverStopped(budget, log) {
        UnexpiredUntilStopped(Replay(budget, before), budget, r);
      }
    }
  }

  /** The first stop of any history, if a retry causes it: sustained failure is certain; a
      full span of reports is, exactly when the reporting operation's own window is due. */
  lemma FirstRetryStop(budget: int, log: seq<Report>, r: Report)
    requires budget > 0 && NeverStopped(budget, log) && r.line.ReadRetry? && Stops(Replay(budget, log), budget, r)
    ensures Sustained(Replay(budget, log + [r]), budget, log + [r], r.at)
    ensures (exists k :: Spans(Replay(budget, log + [r]), budget, log + [r], k)) <==>
            r.line.key in Prune(Replay(budget, log), r.at) && Replay(budget, log)[r.line.key].deadline <= r.at
  {
    ReplaySound(budget, log);
    ReplayMore(budget, log, r);
    StopIsSustained(budget, log, r);
    SpanExactlyWhenOwnWindowDue(Replay(budget, log), budget, log, r);
  }

  /** Ten minutes after its first report, and one after its last, an operation stops the
      check through the report of another one: its own reports span only nine minutes. */
  lemma StopWithoutSpan(a: Key, b: Key)
    requires a != b && |a| <= CAUSE_BYTES
    ensures var log := [Report(0, ReadRetry(a)), Report(300, ReadRetry(a)), Report(540, ReadRetry(a))];
            var r := Report(600, ReadRetry(b));
            && NeverStopped(BUDGET, log) && Stops(Replay(BUDGET, log), BUDGET, r)
            && !exists k :: Spans(Replay(BUDGET, log + [r]), BUDGET, log + [r], k)
  {
    var r0, r1, r2 := Report(0, ReadRetry(a)), Report(300, ReadRetry(a)), Report(540, ReadRetry(a));
    var log := [r0, r1, r2];
    var r := Report(600, ReadRetry(b));
    assert log[..2] == [r0, r1] && [r0, r1][..1] == [r0] && [r0][..0] == [];
    assert Replay(BUDGET, [r0]) == map[a := Window(BUDGET, 0)];
    assert Replay(BUDGET, [r0, r1]) == map[a := Window(BUDGET, 300)];
    assert Replay(BUDGET, log) == map[a := Window(BUDGET, 540)];
    assert NeverStopped(BUDGET, []) && NeverStopped(BUDGET, [r0]) && NeverStopped(BUDGET, [r0, r1]);
    assert a in After(Replay(BUDGET, log), BUDGET, r);
    assert Stops(Replay(BUDGET, log), BUDGET, r);
    assert NeverStopped(BUDGET, log);
    FirstRetryStop(BUDGET, log, r);
    assert r.line.key == b && b !in Prune(Replay(BUDGET, log), r.at);
  }

  // -------------------------------------------------------------------------
  // When the check has to stop
  // -------------------------------------------------------------------------

  /** A failed read that nobody cancelled, or a failure in the older wording. */
  predicate Terminal(line: Line) {
    line == ReadFailed(false) || line == LegacyFailure
  }

  /** A check that was never stopped saw no terminal failure. */
  lemma {:induction false} UnstoppedSawNoFailure(budget: int, log: seq<Report>, i: nat)
    requires NeverStopped(budget, log) && i < |log|
    ensures !Terminal(log[i].line)
  {
    var n := |log| - 1;
    if i < n { UnstoppedSawNoFailure(budget, log[..n], i); }
  }

  /** `key` last failed at `last`; by these reports it neither recovers nor pauses: whenever any
      operation is retried, `key` failed no longer ago than the quiet reset. */
  predicate Persists(key: Key, last: int, reports: seq<Report>)
    decreases |reports|
  {
    reports == [] ||
    (var r := reports[0];
     && r.line != Recovered(key) && r.line != VanishedLock(key)
     && (r.line.ReadRetry? ==> r.at - last <= QUIET_RESET)
     && Persists(key, if r.line == ReadRetry(key) then r.at else last, reports[1..]))
  }

  /** The window of an operation that persists stays open, with its deadline. */
  lemma {:induction false} PersistentWindowStays(budget: int, log: seq<Report>, more: seq<Report>, key: Key)
    requires key in Replay(budget, log) && Persists(key, Replay(budget, log)[key].last, more)
    ensures key in Replay(budget, log + more)
    ensures Replay(budget, log + more)[key].deadline == Replay(budget, log)[key].deadline
    decreases |more|
  {
    if more == [] {
      assert log + more == log;
    } else {
      ReplayMore(budget, log, more[0]);
      PersistentWindowStays(budget, log + [more[0]], more[1..], key);
      assert log + [more[0]] + more[1..] == log + more;
    }
  }

  /** An operation that is admitted and then fails on and on, neither recovering nor pausing, stops the
      check with the first retry of any operation after the budget, whatever the others do. */
  lemma PersistentFailureStops(budget: int, log: seq<Report>, first: Report, more: seq<Report>, r: Report, key: Key)
    requires first.line == ReadRetry(key) && |key| <= CAUSE_BYTES
    requires var open := Prune(Replay(budget, log), first.at); key !in open && |open| < CAUSE_LIMIT
    requires Persists(key, first.at, more + [r])
    requires r.line.ReadRetry? && r.at >= first.at + budget
    ensures Stops(Replay(budget, log + [first] + more), budget, r)
  {
    ReplayMore(budget, log, first);
    assert Replay(budget, log + [first])[key] == Window(first.at + budget, first.at);
    PersistentWindowStays(budget, log + [first], more + [r], key);
    assert log + [first] + (more + [r]) == log + [first] + more + [r];
    ReplayMore(budget, log + [first] + more, r);
    assert key in After(Replay(budget, log + [first] + more), budget, r);
  }

  // -------------------------------------------------------------------------
  // The tracker
  // -------------------------------------------------------------------------

  class Tracker {
    var pending: Pending
    const budget: int
    ghost var log: seq<Report>

    ghost predicate Valid() reads this { pending == Replay(budget, log) }

    constructor (budget: int)
      ensures Valid() && pending == map[] && this.budget == budget && log == []
    {
      pending, this.budget := map[], budget;
      log := [];
    }

    /** `deadline`: the earliest one, if any window is open. */
    method Deadline() returns (open: bool, deadline: int)
      ensures open <==> pending != map[]
      ensures open ==> (exists k :: k in pending && pending[k].deadline == deadline) &&
                       forall k :: k in pending ==> deadline <= pending[k].deadline
    {
      open, deadline := false, 0;
      var keys := pending.Keys;
      while keys != {}
        invariant keys <= pending.Keys
        invariant !open <==> keys == pending.Keys
        invariant open ==> exists k :: k in pending && pending[k].deadline == deadline
        invariant open ==> forall k :: k in pending && k !in keys ==> deadline <= pending[k].deadline
        decreases keys
      {
        var k :| k in keys;
        keys := keys - {k};
        if !open || pending[k].deadline < deadline {
          open, deadline := true, pending[k].deadline;
        }
      }
    }

    method DropQuiet(now: int)
      modifies this`pending
      ensures pending == Prune(old(pending), now)
    {
      var keys := pending.Keys;
      while keys != {}
        invariant keys <= pending.Keys <= old(pending).Keys
        invariant forall k :: k in pending ==> pending[k] == old(pending)[k]
        invariant forall k :: k in old(pending) && k !in keys ==>
          (k in pending <==> now - old(pending)[k].last <= QUIET_RESET)
        decreases keys
      {
        var k :| k in keys;
        keys := keys - {k};
        if now - pending[k].last > QUIET_RESET {
          pending := pending - {k};
        }
      }
    }

    method ObserveRetry(now: int, key: Key) returns (stop: bool)
      modifies this`pending
      ensures pending == Admit(old(pending), budget, now, key)
      ensures stop <==> Due(pending, now)
    {
      DropQuiet(now);
      if key in pending {
        pending := pending[key := pending[key].(last := now)];
      } else if |pending| < CAUSE_LIMIT && |key| <= CAUSE_BYTES {
        pending := pending[key := Window(now + budget, now)];
      }
      var open, deadline := Deadline();
      stop := open && now >= deadline;
    }

    /** One round of the loop in `observe`. */
    method ObserveLine(now: int, line: Line) returns (stop: bool)
      requires Valid()
      modifies this`pending, this`log
      ensures Valid() && log == old(log) + [Report(now, line)]
      ensures pending == After(old(pending), budget, Report(now, line))
      ensures stop <==> Stops(old(pending), budget, Report(now, line))
    {
      ReplayMore(budget, log, Report(now, line));
      log := log + [Report(now, line)];
      stop := false;
      match line
      case VanishedLock(key) => pending := pending - {key};
      case Recovered(key) => pending := pending - {key};
      case Damage =>
      case ReadRetry(key) =>
        stop := ObserveRetry(now, key);
      case ReadFailed(cancelled) => stop := !cancelled;
      case LegacyFailure => stop := true;
      case Unrelated =>
    }

    /** `observe`: the lines of one record are read up to the first that stops the check, and all of
        them if none does. */
    method Observe(now: int, record: seq<Line>) returns (stop: bool, ghost n: nat)
      requires Valid()
      modifies this`pending, this`log
      ensures Valid() && Read(log, old(log), now, record, n)
      ensures stop ==> n > 0 && StopsLast(budget, log, |old(log)|)
      ensures !stop ==> n == |record| && Quiet(budget, log, |old(log)|)
      ensures !stop ==> forall i :: 0 <= i < |record| ==> !Terminal(record[i])
      ensures stop && record[n - 1].ReadRetry? ==> Sustained(pending, budget, log, now)
    {
      n := 0;
      for i := 0 to |record|
        invariant Valid() && n == i && Read(log, old(log), now, record, i)
        invariant Quiet(budget, log, |old(log)|)
        invariant forall k :: 0 <= k < i ==> !Terminal(record[k])
      {
        ghost var before := log;
        stop := ObserveLine(now, record[i]);
        ReadMore(before, old(log), now, record, i);
        StopsAfter(budget, before, Report(now, record[i]), |old(log)|);
        n := i + 1;
        if stop {
          if record[i].ReadRetry? { StopIsSustained(budget, before, Report(now, record[i])); }
          return;
        }
      }
      stop := false;
    }
  }
}
