/**
Unresolved backend retries of a repository check: a tracker of bounded size that
must never be surer of the pack and index inventory than one without bounds.
*/
module RetryTrackers {
  const LIMIT: nat := 128

  /** A backend operation, as far as the inventory is concerned. */
  datatype Key = ListData | ListIndex | LoadIndex(id: string) | Other(name: string)

  predicate OfPacks(k: Key) { k == ListData }
  predicate OfIndexes(k: Key) { k.ListIndex? || k.LoadIndex? }
  predicate Inventory(k: Key) { OfPacks(k) || OfIndexes(k) }

  datatype Entry = Entry(cause: string, sequence: nat)

  datatype Evidence = Evidence(
    pending: map<Key, Entry>,
    sequence: nat,
    pendingPacks: bool,
    pendingIndexes: bool,
    packs: bool,
    indexes: bool)

  /** The tracker with room for every operation. */
  datatype Unlimited = Unlimited(pending: set<Key>, packs: bool, indexes: bool)

  /** What a line reveals about the progress of the check. `open` says that no unknown or
      unmatched diagnostic forbids drawing the conclusion. */
  datatype Advance = NoAdvance | PastIndexes(open: bool) | PastInventory(open: bool)

  datatype Operation =
    | NoOperation
    | Retry(key: Key, cause: string, oversized: bool)
    | Recovered(key: Key)
    | Failed(key: Key)

  datatype Line = Line(advance: Advance, operation: Operation)

  // -------------------------------------------------------------------------
  // The bounded tracker
  // -------------------------------------------------------------------------

  ghost predicate Sequenced(e: Evidence) {
    && (forall k :: k in e.pending ==> e.pending[k].sequence <= e.sequence)
    && (forall a, b :: a in e.pending && b in e.pending && e.pending[a].sequence == e.pending[b].sequence ==> a == b)
    && |e.pending| <= LIMIT
  }

  /** The entry to evict: never an inventory operation while another kind is left, and the
      one retried longest ago among its kind. */
  ghost predicate IsVictim(p: map<Key, Entry>, k: Key) {
    && k in p
    && (Inventory(k) ==> forall x :: x in p ==> Inventory(x))
    && (forall x :: x in p && Inventory(x) == Inventory(k) ==> p[k].sequence <= p[x].sequence)
  }

  lemma VictimIsUnique(e: Evidence, a: Key, b: Key)
    requires Sequenced(e) && IsVictim(e.pending, a) && IsVictim(e.pending, b)
    ensures a == b
  {
    assert Inventory(a) == Inventory(b);
  }

  function Untracked(e: Evidence, k: Key): Evidence {
    e.(pendingPacks := e.pendingPacks || OfPacks(k), pendingIndexes := e.pendingIndexes || OfIndexes(k))
  }

  function Track(e: Evidence, k: Key, cause: string): Evidence {
    e.(sequence := e.sequence + 1, pending := e.pending[k := Entry(cause, e.sequence + 1)])
  }

  ghost predicate Retained(e: Evidence, k: Key, cause: string, oversized: bool, e': Evidence) {
    if oversized then e' == Untracked(e, k)
    else if k !in e.pending && |e.pending| >= LIMIT then
      exists v :: IsVictim(e.pending, v) && e' == Track(Untracked(e.(pending := e.pending - {v}), v), k, cause)
    else e' == Track(e, k, cause)
  }

  function Advanced(e: Evidence, a: Advance): Evidence {
    match a
    case NoAdvance => e
    case PastIndexes(open) =>
      if !open then e
      else e.(pendingIndexes := false, pending := map k | k in e.pending && !OfIndexes(k) :: e.pending[k])
    case PastInventory(open) =>
      if !open then e
      else e.(pendingPacks := false, pendingIndexes := false,
              pending := map k | k in e.pending && !Inventory(k) :: e.pending[k])
  }

  ghost predicate Next(e: Evidence, line: Line, e': Evidence) {
    var a := Advanced(e, line.advance);
    match line.operation
    case NoOperation => e' == a
    case Retry(k, cause, oversized) => Retained(a, k, cause, oversized, e')
    case Recovered(k) => e' == a.(pending := a.pending - {k}, pendingPacks := a.pendingPacks && !OfPacks(k))
    case Failed(k) =>
      e' == a.(pending := a.pending - {k}, packs := a.packs || OfPacks(k), indexes := a.indexes || OfIndexes(k))
  }

  ghost predicate PacksUncertain(e: Evidence) { e.packs || e.pendingPacks || exists k :: k in e.pending && OfPacks(k) }
  ghost predicate IndexesUncertain(e: Evidence) {
    e.indexes || e.pendingIndexes || exists k :: k in e.pending && OfIndexes(k)
  }

  // -------------------------------------------------------------------------
  // The unlimited tracker
  // -------------------------------------------------------------------------

  function AdvancedUnlimited(u: Unlimited, a: Advance): Unlimited {
    match a
    case NoAdvance => u
    case PastIndexes(open) => if open then u.(pending := set k | k in u.pending && !OfIndexes(k)) else u
    case PastInventory(open) => if open then u.(pending := set k | k in u.pending && !Inventory(k)) else u
  }

  function NextUnlimited(u: Unlimited, line: Line): Unlimited {
    var a := AdvancedUnlimited(u, line.advance);
    match line.operation
    case NoOperation => a
    case Retry(k, _, _) => a.(pending := a.pending + {k})
    case Recovered(k) => a.(pending := a.pending - {k})
    case Failed(k) =>
      a.(pending := a.pending - {k}, packs := a.packs || OfPacks(k), indexes := a.indexes || OfIndexes(k))
  }

  ghost predicate PacksOpen(u: Unlimited) { u.packs || exists k :: k in u.pending && OfPacks(k) }
  ghost predicate IndexesOpen(u: Unlimited) { u.indexes || exists k :: k in u.pending && OfIndexes(k) }

  // -------------------------------------------------------------------------
  // What the unlimited tracker says, in terms of the lines
  // -------------------------------------------------------------------------

  /** A line that ends the wait for `k`: it recovers or fails for good, or the check is past the phase
      in which it mattered. */
  predicate Settles(line: Line, k: Key) {
    || line.operation == Recovered(k) || line.operation == Failed(k)
    || (line.advance == PastIndexes(true) && (k == ListIndex || k.LoadIndex?))
    || (line.advance == PastInventory(true) && (k == ListData || k == ListIndex || k.LoadIndex?))
  }

  predicate Retries(line: Line, k: Key) {
    line.operation.Retry? && line.operation.key == k
  }

  /** `k` was retried and nothing later settled it. */
  ghost predicate Waiting(lines: seq<Line>, k: Key) {
    exists i :: 0 <= i < |lines| && UnsettledFrom(lines, i, k)
  }

  ghost predicate UnsettledFrom(lines: seq<Line>, i: nat, k: Key)
    requires i < |lines|
  {
    Retries(lines[i], k) && forall j :: i < j < |lines| ==> !Settles(lines[j], k)
  }

  ghost predicate FailedFor(lines: seq<Line>, k: Key) {
    exists i :: 0 <= i < |lines| && lines[i].operation == Failed(k)
  }

  lemma WaitingStep(lines: seq<Line>, k: Key)
    requires lines != []
    ensures var n := |lines| - 1;
            Waiting(lines, k) <==> Retries(lines[n], k) || (Waiting(lines[..n], k) && !Settles(lines[n], k))
  {
    var n := |lines| - 1;
    if Waiting(lines, k) && !Retries(lines[n], k) {
      var i :| 0 <= i < |lines| && UnsettledFrom(lines, i, k);
      assert UnsettledFrom(lines[..n], i, k);
    }
    if Retries(lines[n], k) { assert UnsettledFrom(lines, n, k); }
    if Waiting(lines[..n], k) && !Settles(lines[n], k) {
      var i :| 0 <= i < n && UnsettledFrom(lines[..n], i, k);
      forall j | i < j < |lines| ensures !Settles(lines[j], k) {
        if j < n { assert lines[..n][j] == lines[j]; }
      }
      assert UnsettledFrom(lines, i, k);
    }
  }

  lemma FailedForStep(lines: seq<Line>, k: Key)
    requires lines != []
    ensures var n := |lines| - 1;
            FailedFor(lines, k) <==> lines[n].operation == Failed(k) || FailedFor(lines[..n], k)
  {
    var n := |lines| - 1;
    if FailedFor(lines[..n], k) {
      var i :| 0 <= i < n && lines[..n][i].operation == Failed(k);
      assert lines[i].operation == Failed(k);
    }
    if FailedFor(lines, k) {
      var i :| 0 <= i < |lines| && lines[i].operation == Failed(k);
      assert i < n ==> lines[..n][i].operation == Failed(k);
    }
  }

  lemma {:induction false} PendingMeans(lines: seq<Line>, k: Key)
    ensures k in RunUnlimited(lines).pending <==> Waiting(lines, k)
  {
    if lines != [] {
      PendingMeans(lines[..|lines| - 1], k);
      WaitingStep(lines, k);
    }
  }

  ghost predicate IndexFailed(lines: seq<Line>) {
    exists k :: (k == ListIndex || k.LoadIndex?) && FailedFor(lines, k)
  }

  lemma {:induction false} FlagsMean(lines: seq<Line>)
    ensures RunUnlimited(lines).packs <==> FailedFor(lines, ListData)
    ensures RunUnlimited(lines).indexes <==> IndexFailed(lines)
  {
    if lines != [] {
      var n := |lines| - 1;
      FlagsMean(lines[..n]);
      FailedForStep(lines, ListData);
      if IndexFailed(lines) {
        var k :| (k == ListIndex || k.LoadIndex?) && FailedFor(lines, k);
        FailedForStep(lines, k);
      }
      if IndexFailed(lines[..n]) {
        var k :| (k == ListIndex || k.LoadIndex?) && FailedFor(lines[..n], k);
        FailedForStep(lines, k);
      }
      if lines[n].operation.Failed? { FailedForStep(lines, lines[n].operation.key); }
    }
  }

  /** The pack inventory is in doubt exactly if listing the packs failed for good, or was retried and
      neither recovered nor became irrelevant; the index inventory exactly if that holds of listing
      the indexes or of loading one. */
  lemma InDoubtExactlyWhen(lines: seq<Line>)
    ensures PacksOpen(RunUnlimited(lines)) <==> FailedFor(lines, ListData) || Waiting(lines, ListData)
    ensures IndexesOpen(RunUnlimited(lines)) <==>
      exists k :: (k == ListIndex || k.LoadIndex?) && (FailedFor(lines, k) || Waiting(lines, k))
  {
    FlagsMean(lines);
    PendingMeans(lines, ListData);
    var u := RunUnlimited(lines);
    forall k ensures k in u.pending <==> Waiting(lines, k) {
      PendingMeans(lines, k);
    }
  }

  // -------------------------------------------------------------------------
  // Simulation
  // -------------------------------------------------------------------------

  /** Each inventory operation the unlimited tracker waits for is tracked or flagged. */
  ghost predicate Covers(e: Evidence, u: Unlimited) {
    && e.packs == u.packs && e.indexes == u.indexes
    && forall k :: k in u.pending ==>
         k in e.pending || (OfPacks(k) && e.pendingPacks) || (OfIndexes(k) && e.pendingIndexes) || !Inventory(k)
  }

  lemma CoveringIsConservative(e: Evidence, u: Unlimited)
    requires Covers(e, u)
    ensures PacksOpen(u) ==> PacksUncertain(e)
    ensures IndexesOpen(u) ==> IndexesUncertain(e)
  {
  }

  lemma DropSequenced(e: Evidence, v: Key)
    requires Sequenced(e)
    ensures Sequenced(e.(pending := e.pending - {v}))
    ensures v in e.pending ==> |e.pending - {v}| == |e.pending| - 1
  {
    assert (e.pending - {v}).Keys == e.pending.Keys - {v};
  }

  lemma TrackSequenced(e: Evidence, k: Key, cause: string)
    requires Sequenced(e) && (k in e.pending || |e.pending| < LIMIT)
    ensures Sequenced(Track(e, k, cause))
  {
    var e' := Track(e, k, cause);
    assert e'.pending.Keys == e.pending.Keys + {k};
    assert k in e.pending ==> e'.pending.Keys == e.pending.Keys;
  }

  lemma RetainKeepsSequenced(e: Evidence, k: Key, cause: string, oversized: bool, e': Evidence)
    requires Sequenced(e) && Retained(e, k, cause, oversized, e')
    ensures Sequenced(e')
  {
    if !oversized {
      if k !in e.pending && |e.pending| >= LIMIT {
        var v :| IsVictim(e.pending, v) && e' == Track(Untracked(e.(pending := e.pending - {v}), v), k, cause);
        DropSequenced(e, v);
        TrackSequenced(Untracked(e.(pending := e.pending - {v}), v), k, cause);
      } else {
        TrackSequenced(e, k, cause);
      }
    }
  }

  lemma EvictCovers(e: Evidence, u: Unlimited, v: Key)
    requires Covers(e, u)
    ensures Covers(Untracked(e.(pending := e.pending - {v}), v), u)
  {
  }

  lemma TrackCovers(e: Evidence, u: Unlimited, k: Key, cause: string)
    requires Covers(e, u)
    ensures Covers(Track(e, k, cause), u.(pending := u.pending + {k}))
  {
  }

  lemma RetainKeepsCovering(e: Evidence, u: Unlimited, k: Key, cause: string, oversized: bool, e': Evidence)
    requires Covers(e, u) && Retained(e, k, cause, oversized, e')
    ensures Covers(e', u.(pending := u.pending + {k}))
  {
    if !oversized {
      if k !in e.pending && |e.pending| >= LIMIT {
        var v :| IsVictim(e.pending, v) && e' == Track(Untracked(e.(pending := e.pending - {v}), v), k, cause);
        EvictCovers(e, u, v);
        TrackCovers(Untracked(e.(pending := e.pending - {v}), v), u, k, cause);
      } else {
        TrackCovers(e, u, k, cause);
      }
    }
  }

  lemma AdvanceSequenced(e: Evidence, a: Advance)
    requires Sequenced(e)
    ensures Sequenced(Advanced(e, a))
  {
    FewerKeys(Advanced(e, a).pending.Keys, e.pending.Keys);
  }

  lemma AdvanceCovers(e: Evidence, u: Unlimited, a: Advance)
    requires Covers(e, u)
    ensures Covers(Advanced(e, a), AdvancedUnlimited(u, a))
  {
  }

  lemma {:induction false} FewerKeys(a: set<Key>, b: set<Key>)
    requires a <= b
    ensures |a| <= |b|
  {
    if a != {} {
      var k :| k in a;
      FewerKeys(a - {k}, b - {k});
    }
  }

  /** A recovery or a terminal failure settles one operation in both trackers. */
  lemma SettleCovers(e: Evidence, u: Unlimited, k: Key, packs: bool, indexes: bool)
    requires Covers(e, u)
    ensures Covers(e.(pending := e.pending - {k}, pendingPacks := e.pendingPacks && !OfPacks(k)),
                   u.(pending := u.pending - {k}))
    ensures Covers(e.(pending := e.pending - {k}, packs := packs, indexes := indexes),
                   u.(pending := u.pending - {k}, packs := packs, indexes := indexes))
  {
  }

  lemma NextSequenced(e: Evidence, line: Line, e': Evidence)
    requires Sequenced(e) && Next(e, line, e')
    ensures Sequenced(e')
  {
    AdvanceSequenced(e, line.advance);
    var a := Advanced(e, line.advance);
    match line.operation
    case NoOperation =>
    case Retry(k, cause, oversized) => RetainKeepsSequenced(a, k, cause, oversized, e');
    case Recovered(k) => DropSequenced(a, k);
    case Failed(k) => DropSequenced(a, k);
  }

  lemma NextCovers(e: Evidence, u: Unlimited, line: Line, e': Evidence)
    requires Covers(e, u) && Next(e, line, e')
    ensures Covers(e', NextUnlimited(u, line))
  {
    AdvanceCovers(e, u, line.advance);
    var a, v := Advanced(e, line.advance), AdvancedUnlimited(u, line.advance);
    match line.operation
    case NoOperation =>
    case Retry(k, cause, oversized) => RetainKeepsCovering(a, v, k, cause, oversized, e');
    case Recovered(k) => SettleCovers(a, v, k, a.packs, a.indexes);
    case Failed(k) => SettleCovers(a, v, k, a.packs || OfPacks(k), a.indexes || OfIndexes(k));
  }

  const FRESH := Evidence(map[], 0, false, false, false, false)

  /** `states` is what the bounded tracker goes through on `lines`. */
  ghost predicate IsRun(lines: seq<Line>, states: seq<Evidence>)
    decreases |lines|
  {
    && |states| == |lines| + 1
    && if lines == [] then states == [FRESH]
       else
         var n := |lines| - 1;
         IsRun(lines[..n], states[..n + 1]) && Next(states[n], lines[n], states[n + 1])
  }

  lemma RunGrows(lines: seq<Line>, states: seq<Evidence>, line: Line, e: Evidence)
    requires IsRun(lines, states) && Next(states[|lines|], line, e)
    ensures IsRun(lines + [line], states + [e])
  {
    assert (lines + [line])[..|lines|] == lines;
    assert (states + [e])[..|lines| + 1] == states;
  }

  function RunUnlimited(lines: seq<Line>): Unlimited {
    if lines == [] then Unlimited({}, false, false)
    else NextUnlimited(RunUnlimited(lines[..|lines| - 1]), lines[|lines| - 1])
  }

  /** After any lines the bounded tracker is uncertain wherever the unlimited one is. */
  lemma {:induction false} NeverSurer(lines: seq<Line>, states: seq<Evidence>)
    requires IsRun(lines, states)
    ensures Sequenced(states[|lines|]) && Covers(states[|lines|], RunUnlimited(lines))
    ensures PacksOpen(RunUnlimited(lines)) ==> PacksUncertain(states[|lines|])
    ensures IndexesOpen(RunUnlimited(lines)) ==> IndexesUncertain(states[|lines|])
  {
    if lines != [] {
      var n := |lines| - 1;
      NeverSurer(lines[..n], states[..n + 1]);
      NextSequenced(states[n], lines[n], states[n + 1]);
      NextCovers(states[n], RunUnlimited(lines[..n]), lines[n], states[n + 1]);
    }
    CoveringIsConservative(states[|lines|], RunUnlimited(lines));
  }

  /** Nothing was dropped: the two trackers wait for the same operations. */
  ghost predicate Same(e: Evidence, u: Unlimited) {
    e.pending.Keys == u.pending && !e.pendingPacks && !e.pendingIndexes && e.packs == u.packs && e.indexes == u.indexes
  }

  ghost predicate Fits(lines: seq<Line>)
    decreases |lines|
  {
    lines == [] ||
    (var n := |lines| - 1;
     && Fits(lines[..n])
     && |RunUnlimited(lines).pending| <= LIMIT
     && (lines[n].operation.Retry? ==> !lines[n].operation.oversized))
  }

  lemma AdvanceSame(e: Evidence, u: Unlimited, a: Advance)
    requires Same(e, u)
    ensures Same(Advanced(e, a), AdvancedUnlimited(u, a))
  {
  }

  lemma NextSame(e: Evidence, u: Unlimited, line: Line, e': Evidence)
    requires Same(e, u) && Next(e, line, e')
    requires |NextUnlimited(u, line).pending| <= LIMIT && (line.operation.Retry? ==> !line.operation.oversized)
    ensures Same(e', NextUnlimited(u, line))
  {
    var a, v := Advanced(e, line.advance), AdvancedUnlimited(u, line.advance);
    AdvanceSame(e, u, line.advance);
    if line.operation.Retry? {
      var k := line.operation.key;
      assert k !in v.pending ==> |v.pending + {k}| == |v.pending| + 1;
      assert |a.pending| == |a.pending.Keys|;
    }
  }

  /** While no more operations are unresolved than fit, the bounded tracker is exact. */
  lemma {:induction false} ExactWhileItFits(lines: seq<Line>, states: seq<Evidence>)
    requires IsRun(lines, states) && Fits(lines)
    ensures Same(states[|lines|], RunUnlimited(lines))
    ensures PacksUncertain(states[|lines|]) == PacksOpen(RunUnlimited(lines))
    ensures IndexesUncertain(states[|lines|]) == IndexesOpen(RunUnlimited(lines))
  {
    if lines != [] {
      var n := |lines| - 1;
      ExactWhileItFits(lines[..n], states[..n + 1]);
      NextSame(states[n], RunUnlimited(lines[..n]), lines[n], states[n + 1]);
    }
  }

  // -------------------------------------------------------------------------
  // The evidence object
  // -------------------------------------------------------------------------

  class Diagnostics {
    var evidence: Evidence

    constructor ()
      ensures evidence == FRESH && Sequenced(evidence)
    {
      evidence := FRESH;
    }

    /** The eviction loop of `retainRetry`, over the map in any order. */
    method Oldest() returns (oldest: Key)
      requires Sequenced(evidence) && evidence.pending != map[]
      ensures IsVictim(evidence.pending, oldest)
      ensures forall k :: IsVictim(evidence.pending, k) ==> k == oldest
    {
      var p := evidence.pending;
      oldest :| oldest in p;
      var keys := p.Keys - {oldest};
      while keys != {}
        invariant keys <= p.Keys && oldest in p && oldest !in keys
        invariant Inventory(oldest) ==> forall x :: x in p && x !in keys ==> Inventory(x)
        invariant forall x :: x in p && x !in keys && Inventory(x) == Inventory(oldest) ==>
          p[oldest].sequence <= p[x].sequence
        decreases keys
      {
        var k :| k in keys;
        keys := keys - {k};
        if (!Inventory(k) && Inventory(oldest)) ||
           (Inventory(k) == Inventory(oldest) && p[k].sequence < p[oldest].sequence) {
          oldest := k;
        }
      }
      forall k | IsVictim(p, k) ensures k == oldest {
        VictimIsUnique(evidence, k, oldest);
      }
    }

    method RetainRetry(key: Key, cause: string, oversized: bool)
      requires Sequenced(evidence)
      modifies this
      ensures Retained(old(evidence), key, cause, oversized, evidence) && Sequenced(evidence)
    {
      ghost var e := evidence;
      if oversized {
        evidence := Untracked(evidence, key);
        return;
      }
      if key !in evidence.pending && |evidence.pending| >= LIMIT {
        var oldest := Oldest();
        evidence := Untracked(evidence.(pending := evidence.pending - {oldest}), oldest);
      }
      evidence := Track(evidence, key, cause);
      RetainKeepsSequenced(e, key, cause, oversized, evidence);
    }

    /** `advanceCheckPhase` followed by `backend`, for one line. */
    method Add(line: Line)
      requires Sequenced(evidence)
      modifies this
      ensures Next(old(evidence), line, evidence) && Sequenced(evidence)
    {
      ghost var e := evidence;
      AdvanceSequenced(evidence, line.advance);
      evidence := Advanced(evidence, line.advance);
      match line.operation
      case NoOperation =>
      case Retry(key, cause, oversized) =>
        RetainRetry(key, cause, oversized);
      case Recovered(key) =>
        DropSequenced(evidence, key);
        evidence := evidence.(pending := evidence.pending - {key});
        if OfPacks(key) { evidence := evidence.(pendingPacks := false); }
      case Failed(key) =>
        DropSequenced(evidence, key);
        evidence := evidence.(pending := evidence.pending - {key});
        if OfPacks(key) {
          evidence := evidence.(packs := true);
        } else if OfIndexes(key) {
          evidence := evidence.(indexes := true);
        }
    }

    /** `uncertainInventory`. */
    method UncertainInventory() returns (packs: bool, indexes: bool)
      ensures packs == PacksUncertain(evidence) && indexes == IndexesUncertain(evidence)
    {
      packs, indexes := evidence.packs || evidence.pendingPacks, evidence.indexes || evidence.pendingIndexes;
      var keys := evidence.pending.Keys;
      while keys != {}
        invariant keys <= evidence.pending.Keys
        invariant packs <==>
          evidence.packs || evidence.pendingPacks || exists k :: k in evidence.pending.Keys - keys && OfPacks(k)
        invariant indexes <==>
          evidence.indexes || evidence.pendingIndexes || exists k :: k in evidence.pending.Keys - keys && OfIndexes(k)
        decreases keys
      {
        var k :| k in keys;
        keys := keys - {k};
        packs, indexes := packs || OfPacks(k), indexes || OfIndexes(k);
      }
    }
  }

  /** One more line for a tracker that has gone through `states` on the lines before. */
  method FeedLine(d: Diagnostics, ghost before: seq<Line>, line: Line, ghost states: seq<Evidence>)
    returns (ghost states': seq<Evidence>)
    requires Sequenced(d.evidence) && IsRun(before, states) && states[|before|] == d.evidence
    modifies d
    ensures Sequenced(d.evidence) && IsRun(before + [line], states') && states'[|before| + 1] == d.evidence
  {
    d.Add(line);
    RunGrows(before, states, line, d.evidence);
    states' := states + [d.evidence];
  }

  lemma OneMore(lines: seq<Line>, i: nat)
    requires i <= |lines|
    ensures i < |lines| ==> lines[..i + 1] == lines[..i] + [lines[i]]
    ensures lines[..|lines|] == lines
  {
  }

  /** Feeds the output to a new tracker, line by line. */
  method Feed(lines: seq<Line>) returns (d: Diagnostics, ghost states: seq<Evidence>)
    ensures IsRun(lines, states) && states[|lines|] == d.evidence
  {
    d := new Diagnostics();
    states := [d.evidence];
    ghost var before: seq<Line> := [];
    for i := 0 to |lines|
      invariant fresh(d) && Sequenced(d.evidence) && before == lines[..i]
      invariant IsRun(before, states) && states[|before|] == d.evidence
    {
      states := FeedLine(d, before, lines[i], states);
      OneMore(lines, i);
      before := before + [lines[i]];
    }
    OneMore(lines, |lines|);
  }

  /** The verdict on any diagnostic output is at least as cautious as the unlimited one. */
  method Diagnose(lines: seq<Line>) returns (packs: bool, indexes: bool)
    ensures PacksOpen(RunUnlimited(lines)) ==> packs
    ensures IndexesOpen(RunUnlimited(lines)) ==> indexes
    ensures Fits(lines) ==> packs == PacksOpen(RunUnlimited(lines)) && indexes == IndexesOpen(RunUnlimited(lines))
  {
    var d: Diagnostics;
    ghost var states;
    d, states := Feed(lines);
    packs, indexes := d.UncertainInventory();
    NeverSurer(lines, states);
    if Fits(lines) { ExactWhileItFits(lines, states); }
  }
}
