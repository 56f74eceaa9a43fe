/**
What a destination remembers of its repository checks: the durable evidence for metadata
and data, the hold after an inconclusive check, and the gate these put on maintenance.
*/
module CheckRecords {
  import opened Options

  type Time = int

  datatype Status = NoStatus | Unknown | Verified | Sampled | Failed | Unverified | Succeeded

  /** The extent of a check; stored records may name none or an unknown one. */
  datatype Scope = NoScope | UnknownScope | Metadata | Subset | All

  datatype Evidence = Evidence(status: Status, scope: Scope, at: Option<Time>, error: string)

  datatype Hold = Hold(scope: Scope, at: Option<Time>, error: string)

  datatype Record = Record(
    id: nat,
    metadata: Evidence, data: Evidence, hold: Option<Hold>,
    status: Status, error: string,
    lastAt: Option<Time>, lastPolicy: Scope,
    attemptAt: Option<Time>, attemptPolicy: Scope, attemptStatus: Status, attemptError: string,
    token: Option<Review>)

  /** How a check ended: the repository command reports damage, no conclusion, or anything else. */
  datatype Outcome = Success | Damaged(message: string) | Inconclusive(message: string) | OtherFailure(message: string)

  datatype Attempt = Attempt(policy: Scope, at: Time, outcome: Outcome)

  const NOTHING := Evidence(NoStatus, NoScope, None, "")

  // -------------------------------------------------------------------------
  // Messages
  // -------------------------------------------------------------------------

  predicate Space(c: char) {
    c == ' ' || c == '\t' || c == '\n' || c == '\r'
  }

  function TrimRight(s: string): string {
    if s != [] && Space(s[|s| - 1]) then TrimRight(s[..|s| - 1]) else s
  }

  predicate EndsWith(s: string, suffix: string) {
    |suffix| <= |s| && s[|s| - |suffix|..] == suffix
  }

  predicate Contains(s: string, part: string) {
    exists i :: 0 <= i <= |s| - |part| && s[i..][..|part|] == part
  }

  predicate EndsWithAny(s: string, codes: seq<string>) {
    codes != [] && (EndsWith(s, "(" + codes[0] + ")") || EndsWithAny(s, codes[1..]))
  }

  function TransientCodes(): seq<string> {
    ["unavailable", "timeout", "cancelled", "repository_locked",
     "repository_missing", "credentials_rejected", "permission_denied", "storage_full"]
  }

  /** Messages of the fixed classifier that rule out damage. */
  predicate Transient(message: string) {
    EndsWithAny(TrimRight(message), TransientCodes())
  }

  /** The historical wording of an inconclusive check. */
  predicate OldInconclusive(message: string) {
    Contains(message, "repository check was inconclusive") && EndsWith(message, "(operation_failed)")
  }

  // -------------------------------------------------------------------------
  // The gate
  // -------------------------------------------------------------------------

  predicate Blocked(r: Record) {
    r.hold.Some? || r.metadata.status == Failed || r.data.status == Failed || r.status == Failed
  }

  datatype Condition = Condition(scope: Scope, at: Option<Time>, error: string)

  /** What an operator reviews; the digest of it is the review token. */
  datatype Review = Review(
    destination: nat, metadata: Option<Condition>, data: Option<Condition>, hold: Option<Condition>)

  function Condemned(e: Evidence): Option<Condition> {
    if e.status == Failed then Some(Condition(e.scope, e.at, e.error)) else None
  }

  function Fingerprint(r: Record): Option<Review> {
    if !Blocked(r) then None else
      var hold := if r.hold.None? then None
                  else Some(Condition(r.hold.value.scope, r.hold.value.at, r.hold.value.error));
      var review := Review(r.id, Condemned(r.metadata), Condemned(r.data), hold);
      if review.metadata.None? && review.data.None? && review.hold.None?
      then Some(review.(data := Some(Condition(UnknownScope, r.attemptAt, r.error))))
      else Some(review)
  }

  function Required(policy: Scope): Scope {
    if policy == Metadata then Metadata else All
  }

  predicate Resolves(successAt: Option<Time>, policy: Scope, failedAt: Option<Time>, required: Scope) {
    && successAt.Some? && failedAt.Some? && successAt.value > failedAt.value
    && (policy == All || (required == Metadata && (policy == Metadata || policy == Subset)))
  }

  // -------------------------------------------------------------------------
  // The updates, on values
  // -------------------------------------------------------------------------

  /** The overall status follows the worst evidence. */
  function Summed(r: Record): Record {
    if r.data.status == Failed then r.(status := Failed, error := r.data.error)
    else if r.metadata.status == Failed then r.(status := Failed, error := r.metadata.error)
    else if r.hold.Some? then r.(status := Unverified, error := r.hold.value.error)
    else if r.metadata.status == Verified || r.data.status == Verified || r.data.status == Sampled
    then r.(status := Verified, error := "")
    else r.(status := Unknown, error := "")
  }

  function Aggregated(r: Record): Record {
    Summed(r).(token := Fingerprint(Summed(r)))
  }

  predicate Misjudged(e: Evidence) {
    e.status == Failed && e.scope == UnknownScope && Transient(e.error)
  }

  /** A stored hold is missing for an old inconclusive attempt that no later check resolved. */
  predicate Overlooked(r: Record) {
    && r.hold.None? && r.attemptStatus == Failed && OldInconclusive(r.attemptError)
    && !Resolves(r.lastAt, r.lastPolicy, r.attemptAt, Required(r.attemptPolicy))
  }

  predicate Blank(s: Status) {
    s == NoStatus || s == Unknown
  }

  function Filled(e: Evidence): Evidence {
    e.(status := if e.status == NoStatus then Unknown else e.status,
       scope := if e.scope == NoScope then UnknownScope else e.scope)
  }

  /** Evidence that only ever said the repository could not be reached is dropped; any other
      failure without evidence becomes a failure of the data. */
  function Repaired(r: Record): Record {
    var m := if Misjudged(r.metadata) then NOTHING else r.metadata;
    var d := if Misjudged(r.data) then NOTHING else r.data;
    var orphan := r.status == Failed && m.status != Failed && d.status != Failed && !Transient(r.error);
    r.(metadata := m, data := if orphan then Evidence(Failed, UnknownScope, r.attemptAt, r.error) else d)
  }

  predicate Repairs(r: Record) {
    var m := if Misjudged(r.metadata) then NOTHING else r.metadata;
    var d := if Misjudged(r.data) then NOTHING else r.data;
    || Misjudged(r.metadata) || Misjudged(r.data)
    || (r.status == Failed && m.status != Failed && d.status != Failed && Transient(r.error))
  }

  function Dated(r: Record, legacy: Record): Record {
    if legacy.status == Failed && r.attemptStatus == NoStatus
    then r.(attemptStatus := Failed, attemptError := legacy.error,
            attemptPolicy := if r.attemptPolicy == NoScope then UnknownScope else r.attemptPolicy)
    else r
  }

  function Withheld(r: Record): Record {
    if Overlooked(r) then r.(hold := Some(Hold(Required(r.attemptPolicy), r.attemptAt, r.attemptError)))
    else if r.hold.Some? then r.(hold := Some(r.hold.value.(scope := Required(r.hold.value.scope))))
    else r
  }

  function Restored(r: Record): Record {
    r.(metadata := if Blank(r.metadata.status) then Evidence(Verified, Metadata, r.lastAt, "") else r.metadata,
       data := if Blank(r.data.status) && r.lastPolicy == All then Evidence(Verified, All, r.lastAt, "")
               else if Blank(r.data.status) && r.lastPolicy == Subset then Evidence(Sampled, Subset, r.lastAt, "")
               else r.data)
  }

  /** Everything after the repair, given the record as it was read. */
  function Completed(r: Record, read: Record, repaired: bool): Record {
    var w := Withheld(Dated(r, read));
    var s := if read.status == Verified || (repaired && read.lastAt.Some?) then Restored(w) else w;
    Aggregated(s.(metadata := Filled(s.metadata), data := Filled(s.data)))
  }

  function Normalized(r: Record): Record {
    Completed(Repaired(r), r, Repairs(r))
  }

  function Noted(r: Record, a: Attempt): Record {
    r.(attemptAt := Some(a.at), attemptPolicy := if a.policy == NoScope then Metadata else a.policy,
       attemptStatus := if a.outcome.Success? then Succeeded else Failed,
       attemptError := if a.outcome.Success? then "" else a.outcome.message)
  }

  /** What an attempt changes in a normalised record, before the aggregate. */
  function Judged(r: Record, policy: Scope, at: Time, outcome: Outcome): Record {
    match outcome
    case Damaged(message) =>
      var e := Evidence(Failed, policy, Some(at), message);
      if policy == Metadata then r.(metadata := e) else r.(data := e)
    case Inconclusive(message) =>
      if r.hold.None? || r.hold.value.scope == Metadata || Required(policy) == All
      then r.(hold := Some(Hold(Required(policy), Some(at), message))) else r
    case OtherFailure(_) => r
    case Success =>
      var s := r.(hold := if r.hold.Some? && (policy == All || r.hold.value.scope == Metadata) then None else r.hold,
                  lastAt := Some(at), lastPolicy := policy, metadata := Evidence(Verified, Metadata, Some(at), ""));
      if policy == All then s.(data := Evidence(Verified, All, Some(at), ""))
      else if policy == Subset && r.data.status != Failed && r.data.status != Verified
      then s.(data := Evidence(Sampled, Subset, Some(at), "")) else s
  }

  function Recorded(r: Record, a: Attempt): Record {
    var n := Noted(Normalized(r), a);
    Aggregated(Judged(n, n.attemptPolicy, a.at, a.outcome))
  }

  function Replayed(r: Record, attempts: seq<Attempt>): Record {
    if attempts == [] then r else Recorded(Replayed(r, attempts[..|attempts| - 1]), attempts[|attempts| - 1])
  }

  // -------------------------------------------------------------------------
  // A data failure or full hold stands until a full check
  // -------------------------------------------------------------------------

  /** A recorded failure that no reading of its message can explain away. */
  predicate Proven(e: Evidence) {
    e.status == Failed && (e.scope == NoScope || e.scope == UnknownScope ==> !Transient(e.error))
  }

  predicate FullHold(hold: Option<Hold>) {
    hold.Some? && hold.value.scope != Metadata
  }

  predicate Standing(r: Record) {
    Proven(r.data) || FullHold(r.hold)
  }

  predicate FullSuccess(a: Attempt) {
    a.policy == All && a.outcome.Success?
  }

  /** An attempt names one of the extents that requests are validated for. */
  predicate Allowed(a: Attempt) {
    a.policy != UnknownScope
  }

  lemma CompletingKeepsData(r: Record, read: Record, repaired: bool)
    ensures var d := Completed(r, read, repaired).data;
            (d.status == Failed <==> r.data.status == Failed) && (d.status == Failed ==> d == Filled(r.data))
  {
    var w := Withheld(Dated(r, read));
    assert w.data == r.data;
    assert r.data.status == Failed ==> Restored(w).data == r.data;
  }

  lemma NormalizingKeepsData(r: Record)
    requires Proven(r.data)
    ensures Proven(Normalized(r).data)
  {
    CompletingKeepsData(Repaired(r), r, Repairs(r));
  }

  lemma CompletingKeepsHold(r: Record, read: Record, repaired: bool)
    requires FullHold(r.hold)
    ensures FullHold(Completed(r, read, repaired).hold)
  {
    assert FullHold(Withheld(Dated(r, read)).hold);
  }

  lemma NormalizingKeepsHold(r: Record)
    requires FullHold(r.hold)
    ensures FullHold(Normalized(r).hold)
  {
    CompletingKeepsHold(Repaired(r), r, Repairs(r));
  }

  lemma JudgingKeepsStanding(r: Record, policy: Scope, at: Time, outcome: Outcome)
    requires Standing(r) && policy != NoScope && policy != UnknownScope && !(policy == All && outcome.Success?)
    ensures Standing(Judged(r, policy, at, outcome))
  {
  }

  lemma AggregatingKeepsStanding(r: Record)
    requires Standing(r)
    ensures Standing(Aggregated(r)) && Blocked(Aggregated(r))
  {
  }

  lemma NormalizingKeepsStanding(r: Record)
    requires Standing(r)
    ensures Standing(Normalized(r)) && Blocked(Normalized(r))
  {
    if Proven(r.data) { NormalizingKeepsData(r); } else { NormalizingKeepsHold(r); }
  }

  lemma AttemptKeepsStanding(r: Record, a: Attempt)
    requires Standing(r) && Allowed(a) && !FullSuccess(a)
    ensures Standing(Recorded(r, a))
  {
    NormalizingKeepsStanding(r);
    var n := Noted(Normalized(r), a);
    JudgingKeepsStanding(n, n.attemptPolicy, a.at, a.outcome);
    AggregatingKeepsStanding(Judged(n, n.attemptPolicy, a.at, a.outcome));
  }

  /** Whatever else is attempted, the gate stays shut. */
  lemma {:induction false} StandingUntilFullCheck(r: Record, attempts: seq<Attempt>)
    requires Standing(r)
    requires forall i :: 0 <= i < |attempts| ==> Allowed(attempts[i]) && !FullSuccess(attempts[i])
    ensures Standing(Replayed(r, attempts)) && Blocked(Normalized(Replayed(r, attempts)))
  {
    if attempts != [] {
      StandingUntilFullCheck(r, attempts[..|attempts| - 1]);
      AttemptKeepsStanding(Replayed(r, attempts[..|attempts| - 1]), attempts[|attempts| - 1]);
    }
    NormalizingKeepsStanding(Replayed(r, attempts));
  }

  /** A successful full check opens it, whatever was recorded. */
  lemma FullCheckClears(r: Record, a: Attempt)
    requires FullSuccess(a)
    ensures !Blocked(Recorded(r, a))
  {
  }

  /** One reading of a stored record gives a data failure up exactly when it is of unknown extent,
      its message names a transient cause, and no other message stands for it. */
  lemma DataFailureStaysExactlyWhen(r: Record)
    requires r.data.status == Failed
    ensures Normalized(r).data.status == Failed <==>
      !Misjudged(r.data) ||
      (r.status == Failed && !Transient(r.error) && (r.metadata.status == Failed ==> Misjudged(r.metadata)))
  {
    CompletingKeepsData(Repaired(r), r, Repairs(r));
  }

  lemma TransientExample()
    ensures Transient("(unavailable)")
  {
    var s := "(unavailable)";
    assert !Space(s[|s| - 1]);
    assert TrimRight(s) == s;
    var codes := TransientCodes();
    assert codes[0] == "unavailable";
    assert "(" + codes[0] + ")" == s;
    assert s[0..] == s;
    assert EndsWith(s, "(" + codes[0] + ")");
  }

  /** A stored data failure of unknown extent with such a message blocks, and is gone once read. */
  lemma TransientFailureIsDropped(id: nat, message: string)
    requires Transient(message)
    ensures var r := Fresh(id).(data := Evidence(Failed, UnknownScope, None, message));
            Blocked(r) && !Blocked(Normalized(r))
  {
  }

  // -------------------------------------------------------------------------
  // Reading a record back changes nothing
  // -------------------------------------------------------------------------

  function Fresh(id: nat): Record {
    Record(id, NOTHING, NOTHING, None, NoStatus, "", None, NoScope, None, NoScope, NoStatus, "", None)
  }

  predicate Plain(e: Evidence) {
    e.status != NoStatus && e.scope != NoScope && !Misjudged(e)
  }

  predicate Plausible(r: Record) {
    && (r.lastPolicy == All || r.lastPolicy == Subset ==> r.data.status != Unknown)
    && (r.data.status == Verified || r.data.status == Sampled ==> r.metadata.status != Unknown)
    && (r.hold.Some? ==> r.hold.value.scope == Metadata || r.hold.value.scope == All)
  }

  /** What every record satisfies once an attempt has been recorded. */
  predicate Tidy(r: Record) {
    Plain(r.metadata) && Plain(r.data) && Plausible(r) && r == Aggregated(r)
  }

  lemma TidyNeedsNoRepair(r: Record)
    requires Tidy(r)
    ensures Repaired(r) == r && !Repairs(r)
  {
  }

  /** The only thing reading a tidy record can add is a hold for an old inconclusive attempt. */
  lemma ReadingTidy(r: Record)
    requires Tidy(r) && r.attemptStatus != NoStatus
    ensures !Overlooked(r) ==> Normalized(r) == r
    ensures Overlooked(r) ==> Normalized(r).hold.Some?
    ensures Tidy(Normalized(r))
  {
    TidyNeedsNoRepair(r);
    CompletingTidy(r);
  }

  lemma CompletingTidy(r: Record)
    requires Tidy(r) && r.attemptStatus != NoStatus
    ensures Completed(r, r, false) == Aggregated(Withheld(r))
    ensures Tidy(Aggregated(Withheld(r)))
    ensures !Overlooked(r) ==> Withheld(r) == r
  {
  }

  lemma NoOpExactlyWhen(r: Record)
    requires Tidy(r) && r.attemptStatus != NoStatus
    ensures Normalized(r) == r <==> !Overlooked(r)
  {
    ReadingTidy(r);
  }

  lemma ReadingFresh(id: nat)
    ensures Tidy(Normalized(Fresh(id)))
  {
  }

  predicate Sensible(r: Record) {
    Plain(r.metadata) && Plain(r.data) && Plausible(r)
  }

  lemma AggregatingIsTidy(r: Record)
    requires Sensible(r)
    ensures Tidy(Aggregated(r))
  {
  }

  lemma JudgingIsSensible(r: Record, policy: Scope, at: Time, outcome: Outcome)
    requires Sensible(r) && policy != NoScope && policy != UnknownScope
    ensures Sensible(Judged(r, policy, at, outcome))
    ensures Judged(r, policy, at, outcome).attemptStatus == r.attemptStatus
    ensures Judged(r, policy, at, outcome).attemptError == r.attemptError
  {
  }

  lemma NotingIsSensible(r: Record, a: Attempt)
    requires Sensible(r) && Allowed(a)
    ensures Sensible(Noted(r, a))
    ensures var p := Noted(r, a).attemptPolicy; p != NoScope && p != UnknownScope
  {
  }

  /** Over any attempts on a fresh destination, the record is tidy. */
  lemma {:induction false} ReplayIsTidy(id: nat, attempts: seq<Attempt>)
    requires forall i :: 0 <= i < |attempts| ==> Allowed(attempts[i])
    ensures Tidy(Normalized(Replayed(Fresh(id), attempts)))
    ensures attempts != [] ==>
      Tidy(Replayed(Fresh(id), attempts)) && Replayed(Fresh(id), attempts).attemptStatus != NoStatus
  {
    ReadingFresh(id);
    if attempts != [] {
      var n := |attempts| - 1;
      ReplayIsTidy(id, attempts[..n]);
      AttemptIsTidy(Replayed(Fresh(id), attempts[..n]), attempts[n]);
      ReadingTidy(Replayed(Fresh(id), attempts));
    }
  }

  lemma AttemptIsTidy(r: Record, a: Attempt)
    requires Tidy(Normalized(r)) && Allowed(a)
    ensures Tidy(Recorded(r, a)) && Recorded(r, a).attemptStatus == (if a.outcome.Success? then Succeeded else Failed)
    ensures !a.outcome.Success? ==> Recorded(r, a).attemptError == a.outcome.message
  {
    NotingIsSensible(Normalized(r), a);
    JudgedIsTidy(Noted(Normalized(r), a), a);
  }

  lemma JudgedIsTidy(n: Record, a: Attempt)
    requires Sensible(n) && n.attemptPolicy != NoScope && n.attemptPolicy != UnknownScope
    ensures var r := Aggregated(Judged(n, n.attemptPolicy, a.at, a.outcome));
            Tidy(r) && r.attemptStatus == n.attemptStatus && r.attemptError == n.attemptError
  {
    JudgingIsSensible(n, n.attemptPolicy, a.at, a.outcome);
    AggregatingIsTidy(Judged(n, n.attemptPolicy, a.at, a.outcome));
  }

  /** The current wording of a failure never makes a reading add a hold. */
  predicate Modern(a: Attempt) {
    a.outcome.Success? || !OldInconclusive(a.outcome.message)
  }

  lemma ReadingBackAttempt(r: Record, a: Attempt)
    requires Tidy(Normalized(r)) && Allowed(a)
    ensures Normalized(Recorded(r, a)) == Recorded(r, a) <==> !Overlooked(Recorded(r, a))
    ensures Modern(a) ==> Normalized(Recorded(r, a)) == Recorded(r, a)
  {
    AttemptIsTidy(r, a);
    NoOpExactlyWhen(Recorded(r, a));
  }

  /** Reading the record back after any history is a no-op, unless the last attempt failed with
      the historical wording of an inconclusive check and left no hold. */
  lemma ReadingBackChangesNothing(id: nat, attempts: seq<Attempt>)
    requires attempts != [] && forall i :: 0 <= i < |attempts| ==> Allowed(attempts[i])
    ensures var r := Replayed(Fresh(id), attempts);
            Normalized(r) == r <==> !Overlooked(r)
    ensures Modern(attempts[|attempts| - 1]) ==>
      Normalized(Replayed(Fresh(id), attempts)) == Replayed(Fresh(id), attempts)
  {
    var n := |attempts| - 1;
    ReplayIsTidy(id, attempts[..n]);
    ReadingBackAttempt(Replayed(Fresh(id), attempts[..n]), attempts[n]);
  }

  lemma OldWordingExample(middle: string)
    ensures OldInconclusive("repository check was inconclusive" + middle + "(operation_failed)")
  {
    var head, tail := "repository check was inconclusive", "(operation_failed)";
    var m := head + middle + tail;
    assert m[0..][..|head|] == head;
    assert m[|m| - |tail|..] == tail;
  }

  /** A first check that fails with the historical wording, in another class of failure, leaves no
      hold; reading the record back adds one. */
  lemma OldWordingChangesRecord(id: nat, at: Time, message: string)
    requires OldInconclusive(message)
    ensures var r := Recorded(Fresh(id), Attempt(Metadata, at, OtherFailure(message)));
            !Blocked(r) && Normalized(r) != r && Blocked(Normalized(r))
  {
    var a := Attempt(Metadata, at, OtherFailure(message));
    var r := Recorded(Fresh(id), a);
    ReadingFresh(id);
    AttemptIsTidy(Fresh(id), a);
    FreshStaysBlank(id);
    assert r.hold.None? && r.lastAt.None?;
    assert Overlooked(r);
    ReadingTidy(r);
  }

  lemma FreshStaysBlank(id: nat)
    ensures var n := Normalized(Fresh(id));
            n.hold.None? && n.lastAt.None? && n.metadata.status == n.data.status == Unknown
  {
  }

  // -------------------------------------------------------------------------
  // Maintenance is blocked exactly while something is unresolved
  // -------------------------------------------------------------------------

  /** The extent an attempt is recorded with. */
  function Extent(a: Attempt): Scope {
    if a.policy == NoScope then Metadata else a.policy
  }

  predicate BreaksData(a: Attempt) {
    a.outcome.Damaged? && Extent(a) != Metadata
  }

  predicate BreaksMetadata(a: Attempt) {
    a.outcome.Damaged? && Extent(a) == Metadata
  }

  predicate LeavesDataOpen(a: Attempt) {
    a.outcome.Inconclusive? && Extent(a) != Metadata
  }

  predicate LeavesMetadataOpen(a: Attempt) {
    a.outcome.Inconclusive? && Extent(a) == Metadata
  }

  predicate Succeeds(a: Attempt) {
    a.outcome.Success?
  }

  /** Some attempt raised a concern and no later one resolved it. */
  ghost predicate Pending(attempts: seq<Attempt>, raises: Attempt -> bool, resolves: Attempt -> bool) {
    exists i :: 0 <= i < |attempts| && Unanswered(attempts, i, raises, resolves)
  }

  ghost predicate Unanswered(attempts: seq<Attempt>, i: nat, raises: Attempt -> bool, resolves: Attempt -> bool)
    requires i < |attempts|
  {
    raises(attempts[i]) && forall k :: i < k < |attempts| ==> !resolves(attempts[k])
  }

  lemma PendingStep(attempts: seq<Attempt>, raises: Attempt -> bool, resolves: Attempt -> bool)
    requires attempts != []
    ensures var n := |attempts| - 1;
            Pending(attempts, raises, resolves) <==>
              raises(attempts[n]) || (Pending(attempts[..n], raises, resolves) && !resolves(attempts[n]))
  {
    var n := |attempts| - 1;
    if Pending(attempts, raises, resolves) && !raises(attempts[n]) {
      var i :| 0 <= i < |attempts| && Unanswered(attempts, i, raises, resolves);
      assert Unanswered(attempts[..n], i, raises, resolves);
    }
    if raises(attempts[n]) { assert Unanswered(attempts, n, raises, resolves); }
    if Pending(attempts[..n], raises, resolves) && !resolves(attempts[n]) {
      var i :| 0 <= i < |attempts[..n]| && Unanswered(attempts[..n], i, raises, resolves);
      forall k | i < k < |attempts| ensures !resolves(attempts[k]) {
        if k < n { assert attempts[..n][k] == attempts[k]; }
      }
      assert Unanswered(attempts, i, raises, resolves);
    }
  }

  /** Damage to the data or an open data check waits for a successful full check; damage to the
      metadata or an open metadata check for any successful one. */
  ghost predicate Unresolved(attempts: seq<Attempt>) {
    || Pending(attempts, BreaksData, FullSuccess)
    || Pending(attempts, BreaksMetadata, Succeeds)
    || Pending(attempts, LeavesDataOpen, FullSuccess)
    || Pending(attempts, LeavesMetadataOpen, Succeeds)
  }

  /** What the record holds of the concerns over a list of attempts; `exact` if no failure had the
      historical wording, so that no reading added a hold. */
  ghost predicate Mirrors(r: Record, attempts: seq<Attempt>, exact: bool) {
    DamageMirrors(r, attempts) && HoldMirrors(r, attempts, exact)
  }

  ghost predicate DamageMirrors(r: Record, attempts: seq<Attempt>) {
    && (r.data.status == Failed <==> Pending(attempts, BreaksData, FullSuccess))
    && (r.metadata.status == Failed <==> Pending(attempts, BreaksMetadata, Succeeds))
  }

  ghost predicate HoldMirrors(r: Record, attempts: seq<Attempt>, exact: bool) {
    && (Pending(attempts, LeavesDataOpen, FullSuccess) ==> FullHold(r.hold))
    && (Pending(attempts, LeavesMetadataOpen, Succeeds) ==> r.hold.Some?)
    && (exact && FullHold(r.hold) ==> Pending(attempts, LeavesDataOpen, FullSuccess))
    && (exact && r.hold.Some? && !FullHold(r.hold) ==> Pending(attempts, LeavesMetadataOpen, Succeeds))
  }

  lemma JudgingMirrorsDamage(n: Record, attempts: seq<Attempt>)
    requires attempts != [] && DamageMirrors(n, attempts[..|attempts| - 1])
    requires n.attemptPolicy == Extent(attempts[|attempts| - 1])
    ensures var a := attempts[|attempts| - 1];
            DamageMirrors(Aggregated(Judged(n, n.attemptPolicy, a.at, a.outcome)), attempts)
  {
    PendingStep(attempts, BreaksData, FullSuccess);
    PendingStep(attempts, BreaksMetadata, Succeeds);
  }

  lemma JudgingMirrorsHold(n: Record, attempts: seq<Attempt>, exact: bool)
    requires attempts != [] && HoldMirrors(n, attempts[..|attempts| - 1], exact)
    requires n.attemptPolicy == Extent(attempts[|attempts| - 1])
    ensures var a := attempts[|attempts| - 1];
            HoldMirrors(Aggregated(Judged(n, n.attemptPolicy, a.at, a.outcome)), attempts, exact)
  {
    PendingStep(attempts, LeavesDataOpen, FullSuccess);
    PendingStep(attempts, LeavesMetadataOpen, Succeeds);
  }

  /** Reading a record back can only add a hold, and only for the historical wording. */
  lemma ReadingMirrors(r: Record, attempts: seq<Attempt>, exact: bool)
    requires Tidy(r) && r.attemptStatus != NoStatus && Mirrors(r, attempts, exact)
    requires exact ==> !Overlooked(r)
    ensures Mirrors(Normalized(r), attempts, exact)
  {
    TidyNeedsNoRepair(r);
    CompletingTidy(r);
    assert Withheld(r).data == r.data && Withheld(r).metadata == r.metadata;
  }

  predicate AllModern(attempts: seq<Attempt>) {
    forall i :: 0 <= i < |attempts| ==> Modern(attempts[i])
  }

  lemma {:induction false} ReplayMirrors(id: nat, attempts: seq<Attempt>)
    requires forall i :: 0 <= i < |attempts| ==> Allowed(attempts[i])
    ensures Mirrors(Normalized(Replayed(Fresh(id), attempts)), attempts, AllModern(attempts))
  {
    if attempts == [] {
      FreshStaysBlank(id);
    } else {
      var n := |attempts| - 1;
      var before, exact := Replayed(Fresh(id), attempts[..n]), AllModern(attempts);
      ReplayMirrors(id, attempts[..n]);
      ReplayIsTidy(id, attempts[..n]);
      AttemptIsTidy(before, attempts[n]);
      assert exact ==> AllModern(attempts[..n]);
      JudgingMirrorsDamage(Noted(Normalized(before), attempts[n]), attempts);
      JudgingMirrorsHold(Noted(Normalized(before), attempts[n]), attempts, exact);
      if exact { ReadingBackAttempt(before, attempts[n]); }
      ReadingMirrors(Replayed(Fresh(id), attempts), attempts, exact);
    }
  }

  /** Over any attempts on a fresh destination, scheduled pruning is refused while any concern is
      unresolved; and only then, unless some failure had the historical wording. */
  lemma BlockedExactlyWhileUnresolved(id: nat, attempts: seq<Attempt>, options: seq<Acknowledgement>)
    requires forall i :: 0 <= i < |attempts| ==> Allowed(attempts[i])
    ensures Unresolved(attempts) ==> PruneVerdict(Replayed(Fresh(id), attempts), true, options) == Busy
    ensures AllModern(attempts) ==>
      (Unresolved(attempts) <==> PruneVerdict(Replayed(Fresh(id), attempts), true, options) == Busy)
    ensures AllModern(attempts) ==> (Unresolved(attempts) <==> Blocked(Replayed(Fresh(id), attempts)))
  {
    var r := Replayed(Fresh(id), attempts);
    ReplayMirrors(id, attempts);
    NormalizedIsAggregated(r);
    if attempts != [] && AllModern(attempts) { ReadingBackChangesNothing(id, attempts); }
  }

  /** The extent of a hold is one that a check can settle. */
  predicate Graded(hold: Option<Hold>) {
    hold.Some? ==> hold.value.scope == Metadata || hold.value.scope == All
  }

  lemma HoldScopes(r: Record)
    ensures Graded(Normalized(r).hold)
  {
    assert Graded(Withheld(Dated(Repaired(r), r)).hold);
  }

  lemma InconclusiveJudged(n: Record, policy: Scope, at: Time, message: string)
    requires Graded(n.hold)
    ensures var j := Aggregated(Judged(n, policy, at, Inconclusive(message)));
            && Blocked(j) && j.hold.Some? && (FullHold(j.hold) <==> policy != Metadata || FullHold(n.hold))
            && j.data == n.data && j.metadata == n.metadata
  {
  }

  /** An inconclusive check leaves a hold, of full extent unless only metadata was checked and none
      was there. */
  lemma InconclusiveHolds(r: Record, a: Attempt)
    requires a.outcome.Inconclusive?
    ensures Blocked(Recorded(r, a)) && Recorded(r, a).hold.Some?
    ensures FullHold(Recorded(r, a).hold) <==> Extent(a) != Metadata || FullHold(Normalized(r).hold)
    ensures Recorded(r, a).data == Normalized(r).data && Recorded(r, a).metadata == Normalized(r).metadata
  {
    HoldScopes(r);
    InconclusiveJudged(Noted(Normalized(r), a), Extent(a), a.at, a.outcome.message);
  }

  /** Damage is recorded where it was found, and nowhere else. */
  lemma DamageStands(r: Record, a: Attempt)
    requires a.outcome.Damaged? && Allowed(a)
    ensures Extent(a) != Metadata ==> Standing(Recorded(r, a)) && Recorded(r, a).metadata == Normalized(r).metadata
    ensures Extent(a) == Metadata ==>
      Recorded(r, a).metadata.status == Failed && Recorded(r, a).data == Normalized(r).data
    ensures Blocked(Recorded(r, a)) && Recorded(r, a).hold == Normalized(r).hold
  {
  }

  lemma SuccessJudged(n: Record, policy: Scope, at: Time)
    requires policy != All
    ensures var j := Aggregated(Judged(n, policy, at, Success));
            && j.metadata.status == Verified && j.hold == (if FullHold(n.hold) then n.hold else None)
            && (j.data.status == Failed <==> n.data.status == Failed) && (n.data.status == Failed ==> j.data == n.data)
  {
  }

  /** A successful check that did not read all data settles what concerns the metadata, and nothing
      that concerns the data. */
  lemma PartialSuccessSettles(r: Record, a: Attempt)
    requires a.outcome.Success? && Extent(a) != All
    ensures Recorded(r, a).metadata.status == Verified
    ensures Recorded(r, a).hold == if FullHold(Normalized(r).hold) then Normalized(r).hold else None
    ensures Recorded(r, a).data.status == Failed <==> Normalized(r).data.status == Failed
    ensures Recorded(r, a).data.status == Failed ==> Recorded(r, a).data == Normalized(r).data
  {
    SuccessJudged(Noted(Normalized(r), a), Extent(a), a.at);
  }

  // -------------------------------------------------------------------------
  // Review tokens
  // -------------------------------------------------------------------------

  lemma SummingKeepsConditions(r: Record)
    ensures Summed(Summed(r)) == Summed(r) && Aggregated(Aggregated(r)) == Aggregated(r)
    ensures Fingerprint(Aggregated(r)) == Aggregated(r).token
  {
  }

  lemma NotingKeepsToken(n: Record, a: Attempt)
    requires n == Aggregated(n)
    ensures Fingerprint(Aggregated(Noted(n, a))) == Fingerprint(n)
  {
  }

  /** A failure that is neither damage nor inconclusive leaves the reviewed condition alone. */
  lemma OtherFailureKeepsToken(r: Record, a: Attempt)
    requires a.outcome.OtherFailure?
    ensures Fingerprint(Recorded(r, a)) == Fingerprint(Normalized(r)) == Recorded(r, a).token
  {
    NormalizedIsAggregated(r);
    NotingKeepsToken(Normalized(r), a);
    SummingKeepsConditions(Noted(Normalized(r), a));
  }

  lemma NormalizedIsAggregated(r: Record)
    ensures Normalized(r) == Aggregated(Normalized(r))
  {
    CompletedIsAggregated(Repaired(r), r, Repairs(r));
  }

  lemma CompletedIsAggregated(r: Record, read: Record, repaired: bool)
    ensures Completed(r, read, repaired) == Aggregated(Completed(r, read, repaired))
  {
    var w := Withheld(Dated(r, read));
    var s := if read.status == Verified || (repaired && read.lastAt.Some?) then Restored(w) else w;
    SummingKeepsConditions(s.(metadata := Filled(s.metadata), data := Filled(s.data)));
  }

  datatype Acknowledgement = Acknowledgement(given: bool, token: Option<Review>)

  datatype Verdict = Permitted | Busy | NeedsAcknowledgement

  /** `validatePruneAcknowledgement`. */
  function PruneVerdict(r: Record, scheduler: bool, options: seq<Acknowledgement>): Verdict {
    var n := Normalized(r);
    if !Blocked(n) then Permitted
    else if scheduler then Busy
    else if |options| != 1 || !options[0].given || options[0].token.None? || options[0].token != Fingerprint(n)
    then NeedsAcknowledgement
    else Permitted
  }

  /** The verdict depends on nothing but the condition under review. */
  lemma VerdictFollowsToken(a: Record, b: Record, scheduler: bool, options: seq<Acknowledgement>)
    requires Fingerprint(Normalized(a)) == Fingerprint(Normalized(b))
    ensures PruneVerdict(a, scheduler, options) == PruneVerdict(b, scheduler, options)
  {
    BlockedMeansToken(Normalized(a));
    BlockedMeansToken(Normalized(b));
  }

  lemma BlockedMeansToken(r: Record)
    ensures Blocked(r) <==> Fingerprint(r).Some?
  {
  }

  /** While a failure stands, scheduled pruning and deleting retention stay blocked over any
      attempts short of a successful full check. */
  lemma MaintenanceStaysBlocked(r: Record, attempts: seq<Attempt>, options: seq<Acknowledgement>)
    requires Standing(r)
    requires forall i :: 0 <= i < |attempts| ==> Allowed(attempts[i]) && !FullSuccess(attempts[i])
    ensures PruneVerdict(Replayed(r, attempts), true, options) == Busy
    ensures Blocked(Replayed(r, attempts))
  {
    StandingUntilFullCheck(r, attempts);
  }

  /** An acknowledgement outlives failures that say nothing about the repository. */
  lemma AcknowledgementOutlivesOtherFailure(r: Record, a: Attempt, scheduler: bool, options: seq<Acknowledgement>)
    requires Tidy(Normalized(r)) && Allowed(a) && a.outcome.OtherFailure? && Modern(a)
    ensures PruneVerdict(Recorded(r, a), scheduler, options) == PruneVerdict(r, scheduler, options)
  {
    ReadingBackAttempt(r, a);
    OtherFailureKeepsToken(r, a);
    VerdictFollowsToken(Recorded(r, a), r, scheduler, options);
  }

  /** A review that had not seen damage found at this instant. */
  predicate Predates(t: Option<Review>, at: Time) {
    t.None? || !Shows(t.value, at)
  }

  predicate Shows(t: Review, at: Time) {
    || (t.metadata.Some? && t.metadata.value.at == Some(at))
    || (t.data.Some? && t.data.value.at == Some(at))
  }

  lemma DamageShows(n: Record, policy: Scope, at: Time, message: string)
    ensures var t := Fingerprint(Aggregated(Judged(n, policy, at, Damaged(message))));
            t.Some? && Shows(t.value, at)
  {
  }

  /** New damage makes every earlier acknowledgement stale. */
  lemma NewDamageNeedsReview(r: Record, a: Attempt, earlier: Option<Review>)
    requires Tidy(Normalized(r)) && Allowed(a) && a.outcome.Damaged? && Modern(a) && Predates(earlier, a.at)
    ensures PruneVerdict(Recorded(r, a), false, [Acknowledgement(true, earlier)]) == NeedsAcknowledgement
  {
    ReadingBackAttempt(r, a);
    var n := Noted(Normalized(r), a);
    DamageShows(n, n.attemptPolicy, a.at, a.outcome.message);
    RefusedUnless(Recorded(r, a), earlier);
  }

  lemma RefusedUnless(r: Record, t: Option<Review>)
    requires Normalized(r) == r && Fingerprint(r).Some? && t != Fingerprint(r)
    ensures PruneVerdict(r, false, [Acknowledgement(true, t)]) == NeedsAcknowledgement
  {
    BlockedMeansToken(r);
  }

  // -------------------------------------------------------------------------
  // The destination
  // -------------------------------------------------------------------------

  class Destination {
    const id: nat
    var metadata: Evidence
    var data: Evidence
    var hold: Option<Hold>
    var status: Status
    var error: string
    var lastAt: Option<Time>
    var lastPolicy: Scope
    var attemptAt: Option<Time>
    var attemptPolicy: Scope
    var attemptStatus: Status
    var attemptError: string
    var token: Option<Review>

    function Now(): Record reads this {
      Record(id, metadata, data, hold, status, error, lastAt, lastPolicy,
             attemptAt, attemptPolicy, attemptStatus, attemptError, token)
    }

    constructor (id: nat)
      ensures Now() == Fresh(id)
    {
      this.id := id;
      metadata, data, hold, status, error := NOTHING, NOTHING, None, NoStatus, "";
      lastAt, lastPolicy, token := None, NoScope, None;
      attemptAt, attemptPolicy, attemptStatus, attemptError := None, NoScope, NoStatus, "";
    }

    method UpdateAggregate()
      modifies this`status, this`error, this`token
      ensures Now() == Aggregated(old(Now()))
    {
      status, error := Unknown, "";
      if data.status == Failed {
        status, error := Failed, data.error;
      } else if metadata.status == Failed {
        status, error := Failed, metadata.error;
      } else if hold.Some? {
        status, error := Unverified, hold.value.error;
      } else if metadata.status == Verified || data.status == Verified || data.status == Sampled {
        status := Verified;
      }
      token := Fingerprint(Now());
    }

    /** Drops misjudged evidence and turns an unexplained failure into one of the data. */
    method Repair() returns (repaired: bool)
      modifies this`metadata, this`data
      ensures Now() == Repaired(old(Now())) && repaired == Repairs(old(Now()))
    {
      repaired := false;
      if Misjudged(metadata) { metadata, repaired := NOTHING, true; }
      if Misjudged(data) { data, repaired := NOTHING, true; }
      if status == Failed && metadata.status != Failed && data.status != Failed {
        if Transient(error) {
          repaired := true;
        } else {
          data := Evidence(Failed, UnknownScope, attemptAt, error);
        }
      }
    }

    /** An old failed status is dated as an attempt. */
    method Date(ghost was: Record)
      requires was.status == status && was.error == error
      modifies this`attemptStatus, this`attemptError, this`attemptPolicy
      ensures Now() == Dated(old(Now()), was)
    {
      if status == Failed && attemptStatus == NoStatus {
        attemptStatus, attemptError := Failed, error;
        if attemptPolicy == NoScope { attemptPolicy := UnknownScope; }
      }
    }

    /** Adds the hold an old inconclusive attempt lacks, and widens the extent of any other. */
    method Withhold()
      modifies this`hold
      ensures Now() == Withheld(old(Now()))
    {
      if hold.None? && attemptStatus == Failed && OldInconclusive(attemptError) &&
         !Resolves(lastAt, lastPolicy, attemptAt, Required(attemptPolicy)) {
        hold := Some(Hold(Required(attemptPolicy), attemptAt, attemptError));
      }
      if hold.Some? { hold := Some(hold.value.(scope := Required(hold.value.scope))); }
    }

    /** Fills blank evidence from the last success. */
    method Restore()
      modifies this`metadata, this`data
      ensures Now() == Restored(old(Now()))
    {
      if Blank(metadata.status) { metadata := Evidence(Verified, Metadata, lastAt, ""); }
      if Blank(data.status) {
        if lastPolicy == All {
          data := Evidence(Verified, All, lastAt, "");
        } else if lastPolicy == Subset {
          data := Evidence(Sampled, Subset, lastAt, "");
        }
      }
    }

    /** `normalizeCheckEvidence`. */
    method Normalize()
      modifies this
      ensures Now() == Normalized(old(Now()))
    {
      var repaired := Repair();
      Date(old(Now()));
      Withhold();
      assert Now() == Withheld(Dated(Repaired(old(Now())), old(Now())));
      if status == Verified || (repaired && lastAt.Some?) { Restore(); }
      metadata, data := Filled(metadata), Filled(data);
      UpdateAggregate();
    }

    /** What a successful check settles. */
    method Succeed(policy: Scope, at: Time)
      modifies this`hold, this`lastAt, this`lastPolicy, this`metadata, this`data
      ensures Now() == Judged(old(Now()), policy, at, Success)
    {
      if hold.Some? && (policy == All || hold.value.scope == Metadata) { hold := None; }
      lastAt, lastPolicy := Some(at), policy;
      metadata := Evidence(Verified, Metadata, Some(at), "");
      if policy == All {
        data := Evidence(Verified, All, Some(at), "");
      } else if policy == Subset && data.status != Failed && data.status != Verified {
        data := Evidence(Sampled, Subset, Some(at), "");
      }
    }

    /** What a failed check leaves: damage and an inconclusive end are evidence, nothing else is. */
    method Fail(policy: Scope, at: Time, outcome: Outcome)
      requires !outcome.Success?
      modifies this`hold, this`metadata, this`data
      ensures Now() == Judged(old(Now()), policy, at, outcome)
    {
      match outcome {
        case Damaged(message) =>
          if policy == Metadata {
            metadata := Evidence(Failed, policy, Some(at), message);
          } else {
            data := Evidence(Failed, policy, Some(at), message);
          }
        case Inconclusive(message) =>
          if hold.None? || hold.value.scope == Metadata || Required(policy) == All {
            hold := Some(Hold(Required(policy), Some(at), message));
          }
        case OtherFailure(_) =>
      }
    }

    /** `recordCheckAttempt`. */
    method RecordAttempt(a: Attempt)
      modifies this
      ensures Now() == Recorded(old(Now()), a)
    {
      Normalize();
      Note(a);
      if a.outcome.Success? {
        Succeed(attemptPolicy, a.at);
      } else {
        Fail(attemptPolicy, a.at, a.outcome);
      }
      UpdateAggregate();
    }

    method Note(a: Attempt)
      modifies this`attemptAt, this`attemptPolicy, this`attemptStatus, this`attemptError
      ensures Now() == Noted(old(Now()), a)
    {
      attemptAt, attemptPolicy := Some(a.at), if a.policy == NoScope then Metadata else a.policy;
      attemptStatus, attemptError := Succeeded, "";
      if !a.outcome.Success? { attemptStatus, attemptError := Failed, a.outcome.message; }
    }
  }
}
