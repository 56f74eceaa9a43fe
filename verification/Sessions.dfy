/**
Session transitions: logging in and out, changing the password, authenticating requests
and websockets, recording activity, and expiry. The store is authoritative; the hub tracks
the sessions of open websockets.
*/
module Sessions {
  import opened SessionHubs

  /** A stored session; `version` is the password version it was made under. */
  datatype Row = Row(created: Time, lastSeen: Time, expires: Time, revoked: bool, version: nat)

  datatype Error = Ok | NotFound | Changed | Unauthorized | InvalidCredentials | Failed

  type Rows = map<SessionId, Row>

  // -------------------------------------------------------------------------
  // What the hub may track
  // -------------------------------------------------------------------------

  predicate Live(rows: Rows, version: nat, id: SessionId) {
    id in rows && !rows[id].revoked && rows[id].version == version
  }

  predicate Backs(rows: Rows, version: nat, lifetime: Time, id: SessionId, t: Tracked) {
    Live(rows, version, id) && t.absolute == rows[id].created + lifetime
  }

  /** Every tracked session is live in the store, except those a transition is about to end. */
  ghost predicate Backed(
    sessions: map<SessionId, Tracked>, rows: Rows, version: nat, lifetime: Time, ending: set<SessionId>)
  {
    forall id {:trigger Backs(rows, version, lifetime, id, sessions[id])} ::
      id in sessions && id !in ending ==> Backs(rows, version, lifetime, id, sessions[id])
  }

  /** Rows are never removed, a revoked one never comes back and creation times never change. */
  predicate Ages(before: Row, after: Row) {
    before.created == after.created && before.version == after.version && (before.revoked ==> after.revoked)
  }

  ghost predicate Older(before: Rows, after: Rows) {
    forall id :: id in before ==> id in after && Ages(before[id], after[id])
  }

  /** What the store may become while a transition holds the mutex: sign-ins add rows. */
  ghost predicate Added(before: Rows, after: Rows) {
    forall id :: id in before ==> id in after && after[id] == before[id]
  }

  datatype View = View(rows: Rows, channels: map<ChannelId, Channel>)

  /** What any step may do to the store and to the channels handed out. */
  ghost predicate Advances(before: View, after: View) {
    Older(before.rows, after.rows) && Onward(before.channels, after.channels)
  }

  lemma AdvancesTransitive(a: View, b: View, c: View)
    requires Advances(a, b) && Advances(b, c)
    ensures Advances(a, c)
  {
    OnwardTransitive(a.channels, b.channels, c.channels);
    forall id | id in a.rows ensures id in c.rows && Ages(a.rows[id], c.rows[id]) {
      assert Ages(a.rows[id], b.rows[id]) && Ages(b.rows[id], c.rows[id]);
    }
  }

  /** Whatever happens outside the mutex keeps the tracked sessions backed. */
  lemma InterferenceKeepsBacked(
    sessions: map<SessionId, Tracked>, rows: Rows, sessions': map<SessionId, Tracked>, rows': Rows,
    version: nat, lifetime: Time, ending: set<SessionId>)
    requires Backed(sessions, rows, version, lifetime, ending) && Fewer(sessions, sessions') && Added(rows, rows')
    ensures Backed(sessions', rows', version, lifetime, ending)
  {
    forall id | id in sessions' && id !in ending ensures Backs(rows', version, lifetime, id, sessions'[id]) {
      assert Backs(rows, version, lifetime, id, sessions[id]);
    }
  }

  function Revoking(rows: Rows, id: SessionId): Rows
    requires id in rows
  {
    rows[id := rows[id].(revoked := true)]
  }

  /** Changing the row of one session leaves the others backed. */
  lemma RowChangeKeepsBacked(
    sessions: map<SessionId, Tracked>, rows: Rows, id: SessionId, row: Row, version: nat, lifetime: Time)
    requires Backed(sessions, rows, version, lifetime, {}) && id in rows && Ages(rows[id], row)
    ensures Backed(sessions, rows[id := row], version, lifetime, {id})
    ensures row.revoked == rows[id].revoked ==> Backed(sessions, rows[id := row], version, lifetime, {})
    ensures Older(rows, rows[id := row])
  {
    forall x | x in sessions && (x != id || row.revoked == rows[id].revoked)
      ensures Backs(rows[id := row], version, lifetime, x, sessions[x])
    {
      assert Backs(rows, version, lifetime, x, sessions[x]);
    }
  }

  lemma SubscribedIsBacked(
    before: map<SessionId, Tracked>, after: map<SessionId, Tracked>, rows: Rows, version: nat, lifetime: Time,
    id: SessionId)
    requires Backed(before, rows, version, lifetime, {})
    requires after == before || (id in after && after == before[id := after[id]])
    requires id in after ==> Backs(rows, version, lifetime, id, after[id])
    ensures Backed(after, rows, version, lifetime, {})
  {
    forall x | x in after ensures Backs(rows, version, lifetime, x, after[x]) {
      if x != id { assert Backs(rows, version, lifetime, x, before[x]); }
    }
  }

  /** A session that was logged out or outlived its password is not tracked, and every channel
      that was ever handed out for it is closed or was given up by its own subscriber. */
  lemma NothingOutlivesRevocation(
    hub: Hub, rows: Rows, version: nat, id: SessionId, c: ChannelId)
    requires hub.Valid() && Backed(hub.sessions, rows, version, hub.lifetime, {}) && !Live(rows, version, id)
    requires c in hub.channels && hub.channels[c].session == id
    ensures id !in hub.sessions && (hub.channels[c].closed || hub.channels[c].left)
  {
    assert id in hub.sessions ==> Backs(rows, version, hub.lifetime, id, hub.sessions[id]);
    NobodyWaits(hub.sessions, hub.channels, id, c);
  }

  // -------------------------------------------------------------------------
  // The service
  // -------------------------------------------------------------------------

  /** The reasons for which a session can end while another transition is under way. */
  const EXPIRY := {IdleExpired, AbsoluteExpired}

  /** `invalidSessionReason`. */
  predicate Usable(row: Row, lifetime: Time, now: Time) {
    !row.revoked && now < row.created + lifetime && now < row.expires
  }

  function UnusableReason(row: Row, lifetime: Time, now: Time): Reason {
    if row.revoked then Revoked else if row.created + lifetime <= now then AbsoluteExpired else IdleExpired
  }

  class Service {
    const hub: Hub
    var rows: Rows
    var version: nat
    ghost var storeErrors: nat

    constructor (idleTimeout: Time, lifetime: Time, version: nat)
      ensures fresh(hub) && Valid() && rows == map[] && this.version == version
    {
      hub := new Hub(idleTimeout, lifetime);
      rows, this.version, storeErrors := map[], version, 0;
    }

    /** Holds whenever the transition mutex is free. */
    ghost predicate Valid()
      reads this`rows, this`version, hub
    {
      Sound({})
    }

    /** Holds inside a transition that is about to end the given sessions. */
    ghost predicate Sound(ending: set<SessionId>)
      reads this`rows, this`version, hub
    {
      && hub.Valid() && Ordered(hub.sessions)
      && Backed(hub.sessions, rows, version, hub.lifetime, ending)
    }

    ghost function Now(): View
      reads this`rows, hub
    {
      View(rows, hub.channels)
    }

    /** What happens while a transition holds the mutex: hub steps of transports and timers, the
        hub shutting down, and sign-ins. */
    method Interfere(ghost ending: set<SessionId>)
      requires Sound(ending)
      modifies this`rows, hub
      ensures Sound(ending) && Fewer(old(hub.sessions), hub.sessions) && Added(old(rows), rows)
      ensures Advances(old(Now()), Now())
      ensures Told(old(hub.channels), hub.channels, EXPIRY)
    {
      var steps: int := *;
      while steps > 0
        invariant Sound(ending) && Fewer(old(hub.sessions), hub.sessions) && Added(old(rows), rows)
        invariant Onward(old(hub.channels), hub.channels) && Told(old(hub.channels), hub.channels, EXPIRY)
      {
        steps := steps - 1;
        ghost var sessions, channels, was := hub.sessions, hub.channels, rows;
        InterfereOnce();
        InterferenceKeepsBacked(sessions, was, hub.sessions, rows, version, hub.lifetime, ending);
        OnwardTransitive(old(hub.channels), channels, hub.channels);
        ToldThen(old(hub.channels), channels, hub.channels, EXPIRY, EXPIRY, EXPIRY);
      }
    }

    method InterfereOnce()
      requires hub.Valid() && Ordered(hub.sessions)
      modifies this`rows, hub
      ensures hub.Valid() && Ordered(hub.sessions)
      ensures Fewer(old(hub.sessions), hub.sessions) && Added(old(rows), rows)
      ensures Onward(old(hub.channels), hub.channels)
      ensures Told(old(hub.channels), hub.channels, EXPIRY)
    {
      var choice: int, id: int, n: int, now: Time := *, *, *, *;
      if id < 0 || n < 0 { return; }
      match choice {
        case 0 => var touch := hub.Touch(id, now);
        case 1 => hub.Unsubscribe(id, n);
        case 2 => var ended := hub.Expire(id, now);
        case 3 => hub.Receive(id);
        case 4 => hub.Shutdown();
        case 5 => var error := Login(id, n, now);
        case _ =>
      }
    }

    /** The end of a sign-in: the row is made only at the verified password version. */
    method Login(id: SessionId, verified: nat, now: Time) returns (error: Error)
      modifies this`rows
      ensures Added(old(rows), rows)
      ensures error == Ok ==> id !in old(rows) && verified == version && Live(rows, version, id)
      ensures error == Ok ==>
        rows == old(rows)[id := Row(now, now, Min(now + hub.idleTimeout, now + hub.lifetime), false, version)]
      ensures error != Ok ==> rows == old(rows)
      ensures error == InvalidCredentials <==> verified != version
      ensures error == Ok || error == InvalidCredentials || (error == Failed && id in old(rows))
    {
      if verified != version { return InvalidCredentials; }
      if id in rows { return Failed; }
      rows := rows[id := Row(now, now, Min(now + hub.idleTimeout, now + hub.lifetime), false, verified)];
      error := Ok;
    }

    // -- the store ------------------------------------------------------------

    /** Whether a store operation breaks down; every such breakdown is counted. */
    method Breaks() returns (broken: bool)
      modifies this`storeErrors
      ensures storeErrors == if broken then old(storeErrors) + 1 else old(storeErrors)
    {
      broken := *;
      if broken { storeErrors := storeErrors + 1; }
    }

    method RevokeSession(id: SessionId) returns (error: Error)
      modifies this`rows, this`storeErrors
      ensures error == Ok ==> id in old(rows) && !old(rows)[id].revoked && rows == Revoking(old(rows), id)
      ensures error == NotFound ==> id !in old(rows) || old(rows)[id].revoked
      ensures error != Ok ==> rows == old(rows) && (error == NotFound || error == Failed)
      ensures old(storeErrors) <= storeErrors && (error == Failed ==> old(storeErrors) < storeErrors)
    {
      var broken := Breaks();
      if broken { return Failed; }
      if id !in rows || rows[id].revoked { return NotFound; }
      rows := Revoking(rows, id);
      error := Ok;
    }

    /** A compare-and-swap on the last activity; it changes live rows only. */
    method TouchSession(id: SessionId, expected: Time, lastSeen: Time, expires: Time) returns (error: Error)
      modifies this`rows, this`storeErrors
      ensures error == Ok ==> Live(old(rows), version, id) && old(rows)[id].lastSeen == expected &&
                              rows == old(rows)[id := old(rows)[id].(lastSeen := lastSeen, expires := expires)]
      ensures error == Changed ==> !Live(old(rows), version, id) || old(rows)[id].lastSeen != expected
      ensures error != Ok ==> rows == old(rows) && (error == Changed || error == Failed)
      ensures old(storeErrors) <= storeErrors && (error == Failed ==> old(storeErrors) < storeErrors)
    {
      var broken := Breaks();
      if broken { return Failed; }
      if !Live(rows, version, id) || rows[id].lastSeen != expected { return Changed; }
      rows := rows[id := rows[id].(lastSeen := lastSeen, expires := expires)];
      error := Ok;
    }

    /** `SessionAtCurrentPasswordVersion`, which returns revoked rows too. */
    method LoadSession(id: SessionId) returns (error: Error, row: Row)
      modifies this`storeErrors
      ensures error == Ok ==> id in rows && rows[id] == row && row.version == version
      ensures error == NotFound ==> id !in rows || rows[id].version != version
      ensures error == Ok || error == NotFound || error == Failed
      ensures old(storeErrors) <= storeErrors && (error == Failed ==> old(storeErrors) < storeErrors)
    {
      row := Row(0, 0, 0, false, 0);
      var broken := Breaks();
      if broken { return Failed, row; }
      if id !in rows || rows[id].version != version { return NotFound, row; }
      return Ok, rows[id];
    }

    // -- transitions ----------------------------------------------------------

    /** Ends a session in the hub; whatever a transition did to its row, the hub is sound again. */
    method End(id: SessionId, reason: Reason)
      requires Sound({id})
      modifies hub
      ensures Valid() && hub.sessions == old(hub.sessions) - {id} && Advances(old(Now()), Now())
      ensures id in old(hub.sessions) ==>
        hub.channels == EndListeners(old(hub.channels), id, old(hub.sessions)[id], [Event(id, reason)])
      ensures Told(old(hub.channels), hub.channels, {reason})
    {
      hub.Terminate(id, reason);
      forall x | x in hub.sessions ensures Backs(rows, version, hub.lifetime, x, hub.sessions[x]) {
        assert Backs(rows, version, hub.lifetime, x, old(hub.sessions)[x]);
      }
    }

    /** Revokes a session in the store if it can, and ends it in the hub if it must or did. */
    method RevokeAndEnd(id: SessionId, reason: Reason, always: bool) returns (error: Error)
      requires Valid()
      modifies this`rows, this`storeErrors, hub
      ensures Valid() && Advances(old(Now()), Now())
      ensures error == Ok ==> id in rows && rows[id].revoked && old(id in rows && !rows[id].revoked)
      ensures error == Ok || always ==> id !in hub.sessions
      ensures error == Ok || error == NotFound || error == Failed
      ensures old(storeErrors) <= storeErrors && (error == Failed ==> old(storeErrors) < storeErrors)
      ensures error == NotFound ==> id !in old(rows) || old(rows)[id].revoked
      ensures Told(old(hub.channels), hub.channels, EXPIRY + {reason})
      ensures id in old(rows) ==> rows[id].revoked || old(storeErrors) < storeErrors
    {
      if id in rows { RowChangeKeepsBacked(hub.sessions, rows, id, rows[id].(revoked := true), version, hub.lifetime); }
      error := RevokeSession(id);
      if error != Ok && !always { return; }
      ghost var a := Now();
      Interfere({id});
      ghost var b := Now();
      AdvancesTransitive(old(Now()), a, b);
      End(id, reason);
      AdvancesTransitive(old(Now()), b, Now());
      ToldThen(old(hub.channels), b.channels, hub.channels, EXPIRY, {reason}, EXPIRY + {reason});
    }

    method Logout(id: SessionId) returns (error: Error)
      requires Valid()
      modifies this`rows, this`storeErrors, hub
      ensures Valid() && Advances(old(Now()), Now())
      ensures error == Ok ==> id in rows && rows[id].revoked && id !in hub.sessions
      ensures error == Ok || error == Unauthorized || error == Failed
      ensures old(storeErrors) <= storeErrors && (error == Failed ==> old(storeErrors) < storeErrors)
      ensures error == Unauthorized ==> id !in old(rows) || old(rows)[id].revoked
      ensures Told(old(hub.channels), hub.channels, EXPIRY + {LoggedOut})
      ensures error == Ok && !hub.closing ==> forall c :: c in old(hub.channels) && hub.channels[c].session == id ==>
        hub.channels[c].left || hub.channels[c].sent != []
    {
      error := RevokeAndEnd(id, LoggedOut, false);
      if error == NotFound { error := Unauthorized; }
      if error == Ok && !hub.closing { EverybodyIsTold(hub.sessions, hub.channels, id); }
    }

    /** The persistent half of an expiry, run after the hub ended the session. */
    method ExpireSession(id: SessionId, reason: Reason)
      requires Valid()
      modifies this`rows, this`storeErrors, hub
      ensures Valid() && Advances(old(Now()), Now()) && id !in hub.sessions
      ensures id in old(rows) ==> rows[id].revoked || old(storeErrors) < storeErrors
    {
      var error := RevokeAndEnd(id, reason, true);
    }

    /** Ends every session; nobody who listened to one is cut off without a reason. */
    method EndAll(reason: Reason)
      requires Sound(hub.sessions.Keys)
      modifies this`rows, hub
      ensures Valid() && Advances(old(Now()), Now()) && Added(old(rows), rows) && hub.sessions == map[]
      ensures Told(old(hub.channels), hub.channels, EXPIRY + {reason})
      ensures !hub.closing ==>
        forall c :: c in old(hub.channels) ==> hub.channels[c].left || hub.channels[c].sent != []
    {
      Interfere(hub.sessions.Keys);
      ghost var b := Now();
      hub.TerminateAll(reason);
      AdvancesTransitive(old(Now()), b, Now());
      ToldThen(old(hub.channels), b.channels, hub.channels, EXPIRY, {reason}, EXPIRY + {reason});
      if !hub.closing {
        forall c | c in hub.channels ensures hub.channels[c].left || hub.channels[c].sent != [] {
          NobodyWaits(hub.sessions, hub.channels, hub.channels[c].session, c);
        }
      }
    }

    method UpdatePassword(verified: nat) returns (error: Error)
      requires Valid()
      modifies this`rows, this`storeErrors, this`version, hub
      ensures Valid() && Advances(old(Now()), Now())
      ensures error == Ok ==> verified == old(version)
      ensures error == Ok ==> version == old(version) + 1 && hub.sessions == map[] &&
                              forall id :: id in old(rows) ==> rows[id].revoked
      ensures error != Ok ==> version == old(version) && rows == old(rows)
      ensures old(storeErrors) <= storeErrors && (error == Failed ==> old(storeErrors) < storeErrors)
      ensures error == InvalidCredentials ==> verified != version
      ensures error == Ok || error == InvalidCredentials || error == Failed
      ensures Told(old(hub.channels), hub.channels, EXPIRY + {PasswordChanged})
      ensures error == Ok && !hub.closing ==>
        forall c :: c in old(hub.channels) ==> hub.channels[c].left || hub.channels[c].sent != []
    {
      var broken := Breaks();
      if broken { return Failed; }
      if verified != version { return InvalidCredentials; }
      version := version + 1;
      rows := map id | id in rows :: rows[id].(revoked := true);
      ghost var a := Now();
      EndAll(PasswordChanged);
      AdvancesTransitive(old(Now()), a, Now());
      error := Ok;
    }

    function NextExpiry(row: Row, now: Time): Time {
      Min(now + hub.idleTimeout, row.created + hub.lifetime)
    }

    /** The store half of an accepted request: its activity is written at most once an interval.
        Under the mutex the compare-and-swap cannot lose, so the second attempt is never needed. */
    method RecordRequest(id: SessionId, row: Row, now: Time) returns (error: Error, persisted: bool)
      requires Valid() && Live(rows, version, id) && rows[id] == row
      modifies this`rows, this`storeErrors
      ensures Valid() && Advances(old(Now()), Now()) && Live(rows, version, id) && rows[id].created == row.created
      ensures error == Ok || error == Failed
      ensures error == Ok ==> (persisted <==> now - row.lastSeen >= TouchInterval(hub.idleTimeout))
      ensures persisted ==> rows == old(rows)[id := row.(lastSeen := now, expires := NextExpiry(row, now))]
      ensures !persisted ==> rows == old(rows)
      ensures old(storeErrors) <= storeErrors && (error == Failed ==> old(storeErrors) < storeErrors)
    {
      error, persisted := Ok, false;
      if now - row.lastSeen >= TouchInterval(hub.idleTimeout) {
        var expires := NextExpiry(row, now);
        RowChangeKeepsBacked(hub.sessions, rows, id, row.(lastSeen := now, expires := expires), version, hub.lifetime);
        error := TouchSession(id, row.lastSeen, now, expires);
        persisted := error == Ok;
      }
    }

    /** One attempt of `authenticateRequest`. */
    method Attempt(id: SessionId) returns (error: Error, session: Session, ghost row: Row, ghost now: Time)
      requires Valid()
      modifies this`rows, this`storeErrors, hub
      ensures Valid() && Advances(old(Now()), Now())
      ensures error == Ok ==> Accepted(id, session, row, now) && id in old(rows) && row == old(rows)[id]
      ensures error == Unauthorized ==> id !in hub.sessions
      ensures error == Ok || error == Unauthorized || error == Failed
      ensures error == Ok ==> !row.revoked && now < row.expires && now < row.created + hub.lifetime
      ensures error == Unauthorized && id in old(rows) && old(rows)[id].version == version ==>
        row == old(rows)[id] && (row.revoked || row.expires <= now || row.created + hub.lifetime <= now)
      ensures old(storeErrors) <= storeErrors && (error == Failed ==> old(storeErrors) < storeErrors)
    {
      session, now, row := Session(id, 0, 0, 0), 0, Row(0, 0, 0, false, 0);
      var found, persisted;
      error, found := LoadSession(id);
      ghost var a := Now();
      Interfere({});
      ghost var b := Now();
      if error == NotFound {
        End(id, Revoked);
        AdvancesTransitive(a, b, Now());
        error := Unauthorized;
        return;
      }
      if error != Ok { return; }
      var clock: Time := *;
      row, now := found, clock;
      if !Usable(found, hub.lifetime, clock) {
        var ignored := RevokeAndEnd(id, UnusableReason(found, hub.lifetime, clock), true);
        AdvancesTransitive(a, b, Now());
        error := Unauthorized;
        return;
      }
      error, persisted := RecordRequest(id, found, clock);
      AdvancesTransitive(a, b, Now());
      if error != Ok { return; }
      b := Now();
      Interfere({});
      AdvancesTransitive(a, b, Now());
      b := Now();
      session := Session(id, found.created, if persisted then clock else found.lastSeen, NextExpiry(found, clock));
      Refresh(id, persisted, session.lastSeen, session.expires);
      AdvancesTransitive(a, b, Now());
    }

    /** `authenticateRequest`: a conflict would be tried once more, but there is none under the mutex. */
    method Authenticate(id: SessionId) returns (error: Error, session: Session, ghost row: Row, ghost now: Time)
      requires Valid()
      modifies this`rows, this`storeErrors, hub
      ensures Valid() && Advances(old(Now()), Now())
      ensures error == Ok ==> Accepted(id, session, row, now) && id in old(rows) && row == old(rows)[id]
      ensures error == Unauthorized ==> id !in hub.sessions
      ensures error == Ok || error == Unauthorized || error == Failed
      ensures error == Ok ==> !row.revoked && now < row.expires && now < row.created + hub.lifetime
      ensures error == Unauthorized && id in old(rows) && old(rows)[id].version == version ==>
        row == old(rows)[id] && (row.revoked || row.expires <= now || row.created + hub.lifetime <= now)
      ensures old(storeErrors) <= storeErrors && (error == Failed ==> old(storeErrors) < storeErrors)
    {
      session, now, row := Session(id, 0, 0, 0), 0, Row(0, 0, 0, false, 0);
      error := Changed;
      var attempts := 0;
      while attempts < 2 && error == Changed
        invariant Valid() && Advances(old(Now()), Now())
        invariant error == Changed ==> attempts == 0 && rows == old(rows)
        invariant error == Ok ==> Accepted(id, session, row, now) && id in old(rows) && row == old(rows)[id]
        invariant error == Ok ==> !row.revoked && now < row.expires && now < row.created + hub.lifetime
        invariant error == Unauthorized && id in old(rows) && old(rows)[id].version == version ==>
          row == old(rows)[id] && (row.revoked || row.expires <= now || row.created + hub.lifetime <= now)
        invariant old(storeErrors) <= storeErrors && (error == Failed ==> old(storeErrors) < storeErrors)
        invariant error == Unauthorized ==> id !in hub.sessions
        invariant error == Ok || error == Unauthorized || error == Failed || error == Changed
        decreases 2 - attempts
      {
        ghost var before := Now();
        error, session, row, now := Attempt(id);
        AdvancesTransitive(old(Now()), before, Now());
        attempts := attempts + 1;
      }
    }

    /** What an accepted request can rely on while the mutex is held: the row it read was usable at
        the time, its session is live, and its new deadline is within both limits. */
    ghost predicate Accepted(id: SessionId, session: Session, row: Row, now: Time)
      reads this`rows, this`version
    {
      && Live(rows, version, id) && Ages(row, rows[id]) && Usable(row, hub.lifetime, now)
      && var due := now - row.lastSeen >= TouchInterval(hub.idleTimeout);
         session == Session(id, row.created, if due then now else row.lastSeen, NextExpiry(row, now))
    }

    method Refresh(id: SessionId, persisted: bool, lastSeen: Time, expires: Time)
      requires Valid()
      modifies hub`sessions
      ensures Valid() && hub.sessions.Keys == old(hub.sessions).Keys && Advances(old(Now()), Now())
    {
      if persisted {
        hub.TouchPersisted(id, lastSeen, expires);
      } else {
        hub.TouchLease(id, expires);
      }
      InterferenceKeepsBacked(old(hub.sessions), rows, hub.sessions, rows, version, hub.lifetime, {});
    }

    /** The subscription is taken under the same mutex hold as the authentication. */
    method AuthenticateWebSocket(id: SessionId) returns (error: Error, session: Session, c: ChannelId)
      requires Valid()
      modifies this`rows, this`storeErrors, hub
      ensures Valid() && Advances(old(Now()), Now())
      ensures error == Ok ==> c !in old(hub.channels) && c in hub.channels && hub.channels[c].session == id
      ensures error == Ok ==> hub.channels[c].closed ||
                              (id in hub.sessions && Listens(hub.sessions[id], hub.channels[c], c))
      ensures id in old(rows) && !old(Live(rows, version, id)) ==> error != Ok
      ensures old(storeErrors) <= storeErrors && (error == Failed ==> old(storeErrors) < storeErrors)
      ensures error == Ok || error == Unauthorized || error == Failed
    {
      c := 0;
      ghost var row, now0;
      error, session, row, now0 := Authenticate(id);
      if error != Ok { return; }
      ghost var a := Now();
      Interfere({});
      ghost var b := Now();
      AdvancesTransitive(old(Now()), a, b);
      assert Live(rows, version, id);
      var now: Time := *;
      ghost var before := hub.sessions;
      if id in before { assert Backs(rows, version, hub.lifetime, id, before[id]); }
      c := hub.Subscribe(session, now);
      SubscribedIsBacked(before, hub.sessions, rows, version, hub.lifetime, id);
      AdvancesTransitive(old(Now()), b, Now());
    }

    /** The locked half of `TouchSessionActivity`, with what the hub's touch returned. */
    method PersistActivity(id: SessionId, touch: Touched) returns (error: Error)
      requires Valid()
      modifies this`rows, this`storeErrors, hub
      ensures Valid() && Advances(old(Now()), Now())
      ensures error == Unauthorized ==> id !in hub.sessions
      ensures error == Ok ==> Live(rows, version, id)
      ensures old(storeErrors) <= storeErrors && (error == Failed ==> old(storeErrors) < storeErrors)
      ensures error == Ok || error == Unauthorized || error == Failed
    {
      if id in rows {
        RowChangeKeepsBacked(hub.sessions, rows, id, rows[id].(lastSeen := touch.activity, expires := touch.expires),
                             version, hub.lifetime);
      }
      error := TouchSession(id, touch.expected, touch.activity, touch.expires);
      ghost var a := Now();
      Interfere({});
      ghost var b := Now();
      AdvancesTransitive(old(Now()), a, b);
      if error == Ok {
        Refresh(id, true, touch.activity, touch.expires);
      } else if error == Changed {
        ghost var now;
        error, now := Reload(id);
      }
      AdvancesTransitive(old(Now()), b, Now());
    }

    /** A lost compare-and-swap is not a revocation: the row is read again. */
    method Reload(id: SessionId) returns (error: Error, ghost now: Time)
      requires Valid()
      modifies this`storeErrors, hub
      ensures Valid() && Advances(old(Now()), Now())
      ensures error == Unauthorized ==> id !in hub.sessions
      ensures error == Ok ==> Live(rows, version, id)
      ensures error == Ok ==> now < rows[id].expires && now < rows[id].created + hub.lifetime
      ensures error == Unauthorized && id in rows && rows[id].version == version ==>
        rows[id].revoked || rows[id].expires <= now || rows[id].created + hub.lifetime <= now
      ensures error == Ok || error == Unauthorized || error == Failed
      ensures old(storeErrors) <= storeErrors && (error == Failed ==> old(storeErrors) < storeErrors)
    {
      var row;
      var clock: Time := *;
      now := clock;
      error, row := LoadSession(id);
      if error == Failed { return; }
      if error == NotFound || !Usable(row, hub.lifetime, clock) {
        End(id, if error == NotFound then Revoked else UnusableReason(row, hub.lifetime, clock));
        return Unauthorized, clock;
      }
      Refresh(id, true, row.lastSeen, row.expires);
    }

    // -- whole runs -----------------------------------------------------------

    /** One transition, or one thing that happens outside the mutex. */
    method Step()
      requires Valid()
      modifies this, hub
      ensures Valid() && Advances(old(Now()), Now())
    {
      var choice: int, id: int, n: int, touch: Touched, reason: Reason := *, *, *, *, *;
      if id < 0 || n < 0 { return; }
      var error, session, c := Ok, Session(0, 0, 0, 0), 0;
      match choice {
        case 0 => Interfere({});
        case 1 => error := Logout(id);
        case 2 => ExpireSession(id, reason);
        case 3 => error := UpdatePassword(n);
        case 4 => ghost var row, now; error, session, row, now := Authenticate(id);
        case 5 => error, session, c := AuthenticateWebSocket(id);
        case 6 => error := PersistActivity(id, touch);
        case _ =>
      }
    }

    /** Over any interleaving, a session that is revoked once is never tracked again, and every
        channel ever handed out for it is closed or was given up. */
    method Lifetime(steps: nat, id: SessionId, c: ChannelId)
      requires Valid()
      modifies this, hub
      ensures Valid() && Advances(old(Now()), Now())
      ensures id in old(rows) && old(rows)[id].revoked ==> id !in hub.sessions
      ensures id in old(rows) && old(rows)[id].revoked && c in hub.channels && hub.channels[c].session == id ==>
        hub.channels[c].closed || hub.channels[c].left
    {
      for i := 0 to steps
        invariant Valid() && Advances(old(Now()), Now())
      {
        ghost var before := Now();
        Step();
        AdvancesTransitive(old(Now()), before, Now());
      }
      assert id in hub.sessions ==> Backs(rows, version, hub.lifetime, id, hub.sessions[id]);
      if id in old(rows) && old(rows)[id].revoked && c in hub.channels && hub.channels[c].session == id {
        assert Ages(old(rows)[id], rows[id]);
        NothingOutlivesRevocation(hub, rows, version, id, c);
      }
    }
  }
}
