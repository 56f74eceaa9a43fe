/**
The in-memory hub of signed-in transports: idle and absolute deadlines of tracked
sessions, and the channels that tell their subscribers that a session has ended.
*/
module SessionHubs {
  type SessionId = nat
  type SubscriberId = nat
  type ChannelId = nat

  /** Times are instants; zero is the unset time. */
  type Time = int

  datatype Reason = LoggedOut | PasswordChanged | Revoked | IdleExpired | AbsoluteExpired

  datatype Event = Event(session: SessionId, reason: Reason)

  /** What an authenticated request knows of its session. */
  datatype Session = Session(id: SessionId, created: Time, lastSeen: Time, expires: Time)

  datatype Tracked = Tracked(idle: Time, absolute: Time, persisted: Time, subscribers: map<SubscriberId, ChannelId>)

  /** A channel of capacity one. `sent` is everything ever sent on it, of which the receiver
      has taken `taken`; `left` says that its subscriber unsubscribed. */
  datatype Channel = Channel(
    session: SessionId, subscriber: SubscriberId, sent: seq<Event>, taken: nat, closed: bool, left: bool)

  datatype Touched = Touched(active: bool, activity: Time, expires: Time, expected: Time, persist: bool)

  function Min(a: Time, b: Time): Time {
    if a < b then a else b
  }

  // -------------------------------------------------------------------------
  // The invariant
  // -------------------------------------------------------------------------

  predicate Listens(tracked: Tracked, ch: Channel, c: ChannelId) {
    ch.subscriber in tracked.subscribers && tracked.subscribers[ch.subscriber] == c
  }

  /** A registered channel belongs to its subscriber alone, is open and has never been sent on. */
  predicate Registered(channels: map<ChannelId, Channel>, s: SessionId, n: SubscriberId, c: ChannelId) {
    c in channels && channels[c] == Channel(s, n, [], 0, false, false)
  }

  ghost predicate Attended(channels: map<ChannelId, Channel>, s: SessionId, tracked: Tracked) {
    && tracked.subscribers != map[]
    && forall n {:trigger Registered(channels, s, n, tracked.subscribers[n])} ::
        n in tracked.subscribers ==> Registered(channels, s, n, tracked.subscribers[n])
  }

  /** At most one event, and only on a channel that is closed with it; whoever is neither
      told nor gone is still registered. */
  predicate Settled(sessions: map<SessionId, Tracked>, ch: Channel, c: ChannelId) {
    && ch.taken <= |ch.sent| <= 1 && (ch.sent != [] ==> ch.closed && ch.sent[0].session == ch.session)
    && (ch.closed || ch.left || (ch.session in sessions && Listens(sessions[ch.session], ch, c)))
  }

  ghost predicate Wired(sessions: map<SessionId, Tracked>, channels: map<ChannelId, Channel>) {
    && (forall s {:trigger Attended(channels, s, sessions[s])} :: s in sessions ==> Attended(channels, s, sessions[s]))
    && (forall c {:trigger Settled(sessions, channels[c], c)} :: c in channels ==> Settled(sessions, channels[c], c))
  }

  predicate Bounded(t: Tracked) {
    t.idle <= t.absolute
  }

  ghost predicate Ordered(sessions: map<SessionId, Tracked>) {
    forall s :: s in sessions ==> Bounded(sessions[s])
  }

  /** What a channel can become: its history only grows, and a closed one gets nothing more. */
  predicate Later(before: Channel, after: Channel) {
    && before.session == after.session && before.subscriber == after.subscriber
    && before.sent <= after.sent && before.taken <= after.taken
    && (before.left ==> after.left)
    && (before.closed ==> after.closed && after.sent == before.sent)
  }

  ghost predicate Onward(before: map<ChannelId, Channel>, after: map<ChannelId, Channel>) {
    forall c :: c in before ==> c in after && Later(before[c], after[c])
  }

  /** Hub steps outside `Subscribe` track no new session and move no absolute deadline. */
  ghost predicate Fewer(before: map<SessionId, Tracked>, after: map<SessionId, Tracked>) {
    forall s :: s in after ==> s in before && after[s].absolute == before[s].absolute
  }

  // -------------------------------------------------------------------------
  // Ending a session
  // -------------------------------------------------------------------------

  function Ended(ch: Channel, events: seq<Event>): Channel {
    ch.(sent := ch.sent + events, closed := true)
  }

  /** Every listener of a session is sent the events and closed. */
  function EndListeners(channels: map<ChannelId, Channel>, s: SessionId, tracked: Tracked, events: seq<Event>)
    : map<ChannelId, Channel>
  {
    map c | c in channels ::
      if channels[c].session == s && Listens(tracked, channels[c], c) then Ended(channels[c], events) else channels[c]
  }

  lemma EndingKeepsWired(
    sessions: map<SessionId, Tracked>, channels: map<ChannelId, Channel>, s: SessionId, events: seq<Event>)
    requires Wired(sessions, channels) && s in sessions
    requires |events| <= 1 && (events != [] ==> events[0].session == s)
    ensures Wired(sessions - {s}, EndListeners(channels, s, sessions[s], events))
    ensures Onward(channels, EndListeners(channels, s, sessions[s], events))
  {
    var sessions', channels' := sessions - {s}, EndListeners(channels, s, sessions[s], events);
    forall x | x in sessions' ensures Attended(channels', x, sessions'[x]) {
      assert Attended(channels, x, sessions[x]);
      forall n | n in sessions[x].subscribers ensures Registered(channels', x, n, sessions[x].subscribers[n]) {
        assert Registered(channels, x, n, sessions[x].subscribers[n]);
      }
    }
    forall c | c in channels' ensures Settled(sessions', channels'[c], c) && Later(channels[c], channels'[c]) {
      var ch := channels[c];
      assert Settled(sessions, ch, c);
      if ch.session == s && Listens(sessions[s], ch, c) {
        assert Attended(channels, s, sessions[s]);
        assert Registered(channels, s, ch.subscriber, sessions[s].subscribers[ch.subscriber]);
      }
    }
  }

  /** What a step may tell: a channel on which nothing was sent may get one event, for one of the
      given reasons. */
  ghost predicate Told(before: map<ChannelId, Channel>, after: map<ChannelId, Channel>, reasons: set<Reason>) {
    forall c :: c in before && c in after && after[c].sent != before[c].sent ==>
      && before[c].sent == [] && |after[c].sent| == 1
      && after[c].sent[0].session == before[c].session && after[c].sent[0].reason in reasons
  }

  lemma ToldThen(a: map<ChannelId, Channel>, b: map<ChannelId, Channel>, c: map<ChannelId, Channel>,
                 first: set<Reason>, second: set<Reason>, all: set<Reason>)
    requires Onward(a, b) && Onward(b, c) && Told(a, b, first) && Told(b, c, second) && first + second <= all
    ensures Told(a, c, all)
  {
    forall x | x in a && x in c && c[x].sent != a[x].sent
      ensures a[x].sent == [] && |c[x].sent| == 1 && c[x].sent[0].session == a[x].session &&
              c[x].sent[0].reason in all
    {
      assert Later(a[x], b[x]) && Later(b[x], c[x]);
    }
  }

  /** Whoever is cut off has been told why. */
  ghost predicate Warned(channels: map<ChannelId, Channel>) {
    forall c :: c in channels && channels[c].closed ==> channels[c].sent != []
  }

  lemma EndingTells(sessions: map<SessionId, Tracked>, channels: map<ChannelId, Channel>, s: SessionId, reason: Reason)
    requires Wired(sessions, channels) && s in sessions
    ensures var after := EndListeners(channels, s, sessions[s], [Event(s, reason)]);
            Told(channels, after, {reason}) && (Warned(channels) ==> Warned(after))
  {
    assert Attended(channels, s, sessions[s]);
    forall c | c in channels && channels[c].session == s && Listens(sessions[s], channels[c], c)
      ensures channels[c].sent == []
    {
      assert Registered(channels, s, channels[c].subscriber, sessions[s].subscribers[channels[c].subscriber]);
    }
  }

  /** A session that is not tracked has no listener left waiting. */
  lemma NobodyWaits(sessions: map<SessionId, Tracked>, channels: map<ChannelId, Channel>, s: SessionId, c: ChannelId)
    requires Wired(sessions, channels) && s !in sessions && c in channels && channels[c].session == s
    ensures channels[c].closed || channels[c].left
  {
    assert Settled(sessions, channels[c], c);
  }

  /** And each of its listeners that did not leave was told why. */
  lemma EverybodyIsTold(sessions: map<SessionId, Tracked>, channels: map<ChannelId, Channel>, s: SessionId)
    requires Wired(sessions, channels) && Warned(channels) && s !in sessions
    ensures forall c :: c in channels && channels[c].session == s ==> channels[c].left || channels[c].sent != []
  {
    forall c | c in channels && channels[c].session == s ensures channels[c].left || channels[c].sent != [] {
      NobodyWaits(sessions, channels, s, c);
    }
  }

  // -------------------------------------------------------------------------
  // Subscribing and unsubscribing
  // -------------------------------------------------------------------------

  function Merge(tracked: Tracked, idle: Time, persisted: Time): Tracked {
    tracked.(idle := if idle > tracked.idle then idle else tracked.idle,
             persisted := if persisted > tracked.persisted then persisted else tracked.persisted)
  }

  /** The tracked session after a subscription: made for it, or with its deadlines extended. */
  function Joined(sessions: map<SessionId, Tracked>, session: Session, lifetime: Time, now: Time,
                  n: SubscriberId, c: ChannelId): Tracked
  {
    var absolute := session.created + lifetime;
    var idle := Min(session.expires, absolute);
    var persisted := if session.lastSeen == 0 then now else session.lastSeen;
    var t := if session.id in sessions then Merge(sessions[session.id], idle, persisted)
             else Tracked(idle, absolute, persisted, map[]);
    t.(subscribers := t.subscribers[n := c])
  }

  /** Merging a subscription keeps the idle deadline within the absolute one exactly when the
      subscriber's own deadline is within the deadline of the session tracked already. */
  lemma MergeIsBoundedExactlyWhen(tracked: Tracked, session: Session, lifetime: Time)
    requires Bounded(tracked)
    ensures var idle := Min(session.expires, session.created + lifetime);
            Bounded(Merge(tracked, idle, session.lastSeen)) <==> idle <= tracked.absolute
  {
  }

  /** It fails for a second subscription made with a later creation time. */
  lemma MergeCanExceed(t: Tracked, session: Session)
    requires t == Tracked(10, 10, 0, map[]) && session == Session(0, 5, 5, 15)
    ensures Bounded(t) && !Bounded(Merge(t, Min(session.expires, session.created + 10), session.lastSeen))
  {
  }

  lemma RegisteringKeepsWired(
    sessions: map<SessionId, Tracked>, channels: map<ChannelId, Channel>,
    s: SessionId, tracked: Tracked, n: SubscriberId, c: ChannelId)
    requires Wired(sessions, channels) && c !in channels && n !in tracked.subscribers
    requires s in sessions ==> tracked.subscribers == sessions[s].subscribers
    requires s !in sessions ==> tracked.subscribers == map[]
    ensures Wired(sessions[s := tracked.(subscribers := tracked.subscribers[n := c])],
                  channels[c := Channel(s, n, [], 0, false, false)])
  {
    var t := tracked.(subscribers := tracked.subscribers[n := c]);
    var sessions', channels' := sessions[s := t], channels[c := Channel(s, n, [], 0, false, false)];
    forall x | x in sessions' ensures Attended(channels', x, sessions'[x]) {
      if x in sessions { assert Attended(channels, x, sessions[x]); }
      assert n in t.subscribers;
      forall m | m in sessions'[x].subscribers ensures Registered(channels', x, m, sessions'[x].subscribers[m]) {
        if x != s || m != n { assert Registered(channels, x, m, sessions[x].subscribers[m]); }
      }
    }
    forall d | d in channels' ensures Settled(sessions', channels'[d], d) {
      if d != c { assert Settled(sessions, channels[d], d); }
    }
  }

  function Unlisten(sessions: map<SessionId, Tracked>, s: SessionId, n: SubscriberId): map<SessionId, Tracked>
    requires s in sessions
  {
    var rest := sessions[s].subscribers - {n};
    if rest == map[] then sessions - {s} else sessions[s := sessions[s].(subscribers := rest)]
  }

  lemma UnlisteningKeepsWired(
    sessions: map<SessionId, Tracked>, channels: map<ChannelId, Channel>, s: SessionId, n: SubscriberId)
    requires Wired(sessions, channels) && s in sessions && n in sessions[s].subscribers
    ensures var c := sessions[s].subscribers[n];
            c in channels && Wired(Unlisten(sessions, s, n), channels[c := channels[c].(left := true)])
  {
    assert Attended(channels, s, sessions[s]);
    var c := sessions[s].subscribers[n];
    assert Registered(channels, s, n, c);
    var sessions', channels' := Unlisten(sessions, s, n), channels[c := channels[c].(left := true)];
    forall x | x in sessions' ensures Attended(channels', x, sessions'[x]) {
      assert Attended(channels, x, sessions[x]);
      forall m | m in sessions'[x].subscribers ensures Registered(channels', x, m, sessions'[x].subscribers[m]) {
        assert Registered(channels, x, m, sessions[x].subscribers[m]);
      }
    }
    forall d | d in channels' ensures Settled(sessions', channels'[d], d) {
      var ch := channels[d];
      assert Settled(sessions, ch, d);
      if d != c && ch.session == s && s in sessions && Listens(sessions[s], ch, d) {
        assert Registered(channels, s, ch.subscriber, d);
        assert ch.subscriber in sessions[s].subscribers - {n};
      }
    }
  }

  lemma RetimingKeepsWired(
    sessions: map<SessionId, Tracked>, channels: map<ChannelId, Channel>, s: SessionId, t: Tracked)
    requires Wired(sessions, channels) && s in sessions && t.subscribers == sessions[s].subscribers
    ensures Wired(sessions[s := t], channels)
  {
    var sessions' := sessions[s := t];
    forall x | x in sessions' ensures Attended(channels, x, sessions'[x]) {
      assert Attended(channels, x, sessions[x]);
      forall m | m in sessions'[x].subscribers ensures Registered(channels, x, m, sessions'[x].subscribers[m]) {
        assert Registered(channels, x, m, sessions[x].subscribers[m]);
      }
    }
    forall d | d in channels ensures Settled(sessions', channels[d], d) {
      assert Settled(sessions, channels[d], d);
    }
  }

  // -------------------------------------------------------------------------
  // The hub
  // -------------------------------------------------------------------------

  ghost predicate Numbered(channels: map<ChannelId, Channel>, nextChannel: nat, subscribers: nat) {
    forall c :: c in channels ==> c < nextChannel && channels[c].subscriber <= subscribers
  }

  function TouchInterval(idleTimeout: Time): Time {
    var half := if idleTimeout >= 0 then idleTimeout / 2 else -(-idleTimeout / 2);
    if half <= 0 || half > MINUTE then MINUTE else half
  }

  lemma EndingKeepsNumbered(
    channels: map<ChannelId, Channel>, s: SessionId, tracked: Tracked, events: seq<Event>, a: nat, b: nat)
    requires Numbered(channels, a, b)
    ensures Numbered(EndListeners(channels, s, tracked, events), a, b)
  {
  }

  function EndUnless(
    spared: set<SubscriberId>, ch: Channel, c: ChannelId, s: SessionId, tracked: Tracked, events: seq<Event>): Channel
  {
    if ch.session == s && Listens(tracked, ch, c) && ch.subscriber !in spared then Ended(ch, events) else ch
  }

  const MINUTE: Time := 60_000_000_000

  lemma AddingKeepsWired(
    sessions: map<SessionId, Tracked>, channels: map<ChannelId, Channel>, c: ChannelId, ch: Channel)
    requires Wired(sessions, channels) && c !in channels && Settled(sessions, ch, c)
    ensures Wired(sessions, channels[c := ch]) && Onward(channels, channels[c := ch])
  {
    forall s | s in sessions ensures Attended(channels[c := ch], s, sessions[s]) {
      assert Attended(channels, s, sessions[s]);
      forall n | n in sessions[s].subscribers
        ensures Registered(channels[c := ch], s, n, sessions[s].subscribers[n])
      {
        assert Registered(channels, s, n, sessions[s].subscribers[n]);
      }
    }
    forall d | d in channels ensures Settled(sessions, channels[d], d) {}
  }

  lemma NewSubscriber(
    sessions: map<SessionId, Tracked>, channels: map<ChannelId, Channel>, a: nat, b: nat, s: SessionId)
    requires Wired(sessions, channels) && Numbered(channels, a, b) && s in sessions
    ensures forall n :: n in sessions[s].subscribers ==> n <= b
  {
    assert Attended(channels, s, sessions[s]);
    forall n | n in sessions[s].subscribers ensures n <= b {
      assert Registered(channels, s, n, sessions[s].subscribers[n]);
    }
  }

  lemma ReplacingOrders(sessions: map<SessionId, Tracked>, s: SessionId, t: Tracked)
    requires Ordered(sessions)
    ensures Ordered(sessions[s := t]) <==> Bounded(t)
  {
    if Ordered(sessions[s := t]) { assert s in sessions[s := t]; }
  }

  lemma OnwardTransitive(a: map<ChannelId, Channel>, b: map<ChannelId, Channel>, c: map<ChannelId, Channel>)
    requires Onward(a, b) && Onward(b, c)
    ensures Onward(a, c)
  {
    forall x | x in a ensures x in c && Later(a[x], c[x]) {
      assert Later(a[x], b[x]) && Later(b[x], c[x]);
    }
  }

  /** Whether a deadline has passed; the absolute one is named first. */
  predicate Expired(t: Tracked, now: Time) {
    t.absolute <= now || t.idle <= now
  }

  /** Once its absolute deadline has passed, that is why a session ended, idle or not. */
  function ReasonAt(absolute: Time, now: Time): Reason {
    if absolute <= now then AbsoluteExpired else IdleExpired
  }

  /** `TouchLease`: activity of another transport, which never shortens the lease. */
  function Leased(t: Tracked, expires: Time): Tracked {
    var deadline := Min(expires, t.absolute);
    if deadline > t.idle then t.(idle := deadline) else t
  }

  /** Every method is one critical section under the hub's mutex. */
  class Hub {
    const idleTimeout: Time
    const lifetime: Time
    var sessions: map<SessionId, Tracked>
    var channels: map<ChannelId, Channel>
    var nextChannel: nat
    var subscriberCount: nat
    var closing: bool

    ghost predicate Valid() reads this {
      && Wired(sessions, channels) && Numbered(channels, nextChannel, subscriberCount)
      && (if closing then sessions == map[] else Warned(channels))
    }

    constructor (idleTimeout: Time, lifetime: Time)
      ensures Valid() && sessions == map[] && channels == map[] && !closing
      ensures this.idleTimeout == idleTimeout && this.lifetime == lifetime
    {
      this.idleTimeout, this.lifetime := idleTimeout, lifetime;
      sessions, channels, nextChannel, subscriberCount, closing := map[], map[], 0, 0, false;
    }

    /** A send on a channel: with one slot it blocks unless the channel is empty, and it
        fails on a closed one. Every caller shows neither can happen. */
    method Send(c: ChannelId, event: Event)
      requires c in channels && !channels[c].closed && |channels[c].sent| == channels[c].taken
      modifies this`channels
      ensures channels == old(channels)[c := old(channels)[c].(sent := old(channels)[c].sent + [event])]
    {
      channels := channels[c := channels[c].(sent := channels[c].sent + [event])];
    }

    /** Closing a channel twice would fail. */
    method Close(c: ChannelId)
      requires c in channels && !channels[c].closed
      modifies this`channels
      ensures channels == old(channels)[c := old(channels)[c].(closed := true)]
    {
      channels := channels[c := channels[c].(closed := true)];
    }

    /** The transport takes an event off its channel. */
    method Receive(c: ChannelId)
      requires Valid()
      modifies this`channels
      ensures Valid() && Onward(old(channels), channels) && channels.Keys == old(channels).Keys
      ensures Told(old(channels), channels, {})
    {
      if c !in channels || channels[c].taken >= |channels[c].sent| { return; }
      assert Settled(sessions, channels[c], c);
      channels := channels[c := channels[c].(taken := channels[c].taken + 1)];
      forall s | s in sessions ensures Attended(channels, s, sessions[s]) {
        assert Attended(old(channels), s, sessions[s]);
        forall n | n in sessions[s].subscribers ensures Registered(channels, s, n, sessions[s].subscribers[n]) {
          assert Registered(old(channels), s, n, sessions[s].subscribers[n]);
        }
      }
    }

    /** Tells and closes every subscriber of a session. */
    method EndEach(s: SessionId, tracked: Tracked, events: seq<Event>)
      requires Attended(channels, s, tracked) && |events| <= 1
      modifies this`channels
      ensures channels == EndListeners(old(channels), s, tracked, events)
    {
      ghost var before := channels;
      var left := tracked.subscribers.Keys;
      while left != {}
        invariant left <= tracked.subscribers.Keys && channels.Keys == before.Keys
        invariant forall c :: c in before ==> channels[c] == EndUnless(left, before[c], c, s, tracked, events)
        decreases left
      {
        var n :| n in left;
        left := left - {n};
        var c := tracked.subscribers[n];
        assert Registered(before, s, n, c);
        if |events| == 1 { Send(c, events[0]); }
        Close(c);
      }
    }

    /** `terminateLocked`: the session goes, and each subscriber gets its one event and its close. */
    method Terminate(s: SessionId, reason: Reason)
      requires Valid()
      modifies this`sessions, this`channels
      ensures Valid() && sessions == old(sessions) - {s}
      ensures s in old(sessions) ==>
        channels == EndListeners(old(channels), s, old(sessions)[s], [Event(s, reason)])
      ensures s !in old(sessions) ==> channels == old(channels)
      ensures Onward(old(channels), channels) && Told(old(channels), channels, {reason})
    {
      if s !in sessions {
        assert sessions - {s} == sessions;
        return;
      }
      var tracked := sessions[s];
      EndingKeepsWired(sessions, channels, s, [Event(s, reason)]);
      EndingTells(sessions, channels, s, reason);
      EndingKeepsNumbered(channels, s, tracked, [Event(s, reason)], nextChannel, subscriberCount);
      assert Attended(channels, s, tracked);
      sessions := sessions - {s};
      EndEach(s, tracked, [Event(s, reason)]);
    }

    /** Every listener of every session is told the reason and closed; nobody else hears anything. */
    method TerminateAll(reason: Reason)
      requires Valid()
      modifies this`sessions, this`channels
      ensures Valid() && sessions == map[] && Onward(old(channels), channels)
      ensures Told(old(channels), channels, {reason}) && channels.Keys == old(channels).Keys
      ensures forall c :: c in old(channels) ==>
        var ch := old(channels)[c];
        channels[c] == if ch.session in old(sessions) && Listens(old(sessions)[ch.session], ch, c)
                       then Ended(ch, [Event(ch.session, reason)]) else ch
    {
      while sessions != map[]
        invariant Valid() && Onward(old(channels), channels) && Told(old(channels), channels, {reason})
        invariant channels.Keys == old(channels).Keys && sessions.Keys <= old(sessions).Keys
        invariant forall s :: s in sessions ==> sessions[s] == old(sessions)[s]
        invariant forall c :: c in old(channels) ==>
          var ch := old(channels)[c];
          channels[c] == if ch.session in old(sessions) && ch.session !in sessions &&
                            Listens(old(sessions)[ch.session], ch, c)
                         then Ended(ch, [Event(ch.session, reason)]) else ch
        decreases sessions.Keys
      {
        var s :| s in sessions;
        ghost var before := channels;
        Terminate(s, reason);
        OnwardTransitive(old(channels), before, channels);
        ToldThen(old(channels), before, channels, {reason}, {reason}, {reason});
      }
    }

    /** A session whose deadline has passed, or a hub that is shutting down, gives a channel that
        is closed already; any other subscription is registered and keeps the session tracked. */
    method Subscribe(session: Session, now: Time) returns (c: ChannelId)
      requires Valid()
      modifies this
      ensures Valid() && Onward(old(channels), channels) && Told(old(channels), channels, {})
      ensures c !in old(channels) && c in channels && channels[c].session == session.id
      ensures var idle := Min(session.expires, session.created + lifetime);
        if closing || idle <= now then
          sessions == old(sessions) && channels[c].closed &&
          channels[c].sent == (if closing then []
            else [Event(session.id, if session.created + lifetime <= now then AbsoluteExpired else IdleExpired)])
        else
          subscriberCount == old(subscriberCount) + 1 &&
          channels == old(channels)[c := Channel(session.id, subscriberCount, [], 0, false, false)] &&
          sessions == old(sessions)[session.id := Joined(old(sessions), session, lifetime, now, subscriberCount, c)]
      ensures closing == old(closing)
      ensures old(Ordered(sessions)) ==>
        (Ordered(sessions) <==>
          closing || Min(session.expires, session.created + lifetime) <= now || session.id !in old(sessions) ||
          Min(session.expires, session.created + lifetime) <= old(sessions)[session.id].absolute)
    {
      c := nextChannel;
      nextChannel := nextChannel + 1;
      if closing {
        AddingKeepsWired(sessions, channels, c, Channel(session.id, 0, [], 0, true, false));
        channels := channels[c := Channel(session.id, 0, [], 0, true, false)];
        return;
      }
      var absolute := session.created + lifetime;
      var idle := Min(session.expires, absolute);
      var persisted := if session.lastSeen == 0 then now else session.lastSeen;
      if idle <= now {
        var reason := if absolute <= now then AbsoluteExpired else IdleExpired;
        AddingKeepsWired(sessions, channels, c, Channel(session.id, 0, [Event(session.id, reason)], 0, true, false));
        channels := channels[c := Channel(session.id, 0, [Event(session.id, reason)], 0, true, false)];
        return;
      }
      var tracked := if session.id in sessions then Merge(sessions[session.id], idle, persisted)
                     else Tracked(idle, absolute, persisted, map[]);
      subscriberCount := subscriberCount + 1;
      if session.id in sessions { NewSubscriber(sessions, channels, nextChannel, subscriberCount - 1, session.id); }
      RegisteringKeepsWired(sessions, channels, session.id, tracked, subscriberCount, c);
      tracked := tracked.(subscribers := tracked.subscribers[subscriberCount := c]);
      if Ordered(sessions) { ReplacingOrders(sessions, session.id, tracked); }
      sessions := sessions[session.id := tracked];
      channels := channels[c := Channel(session.id, subscriberCount, [], 0, false, false)];
    }

    method Unsubscribe(s: SessionId, n: SubscriberId)
      requires Valid()
      modifies this`sessions, this`channels
      ensures Valid() && Onward(old(channels), channels) && Fewer(old(sessions), sessions)
      ensures old(Ordered(sessions)) ==> Ordered(sessions)
      ensures if s in old(sessions) && n in old(sessions)[s].subscribers then
          sessions == Unlisten(old(sessions), s, n) &&
          var c := old(sessions)[s].subscribers[n];
          c in old(channels) && channels == old(channels)[c := old(channels)[c].(left := true)]
        else sessions == old(sessions) && channels == old(channels)
    {
      if s !in sessions || n !in sessions[s].subscribers {
        if s in sessions { assert Attended(channels, s, sessions[s]); }
        return;
      }
      UnlisteningKeepsWired(sessions, channels, s, n);
      var tracked := sessions[s];
      var c := tracked.subscribers[n];
      tracked := tracked.(subscribers := tracked.subscribers - {n});
      channels := channels[c := channels[c].(left := true)];
      if tracked.subscribers == map[] {
        sessions := sessions - {s};
      } else {
        sessions := sessions[s := tracked];
      }
      assert sessions == Unlisten(old(sessions), s, n);
    }

    /** Websocket activity: extends the idle lease, or ends a session whose time is up. */
    method Touch(s: SessionId, now: Time) returns (touch: Touched)
      requires Valid()
      modifies this`sessions, this`channels
      ensures Valid() && Onward(old(channels), channels) && Fewer(old(sessions), sessions)
      ensures old(Ordered(sessions)) ==> Ordered(sessions)
      ensures touch.active <==> s in old(sessions) && now < old(sessions)[s].idle && now < old(sessions)[s].absolute
      ensures touch.active ==>
        var t := old(sessions)[s];
        sessions == old(sessions)[s := t.(idle := Min(now + idleTimeout, t.absolute))] && channels == old(channels) &&
        touch == Touched(true, now, Min(now + idleTimeout, t.absolute), t.persisted,
                         now - t.persisted >= TouchInterval(idleTimeout))
      ensures !touch.active ==> sessions == old(sessions) - {s}
      ensures !touch.active ==> channels == if s in old(sessions)
        then EndListeners(old(channels), s, old(sessions)[s], [Event(s, ReasonAt(old(sessions)[s].absolute, now))])
        else old(channels)
      ensures Told(old(channels), channels, {IdleExpired, AbsoluteExpired})
    {
      touch := Touched(false, 0, 0, 0, false);
      if s !in sessions || closing {
        assert sessions - {s} == sessions;
        return;
      }
      var tracked := sessions[s];
      if Expired(tracked, now) {
        Terminate(s, ReasonAt(tracked.absolute, now));
        return;
      }
      RetimingKeepsWired(sessions, channels, s, tracked.(idle := Min(now + idleTimeout, tracked.absolute)));
      tracked := tracked.(idle := Min(now + idleTimeout, tracked.absolute));
      sessions := sessions[s := tracked];
      var due := now - tracked.persisted >= TouchInterval(idleTimeout);
      touch := Touched(true, now, tracked.idle, tracked.persisted, due);
    }

    method TouchLease(s: SessionId, expires: Time)
      requires Valid()
      modifies this`sessions
      ensures Valid() && Fewer(old(sessions), sessions) && sessions.Keys == old(sessions).Keys
      ensures old(Ordered(sessions)) ==> Ordered(sessions)
      ensures s in old(sessions) ==> sessions == old(sessions)[s := Leased(old(sessions)[s], expires)]
      ensures s !in old(sessions) ==> sessions == old(sessions)
    {
      if s !in sessions || closing { return; }
      RetimingKeepsWired(sessions, channels, s, Leased(sessions[s], expires));
      sessions := sessions[s := Leased(sessions[s], expires)];
    }

    method TouchPersisted(s: SessionId, lastSeen: Time, expires: Time)
      requires Valid()
      modifies this`sessions
      ensures Valid() && Fewer(old(sessions), sessions) && sessions.Keys == old(sessions).Keys
      ensures old(Ordered(sessions)) ==> Ordered(sessions)
      ensures s in old(sessions) ==>
        var t := Leased(old(sessions)[s], expires);
        sessions == old(sessions)[s := if lastSeen > t.persisted then t.(persisted := lastSeen) else t]
      ensures s !in old(sessions) ==> sessions == old(sessions)
    {
      if s !in sessions || closing { return; }
      var tracked := Leased(sessions[s], expires);
      if lastSeen > tracked.persisted { tracked := tracked.(persisted := lastSeen); }
      RetimingKeepsWired(sessions, channels, s, tracked);
      sessions := sessions[s := tracked];
    }

    /** The timer of a session: ends it if its time is up, and says whether it did. */
    method Expire(s: SessionId, now: Time) returns (ended: bool)
      requires Valid()
      modifies this`sessions, this`channels
      ensures Valid() && Onward(old(channels), channels) && Fewer(old(sessions), sessions)
      ensures old(Ordered(sessions)) ==> Ordered(sessions)
      ensures ended <==> s in old(sessions) && (old(sessions)[s].idle <= now || old(sessions)[s].absolute <= now)
      ensures channels == if ended
        then EndListeners(old(channels), s, old(sessions)[s], [Event(s, ReasonAt(old(sessions)[s].absolute, now))])
        else old(channels)
      ensures Told(old(channels), channels, {IdleExpired, AbsoluteExpired})
      ensures sessions == if ended then old(sessions) - {s} else old(sessions)
    {
      ended := s in sessions && Expired(sessions[s], now);
      if ended { Terminate(s, ReasonAt(sessions[s].absolute, now)); }
    }

    /** Closes every registered channel without an event, and turns later subscribers away. */
    method Shutdown()
      requires Valid()
      modifies this
      ensures Valid() && closing && sessions == map[] && Onward(old(channels), channels)
      ensures forall c :: c in old(channels) ==> channels[c].sent == old(channels)[c].sent &&
                                                 (channels[c].closed || channels[c].left)
    {
      while sessions != map[]
        invariant Wired(sessions, channels) && Numbered(channels, nextChannel, subscriberCount)
        invariant Onward(old(channels), channels)
        invariant forall c :: c in old(channels) ==> channels[c].sent == old(channels)[c].sent
        decreases sessions.Keys
      {
        var s :| s in sessions;
        var tracked := sessions[s];
        ghost var before := channels;
        EndingKeepsWired(sessions, channels, s, []);
        EndingKeepsNumbered(channels, s, tracked, [], nextChannel, subscriberCount);
        assert Attended(channels, s, tracked);
        sessions := sessions - {s};
        EndEach(s, tracked, []);
        OnwardTransitive(old(channels), before, channels);
      }
      forall c | c in old(channels) ensures channels[c].closed || channels[c].left {
        NobodyWaits(sessions, channels, channels[c].session, c);
      }
      closing := true;
    }
  }
}
