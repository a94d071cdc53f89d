/** What holds over every sequence of session transactions, whatever the clocks say. */
module SessionRuns {
  import opened Wrappers
  import opened External
  import opened Tokens
  import opened Sessions

  function After(users: set<nat>, events: seq<Event>): Table {
    if events == [] then map[]
    else Step(users, After(users, events[..|events| - 1]), events[|events| - 1]).0
  }

  /** What the caller of event `i` learns. */
  function OutcomeAt(users: set<nat>, events: seq<Event>, i: nat): Outcome
    requires i < |events|
  {
    Step(users, After(users, events[..i]), events[i]).1
  }

  // ---------------------------------------------------------------- any clocks

  ghost predicate TableSound(t: Table) {
    forall h :: h in t ==> SatisfiesChecks(t[h])
  }

  /** No clock can make a row violate its check constraints; only a log-out before the session's creation is refused. */
  lemma StepKeepsSound(users: set<nat>, t: Table, e: Event)
    requires TableSound(t)
    ensures TableSound(Step(users, t, e).0)
    ensures Step(users, t, e).1 == ConstraintViolated <==>
      && e.Logout? && e.hash in t && Touchable(t[e.hash], e.now) && e.now < t[e.hash].createdAt
      && e.supplied.Some? && CsrfTokensMatch(t[e.hash].csrf, e.supplied.value)
  {
  }

  lemma {:induction false} TablesAreSound(users: set<nat>, events: seq<Event>)
    ensures TableSound(After(users, events))
  {
    if events != [] {
      TablesAreSound(users, events[..|events| - 1]);
      StepKeepsSound(users, After(users, events[..|events| - 1]), events[|events| - 1]);
    }
  }

  /** A session never moves back: neither its last use, nor its expiry, nor a revocation. */
  lemma StepNeverRegresses(users: set<nat>, t: Table, e: Event, h: Bytes)
    requires h in t && h in Step(users, t, e).0
    ensures var x, y := t[h], Step(users, t, e).0[h];
      && y.lastSeenAt >= x.lastSeenAt
      && y == x.(lastSeenAt := y.lastSeenAt, revokedAt := y.revokedAt)
      && (x.revokedAt.Some? ==> y == x)
  {
  }

  /** Event `i` recorded a use of `h` at `time`: it issued the session or was accepted. */
  ghost predicate UsedAt(users: set<nat>, events: seq<Event>, i: nat, h: Bytes, time: int)
    requires i < |events|
  {
    match events[i]
    case Issue(hash, _, _, _, now) => hash == h && now == time && OutcomeAt(users, events, i) == Issued
    case Authenticate(hash, now) => hash == h && now == time && OutcomeAt(users, events, i).Accepted?
    case _ => false
  }

  ghost predicate Used(users: set<nat>, events: seq<Event>, h: Bytes, time: int) {
    exists i :: 0 <= i < |events| && UsedAt(users, events, i, h, time)
  }

  ghost predicate IssuedAt(users: set<nat>, events: seq<Event>, h: Bytes, time: int) {
    exists i :: 0 <= i < |events| && events[i].Issue? && UsedAt(users, events, i, h, time)
  }

  lemma UsedStays(users: set<nat>, events: seq<Event>, e: Event, h: Bytes, time: int)
    ensures Used(users, events, h, time) ==> Used(users, events + [e], h, time)
    ensures IssuedAt(users, events, h, time) ==> IssuedAt(users, events + [e], h, time)
  {
    forall i | 0 <= i < |events| && UsedAt(users, events, i, h, time)
      ensures UsedAt(users, events + [e], i, h, time) && (events + [e])[i] == events[i]
    {
      assert (events + [e])[..i] == events[..i];
    }
  }

  /** A new row or a new time of use is the event's own. */
  lemma StepRecords(users: set<nat>, t: Table, e: Event, h: Bytes)
    requires h in Step(users, t, e).0
    ensures h !in t ==>
      && e.Issue? && e.hash == h && Step(users, t, e).1 == Issued
      && Step(users, t, e).0[h].lastSeenAt == Step(users, t, e).0[h].createdAt == e.now
    ensures h in t && Step(users, t, e).0[h].lastSeenAt != t[h].lastSeenAt ==>
      && e.Authenticate? && e.hash == h && Step(users, t, e).1.Accepted?
      && Step(users, t, e).0[h].lastSeenAt == e.now
  {
  }

  /** Every stored time of use is one that some event recorded. */
  lemma {:induction false} StoredTimesWereRecorded(users: set<nat>, events: seq<Event>, h: Bytes)
    requires h in After(users, events)
    ensures Used(users, events, h, After(users, events)[h].lastSeenAt)
    ensures IssuedAt(users, events, h, After(users, events)[h].createdAt)
  {
    var n := |events| - 1;
    var before, e := events[..n], events[n];
    var s, t := After(users, before), After(users, events);
    StepRecords(users, s, e, h);
    if h !in s {
      assert UsedAt(users, events, n, h, t[h].lastSeenAt);
      return;
    }
    StoredTimesWereRecorded(users, before, h);
    StepNeverRegresses(users, s, e, h);
    assert before + [e] == events;
    UsedStays(users, before, e, h, s[h].lastSeenAt);
    UsedStays(users, before, e, h, s[h].createdAt);
    if t[h].lastSeenAt != s[h].lastSeenAt {
      assert UsedAt(users, events, n, h, t[h].lastSeenAt);
    }
  }

  /**
   Whatever the clocks do, an acceptance at `t` means that the session was issued less than
   12 hours before `t` and used, or issued, less than 2 hours before `t`.
   */
  lemma AcceptanceHasEvidence(users: set<nat>, events: seq<Event>, i: nat)
    requires i < |events| && events[i].Authenticate? && OutcomeAt(users, events, i).Accepted?
    ensures exists time :: Used(users, events[..i], events[i].hash, time) && events[i].now < time + IDLE_TIMEOUT
    ensures exists time :: IssuedAt(users, events[..i], events[i].hash, time) && events[i].now < time + ABSOLUTE_TIMEOUT
  {
    var h := events[i].hash;
    StoredTimesWereRecorded(users, events[..i], h);
    TablesAreSound(users, events[..i]);
    assert SatisfiesChecks(After(users, events[..i])[h]);
  }

  // ---------------------------------------------------------------- a session in use stays usable

  /** An accepted use at `t` moves the last use to `t`, or leaves a later one. */
  lemma TouchMovesForward(users: set<nat>, t: Table, h: Bytes, now: int)
    requires Step(users, t, Authenticate(h, now)).1.Accepted?
    ensures var touched := Step(users, t, Authenticate(h, now)).1.session;
      && h in t && Step(users, t, Authenticate(h, now)).0 == t[h := touched]
      && touched == t[h].(lastSeenAt := if t[h].lastSeenAt <= now then now else t[h].lastSeenAt)
  {
  }

  /** The row was issued to `userId` at `issued`, was used at `used` or later, and is not revoked. */
  predicate InUse(t: Table, h: Bytes, userId: nat, issued: int, used: int) {
    && h in t && t[h].userId == userId && t[h].createdAt == issued && t[h].revokedAt.None?
    && t[h].expiresAt == issued + 43_200_000_000 && t[h].lastSeenAt >= used
  }

  /** The event neither logs the session out nor cleans it up. */
  predicate Spares(users: set<nat>, t: Table, e: Event, h: Bytes) {
    && !(e.Logout? && e.hash == h && Step(users, t, e).1 == LoggedOut)
    && !(e.Cleanup? && h in e.doomed && h in t && HasEnded(t[h], e.now))
  }

  predicate SparedAt(users: set<nat>, events: seq<Event>, m: nat, h: Bytes)
    requires m < |events|
  {
    Spares(users, After(users, events[..m]), events[m], h)
  }

  lemma SparedStaysInUse(users: set<nat>, t: Table, e: Event, h: Bytes, userId: nat, issued: int, used: int)
    requires InUse(t, h, userId, issued, used) && Spares(users, t, e, h)
    ensures InUse(Step(users, t, e).0, h, userId, issued, used)
  {
  }

  lemma UsableIsAccepted(users: set<nat>, t: Table, h: Bytes, userId: nat, issued: int, used: int, now: int)
    requires InUse(t, h, userId, issued, used) && userId in users
    requires now < issued + 43_200_000_000 && now < used + 7_200_000_000
    ensures var outcome := Step(users, t, Authenticate(h, now)).1;
      outcome.Accepted? && outcome.session.userId == userId && outcome.session.lastSeenAt >= now
  {
  }

  lemma {:induction false} StaysInUse(users: set<nat>, events: seq<Event>, i: nat, k: nat, h: Bytes, userId: nat,
                                      issued: int, used: int)
    requires i <= k <= |events| && InUse(After(users, events[..i]), h, userId, issued, used)
    requires forall m :: i <= m < k ==> SparedAt(users, events, m, h)
    ensures InUse(After(users, events[..k]), h, userId, issued, used)
    decreases k - i
  {
    if i < k {
      StaysInUse(users, events, i, k - 1, h, userId, issued, used);
      assert events[..k][..k - 1] == events[..k - 1];
      assert SparedAt(users, events, k - 1, h);
      SparedStaysInUse(users, After(users, events[..k - 1]), events[k - 1], h, userId, issued, used);
    }
  }

  /** Event `z` issued the session `h` to `userId`. */
  predicate IssuedTo(users: set<nat>, events: seq<Event>, z: nat, h: Bytes, userId: nat)
    requires z < |events|
  {
    events[z].Issue? && events[z].hash == h && events[z].userId == userId && OutcomeAt(users, events, z) == Issued
  }

  /** Generated tokens never repeat. */
  predicate FreshTokens(events: seq<Event>) {
    forall i, j :: 0 <= i < j < |events| && events[i].Issue? && events[j].Issue? ==> events[i].hash != events[j].hash
  }

  /** As long as it is there, the row is the issued one. */
  lemma {:induction false} RowIsIssued(users: set<nat>, events: seq<Event>, z: nat, i: nat, h: Bytes, userId: nat)
    requires FreshTokens(events) && z < i <= |events| && IssuedTo(users, events, z, h, userId)
    ensures h in After(users, events[..i]) ==>
      var x := After(users, events[..i])[h];
      && x.userId == userId && x.csrf == events[z].csrf
      && x.createdAt == events[z].now && x.expiresAt == events[z].now + 43_200_000_000
  {
    assert events[..i][..i - 1] == events[..i - 1];
    if z < i - 1 {
      RowIsIssued(users, events, z, i - 1, h, userId);
      assert events[z].hash == h;
    }
  }

  /** Event `i` issued the session or was accepted for it: then the row is in use from its own time on. */
  lemma {:induction false} UseIsRecorded(users: set<nat>, events: seq<Event>, z: nat, i: nat, h: Bytes, userId: nat)
    requires FreshTokens(events) && z <= i < |events| && IssuedTo(users, events, z, h, userId)
    requires i == z || (events[i].Authenticate? && events[i].hash == h && OutcomeAt(users, events, i).Accepted?)
    ensures InUse(After(users, events[..i + 1]), h, userId, events[z].now, events[i].now)
  {
    assert events[..i + 1][..i] == events[..i];
    if z < i {
      RowIsIssued(users, events, z, i, h, userId);
      TouchMovesForward(users, After(users, events[..i]), h, events[i].now);
    }
  }

  /**
   The converse of `AcceptanceHasEvidence`: a session used at t is accepted at every later request
   less than 2 hours after t and less than 12 hours after its issue, unless somebody logged it out
   or a cleanup found it ended meanwhile.
   */
  lemma SessionInUseIsAccepted(users: set<nat>, events: seq<Event>, z: nat, i: nat, k: nat, h: Bytes, userId: nat)
    requires FreshTokens(events) && z <= i < k < |events|
    requires IssuedTo(users, events, z, h, userId) && userId in users
    requires i == z || (events[i].Authenticate? && events[i].hash == h && OutcomeAt(users, events, i).Accepted?)
    requires forall m :: i < m < k ==> SparedAt(users, events, m, h)
    requires events[k].Authenticate? && events[k].hash == h
    requires events[k].now < events[i].now + 7_200_000_000 && events[k].now < events[z].now + 43_200_000_000
    ensures OutcomeAt(users, events, k).Accepted? && OutcomeAt(users, events, k).session.userId == userId
  {
    UseIsRecorded(users, events, z, i, h, userId);
    StaysInUse(users, events, i + 1, k, h, userId, events[z].now, events[i].now);
    UsableIsAccepted(users, After(users, events[..k]), h, userId, events[z].now, events[i].now, events[k].now);
  }

  lemma RecentIsSpared(users: set<nat>, t: Table, e: Event, h: Bytes, userId: nat, issued: int, used: int)
    requires InUse(t, h, userId, issued, used) && !(e.Logout? && e.hash == h)
    requires e.Cleanup? ==> e.now < used + 7_200_000_000 && e.now < issued + 43_200_000_000
    ensures Spares(users, t, e, h)
  {
  }

  lemma {:induction false} NobodyEndsIt(users: set<nat>, events: seq<Event>, z: nat, i: nat, k: nat, h: Bytes,
                                        userId: nat)
    requires z <= i < k < |events|
    requires InUse(After(users, events[..i + 1]), h, userId, events[z].now, events[i].now)
    requires forall m :: i < m < k ==> !(events[m].Logout? && events[m].hash == h)
    requires forall m :: i < m < k && events[m].Cleanup? ==>
      events[m].now < events[i].now + 7_200_000_000 && events[m].now < events[z].now + 43_200_000_000
    ensures forall m :: i < m < k ==> SparedAt(users, events, m, h)
    decreases k
  {
    if i + 1 < k {
      NobodyEndsIt(users, events, z, i, k - 1, h, userId);
      StaysInUse(users, events, i + 1, k - 1, h, userId, events[z].now, events[i].now);
      RecentIsSpared(users, After(users, events[..k - 1]), events[k - 1], h, userId, events[z].now, events[i].now);
    }
  }

  /** The same with a condition on the requests alone: no log-out, and no cleanup with a clock so far ahead. */
  lemma RecentlyUsedIsAccepted(users: set<nat>, events: seq<Event>, z: nat, i: nat, k: nat, h: Bytes, userId: nat)
    requires FreshTokens(events) && z <= i < k < |events|
    requires IssuedTo(users, events, z, h, userId) && userId in users
    requires i == z || (events[i].Authenticate? && events[i].hash == h && OutcomeAt(users, events, i).Accepted?)
    requires forall m :: i < m < k ==> !(events[m].Logout? && events[m].hash == h)
    requires forall m :: i < m < k && events[m].Cleanup? ==>
      events[m].now < events[i].now + 7_200_000_000 && events[m].now < events[z].now + 43_200_000_000
    requires events[k].Authenticate? && events[k].hash == h
    requires events[k].now < events[i].now + 7_200_000_000 && events[k].now < events[z].now + 43_200_000_000
    ensures OutcomeAt(users, events, k).Accepted? && OutcomeAt(users, events, k).session.userId == userId
  {
    UseIsRecorded(users, events, z, i, h, userId);
    NobodyEndsIt(users, events, z, i, k, h, userId);
    SessionInUseIsAccepted(users, events, z, i, k, h, userId);
  }

  /** A log-out of a live session succeeds exactly with the session's own CSRF token. */
  lemma LogoutIff(users: set<nat>, t: Table, h: Bytes, supplied: Option<Bytes>, now: int)
    requires TableSound(t) && h in t && |t[h].csrf| == 32 && !HasEnded(t[h], now) && now >= t[h].createdAt
    ensures Step(users, t, Logout(h, supplied, now)).1 == LoggedOut <==> supplied == Some(t[h].csrf)
    ensures Step(users, t, Logout(h, supplied, now))
         == if supplied == Some(t[h].csrf) then (t[h := t[h].(revokedAt := Some(now))], LoggedOut) else (t, InvalidCsrf)
  {
  }

  // ---------------------------------------------------------------- inactivity is absorbing

  /** No request at `horizon` or later can use the session; without a horizon, no request at all. */
  predicate Dead(t: Table, h: Bytes, horizon: Option<int>) {
    h in t ==> t[h].revokedAt.Some? || (horizon.Some? && Deletable(t[h], horizon.value))
  }

  /** The event does not issue `h` again, and uses it only at the horizon or later. */
  predicate Later(e: Event, h: Bytes, horizon: Option<int>) {
    match e
    case Issue(hash, _, _, _, _) => hash != h
    case Authenticate(hash, now) => hash == h && horizon.Some? ==> now >= horizon.value
    case Logout(hash, _, now) => hash == h && horizon.Some? ==> now >= horizon.value
    case Cleanup(_, _) => true
  }

  predicate Refused(e: Event, outcome: Outcome) {
    (e.Authenticate? ==> outcome == Rejected) && (e.Logout? ==> outcome == AlreadyInactive)
  }

  lemma StepStaysDead(users: set<nat>, t: Table, e: Event, h: Bytes, horizon: Option<int>)
    requires Dead(t, h, horizon) && Later(e, h, horizon)
    ensures Dead(Step(users, t, e).0, h, horizon)
    ensures (e.Authenticate? || e.Logout?) && e.hash == h ==> Refused(e, Step(users, t, e).1)
  {
  }

  /**
   Once a session is revoked it is never accepted again, whatever the clocks say; once it has
   expired or idled out at `horizon`, no request at `horizon` or later is ever accepted.
   */
  lemma {:induction false} InactivityIsAbsorbing(users: set<nat>, events: seq<Event>, more: seq<Event>, h: Bytes,
                                                 horizon: Option<int>)
    requires Dead(After(users, events), h, horizon)
    requires forall i :: 0 <= i < |more| ==> Later(more[i], h, horizon)
    ensures Dead(After(users, events + more), h, horizon)
    ensures forall i :: 0 <= i < |more| && (more[i].Authenticate? || more[i].Logout?) && more[i].hash == h ==>
      Refused(more[i], OutcomeAt(users, events + more, |events| + i))
  {
    if more == [] {
      assert events + more == events;
      return;
    }
    var n := |more| - 1;
    InactivityIsAbsorbing(users, events, more[..n], h, horizon);
    assert (events + more)[..|events| + n] == events + more[..n];
    StepStaysDead(users, After(users, events + more[..n]), more[n], h, horizon);
    forall i | 0 <= i < n && (more[i].Authenticate? || more[i].Logout?) && more[i].hash == h
      ensures Refused(more[i], OutcomeAt(users, events + more, |events| + i))
    {
      assert (events + more)[..|events| + i] == (events + more[..n])[..|events| + i];
      assert Refused(more[..n][i], OutcomeAt(users, events + more[..n], |events| + i));
    }
  }

  // ---------------------------------------------------------------- cleanup is unobservable

  /** The run with every cleanup left out. */
  function WithoutCleanup(events: seq<Event>): seq<Event> {
    if events == [] then []
    else
      var rest := WithoutCleanup(events[..|events| - 1]);
      if events[|events| - 1].Cleanup? then rest else rest + [events[|events| - 1]]
  }

  /** What the callers of all transactions but cleanups learn, in order. */
  function Observed(users: set<nat>, events: seq<Event>): seq<Outcome> {
    if events == [] then []
    else
      var before, e := events[..|events| - 1], events[|events| - 1];
      if e.Cleanup? then Observed(users, before)
      else Observed(users, before) + [Step(users, After(users, before), e).1]
  }

  /** No request follows a cleanup whose clock was ahead of the request's. */
  predicate CleanupsBehind(events: seq<Event>) {
    forall i, j :: 0 <= i < j < |events| && events[i].Cleanup? && (events[j].Authenticate? || events[j].Logout?) ==>
      events[i].now <= events[j].now
  }

  /** The row that event `i` cleaned up under `h`, if it did. */
  function RemovedRow(users: set<nat>, events: seq<Event>, i: nat, h: Bytes): Option<Session>
    requires i < |events|
  {
    var t := After(users, events[..i]);
    if events[i].Cleanup? && h in events[i].doomed && h in t && Deletable(t[h], events[i].now) then Some(t[h])
    else None
  }

  /** A request for which the session counts as live. */
  predicate Noticed(users: set<nat>, x: Session, e: Event) {
    match e
    case Authenticate(_, now) => Touchable(x, now) && x.userId in users
    case Logout(_, _, now) => Touchable(x, now)
    case _ => false
  }

  /** No request asks for a removed session at a time at which the removed row was still live. */
  predicate NobodyNotices(users: set<nat>, events: seq<Event>) {
    forall i, j :: 0 <= i < j < |events| && !events[j].Cleanup? ==>
      var removed := RemovedRow(users, events, i, events[j].hash);
      removed.Some? ==> !Noticed(users, removed.value, events[j])
  }

  /** A request notices the absence of rows exactly if it names one of them while that is live. */
  lemma RemovalIsNoticedIff(users: set<nat>, t: Table, gone: set<Bytes>, e: Event)
    requires e.Authenticate? || e.Logout?
    ensures Step(users, t - gone, e).1 != Step(users, t, e).1
       <==> e.hash in gone && e.hash in t && Noticed(users, t[e.hash], e)
  {
  }

  ghost predicate WasRemoved(users: set<nat>, events: seq<Event>, h: Bytes, x: Session) {
    exists i :: 0 <= i < |events| && RemovedRow(users, events, i, h) == Some(x)
  }

  ghost predicate Requested(events: seq<Event>, h: Bytes) {
    exists i :: 0 <= i < |events| && events[i].Issue? && events[i].hash == h
  }

  /** Under `h`, `b` has what `a` has or else the row that was cleaned up, as it was then. */
  ghost predicate InStep(users: set<nat>, events: seq<Event>, a: Table, b: Table, h: Bytes) {
    && (h in a ==> h in b && b[h] == a[h])
    && (h in b && h !in a ==> WasRemoved(users, events, h, b[h]))
    && (forall x :: WasRemoved(users, events, h, x) ==> h !in a && h in b && b[h] == x)
    && (h in b ==> Requested(events, h))
  }

  /** `b` is `a` and, besides, exactly the rows that were cleaned up. */
  ghost predicate Simulates(users: set<nat>, events: seq<Event>, a: Table, b: Table) {
    forall h :: InStep(users, events, a, b, h)
  }

  lemma RequestedGrows(events: seq<Event>, e: Event)
    ensures forall h :: Requested(events, h) ==> Requested(events + [e], h)
    ensures e.Issue? ==> Requested(events + [e], e.hash)
  {
    var all := events + [e];
    assert all[|events|] == e && forall i :: 0 <= i < |events| ==> all[i] == events[i];
  }

  lemma RemovedRowStays(users: set<nat>, events: seq<Event>, e: Event, i: nat, h: Bytes)
    requires i < |events|
    ensures RemovedRow(users, events + [e], i, h) == RemovedRow(users, events, i, h)
  {
    assert (events + [e])[..i] == events[..i];
  }

  lemma RemovedGrows(users: set<nat>, events: seq<Event>, e: Event, h: Bytes, x: Session)
    ensures WasRemoved(users, events + [e], h, x) <==>
      || WasRemoved(users, events, h, x)
      || (e.Cleanup? && h in e.doomed && h in After(users, events) && After(users, events)[h] == x
          && Deletable(x, e.now))
  {
    var n := |events|;
    assert (events + [e])[..n] == events && (events + [e])[n] == e;
    forall i | 0 <= i < n ensures RemovedRow(users, events + [e], i, h) == RemovedRow(users, events, i, h) {
      RemovedRowStays(users, events, e, i, h);
    }
    assert RemovedRow(users, events + [e], n, h) == Some(x) <==>
      e.Cleanup? && h in e.doomed && h in After(users, events) && After(users, events)[h] == x && Deletable(x, e.now);
  }

  /** The last event is not a request that notices a removal. */
  ghost predicate LastIsUnnoticed(users: set<nat>, events: seq<Event>, e: Event) {
    !e.Cleanup? ==> forall x :: WasRemoved(users, events, e.hash, x) ==> !Noticed(users, x, e)
  }

  lemma NoticesGrow(users: set<nat>, events: seq<Event>, e: Event)
    ensures NobodyNotices(users, events + [e]) <==> NobodyNotices(users, events) && LastIsUnnoticed(users, events, e)
  {
    var all, n := events + [e], |events|;
    assert all[n] == e && forall i :: 0 <= i < n ==> all[i] == events[i];
    forall i, h | 0 <= i < n ensures RemovedRow(users, all, i, h) == RemovedRow(users, events, i, h) {
      RemovedRowStays(users, events, e, i, h);
    }
    if NobodyNotices(users, all) {
      assert NobodyNotices(users, events) by {
        forall i, j | 0 <= i < j < n && !events[j].Cleanup?
          ensures var removed := RemovedRow(users, events, i, events[j].hash);
            removed.Some? ==> !Noticed(users, removed.value, events[j])
        {
          assert all[j] == events[j];
        }
      }
      if !e.Cleanup? {
        forall x | WasRemoved(users, events, e.hash, x) ensures !Noticed(users, x, e) {
          var i :| 0 <= i < n && RemovedRow(users, events, i, e.hash) == Some(x);
          assert !all[n].Cleanup?;
        }
      }
    }
  }

  /** The runs with and without cleanup differ exactly in what a request notices. */
  lemma OutcomesAgree(users: set<nat>, events: seq<Event>, e: Event, a: Table, b: Table)
    requires Simulates(users, events, a, b) && FreshTokens(events + [e]) && !e.Cleanup?
    ensures Step(users, a, e).1 == Step(users, b, e).1 <==> LastIsUnnoticed(users, events, e)
    ensures e.Issue? ==> e.hash !in b
  {
    assert InStep(users, events, a, b, e.hash);
    if e.Issue? {
      var all, n := events + [e], |events|;
      forall i | 0 <= i < n && events[i].Issue? ensures events[i].hash != e.hash {
        assert all[i].hash != all[n].hash;
      }
      return;
    }
    if e.hash in b && e.hash !in a {
      assert WasRemoved(users, events, e.hash, b[e.hash]);
    }
  }

  lemma CleanupStep(users: set<nat>, events: seq<Event>, e: Event, b: Table)
    requires Simulates(users, events, After(users, events), b) && e.Cleanup?
    ensures Simulates(users, events + [e], Step(users, After(users, events), e).0, b)
  {
    var a := After(users, events);
    RequestedGrows(events, e);
    forall h ensures InStep(users, events + [e], Step(users, a, e).0, b, h) {
      assert InStep(users, events, a, b, h);
      forall x
        ensures WasRemoved(users, events + [e], h, x) <==>
          || WasRemoved(users, events, h, x)
          || (h in e.doomed && h in a && a[h] == x && Deletable(x, e.now))
      {
        RemovedGrows(users, events, e, h, x);
      }
    }
  }

  /** A request changes at most the row it names. */
  lemma StepIsLocal(users: set<nat>, t: Table, e: Event, h: Bytes)
    requires !e.Cleanup? && h != e.hash
    ensures h in Step(users, t, e).0 <==> h in t
    ensures h in t ==> Step(users, t, e).0[h] == t[h]
  {
  }

  /** Under its own name, a request that notices nothing keeps the two runs in step. */
  lemma OwnRowStays(users: set<nat>, events: seq<Event>, e: Event, a: Table, b: Table)
    requires !e.Cleanup? && InStep(users, events, a, b, e.hash) && Step(users, a, e).1 == Step(users, b, e).1
    requires LastIsUnnoticed(users, events, e) && (e.Issue? ==> e.hash !in b)
    ensures var a', b' := Step(users, a, e).0, Step(users, b, e).0;
      && (e.hash in a' ==> e.hash in b' && b'[e.hash] == a'[e.hash])
      && (e.hash in b' && e.hash !in a' ==> e.hash in b && e.hash !in a && b'[e.hash] == b[e.hash])
      && (e.hash in b && e.hash !in a ==> e.hash !in a' && e.hash in b' && b'[e.hash] == b[e.hash])
      && (e.hash in b' ==> e.hash in b || e.Issue?)
  {
  }

  lemma RequestStep(users: set<nat>, events: seq<Event>, e: Event, b: Table)
    requires Simulates(users, events, After(users, events), b) && FreshTokens(events + [e])
    requires !e.Cleanup? && LastIsUnnoticed(users, events, e)
    ensures Simulates(users, events + [e], Step(users, After(users, events), e).0, Step(users, b, e).0)
  {
    var a := After(users, events);
    OutcomesAgree(users, events, e, a, b);
    RequestedGrows(events, e);
    assert InStep(users, events, a, b, e.hash);
    OwnRowStays(users, events, e, a, b);
    forall h ensures InStep(users, events + [e], Step(users, a, e).0, Step(users, b, e).0, h) {
      assert InStep(users, events, a, b, h);
      forall x ensures WasRemoved(users, events + [e], h, x) <==> WasRemoved(users, events, h, x) {
        RemovedGrows(users, events, e, h, x);
      }
      if h != e.hash {
        StepIsLocal(users, a, e, h);
        StepIsLocal(users, b, e, h);
      }
    }
  }

  lemma LastOutcomesDecide(p: seq<Outcome>, q: seq<Outcome>, x: Outcome, y: Outcome)
    ensures p + [x] == q + [y] <==> p == q && x == y
  {
    if p + [x] == q + [y] {
      assert (p + [x])[..|p|] == p && (q + [y])[..|q|] == q;
      assert (p + [x])[|p|] == x && (q + [y])[|q|] == y;
    }
  }

  /**
   Cleanups are unobservable if and only if no request asks for a removed session at a time
   at which the removed row was still live; and then the two runs stay in step.
   */
  lemma {:induction false} CleanupIsUnobservableIff(users: set<nat>, events: seq<Event>)
    requires FreshTokens(events)
    ensures Observed(users, events) == Observed(users, WithoutCleanup(events)) <==> NobodyNotices(users, events)
    ensures NobodyNotices(users, events) ==>
      Simulates(users, events, After(users, events), After(users, WithoutCleanup(events)))
  {
    if events == [] {
      return;
    }
    var before, e := events[..|events| - 1], events[|events| - 1];
    assert events == before + [e];
    CleanupIsUnobservableIff(users, before);
    NoticesGrow(users, before, e);
    if e.Cleanup? {
      if NobodyNotices(users, before) {
        CleanupStep(users, before, e, After(users, WithoutCleanup(before)));
      }
      return;
    }
    var kept := WithoutCleanup(before);
    assert WithoutCleanup(events) == kept + [e] && (kept + [e])[..|kept|] == kept;
    assert Observed(users, kept + [e]) == Observed(users, kept) + [Step(users, After(users, kept), e).1];
    if NobodyNotices(users, before) {
      OutcomesAgree(users, before, e, After(users, before), After(users, kept));
      if LastIsUnnoticed(users, before, e) {
        RequestStep(users, before, e, After(users, kept));
      }
    }
    LastOutcomesDecide(Observed(users, before), Observed(users, kept),
                       Step(users, After(users, before), e).1, Step(users, After(users, kept), e).1);
  }

  lemma LaterIsStillDeletable(x: Session, early: int, late: int)
    requires Deletable(x, early) && early <= late
    ensures Deletable(x, late)
  {
  }

  /** Requests that no earlier cleanup's clock is ahead of notice nothing. */
  lemma CleanupSimulates(users: set<nat>, events: seq<Event>)
    requires CleanupsBehind(events) && FreshTokens(events)
    ensures Simulates(users, events, After(users, events), After(users, WithoutCleanup(events)))
    ensures Observed(users, events) == Observed(users, WithoutCleanup(events))
  {
    forall i, j | 0 <= i < j < |events| && !events[j].Cleanup?
      ensures var removed := RemovedRow(users, events, i, events[j].hash);
        removed.Some? ==> !Noticed(users, removed.value, events[j])
    {
      var removed := RemovedRow(users, events, i, events[j].hash);
      if removed.Some? && !events[j].Issue? {
        LaterIsStillDeletable(removed.value, events[i].now, events[j].now);
      }
    }
    CleanupIsUnobservableIff(users, events);
  }

  /** With clocks that never run backwards, nobody can tell whether, when or how much was cleaned up. */
  lemma CleanupIsUnobservable(users: set<nat>, events: seq<Event>)
    requires forall i, j :: 0 <= i < j < |events| ==> events[i].now <= events[j].now
    requires FreshTokens(events)
    ensures Observed(users, events) == Observed(users, WithoutCleanup(events))
  {
    CleanupSimulates(users, events);
  }

  /** Without ordered clocks the property can fail: a cleanup whose clock is ahead logs an active user out. */
  lemma ClockAheadIsNoticed(h: Bytes, csrf: Bytes)
    requires |csrf| == TOKEN_BYTES
    ensures var run := [Issue(h, 1, 7, csrf, 0), Cleanup(IDLE_TIMEOUT, {h}), Authenticate(h, IDLE_TIMEOUT - 1)];
      && Observed({7}, run) == [Issued, Rejected]
      && Observed({7}, WithoutCleanup(run)) != Observed({7}, run)
  {
    var issue, clean, use := Issue(h, 1, 7, csrf, 0), Cleanup(IDLE_TIMEOUT, {h}), Authenticate(h, IDLE_TIMEOUT - 1);
    var run := [issue, clean, use];
    assert run[..2] == [issue, clean] && run[..1] == [issue] && run[..2][..1] == [issue] && [issue][..0] == [];
    assert After({7}, []) == map[];
    var t := After({7}, [issue]);
    assert t == map[h := NewSession(1, 7, csrf, 0)];
    assert After({7}, [issue, clean]) == Step({7}, t, clean).0 == map[];
    assert Observed({7}, [issue]) == [Issued];
    assert Observed({7}, [issue, clean]) == [Issued];
    assert Observed({7}, run) == [Issued, Rejected];
    assert RemovedRow({7}, run, 1, h) == Some(t[h]);
    assert Noticed({7}, t[h], run[2]) && !run[2].Cleanup?;
    CleanupIsUnobservableIff({7}, run);
  }

  /** A clock that is behind an earlier cleanup's need not be noticed: order is sufficient, not necessary. */
  lemma ClockAheadMayGoUnnoticed(h: Bytes, csrf: Bytes)
    requires |csrf| == TOKEN_BYTES
    ensures var run := [Issue(h, 1, 7, csrf, 0), Cleanup(5, {}), Authenticate(h, 3)];
      !CleanupsBehind(run) && Observed({7}, run) == Observed({7}, WithoutCleanup(run))
  {
    var run := [Issue(h, 1, 7, csrf, 0), Cleanup(5, {}), Authenticate(h, 3)];
    assert run[1].Cleanup? && run[2].Authenticate? && run[1].now > run[2].now;
    forall i, j | 0 <= i < j < |run| && !run[j].Cleanup? ensures RemovedRow({7}, run, i, run[j].hash).None? {
    }
    CleanupIsUnobservableIff({7}, run);
  }
}
