/** The sessions table: what each statement of the repository does to it. */
module Sessions {
  import opened Wrappers
  import opened External
  import opened Tokens

  /** Instants are microseconds, the resolution of the database. */
  const HOUR: int := 3_600_000_000
  const IDLE_TIMEOUT: int := 2 * HOUR
  const ABSOLUTE_TIMEOUT: int := 12 * HOUR
  const CLEANUP_BATCH_SIZE: nat := 100

  datatype Session = Session(
    id: nat,
    userId: nat,
    csrf: Bytes,
    createdAt: int,
    lastSeenAt: int,
    expiresAt: int,
    revokedAt: Option<int>)

  /** Rows by their unique token hash. */
  type Table = map<Bytes, Session>

  datatype SessionState = REVOKED | ABSOLUTE_EXPIRED | IDLE_EXPIRED | ACTIVE

  datatype Outcome =
    | Issued
    | TokenTaken
    | Accepted(session: Session)
    | Rejected
    | LoggedOut
    | AlreadyInactive
    | InvalidCsrf
    | ConstraintViolated
    | Cleaned(count: nat)

  // ---------------------------------------------------------------- predicates

  /** The condition of the touching update. */
  predicate Touchable(x: Session, now: int) {
    x.revokedAt.None? && x.expiresAt > now && x.lastSeenAt > now - IDLE_TIMEOUT
  }

  /** The condition of the cleanup query. */
  predicate Deletable(x: Session, now: int) {
    x.revokedAt.Some? || x.expiresAt <= now || x.lastSeenAt <= now - IDLE_TIMEOUT
  }

  function Classify(x: Session, now: int): SessionState {
    if x.revokedAt.Some? then REVOKED
    else if x.expiresAt <= now then ABSOLUTE_EXPIRED
    else if x.lastSeenAt <= now - IDLE_TIMEOUT then IDLE_EXPIRED
    else ACTIVE
  }

  /** The three places that decide whether a session is live decide alike. */
  lemma PredicatesAgree(x: Session, now: int)
    ensures Touchable(x, now) <==> !Deletable(x, now)
    ensures Touchable(x, now) <==> Classify(x, now) == ACTIVE
  {
  }

  /** Revoked, past its expiry or unused for 2 hours; instants are microseconds. */
  predicate HasEnded(x: Session, now: int) {
    x.revokedAt.Some? || now >= x.expiresAt || now - x.lastSeenAt >= 7_200_000_000
  }

  /** The classification and the cleanup query tell ended sessions from live ones. */
  lemma UsableIff(x: Session, now: int)
    ensures Classify(x, now) == ACTIVE <==> !HasEnded(x, now)
    ensures Deletable(x, now) <==> HasEnded(x, now)
  {
  }

  /** The check constraints of the sessions table. */
  predicate SatisfiesChecks(x: Session) {
    && x.createdAt <= x.lastSeenAt <= x.expiresAt
    && x.expiresAt == x.createdAt + ABSOLUTE_TIMEOUT
    && (x.revokedAt.Some? ==> x.revokedAt.value >= x.createdAt)
  }

  function Max(a: int, b: int): int {
    if a < b then b else a
  }

  function NewSession(id: nat, userId: nat, csrf: Bytes, now: int): Session {
    Session(id, userId, csrf, now, now, now + ABSOLUTE_TIMEOUT, None)
  }

  function CsrfTokensMatch(expected: Bytes, supplied: Bytes): bool {
    |expected| == TOKEN_BYTES && |supplied| == TOKEN_BYTES && expected == supplied
  }

  // ---------------------------------------------------------------- transactions

  datatype Event =
    | Issue(hash: Bytes, id: nat, userId: nat, csrf: Bytes, now: int)
    | Authenticate(hash: Bytes, now: int)
    | Logout(hash: Bytes, supplied: Option<Bytes>, now: int)
    | Cleanup(now: int, doomed: set<Bytes>)

  /** One transaction: the table it leaves and what its caller learns. `users` are the existing users. */
  function Step(users: set<nat>, t: Table, e: Event): (Table, Outcome) {
    match e
    case Issue(hash, id, userId, csrf, now) =>
      if hash in t then (t, TokenTaken)
      else (t[hash := NewSession(id, userId, csrf, now)], Issued)
    case Authenticate(hash, now) =>
      if hash !in t || !Touchable(t[hash], now) || t[hash].userId !in users then (t, Rejected)
      else
        var touched := t[hash].(lastSeenAt := Max(t[hash].lastSeenAt, now));
        (t[hash := touched], Accepted(touched))
    case Logout(hash, supplied, now) =>
      if hash !in t || Classify(t[hash], now) != ACTIVE then (t, AlreadyInactive)
      else if supplied.None? || !CsrfTokensMatch(t[hash].csrf, supplied.value) then (t, InvalidCsrf)
      else
        var revoked := t[hash].(revokedAt := Some(now));
        if !SatisfiesChecks(revoked) then (t, ConstraintViolated) else (t[hash := revoked], LoggedOut)
    case Cleanup(now, doomed) =>
      var gone := set h | h in t && h in doomed && Deletable(t[h], now);
      (t - gone, Cleaned(|gone|))
  }

  // ---------------------------------------------------------------- bounded cleanup

  function Inactive(t: Table, now: int): set<Bytes> {
    set h | h in t && Deletable(t[h], now)
  }

  predicate Older(x: Session, y: Session) {
    x.expiresAt < y.expiresAt || (x.expiresAt == y.expiresAt && x.id < y.id)
  }

  /** An answer of the cleanup query: the oldest inactive rows that nobody else has locked, at most `limit`. */
  ghost predicate IsOldestBatch(t: Table, now: int, limit: nat, locked: set<Bytes>, batch: set<Bytes>) {
    var eligible := Inactive(t, now) - locked;
    && batch <= eligible
    && |batch| == Min(limit, |eligible|)
    && forall h, g :: h in batch && g in eligible - batch ==> !Older(t[g], t[h])
  }

  lemma EmptyBatchMeansNone(t: Table, now: int, limit: nat, locked: set<Bytes>, batch: set<Bytes>)
    requires IsOldestBatch(t, now, limit, locked, batch) && batch == {}
    ensures limit > 0 ==> Inactive(t, now) <= locked
  {
    assert limit > 0 ==> Inactive(t, now) - locked == {};
  }

  /** Fewer rows than asked for means that these were all. */
  lemma ShortBatchIsAll(t: Table, now: int, limit: nat, locked: set<Bytes>, batch: set<Bytes>)
    requires IsOldestBatch(t, now, limit, locked, batch) && |batch| < limit
    ensures batch == Inactive(t, now) - locked
  {
    var eligible := Inactive(t, now) - locked;
    assert eligible == batch + (eligible - batch);
    assert |eligible| == |batch| + |eligible - batch|;
  }

  lemma BatchShrinksInactive(t: Table, now: int, limit: nat, locked: set<Bytes>, batch: set<Bytes>)
    requires IsOldestBatch(t, now, limit, locked, batch)
    ensures Inactive(t - batch, now) == Inactive(t, now) - batch
    ensures |Inactive(t - batch, now)| == |Inactive(t, now)| - |batch|
  {
  }

  class SessionRepository {
    var sessions: Table

    constructor ()
      ensures sessions == map[]
    {
      sessions := map[];
    }

    method Add(hash: Bytes, row: Session) returns (taken: bool)
      modifies this
      ensures taken <==> hash in old(sessions)
      ensures sessions == if taken then old(sessions) else old(sessions)[hash := row]
    {
      taken := hash in sessions;
      if !taken {
        sessions := sessions[hash := row];
      }
    }

    /** One statement both checks and touches, so the touch never moves a session back. */
    method AuthenticateAndTouch(hash: Bytes, now: int) returns (r: Option<Session>)
      modifies this
      ensures r.Some? <==>
        && hash in old(sessions) && old(sessions)[hash].revokedAt.None?
        && now < old(sessions)[hash].expiresAt && now < old(sessions)[hash].lastSeenAt + 7_200_000_000
      ensures r.None? ==> sessions == old(sessions)
      ensures r.Some? ==>
        && r.value == old(sessions)[hash].(lastSeenAt := r.value.lastSeenAt)
        && r.value.lastSeenAt >= now && r.value.lastSeenAt >= old(sessions)[hash].lastSeenAt
        && r.value.lastSeenAt in {now, old(sessions)[hash].lastSeenAt}
        && sessions == old(sessions)[hash := r.value]
    {
      if hash in sessions && sessions[hash].revokedAt.None? && sessions[hash].expiresAt > now
         && sessions[hash].lastSeenAt > now - IDLE_TIMEOUT
      {
        var row := sessions[hash].(lastSeenAt := Max(sessions[hash].lastSeenAt, now));
        sessions := sessions[hash := row];
        return Some(row);
      }
      return None;
    }

    /** Deletes the rows the query selected; `batch` is its answer. */
    method DeleteInactiveBatch(now: int, limit: nat, locked: set<Bytes>, batch: set<Bytes>) returns (count: nat)
      requires IsOldestBatch(sessions, now, limit, locked, batch)
      modifies this
      ensures count == |batch| <= limit
      ensures sessions == old(sessions) - batch
      ensures forall h :: h in sessions <==> h in old(sessions) && h !in batch
      ensures locked == {} ==> |Inactive(sessions, now)| == |Inactive(old(sessions), now)| - count
      ensures forall h :: h in old(sessions) && h !in sessions ==> h !in locked && HasEnded(old(sessions)[h], now)
      ensures count < limit && locked == {} ==> forall h :: h in sessions ==> !HasEnded(sessions[h], now)
      ensures forall h, g :: h in old(sessions) && h !in sessions && g in sessions && g !in locked
                             && HasEnded(sessions[g], now) ==>
        || old(sessions)[h].expiresAt < sessions[g].expiresAt
        || (old(sessions)[h].expiresAt == sessions[g].expiresAt && old(sessions)[h].id <= sessions[g].id)
    {
      if batch == {} {
        EmptyBatchMeansNone(sessions, now, limit, locked, batch);
        assert sessions - batch == sessions;
        return 0;
      }
      BatchShrinksInactive(sessions, now, limit, locked, batch);
      if |batch| < limit {
        ShortBatchIsAll(sessions, now, limit, locked, batch);
      }
      sessions := sessions - batch;
      return |batch|;
    }
  }
}
