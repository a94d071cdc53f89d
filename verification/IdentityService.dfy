/** `IdentityService` as one request runs it, over the sessions and users tables. */
module IdentityService {
  import opened Wrappers
  import opened External
  import opened Tokens
  import opened Sessions
  import Login

  datatype IdentityError = AuthenticationRequired | InvalidCredentials | CsrfRefused | Integrity

  datatype LogoutResult = SessionRevoked | Inactive

  /** A new session row with the tokens only its owner gets. */
  datatype Material = Material(hash: Bytes, row: Session, bearer: string, csrf: string)

  /** What survives the password check of a login until its transaction. */
  datatype Verified = Verified(userId: nat, hash: string, replacement: Option<string>)

  class Service {
    const w: World
    const passwords: Login.Passwords
    const sessions: SessionRepository
    var users: map<nat, Login.User>

    constructor (w: World, passwords: Login.Passwords, sessions: SessionRepository)
      ensures this.w == w && this.passwords == passwords && this.sessions == sessions && users == map[]
    {
      this.w := w;
      this.passwords := passwords;
      this.sessions := sessions;
      users := map[];
    }

    /** The hash under which a presented token would be stored. */
    function HashOf(encoded: Option<string>): Option<Bytes> {
      if encoded.None? then None
      else
        match DecodeToken(encoded.value)
        case Err(_) => None
        case Ok(raw) => Some(w.digest(raw))
    }

    /** `authenticate`: a malformed token changes nothing, any other is one touching transaction. */
    method Authenticate(encoded: Option<string>, now: int) returns (r: Result<Session, IdentityError>)
      modifies sessions
      ensures HashOf(encoded).None? ==> r == Err(AuthenticationRequired) && sessions.sessions == old(sessions.sessions)
      ensures HashOf(encoded).Some? ==>
        var event := Event.Authenticate(HashOf(encoded).value, now);
        var (after, outcome) := Step(users.Keys, old(sessions.sessions), event);
        && sessions.sessions == after
        && outcome == (if r.Ok? then Accepted(r.value) else Rejected)
      ensures r.Ok? <==>
        && HashOf(encoded).Some? && HashOf(encoded).value in old(sessions.sessions)
        && !HasEnded(old(sessions.sessions)[HashOf(encoded).value], now)
        && old(sessions.sessions)[HashOf(encoded).value].userId in users
      ensures r.Ok? ==>
        && r.value.userId == old(sessions.sessions)[HashOf(encoded).value].userId
        && r.value.lastSeenAt >= now
        && sessions.sessions == old(sessions.sessions)[HashOf(encoded).value := r.value]
      ensures r.Err? ==> sessions.sessions == old(sessions.sessions)
    {
      var hash := HashOf(encoded);
      if hash.None? {
        return Err(AuthenticationRequired);
      }
      var before := sessions.sessions;
      var active := sessions.AuthenticateAndTouch(hash.value, now);
      if active.None? {
        return Err(AuthenticationRequired);
      }
      if active.value.userId !in users {
        sessions.sessions := before;      // the transaction rolls back
        return Err(AuthenticationRequired);
      }
      return Ok(active.value);
    }

    /** `logout`: classify under the row lock, check the CSRF token, revoke. */
    method Logout(encoded: Option<string>, supplied: Option<Bytes>, now: int)
      returns (r: Result<LogoutResult, IdentityError>)
      modifies sessions
      ensures HashOf(encoded).None? ==> r == Ok(Inactive) && sessions.sessions == old(sessions.sessions)
      ensures HashOf(encoded).Some? ==>
        var event := Event.Logout(HashOf(encoded).value, supplied, now);
        var (after, outcome) := Step(users.Keys, old(sessions.sessions), event);
        && sessions.sessions == after
        && match r
           case Ok(SessionRevoked) => outcome == LoggedOut
           case Ok(Inactive) => outcome == AlreadyInactive
           case Err(CsrfRefused) => outcome == InvalidCsrf
           case Err(_) => outcome == ConstraintViolated
      ensures r == Ok(Inactive) <==>
        !(&& HashOf(encoded).Some? && HashOf(encoded).value in old(sessions.sessions)
          && !HasEnded(old(sessions.sessions)[HashOf(encoded).value], now))
      ensures r == Ok(SessionRevoked) ==>
        var row := old(sessions.sessions)[HashOf(encoded).value];
        && supplied == Some(row.csrf) && |row.csrf| == 32
        && sessions.sessions == old(sessions.sessions)[HashOf(encoded).value := row.(revokedAt := Some(now))]
      ensures r == Err(CsrfRefused) ==>
        var row := old(sessions.sessions)[HashOf(encoded).value];
        supplied != Some(row.csrf) || |row.csrf| != 32
      ensures r != Ok(SessionRevoked) ==> sessions.sessions == old(sessions.sessions)
    {
      var hash := HashOf(encoded);
      if hash.None? || hash.value !in sessions.sessions {
        return Ok(Inactive);
      }
      var row := sessions.sessions[hash.value];
      if Classify(row, now) != ACTIVE {
        return Ok(Inactive);
      }
      if supplied.None? || !CsrfTokensMatch(row.csrf, supplied.value) {
        return Err(CsrfRefused);
      }
      row := row.(revokedAt := Some(now));
      if !SatisfiesChecks(row) {
        return Err(Integrity);
      }
      sessions.sessions := sessions.sessions[hash.value := row];
      return Ok(SessionRevoked);
    }

    /** `cleanup_inactive_sessions`; `batch` is the answer of the locking query. */
    method CleanupInactiveSessions(now: int, locked: set<Bytes>, batch: set<Bytes>) returns (count: nat)
      requires IsOldestBatch(sessions.sessions, now, CLEANUP_BATCH_SIZE, locked, batch)
      modifies sessions
      ensures (sessions.sessions, Cleaned(count)) == Step(users.Keys, old(sessions.sessions), Event.Cleanup(now, batch))
      ensures count <= CLEANUP_BATCH_SIZE
      ensures forall h :: h in old(sessions.sessions) && h !in sessions.sessions ==>
        h !in locked && HasEnded(old(sessions.sessions)[h], now)
      ensures forall h :: h in sessions.sessions ==>
        h in old(sessions.sessions) && sessions.sessions[h] == old(sessions.sessions)[h]
      ensures count < 100 && locked == {} ==>
        forall h :: h in sessions.sessions ==> !HasEnded(sessions.sessions[h], now)
    {
      assert batch == set h | h in sessions.sessions && h in batch && Deletable(sessions.sessions[h], now);
      count := sessions.DeleteInactiveBatch(now, CLEANUP_BATCH_SIZE, locked, batch);
    }

    /** `_issue_session`: the row stores only the token's hash, the bearer string decodes to the token. */
    method IssueSession(userId: nat, id: nat, rawBearer: Bytes, rawCsrf: Bytes, now: int) returns (m: Material)
      requires |rawBearer| == TOKEN_BYTES && |rawCsrf| == TOKEN_BYTES
      ensures m.row == Session(id, userId, rawCsrf, now, now, now + 43_200_000_000, None)
      ensures m.row == NewSession(id, userId, rawCsrf, now) && SatisfiesChecks(m.row) && Touchable(m.row, now)
      ensures m.hash == w.digest(rawBearer) && HashOf(Some(m.bearer)) == Some(m.hash)
      ensures DecodeToken(m.csrf) == Ok(rawCsrf)
    {
      DecodeEncode(rawBearer);
      DecodeEncode(rawCsrf);
      m := Material(w.digest(rawBearer), NewSession(id, userId, rawCsrf, now),
                    EncodeToken(rawBearer).value, EncodeToken(rawCsrf).value);
    }

    /**
     The first half of `login`: an unlocked read and the password check, outside any
     transaction. `found` is the answer of the credentials query.
     */
    method VerifyCredentials(email: string, found: Option<nat>, password: string, newHash: string)
      returns (r: Result<Verified, IdentityError>)
      requires if found.Some? then found.value in users && users[found.value].email == email
               else !Login.EmailTaken(users, email)
      ensures r.Ok? <==> found.Some? && passwords.verify(users[found.value].passwordHash, password) == Login.MATCH
      ensures (exists u :: u in users && users[u].email == email) <==> found.Some?
      ensures r.Ok? ==> r.value.userId in users && users[r.value.userId].email == email
      ensures r.Ok? ==>
        && Some(r.value.userId) == found && r.value.hash == users[r.value.userId].passwordHash
        && r.value.replacement == if passwords.needsRehash(r.value.hash) then Some(newHash) else None
    {
      if found.None? {
        return Err(InvalidCredentials);
      }
      var hash := users[found.value].passwordHash;
      if passwords.verify(hash, password) != Login.MATCH {
        return Err(InvalidCredentials);
      }
      var replacement := None;
      if passwords.needsRehash(hash) {
        replacement := Some(newHash);
      }
      return Ok(Verified(found.value, hash, replacement));
    }

    /** The second half: under the user's row lock the verified hash must still be the stored one. */
    method InsertVerified(verified: Verified, material: Material) returns (r: Result<(), IdentityError>)
      modifies this`users, sessions
      ensures r.Ok? <==>
        && verified.userId in old(users) && old(users)[verified.userId].passwordHash == verified.hash
        && material.hash !in old(sessions.sessions)
      ensures r.Ok? ==>
        && sessions.sessions == old(sessions.sessions)[material.hash := material.row]
        && users == if verified.replacement.None? then old(users) else
             old(users)[verified.userId := old(users)[verified.userId].(passwordHash := verified.replacement.value)]
      ensures r.Err? ==> users == old(users) && sessions.sessions == old(sessions.sessions)
    {
      if verified.userId !in users || users[verified.userId].passwordHash != verified.hash {
        return Err(InvalidCredentials);
      }
      var taken := sessions.Add(material.hash, material.row);
      if taken {
        return Err(Integrity);
      }
      if verified.replacement.Some? {
        users := users[verified.userId := users[verified.userId].(passwordHash := verified.replacement.value)];
      }
      return Ok(());
    }
  }
}
