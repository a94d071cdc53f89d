/**
 Concurrent logins as an optimistic protocol: the password is verified against a snapshot of
 the stored hash outside any transaction, and the session is inserted under the user's row
 lock only if the stored hash is still the verified one.
 */
module Login {
  import opened Wrappers

  datatype PasswordVerification = MATCH | MISMATCH | MALFORMED

  /** The password service; `Passwords` is everything the protocol knows about hashing. */
  datatype Passwords = Passwords(
    verify: (string, string) -> PasswordVerification,
    needsRehash: string -> bool)

  datatype User = User(email: string, passwordHash: string)

  datatype Point =
    | Submitted
    | SnapshotTaken   // the stored hash was read
    | Verified        // it matched the password
    | Ready           // a replacement hash was computed if one is needed
    | LoggedIn
    | Refused

  datatype Attempt = Attempt(
    email: string,
    password: string,
    at: Point,
    userId: nat,
    hash: string,
    replacement: Option<string>)

  /** A session inserted by a login, with the hash it was verified against. */
  datatype Grant = Grant(attempt: nat, userId: nat, password: string, verified: string, replacement: Option<string>)

  /** `hashes` is every hash ever computed: salts make each new one different from all of them. */
  datatype State = State(
    users: map<nat, User>,
    attempts: map<nat, Attempt>,
    hashes: set<string>,
    grants: seq<Grant>)

  datatype Event =
    | Register(userId: nat, email: string, hash: string)
    | ChangePassword(userId: nat, hash: string)
    | RemoveUser(userId: nat)
    | Begin(attempt: nat, email: string, password: string)
    | TakeSnapshot(attempt: nat, userId: nat)
    | Verify(attempt: nat)
    | Prepare(attempt: nat, hash: string)
    | Commit(attempt: nat)
    | Fault(attempt: nat)

  const INITIAL := State(map[], map[], {}, [])

  predicate EmailTaken(users: map<nat, User>, email: string) {
    exists u :: u in users && users[u].email == email
  }

  function Set(s: State, o: nat, a: Attempt): State {
    s.(attempts := s.attempts[o := a])
  }

  /** The unlocked read of the credentials. */
  function ReadCredentials(s: State, o: nat, a: Attempt, userId: nat): State {
    if userId in s.users && s.users[userId].email == a.email then
      Set(s, o, a.(at := SnapshotTaken, userId := userId, hash := s.users[userId].passwordHash))
    else if EmailTaken(s.users, a.email) then s
    else Set(s, o, a.(at := Refused))
  }

  function CheckPassword(k: Passwords, s: State, o: nat, a: Attempt): State {
    Set(s, o, a.(at := if k.verify(a.hash, a.password) == MATCH then Verified else Refused))
  }

  function ComputeReplacement(k: Passwords, s: State, o: nat, a: Attempt, hash: string): State {
    if !k.needsRehash(a.hash) then Set(s, o, a.(at := Ready, replacement := None))
    else if hash in s.hashes then s
    else Set(s, o, a.(at := Ready, replacement := Some(hash))).(hashes := s.hashes + {hash})
  }

  predicate StillCurrent(s: State, a: Attempt) {
    a.userId in s.users && s.users[a.userId].passwordHash == a.hash
  }

  /** The locked transaction: compare, replace the hash if needed, insert the session. */
  function InsertSession(s: State, o: nat, a: Attempt): State {
    if !StillCurrent(s, a) then Set(s, o, a.(at := Refused))
    else
      var users := if a.replacement.None? then s.users
                   else s.users[a.userId := s.users[a.userId].(passwordHash := a.replacement.value)];
      Set(s, o, a.(at := LoggedIn)).(
        users := users,
        grants := s.grants + [Grant(o, a.userId, a.password, a.hash, a.replacement)])
  }

  predicate AttemptAt(s: State, o: nat, at: Point) {
    o in s.attempts && s.attempts[o].at == at
  }

  /** The effect of one event; an event that is not possible in `s` changes nothing. */
  function Next(k: Passwords, s: State, e: Event): State {
    match e
    case Register(u, email, hash) =>
      if u in s.users || hash in s.hashes || EmailTaken(s.users, email) then s
      else s.(users := s.users[u := User(email, hash)], hashes := s.hashes + {hash})
    case ChangePassword(u, hash) =>
      if u !in s.users || hash in s.hashes then s
      else s.(users := s.users[u := s.users[u].(passwordHash := hash)], hashes := s.hashes + {hash})
    case RemoveUser(u) => s.(users := map v | v in s.users && v != u :: s.users[v])
    case Begin(o, email, password) =>
      if o in s.attempts then s else Set(s, o, Attempt(email, password, Submitted, 0, "", None))
    case TakeSnapshot(o, u) => if AttemptAt(s, o, Submitted) then ReadCredentials(s, o, s.attempts[o], u) else s
    case Verify(o) => if AttemptAt(s, o, SnapshotTaken) then CheckPassword(k, s, o, s.attempts[o]) else s
    case Prepare(o, hash) => if AttemptAt(s, o, Verified) then ComputeReplacement(k, s, o, s.attempts[o], hash) else s
    case Commit(o) => if AttemptAt(s, o, Ready) then InsertSession(s, o, s.attempts[o]) else s
    case Fault(o) =>
      if o in s.attempts && !s.attempts[o].at.LoggedIn? then Set(s, o, s.attempts[o].(at := Refused)) else s
  }

  function Run(k: Passwords, events: seq<Event>): State {
    if events == [] then INITIAL
    else Next(k, Run(k, events[..|events| - 1]), events[|events| - 1])
  }

  // ---------------------------------------------------------------- invariant

  /** A replacement that was computed but not stored yet. */
  predicate Pending(s: State, o: nat, hash: string) {
    AttemptAt(s, o, Ready) && s.attempts[o].replacement == Some(hash)
  }

  /** A hash that is in use nowhere and will never be again. */
  ghost predicate Retired(s: State, hash: string) {
    && hash in s.hashes
    && (forall u :: u in s.users ==> s.users[u].passwordHash != hash)
    && (forall o :: o in s.attempts ==> !Pending(s, o, hash))
  }

  ghost predicate HashesSound(s: State) {
    && (forall u :: u in s.users ==> s.users[u].passwordHash in s.hashes)
    && (forall u, v :: u in s.users && v in s.users && u != v ==> s.users[u].passwordHash != s.users[v].passwordHash)
    && (forall o, hash :: o in s.attempts && Pending(s, o, hash) ==>
          hash in s.hashes && forall u :: u in s.users ==> s.users[u].passwordHash != hash)
    && (forall o, p, hash :: Pending(s, o, hash) && Pending(s, p, hash) ==> o == p)
  }

  predicate AttemptSound(k: Passwords, a: Attempt) {
    && (a.at.Verified? || a.at.Ready? || a.at.LoggedIn? ==> k.verify(a.hash, a.password) == MATCH)
    && (a.at.Ready? || a.at.LoggedIn? ==> (a.replacement.Some? <==> k.needsRehash(a.hash)))
  }

  ghost predicate GrantsSound(k: Passwords, s: State) {
    && (forall i :: 0 <= i < |s.grants| ==>
          && k.verify(s.grants[i].verified, s.grants[i].password) == MATCH
          && AttemptAt(s, s.grants[i].attempt, LoggedIn)
          && (s.grants[i].replacement.Some? ==> Retired(s, s.grants[i].verified)))
    && (forall i, j :: 0 <= i < j < |s.grants| ==>
          && s.grants[i].attempt != s.grants[j].attempt
          && (s.grants[i].verified == s.grants[j].verified ==> s.grants[i].replacement.None?))
  }

  ghost predicate Inv(k: Passwords, s: State) {
    && HashesSound(s)
    && (forall o :: o in s.attempts ==> AttemptSound(k, s.attempts[o]))
    && GrantsSound(k, s)
  }

  /** The attempt moves without becoming ready: nothing about hashes changes. */
  lemma MovePreservesHashes(s: State, o: nat, a: Attempt)
    requires HashesSound(s) && !a.at.Ready?
    ensures HashesSound(Set(s, o, a))
  {
    assert forall p, hash :: Pending(Set(s, o, a), p, hash) ==> Pending(s, p, hash);
  }

  lemma ReplacementPreservesHashes(k: Passwords, s: State, o: nat, a: Attempt, hash: string)
    requires HashesSound(s)
    ensures HashesSound(ComputeReplacement(k, s, o, a, hash))
  {
    var t := ComputeReplacement(k, s, o, a, hash);
    assert forall p, h :: Pending(t, p, h) ==> Pending(s, p, h) || (p == o && h == hash && hash !in s.hashes);
  }

  lemma InsertionPreservesHashes(s: State, o: nat, a: Attempt)
    requires HashesSound(s) && AttemptAt(s, o, Ready) && s.attempts[o] == a
    ensures HashesSound(InsertSession(s, o, a))
  {
    var t := InsertSession(s, o, a);
    assert a.replacement.Some? ==> Pending(s, o, a.replacement.value);
    assert forall p, h :: Pending(t, p, h) ==> Pending(s, p, h) && p != o;
  }

  lemma FreshHashPreservesHashes(s: State, u: nat, user: User)
    requires HashesSound(s) && user.passwordHash !in s.hashes
    ensures HashesSound(s.(users := s.users[u := user], hashes := s.hashes + {user.passwordHash}))
  {
    var t := s.(users := s.users[u := user], hashes := s.hashes + {user.passwordHash});
    assert forall p, h :: Pending(t, p, h) <==> Pending(s, p, h);
  }

  lemma HashesStaySound(k: Passwords, s: State, e: Event)
    requires HashesSound(s)
    ensures HashesSound(Next(k, s, e))
  {
    match e
    case Register(u, email, hash) =>
      if u !in s.users && hash !in s.hashes && !EmailTaken(s.users, email) {
        FreshHashPreservesHashes(s, u, User(email, hash));
      }
    case ChangePassword(u, hash) =>
      if u in s.users && hash !in s.hashes {
        FreshHashPreservesHashes(s, u, s.users[u].(passwordHash := hash));
      }
    case RemoveUser(_) =>
      assert forall p, h :: Pending(Next(k, s, e), p, h) <==> Pending(s, p, h);
    case Begin(o, email, password) =>
      MovePreservesHashes(s, o, Attempt(email, password, Submitted, 0, "", None));
    case TakeSnapshot(o, u) =>
      if AttemptAt(s, o, Submitted) {
        var t := ReadCredentials(s, o, s.attempts[o], u);
        MovePreservesHashes(s, o, t.attempts[o]);
        assert t == Set(s, o, t.attempts[o]);
      }
    case Verify(o) =>
      if AttemptAt(s, o, SnapshotTaken) {
        MovePreservesHashes(s, o, CheckPassword(k, s, o, s.attempts[o]).attempts[o]);
      }
    case Prepare(o, hash) =>
      if AttemptAt(s, o, Verified) {
        ReplacementPreservesHashes(k, s, o, s.attempts[o], hash);
      }
    case Commit(o) =>
      if AttemptAt(s, o, Ready) {
        InsertionPreservesHashes(s, o, s.attempts[o]);
      }
    case Fault(o) =>
      if o in s.attempts {
        MovePreservesHashes(s, o, s.attempts[o].(at := Refused));
      }
  }

  lemma RetiredStaysRetired(k: Passwords, s: State, e: Event, hash: string)
    requires Retired(s, hash)
    ensures Retired(Next(k, s, e), hash)
  {
  }

  lemma AttemptsStaySound(k: Passwords, s: State, e: Event)
    requires forall o :: o in s.attempts ==> AttemptSound(k, s.attempts[o])
    ensures forall o :: o in Next(k, s, e).attempts ==> AttemptSound(k, Next(k, s, e).attempts[o])
  {
  }

  /** The event is a commit whose verified hash is still the stored one. */
  predicate Grants(s: State, e: Event) {
    e.Commit? && AttemptAt(s, e.attempt, Ready) && StillCurrent(s, s.attempts[e.attempt])
  }

  /** Nothing but a successful commit inserts a session, and logged-in attempts stay so. */
  lemma GrantsChange(k: Passwords, s: State, e: Event)
    ensures !Grants(s, e) ==> Next(k, s, e).grants == s.grants
    ensures Grants(s, e) ==>
      && Next(k, s, e) == InsertSession(s, e.attempt, s.attempts[e.attempt])
      && AttemptAt(Next(k, s, e), e.attempt, LoggedIn)
    ensures forall o :: AttemptAt(s, o, LoggedIn) ==> AttemptAt(Next(k, s, e), o, LoggedIn)
  {
  }

  /** The first of several logins that replace one hash retires it for all the others. */
  lemma CommitRetires(k: Passwords, s: State, o: nat, a: Attempt)
    requires HashesSound(s) && AttemptAt(s, o, Ready) && s.attempts[o] == a && StillCurrent(s, a)
    requires a.replacement.Some?
    ensures Retired(InsertSession(s, o, a), a.hash)
  {
    assert Pending(s, o, a.replacement.value);
    var t := InsertSession(s, o, a);
    assert forall p, h :: Pending(t, p, h) ==> Pending(s, p, h);
  }

  lemma GrantsStaySound(k: Passwords, s: State, e: Event)
    requires Inv(k, s)
    ensures GrantsSound(k, Next(k, s, e))
  {
    var t := Next(k, s, e);
    GrantsChange(k, s, e);
    forall i | 0 <= i < |s.grants| && s.grants[i].replacement.Some?
      ensures Retired(t, s.grants[i].verified)
    {
      RetiredStaysRetired(k, s, e, s.grants[i].verified);
    }
    if Grants(s, e) {
      var a := s.attempts[e.attempt];
      assert AttemptSound(k, a);
      if a.replacement.Some? {
        CommitRetires(k, s, e.attempt, a);
      }
    }
  }

  lemma {:induction false} RunKeepsInv(k: Passwords, events: seq<Event>)
    ensures Inv(k, Run(k, events))
  {
    if events != [] {
      var s, e := Run(k, events[..|events| - 1]), events[|events| - 1];
      RunKeepsInv(k, events[..|events| - 1]);
      HashesStaySound(k, s, e);
      AttemptsStaySound(k, s, e);
      GrantsStaySound(k, s, e);
    }
  }

  // ---------------------------------------------------------------- addresses

  /** No two users have one address. */
  ghost predicate AddressesUnique(s: State) {
    forall u, v :: u in s.users && v in s.users && u != v ==> s.users[u].email != s.users[v].email
  }

  /** While the hash an attempt has read is the stored one, its user has the address the attempt named. */
  ghost predicate SnapshotSound(s: State, o: nat)
    requires o in s.attempts
  {
    var a := s.attempts[o];
    a.at.SnapshotTaken? || a.at.Verified? || a.at.Ready? ==>
      && a.hash in s.hashes && (forall p :: !Pending(s, p, a.hash))
      && (a.userId in s.users && s.users[a.userId].passwordHash == a.hash ==> s.users[a.userId].email == a.email)
  }

  ghost predicate SnapshotsSound(s: State) {
    forall o :: o in s.attempts ==> SnapshotSound(s, o)
  }

  lemma AddressesStayUnique(k: Passwords, s: State, e: Event)
    requires AddressesUnique(s)
    ensures AddressesUnique(Next(k, s, e))
  {
  }

  /** No two users of any reachable state have one address. */
  lemma {:induction false} AddressesAreUnique(k: Passwords, events: seq<Event>)
    ensures AddressesUnique(Run(k, events))
  {
    if events != [] {
      AddressesAreUnique(k, events[..|events| - 1]);
      AddressesStayUnique(k, Run(k, events[..|events| - 1]), events[|events| - 1]);
    }
  }

  /** An event keeps what an attempt has been called with. */
  lemma AttemptsKeepArguments(k: Passwords, s: State, e: Event, o: nat)
    requires o in s.attempts
    ensures o in Next(k, s, e).attempts
    ensures Next(k, s, e).attempts[o].email == s.attempts[o].email
    ensures Next(k, s, e).attempts[o].password == s.attempts[o].password
  {
  }

  /** What a snapshot relies on when others change users and replacements. */
  lemma OthersKeepSnapshot(s: State, t: State, o: nat)
    requires o in s.attempts && o in t.attempts && SnapshotSound(s, o) && s.hashes <= t.hashes
    requires t.attempts[o] == s.attempts[o].(at := t.attempts[o].at, replacement := t.attempts[o].replacement)
    requires t.attempts[o].at.SnapshotTaken? || t.attempts[o].at.Verified? || t.attempts[o].at.Ready? ==>
      s.attempts[o].at.SnapshotTaken? || s.attempts[o].at.Verified? || s.attempts[o].at.Ready?
    requires forall p, hash :: Pending(t, p, hash) ==> Pending(s, p, hash) || hash !in s.hashes
    requires forall u :: u in t.users ==>
      || (u in s.users && t.users[u] == s.users[u])
      || t.users[u].passwordHash !in s.hashes
      || exists p :: Pending(s, p, t.users[u].passwordHash)
    ensures SnapshotSound(t, o)
  {
  }

  lemma PendingComesFrom(k: Passwords, s: State, e: Event, p: nat, hash: string)
    requires Pending(Next(k, s, e), p, hash)
    ensures Pending(s, p, hash) || hash !in s.hashes
  {
  }

  lemma UsersComeFrom(k: Passwords, s: State, e: Event, u: nat)
    requires u in Next(k, s, e).users
    ensures var t := Next(k, s, e);
      || (u in s.users && t.users[u] == s.users[u])
      || t.users[u].passwordHash !in s.hashes
      || exists p :: Pending(s, p, t.users[u].passwordHash)
  {
    if e.Commit? && AttemptAt(s, e.attempt, Ready) && s.attempts[e.attempt].replacement.Some? {
      assert Pending(s, e.attempt, s.attempts[e.attempt].replacement.value);
    }
  }

  /** The snapshot itself: the user has the address and no replacement of the hash is pending. */
  lemma FreshSnapshotIsSound(k: Passwords, s: State, o: nat, u: nat)
    requires HashesSound(s) && AttemptAt(s, o, Submitted)
    ensures SnapshotSound(Next(k, s, TakeSnapshot(o, u)), o)
  {
    var t := Next(k, s, TakeSnapshot(o, u));
    assert forall p, hash :: Pending(t, p, hash) ==> Pending(s, p, hash);
  }

  lemma SnapshotStaysSound(k: Passwords, s: State, e: Event, o: nat)
    requires HashesSound(s) && SnapshotsSound(s) && o in Next(k, s, e).attempts
    ensures SnapshotSound(Next(k, s, e), o)
  {
    if o !in s.attempts {
      assert Next(k, s, e).attempts[o].at.Submitted?;
    } else if e.TakeSnapshot? && e.attempt == o && AttemptAt(s, o, Submitted) {
      FreshSnapshotIsSound(k, s, o, e.userId);
    } else {
      var t := Next(k, s, e);
      forall p, hash | Pending(t, p, hash) ensures Pending(s, p, hash) || hash !in s.hashes {
        PendingComesFrom(k, s, e, p, hash);
      }
      forall u | u in t.users
        ensures || (u in s.users && t.users[u] == s.users[u])
                || t.users[u].passwordHash !in s.hashes
                || exists p :: Pending(s, p, t.users[u].passwordHash)
      {
        UsersComeFrom(k, s, e, u);
      }
      OthersKeepSnapshot(s, t, o);
    }
  }

  lemma SnapshotsStaySound(k: Passwords, s: State, e: Event)
    requires HashesSound(s) && SnapshotsSound(s)
    ensures SnapshotsSound(Next(k, s, e))
  {
    forall o | o in Next(k, s, e).attempts ensures SnapshotSound(Next(k, s, e), o) {
      SnapshotStaysSound(k, s, e, o);
    }
  }

  lemma {:induction false} RunSnapshotsSound(k: Passwords, events: seq<Event>)
    ensures SnapshotsSound(Run(k, events))
  {
    if events != [] {
      RunSnapshotsSound(k, events[..|events| - 1]);
      RunKeepsInv(k, events[..|events| - 1]);
      SnapshotsStaySound(k, Run(k, events[..|events| - 1]), events[|events| - 1]);
    }
  }

  // ---------------------------------------------------------------- main results

  function GrantOf(s: State, e: Event): Grant
    requires Grants(s, e)
  {
    var a := s.attempts[e.attempt];
    Grant(e.attempt, a.userId, a.password, s.users[a.userId].passwordHash, a.replacement)
  }

  /** At some commit of its login, the user's stored hash was the one that matched the password. */
  ghost predicate WasCurrent(k: Passwords, events: seq<Event>, g: Grant) {
    exists j :: 0 <= j < |events|
      && Grants(Run(k, events[..j]), events[j]) && GrantOf(Run(k, events[..j]), events[j]) == g
  }

  /** Every session a login ever inserted was inserted while the hash it had verified was the user's current one. */
  lemma {:induction false} SessionsWereVerified(k: Passwords, events: seq<Event>, i: nat)
    requires i < |Run(k, events).grants|
    ensures WasCurrent(k, events, Run(k, events).grants[i])
    ensures k.verify(Run(k, events).grants[i].verified, Run(k, events).grants[i].password) == MATCH
  {
    var n := |events| - 1;
    var before, s, g := events[..n], Run(k, events[..n]), Run(k, events).grants[i];
    RunKeepsInv(k, events);
    GrantsChange(k, s, events[n]);
    if i < |s.grants| {
      SessionsWereVerified(k, before, i);
      var j :| 0 <= j < n && Grants(Run(k, before[..j]), before[j]) && GrantOf(Run(k, before[..j]), before[j]) == g;
      assert events[..j] == before[..j] && events[j] == before[j];
    } else {
      assert Grants(s, events[n]) && GrantOf(s, events[n]) == g;
    }
  }

  /** The attempt was begun with this address and password. */
  ghost predicate BegunWith(events: seq<Event>, o: nat, email: string, password: string) {
    exists b :: 0 <= b < |events| && events[b] == Begin(o, email, password)
  }

  lemma {:induction false} AttemptsWereBegun(k: Passwords, events: seq<Event>, o: nat)
    requires o in Run(k, events).attempts
    ensures BegunWith(events, o, Run(k, events).attempts[o].email, Run(k, events).attempts[o].password)
  {
    var n := |events| - 1;
    var before := Run(k, events[..n]);
    if o in before.attempts {
      AttemptsWereBegun(k, events[..n], o);
      AttemptsKeepArguments(k, before, events[n], o);
      var b :| 0 <= b < n && events[..n][b] == Begin(o, before.attempts[o].email, before.attempts[o].password);
      assert events[b] == events[..n][b];
    } else {
      var e := events[n];
      assert e.Begin? && e.attempt == o;
      assert events[n] == Begin(o, Run(k, events).attempts[o].email, Run(k, events).attempts[o].password);
    }
  }

  /** The session was inserted for the user who then had this address and the verified hash. */
  ghost predicate InsertedFor(k: Passwords, events: seq<Event>, g: Grant, email: string) {
    exists j :: 0 <= j < |events| && events[j] == Commit(g.attempt)
      && var users := Run(k, events[..j]).users;
         g.userId in users && users[g.userId].email == email && users[g.userId].passwordHash == g.verified
  }

  lemma {:induction false} ArgumentsPersist(k: Passwords, events: seq<Event>, j: nat, o: nat)
    requires j <= |events| && o in Run(k, events[..j]).attempts
    ensures o in Run(k, events).attempts
    ensures Run(k, events).attempts[o].email == Run(k, events[..j]).attempts[o].email
    ensures Run(k, events).attempts[o].password == Run(k, events[..j]).attempts[o].password
    decreases |events| - j
  {
    if j == |events| {
      assert events[..j] == events;
    } else {
      assert events[..j + 1][..j] == events[..j];
      AttemptsKeepArguments(k, Run(k, events[..j]), events[j], o);
      ArgumentsPersist(k, events, j + 1, o);
    }
  }

  lemma CommitNamesItsUser(k: Passwords, s: State, e: Event)
    requires SnapshotsSound(s) && Grants(s, e)
    ensures s.users[s.attempts[e.attempt].userId].email == s.attempts[e.attempt].email
  {
    assert SnapshotSound(s, e.attempt);
  }

  /**
   Every session a login inserted is one of the user who, when it was inserted, had the address
   the login was called with, and whose stored hash then matched the password it was called with.
   */
  lemma SessionsAreOfTheNamedUser(k: Passwords, events: seq<Event>, i: nat)
    requires i < |Run(k, events).grants|
    ensures var g := Run(k, events).grants[i];
      && g.attempt in Run(k, events).attempts
      && var a := Run(k, events).attempts[g.attempt];
      && BegunWith(events, g.attempt, a.email, a.password) && InsertedFor(k, events, g, a.email)
      && k.verify(g.verified, a.password) == MATCH
  {
    var g := Run(k, events).grants[i];
    SessionsWereVerified(k, events, i);
    var j :| 0 <= j < |events| && Grants(Run(k, events[..j]), events[j])
             && GrantOf(Run(k, events[..j]), events[j]) == g;
    RunSnapshotsSound(k, events[..j]);
    CommitNamesItsUser(k, Run(k, events[..j]), events[j]);
    ArgumentsPersist(k, events, j, g.attempt);
    AttemptsWereBegun(k, events, g.attempt);
    assert events[j] == Commit(g.attempt);
  }

  /** A login for an address that nobody ever has is never granted. */
  lemma UnknownAddressIsNeverGranted(k: Passwords, events: seq<Event>, i: nat, unknown: string)
    requires i < |Run(k, events).grants|
    requires forall j, u :: 0 <= j <= |events| && u in Run(k, events[..j]).users ==>
      Run(k, events[..j]).users[u].email != unknown
    ensures Run(k, events).grants[i].attempt in Run(k, events).attempts
    ensures Run(k, events).attempts[Run(k, events).grants[i].attempt].email != unknown
  {
    SessionsAreOfTheNamedUser(k, events, i);
  }

  /** The credentials are read exactly of the user with the address, and refused exactly if nobody has it. */
  lemma SnapshotIff(k: Passwords, s: State, o: nat, u: nat)
    requires o in s.attempts && s.attempts[o].at == Submitted
    ensures var a, b := s.attempts[o], Next(k, s, TakeSnapshot(o, u)).attempts[o];
      && (b.at == SnapshotTaken <==> u in s.users && s.users[u].email == a.email)
      && (b.at == SnapshotTaken ==> b.userId == u && b.hash == s.users[u].passwordHash)
      && (b.at == Refused <==> forall v :: v in s.users ==> s.users[v].email != a.email)
  {
  }

  /** Alone, a login with the address and the password of a user is granted a session of that user. */
  lemma RightPasswordLogsIn(k: Passwords, s: State, o: nat, u: nat, unused: string)
    requires o in s.attempts && s.attempts[o].at == Submitted && unused !in s.hashes
    requires u in s.users && s.users[u].email == s.attempts[o].email
    requires k.verify(s.users[u].passwordHash, s.attempts[o].password) == MATCH
    ensures var read := Next(k, s, TakeSnapshot(o, u));
      var checked := Next(k, Next(k, read, Verify(o)), Prepare(o, unused));
      var t := Next(k, checked, Commit(o));
      && t.attempts[o].at == LoggedIn
      && |t.grants| == |s.grants| + 1 && t.grants[|s.grants|].userId == u
      && t.users == s.users[u := s.users[u].(
           passwordHash := if k.needsRehash(s.users[u].passwordHash) then unused else s.users[u].passwordHash)]
  {
  }

  /**
   Of the logins that verified one stored hash, a login that replaces it is the last to
   insert a session: at most one replacement of a hash ever commits, and all others are refused.
   */
  lemma OneReplacementPerHash(k: Passwords, events: seq<Event>, i: nat, j: nat)
    requires i < |Run(k, events).grants| && j < |Run(k, events).grants| && i != j
    requires Run(k, events).grants[i].verified == Run(k, events).grants[j].verified
    requires Run(k, events).grants[i].replacement.Some?
    ensures j < i && Run(k, events).grants[j].replacement.None?
  {
    RunKeepsInv(k, events);
  }

  /** The other half: among waiting logins, whoever locks the row first while the hash is current gets the session. */
  lemma FirstToLockIsGranted(k: Passwords, events: seq<Event>, o: nat)
    requires AttemptAt(Run(k, events), o, Ready)
    ensures var s := Run(k, events); var a := s.attempts[o]; var t := Run(k, events + [Commit(o)]);
      && (AttemptAt(t, o, LoggedIn) <==> StillCurrent(s, a))
      && (StillCurrent(s, a) ==>
            && t.grants == s.grants + [Grant(o, a.userId, a.password, a.hash, a.replacement)]
            && t.users[a.userId].passwordHash == if a.replacement.Some? then a.replacement.value else a.hash)
      && (!StillCurrent(s, a) ==> t.users == s.users && t.grants == s.grants)
  {
    assert (events + [Commit(o)])[..|events|] == events;
  }

  /** A hash with a granted replacement logs nobody in again, however the run goes on. */
  lemma ReplacedHashIsUseless(k: Passwords, events: seq<Event>, i: nat, o: nat)
    requires i < |Run(k, events).grants| && Run(k, events).grants[i].replacement.Some?
    requires AttemptAt(Run(k, events), o, Ready)
    requires Run(k, events).attempts[o].hash == Run(k, events).grants[i].verified
    ensures AttemptAt(Run(k, events + [Commit(o)]), o, Refused)
  {
    RunKeepsInv(k, events);
    FirstToLockIsGranted(k, events, o);
    assert Retired(Run(k, events), Run(k, events).grants[i].verified);
    assert (events + [Commit(o)])[..|events|] == events;
  }
}
