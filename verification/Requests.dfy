/**
 One request, alone: the protocol and the service methods do the same. For an upload this
 covers every combination of statements that raise.
 */
module Requests {
  import opened Wrappers
  import opened External
  import opened Csv
  import opened Configuration
  import opened History
  import opened Protocol
  import opened Invariant
  import opened Storage
  import opened Safety
  import opened Completion
  import opened Deployment
  import Service = DatasetService

  /** The statement at the upload's point raises. */
  predicate Raises(u: Upload, env: Service.Environment) {
    if u.at.Writing? then env.readFailure.Some? && u.written >= env.readFailure.value
    else u.at in env.raises
  }

  function Raised(env: Service.Environment): Exception {
    if env.unexpected then UnexpectedError else FileError
  }

  function EventOf(o: nat, u: Upload, env: Service.Environment): Event {
    if Raises(u, env) then Fault(o, Raised(env))
    else Advance(o, Choice(if u.at.Accepted? then env.candidate else env.key, env.now, []))
  }

  /** The state after the upload `o` has met `n` events of its environment. */
  ghost function Perform(v: Services, s: State, o: nat, env: Service.Environment, n: nat): State
    decreases n
  {
    if n == 0 || o !in s.operations || !s.operations[o].Uploading? then s
    else Perform(v, Next(v, s, EventOf(o, s.operations[o].upload, env)), o, env, n - 1)
  }

  /** The environment takes the upload from `s` to its end in `t`. */
  ghost predicate Performs(v: Services, s: State, o: nat, env: Service.Environment, t: State) {
    && o in t.operations && Ended(t.operations[o])
    && exists n: nat :: Perform(v, s, o, env, n) == t
  }

  /** What the upload `o` has made of the tables, and whether it has succeeded. */
  function End(t: State, o: nat): Service.Outcome {
    Service.Outcome(t.datasets, t.files,
                    o in t.operations && t.operations[o].Uploading? && t.operations[o].upload.at.Succeeded?)
  }

  /** What an upload finds. */
  function Found(s: State): Service.Outcome {
    Service.Outcome(s.datasets, s.files, false)
  }

  lemma StepPerforms(v: Services, s: State, o: nat, u: Upload, env: Service.Environment, next: State, t: State)
    requires UploadIs(s, o, u) && Next(v, s, EventOf(o, u, env)) == next && Performs(v, next, o, env, t)
    ensures Performs(v, s, o, env, t)
  {
    var n: nat :| Perform(v, next, o, env, n) == t;
    assert Perform(v, s, o, env, n + 1) == t;
  }

  lemma LastStepPerforms(v: Services, s: State, o: nat, u: Upload, env: Service.Environment, t: State)
    requires UploadIs(s, o, u) && Next(v, s, EventOf(o, u, env)) == t
    requires o in t.operations && Ended(t.operations[o])
    ensures Performs(v, s, o, env, t)
  {
    assert Perform(v, t, o, env, 0) == t;
    assert Perform(v, s, o, env, 1) == t;
  }

  // ---------------------------------------------------------------- the exception handler

  lemma RemovingIs(v: Services, s: State, o: nat, u: Upload, env: Service.Environment)
    requires UploadIs(s, o, u) && u.at.Removing? && u.installedKey.Some?
    ensures Next(v, s, EventOf(o, u, env))
         == if Removing in env.raises then Put(Abandon(s, o), o, At(u, Failed))
            else Put(Unlink(s, Stored(u.installedKey.value)), o, At(u, Failed))
  {
    if Removing in env.raises {
      assert Next(v, s, EventOf(o, u, env)) == FaultUpload(s, o, u, Raised(env));
    } else {
      assert Next(v, s, EventOf(o, u, env)) == RemoveInstalled(s, o, u);
    }
  }

  lemma RemovingPerforms(v: Services, s: State, o: nat, u: Upload, env: Service.Environment) returns (t: State)
    requires UploadIs(s, o, u) && u.at.Removing? && u.installedKey.Some?
    ensures Performs(v, s, o, env, t)
    ensures End(t, o) == if Removing in env.raises then Found(s)
                         else Found(s).(files := Without(s.files, Stored(u.installedKey.value)))
  {
    t := if Removing in env.raises then Put(Abandon(s, o), o, At(u, Failed))
         else Put(Unlink(s, Stored(u.installedKey.value)), o, At(u, Failed));
    RemovingIs(v, s, o, u, env);
    LastStepPerforms(v, s, o, u, env, t);
  }

  lemma DiscardRaises(v: Services, s: State, o: nat, u: Upload, env: Service.Environment) returns (t: State)
    requires UploadIs(s, o, u) && u.at.Discarding? && Discarding in env.raises
    ensures Performs(v, s, o, env, t) && End(t, o) == Found(s)
  {
    t := Put(Abandon(s, o), o, At(u, Failed));
    assert Next(v, s, EventOf(o, u, env)) == FaultUpload(s, o, u, Raised(env)) == t;
    LastStepPerforms(v, s, o, u, env, t);
  }

  lemma DiscardThenRemove(v: Services, s: State, o: nat, u: Upload, env: Service.Environment) returns (t: State)
    requires UploadIs(s, o, u) && u.at.Discarding? && u.candidate.Some? && Discarding !in env.raises
    requires u.installedKey.Some? && !u.committed
    ensures Performs(v, s, o, env, t)
    ensures End(t, o) == Found(s).(
      files := if Removing in env.raises then Without(s.files, Candidate(u.candidate.value))
               else Without(Without(s.files, Candidate(u.candidate.value)), Stored(u.installedKey.value)))
  {
    var s1 := Put(Unlink(s, Candidate(u.candidate.value)), o, At(u, Removing));
    assert Next(v, s, EventOf(o, u, env)) == DiscardCandidate(s, o, u) == s1;
    t := RemovingPerforms(v, s1, o, u.(at := Removing), env);
    StepPerforms(v, s, o, u, env, s1, t);
  }

  lemma DiscardAndEnd(v: Services, s: State, o: nat, u: Upload, env: Service.Environment) returns (t: State)
    requires UploadIs(s, o, u) && u.at.Discarding? && u.candidate.Some? && Discarding !in env.raises
    requires u.installedKey.None? || u.committed
    ensures Performs(v, s, o, env, t)
    ensures End(t, o) == Found(s).(files := Without(s.files, Candidate(u.candidate.value)))
  {
    t := Put(Abandon(Unlink(s, Candidate(u.candidate.value)), o), o, At(u, Failed));
    assert Next(v, s, EventOf(o, u, env)) == DiscardCandidate(s, o, u) == t;
    LastStepPerforms(v, s, o, u, env, t);
  }

  lemma HandlerPerforms(v: Services, s: State, o: nat, u: Upload, env: Service.Environment) returns (t: State)
    requires UploadIs(s, o, u) && u.at.Discarding? && u.candidate.Some?
    ensures Performs(v, s, o, env, t)
    ensures End(t, o) == Found(s).(
      files := Service.Compensated(s.files, u.candidate.value, u.installedKey, u.committed, env))
  {
    if Discarding in env.raises {
      t := DiscardRaises(v, s, o, u, env);
    } else if u.installedKey.Some? && !u.committed {
      t := DiscardThenRemove(v, s, o, u, env);
    } else {
      t := DiscardAndEnd(v, s, o, u, env);
    }
  }

  /** An exception before the commit, or a refusal inside the transaction, leads into the handler. */
  lemma HandledPerforms(v: Services, s: State, o: nat, u: Upload, env: Service.Environment, next: State)
    returns (t: State)
    requires UploadIs(s, o, u) && u.candidate.Some? && Next(v, s, EventOf(o, u, env)) == next
    requires UploadIs(next, o, u.(at := Discarding)) && next.files == s.files && next.datasets == s.datasets
    ensures Performs(v, s, o, env, t)
    ensures End(t, o) == Found(s).(
      files := Service.Compensated(s.files, u.candidate.value, u.installedKey, u.committed, env))
  {
    t := HandlerPerforms(v, next, o, u.(at := Discarding), env);
    StepPerforms(v, s, o, u, env, next, t);
  }

  // ---------------------------------------------------------------- after the commit

  lemma SupersedingPerforms(v: Services, s: State, o: nat, u: Upload, env: Service.Environment) returns (t: State)
    requires UploadIs(s, o, u) && u.at.Superseding? && u.oldKey.Some?
    ensures Performs(v, s, o, env, t)
    ensures End(t, o) == if Superseding in env.raises then Found(s).(succeeded := !env.unexpected)
                         else Service.Outcome(s.datasets, Without(s.files, Stored(u.oldKey.value)), true)
  {
    if Superseding in env.raises {
      t := Put(Abandon(s, o), o, At(u, if env.unexpected then Failed else Succeeded));
      assert Next(v, s, EventOf(o, u, env)) == FaultUpload(s, o, u, Raised(env)) == t;
    } else {
      t := Put(Unlink(s, Stored(u.oldKey.value)), o, At(u, Succeeded));
      assert Next(v, s, EventOf(o, u, env)) == RemoveOld(s, o, u) == t;
    }
    LastStepPerforms(v, s, o, u, env, t);
  }

  lemma CloseRaises(v: Services, s: State, o: nat, u: Upload, env: Service.Environment) returns (t: State)
    requires UploadIs(s, o, u) && u.at.Committed? && u.candidate.Some? && Committed in env.raises
    ensures Performs(v, s, o, env, t)
    ensures End(t, o) == Found(s).(
      files := Service.Compensated(s.files, u.candidate.value, u.installedKey, u.committed, env))
  {
    var s1 := Put(Abandon(s, o), o, At(u, Discarding));
    assert Next(v, s, EventOf(o, u, env)) == FaultUpload(s, o, u, Raised(env)) == s1;
    t := HandledPerforms(v, s, o, u, env, s1);
  }

  lemma CloseSucceeds(v: Services, s: State, o: nat, u: Upload, env: Service.Environment) returns (t: State)
    requires UploadIs(s, o, u) && u.at.Committed? && Committed !in env.raises && u.newKey == Some(env.key)
    ensures Performs(v, s, o, env, t)
    ensures End(t, o) == Service.AfterCommit(Found(s), u.oldKey, env)
  {
    if u.oldKey.Some? && u.oldKey != u.newKey {
      var s1 := Put(s, o, At(u, Superseding));
      assert Next(v, s, EventOf(o, u, env)) == CloseSession(s, o, u) == s1;
      t := SupersedingPerforms(v, s1, o, u.(at := Superseding), env);
      StepPerforms(v, s, o, u, env, s1, t);
      return;
    }
    t := Put(s, o, At(u, Succeeded));
    assert Next(v, s, EventOf(o, u, env)) == CloseSession(s, o, u) == t;
    LastStepPerforms(v, s, o, u, env, t);
  }

  // ---------------------------------------------------------------- the transaction

  /** An exception or a refusal under the row lock rolls back. */
  lemma RolledBackPerforms(v: Services, s: State, o: nat, u: Upload, env: Service.Environment) returns (t: State)
    requires UploadIs(s, o, u) && u.candidate.Some?
    requires Next(v, s, EventOf(o, u, env)) == Put(Unlock(s, u.datasetId), o, At(u, Discarding))
    ensures Performs(v, s, o, env, t)
    ensures End(t, o) == Found(s).(
      files := Service.Compensated(s.files, u.candidate.value, u.installedKey, u.committed, env))
  {
    t := HandledPerforms(v, s, o, u, env, Put(Unlock(s, u.datasetId), o, At(u, Discarding)));
  }

  lemma FaultUnderLockIs(v: Services, s: State, o: nat, u: Upload, x: Exception)
    requires UploadIs(s, o, u) && UploadHoldsLock(u)
    ensures Next(v, s, Fault(o, x)) == Put(Unlock(s, u.datasetId), o, At(u, Discarding))
  {
    assert Next(v, s, Fault(o, x)) == FaultUpload(s, o, u, x);
  }

  lemma RaiseUnderLockIs(v: Services, s: State, o: nat, u: Upload, env: Service.Environment)
    requires UploadIs(s, o, u) && UploadHoldsLock(u) && u.at in env.raises
    ensures Next(v, s, EventOf(o, u, env)) == Put(Unlock(s, u.datasetId), o, At(u, Discarding))
  {
    assert EventOf(o, u, env) == Fault(o, Raised(env));
    FaultUnderLockIs(v, s, o, u, Raised(env));
  }

  lemma RaiseUnderLockPerforms(v: Services, s: State, o: nat, u: Upload, env: Service.Environment) returns (t: State)
    requires UploadIs(s, o, u) && u.candidate.Some? && UploadHoldsLock(u) && u.at in env.raises
    ensures Performs(v, s, o, env, t)
    ensures End(t, o) == Found(s).(
      files := Service.Compensated(s.files, u.candidate.value, u.installedKey, u.committed, env))
  {
    RaiseUnderLockIs(v, s, o, u, env);
    t := RolledBackPerforms(v, s, o, u, env);
  }

  /** Where the rename has happened: `AfterInstall` is what follows. */
  ghost predicate EndsAsInstalled(s: State, t: State, o: nat, u: Upload, row: DatasetRow, env: Service.Environment) {
    End(t, o) == Service.AfterInstall(Found(s), u.datasetId, row, u.oldKey, env)
  }

  lemma CommitPerforms(v: Services, s: State, o: nat, u: Upload, env: Service.Environment) returns (t: State)
    requires UploadIs(s, o, u) && u.at.Flushed? && u.candidate == Some(env.candidate)
    requires u.newKey == u.installedKey == Some(env.key) && Flushed !in env.raises
    ensures Performs(v, s, o, env, t)
    ensures End(t, o) == Service.AfterCommit(
      Found(s).(datasets := s.datasets[u.datasetId := UpdatedRow(v, u)]), u.oldKey, env)
  {
    var next := u.(committed := true, at := Committed);
    var s1 := CommitUpload(v, s, o, u);
    assert Next(v, s, EventOf(o, u, env)) == s1;
    assert s1.operations == s.operations[o := Uploading(next)];
    if Committed in env.raises {
      t := CloseRaises(v, s1, o, next, env);
    } else {
      t := CloseSucceeds(v, s1, o, next, env);
    }
    StepPerforms(v, s, o, u, env, s1, t);
  }

  lemma FlushedPerforms(v: Services, s: State, o: nat, u: Upload, env: Service.Environment) returns (t: State)
    requires UploadIs(s, o, u) && u.at.Flushed? && u.candidate == Some(env.candidate) && !u.committed
    requires u.newKey == u.installedKey == Some(env.key)
    requires SatisfiesChecks(UpdatedRow(v, u)) && Installed !in env.raises
    ensures Performs(v, s, o, env, t) && EndsAsInstalled(s, t, o, u, UpdatedRow(v, u), env)
  {
    if Flushed in env.raises {
      t := RaiseUnderLockPerforms(v, s, o, u, env);
    } else {
      t := CommitPerforms(v, s, o, u, env);
    }
  }

  lemma InstalledPerforms(v: Services, s: State, o: nat, u: Upload, env: Service.Environment) returns (t: State)
    requires UploadIs(s, o, u) && u.at.Installed? && u.candidate == Some(env.candidate) && !u.committed
    requires u.newKey == u.installedKey == Some(env.key)
    ensures Performs(v, s, o, env, t) && EndsAsInstalled(s, t, o, u, UpdatedRow(v, u), env)
  {
    if Installed in env.raises {
      t := RaiseUnderLockPerforms(v, s, o, u, env);
      return;
    }
    assert Next(v, s, EventOf(o, u, env)) == FlushRow(v, s, o, u);
    if !SatisfiesChecks(UpdatedRow(v, u)) {
      t := RolledBackPerforms(v, s, o, u, env);
      return;
    }
    var s1 := Put(s, o, At(u, Flushed));
    t := FlushedPerforms(v, s1, o, u.(at := Flushed), env);
    StepPerforms(v, s, o, u, env, s1, t);
  }

  lemma InstallPerforms(v: Services, s: State, o: nat, u: Upload, env: Service.Environment) returns (t: State)
    requires UploadIs(s, o, u) && u.at.Marked? && u.candidate == Some(env.candidate) && !u.committed
    requires u.newKey == u.installedKey == Some(env.key) && Marked !in env.raises
    requires Candidate(env.candidate) in s.files && s.files[Candidate(env.candidate)] == u.source
    ensures Performs(v, s, o, env, t)
    ensures End(t, o) == Service.AfterInstall(
      Found(s).(files := Without(s.files, Candidate(env.candidate))[Stored(env.key) := u.source]),
      u.datasetId, UpdatedRow(v, u), u.oldKey, env)
  {
    var s1 := Put(Rename(s, Candidate(env.candidate), Stored(env.key)), o, At(u, Installed));
    assert Next(v, s, EventOf(o, u, env)) == Install(s, o, u) == s1;
    t := InstalledPerforms(v, s1, o, u.(at := Installed), env);
    StepPerforms(v, s, o, u, env, s1, t);
  }

  lemma MarkedPerforms(v: Services, s: State, o: nat, u: Upload, env: Service.Environment) returns (t: State)
    requires UploadIs(s, o, u) && u.at.Marked? && u.candidate == Some(env.candidate) && !u.committed
    requires u.newKey == u.installedKey == Some(env.key)
    requires Candidate(env.candidate) in s.files && s.files[Candidate(env.candidate)] == u.source
    ensures Performs(v, s, o, env, t)
    ensures Marked in env.raises ==>
      End(t, o) == Found(s).(files := Service.Compensated(s.files, env.candidate, Some(env.key), false, env))
    ensures Marked !in env.raises ==>
      End(t, o) == Service.AfterInstall(
        Found(s).(files := Without(s.files, Candidate(env.candidate))[Stored(env.key) := u.source]),
        u.datasetId, UpdatedRow(v, u), u.oldKey, env)
  {
    if Marked in env.raises {
      t := RaiseUnderLockPerforms(v, s, o, u, env);
    } else {
      t := InstallPerforms(v, s, o, u, env);
    }
  }

  /** Where the scan has accepted the candidate: `AfterScan` is what follows. */
  ghost predicate EndsAsScanned(w: World, s: State, t: State, o: nat, u: Upload, env: Service.Environment) {
    End(t, o)
    == Service.AfterScan(w, Found(s), s.rules, u.ownerId, u.datasetId, u.filename,
                         u.source, u.structure, env)
  }

  /** The handler has removed the candidate, and nothing else has changed. */
  ghost predicate EndsCompensated(s: State, t: State, o: nat, env: Service.Environment) {
    End(t, o) == Found(s).(files := Service.Compensated(s.files, env.candidate, None, false, env))
  }

  lemma CompensatedIsScanned(w: World, s: State, t: State, o: nat, u: Upload, env: Service.Environment)
    requires EndsCompensated(s, t, o, env)
    requires || Scanned in env.raises || Locked in env.raises
             || !Owned(s.datasets, u.datasetId, u.ownerId)
             || !TargetsWithin(s.rules, u.datasetId, u.structure.columns)
    ensures EndsAsScanned(w, s, t, o, u, env)
  {
  }

  lemma CompatibleIs(v: Services, s: State, o: nat, u: Upload, env: Service.Environment, next: Upload)
    requires UploadIs(s, o, u) && u.at.Locked? && Locked !in env.raises
    requires TargetsWithin(s.rules, u.datasetId, u.structure.columns)
    requires next == u.(oldKey := u.row.storageKey, installedKey := u.newKey, at := Marked)
    ensures Next(v, s, EventOf(o, u, env)) == Put(s, o, Uploading(next))
  {
    assert Next(v, s, EventOf(o, u, env)) == CheckCompatible(s, o, u);
  }

  lemma IncompatiblePerforms(v: Services, s: State, o: nat, u: Upload, env: Service.Environment) returns (t: State)
    requires UploadIs(s, o, u) && u.at.Locked? && u.candidate == Some(env.candidate) && !u.committed
    requires u.installedKey.None?
    requires Locked in env.raises || !TargetsWithin(s.rules, u.datasetId, u.structure.columns)
    ensures Performs(v, s, o, env, t) && EndsCompensated(s, t, o, env)
  {
    if Locked in env.raises {
      t := RaiseUnderLockPerforms(v, s, o, u, env);
      return;
    }
    assert Next(v, s, EventOf(o, u, env)) == CheckCompatible(s, o, u);
    t := RolledBackPerforms(v, s, o, u, env);
  }

  lemma CompatiblePerforms(w: World, s: State, o: nat, u: Upload, env: Service.Environment) returns (t: State)
    requires UploadIs(s, o, u) && u.at.Locked? && u.candidate == Some(env.candidate) && !u.committed
    requires u.newKey == Some(env.key) && u.installedKey.None? && u.now == env.now
    requires Candidate(env.candidate) in s.files && s.files[Candidate(env.candidate)] == u.source
    requires Owned(s.datasets, u.datasetId, u.ownerId) && u.row == s.datasets[u.datasetId]
    requires env.raises !! {Scanned, Locked} && TargetsWithin(s.rules, u.datasetId, u.structure.columns)
    ensures Performs(ServicesOf(w), s, o, env, t) && EndsAsScanned(w, s, t, o, u, env)
  {
    var v := ServicesOf(w);
    var next := u.(oldKey := u.row.storageKey, installedKey := u.newKey, at := Marked);
    var s1 := Put(s, o, Uploading(next));
    CompatibleIs(v, s, o, u, env, next);
    t := MarkedPerforms(v, s1, o, next, env);
    StepPerforms(v, s, o, u, env, s1, t);
    assert UpdatedRow(v, next) == Service.NewRow(w, u.row, u.filename, u.source, u.structure, env);
  }

  lemma LockedPerforms(w: World, s: State, o: nat, u: Upload, env: Service.Environment) returns (t: State)
    requires UploadIs(s, o, u) && u.at.Locked? && u.candidate == Some(env.candidate) && !u.committed
    requires u.newKey == Some(env.key) && u.installedKey.None? && u.now == env.now
    requires Candidate(env.candidate) in s.files && s.files[Candidate(env.candidate)] == u.source
    requires Owned(s.datasets, u.datasetId, u.ownerId) && u.row == s.datasets[u.datasetId] && Scanned !in env.raises
    ensures Performs(ServicesOf(w), s, o, env, t) && EndsAsScanned(w, s, t, o, u, env)
  {
    if Locked in env.raises || !TargetsWithin(s.rules, u.datasetId, u.structure.columns) {
      t := IncompatiblePerforms(ServicesOf(w), s, o, u, env);
      CompensatedIsScanned(w, s, t, o, u, env);
    } else {
      t := CompatiblePerforms(w, s, o, u, env);
    }
  }

  lemma UnlockedPerforms(v: Services, s: State, o: nat, u: Upload, env: Service.Environment) returns (t: State)
    requires UploadIs(s, o, u) && u.at.Scanned? && u.candidate == Some(env.candidate) && !u.committed
    requires u.installedKey.None? && (Scanned in env.raises || !Owned(s.datasets, u.datasetId, u.ownerId))
    ensures Performs(v, s, o, env, t) && EndsCompensated(s, t, o, env)
  {
    var s1 := Put(s, o, At(u, Discarding));
    assert Next(v, s, EventOf(o, u, env)) == s1;
    t := HandledPerforms(v, s, o, u, env, s1);
  }

  lemma LockingPerforms(w: World, s: State, o: nat, u: Upload, env: Service.Environment) returns (t: State)
    requires UploadIs(s, o, u) && u.at.Scanned? && u.candidate == Some(env.candidate) && !u.committed
    requires u.newKey == Some(env.key) && u.installedKey.None? && u.now == env.now
    requires Candidate(env.candidate) in s.files && s.files[Candidate(env.candidate)] == u.source
    requires u.datasetId !in s.locks && Owned(s.datasets, u.datasetId, u.ownerId) && Scanned !in env.raises
    ensures Performs(ServicesOf(w), s, o, env, t) && EndsAsScanned(w, s, t, o, u, env)
  {
    var v := ServicesOf(w);
    var next := u.(row := s.datasets[u.datasetId], at := Locked);
    var s1 := Put(Lock(s, u.datasetId, o), o, Uploading(next));
    assert Next(v, s, EventOf(o, u, env)) == LockForUpload(s, o, u) == s1;
    t := LockedPerforms(w, s1, o, next, env);
    StepPerforms(v, s, o, u, env, s1, t);
  }

  lemma ScannedPerforms(w: World, s: State, o: nat, u: Upload, env: Service.Environment) returns (t: State)
    requires UploadIs(s, o, u) && u.at.Scanned? && u.candidate == Some(env.candidate) && !u.committed
    requires u.newKey == Some(env.key) && u.installedKey.None? && u.now == env.now
    requires Candidate(env.candidate) in s.files && s.files[Candidate(env.candidate)] == u.source
    requires u.datasetId !in s.locks
    ensures Performs(ServicesOf(w), s, o, env, t) && EndsAsScanned(w, s, t, o, u, env)
  {
    if Scanned in env.raises || !Owned(s.datasets, u.datasetId, u.ownerId) {
      t := UnlockedPerforms(ServicesOf(w), s, o, u, env);
      CompensatedIsScanned(w, s, t, o, u, env);
    } else {
      t := LockingPerforms(w, s, o, u, env);
    }
  }

  // ---------------------------------------------------------------- before the transaction

  /** Where the candidate is complete: the scan and what follows it. */
  ghost predicate EndsAsWritten(w: World, s: State, t: State, o: nat, u: Upload, env: Service.Environment) {
    End(t, o)
    == Service.AfterWrite(w, Found(s), s.rules, u.ownerId, u.datasetId, u.filename,
                          u.source, env)
  }

  lemma ScanAcceptsPerforms(w: World, s: State, o: nat, u: Upload, env: Service.Environment) returns (t: State)
    requires UploadIs(s, o, u) && u.at.Written? && u.candidate == Some(env.candidate) && !u.committed
    requires u.installedKey.None?
    requires Candidate(env.candidate) in s.files && s.files[Candidate(env.candidate)] == u.source
    requires u.datasetId !in s.locks && env.key !in s.issued
    requires Written !in env.raises && StructureOf(w, u.source).Some?
    ensures Performs(ServicesOf(w), s, o, env, t)
    ensures EndsAsScanned(w, s, t, o, u.(structure := StructureOf(w, u.source).value), env)
  {
    var v := ServicesOf(w);
    var next := u.(structure := StructureOf(w, u.source).value, now := env.now, newKey := Some(env.key), at := Scanned);
    var s1 := Put(Reserve(s, env.key, Stored(env.key), o), o, Uploading(next));
    assert v.scan(u.source) == StructureOf(w, u.source);
    assert Next(v, s, EventOf(o, u, env)) == ScanCandidate(v, s, o, u, EventOf(o, u, env).choice) == s1;
    t := ScannedPerforms(w, s1, o, next, env);
    StepPerforms(v, s, o, u, env, s1, t);
  }

  lemma ScanRefusesPerforms(v: Services, s: State, o: nat, u: Upload, env: Service.Environment) returns (t: State)
    requires UploadIs(s, o, u) && u.at.Written? && u.candidate == Some(env.candidate) && !u.committed
    requires u.installedKey.None? && env.key !in s.issued && Written !in env.raises
    requires Candidate(env.candidate) in s.files && s.files[Candidate(env.candidate)] == u.source
    requires v.scan(u.source).None?
    ensures Performs(v, s, o, env, t) && EndsCompensated(s, t, o, env)
  {
    var s1 := Put(s, o, At(u, Discarding));
    assert Next(v, s, EventOf(o, u, env)) == ScanCandidate(v, s, o, u, EventOf(o, u, env).choice) == s1;
    t := HandledPerforms(v, s, o, u, env, s1);
  }

  lemma ScanRaisesPerforms(v: Services, s: State, o: nat, u: Upload, env: Service.Environment) returns (t: State)
    requires UploadIs(s, o, u) && u.at.Written? && u.candidate == Some(env.candidate) && !u.committed
    requires u.installedKey.None? && Written in env.raises
    ensures Performs(v, s, o, env, t) && EndsCompensated(s, t, o, env)
  {
    var s1 := Put(s, o, At(u, Discarding));
    assert Next(v, s, EventOf(o, u, env)) == FaultUpload(s, o, u, Raised(env)) == s1;
    t := HandledPerforms(v, s, o, u, env, s1);
  }

  lemma WrittenPerforms(w: World, s: State, o: nat, u: Upload, env: Service.Environment) returns (t: State)
    requires UploadIs(s, o, u) && u.at.Written? && u.candidate == Some(env.candidate) && !u.committed
    requires u.installedKey.None?
    requires Candidate(env.candidate) in s.files && s.files[Candidate(env.candidate)] == u.source
    requires u.datasetId !in s.locks && env.key !in s.issued
    ensures Performs(ServicesOf(w), s, o, env, t) && EndsAsWritten(w, s, t, o, u, env)
  {
    if Written in env.raises {
      t := ScanRaisesPerforms(ServicesOf(w), s, o, u, env);
    } else if StructureOf(w, u.source).Some? {
      t := ScanAcceptsPerforms(w, s, o, u, env);
    } else {
      t := ScanRefusesPerforms(ServicesOf(w), s, o, u, env);
    }
  }

  lemma CleanupPerforms(v: Services, s: State, o: nat, u: Upload, env: Service.Environment) returns (t: State)
    requires UploadIs(s, o, u) && u.at.WriteCleanup? && u.candidate.Some?
    ensures Performs(v, s, o, env, t)
    ensures End(t, o) == if WriteCleanup in env.raises then Found(s)
                         else Found(s).(files := Without(s.files, Candidate(u.candidate.value)))
  {
    if WriteCleanup in env.raises {
      t := Put(Abandon(s, o), o, At(u, Failed));
      assert Next(v, s, EventOf(o, u, env)) == FaultUpload(s, o, u, Raised(env)) == t;
    } else {
      t := Put(Unlink(s, Candidate(u.candidate.value)), o, At(u, Failed));
      assert Next(v, s, EventOf(o, u, env)) == CleanUpWrite(s, o, u) == t;
    }
    LastStepPerforms(v, s, o, u, env, t);
  }

  /** The copying loop stops at this turn. */
  predicate Stops(u: Upload, env: Service.Environment) {
    || Raises(u, env)
    || (u.written < |u.source| && u.written + Min(READ_CHUNK_BYTES, |u.source| - u.written) > MAX_CSV_BYTES)
  }

  lemma StopPerforms(v: Services, s: State, o: nat, u: Upload, env: Service.Environment) returns (t: State)
    requires UploadIs(s, o, u) && u.at.Writing? && u.candidate.Some? && Stops(u, env)
    ensures Performs(v, s, o, env, t)
    ensures End(t, o) == if WriteCleanup in env.raises then Found(s)
                         else Found(s).(files := Without(s.files, Candidate(u.candidate.value)))
  {
    var s1 := Put(s, o, At(u, WriteCleanup));
    assert Next(v, s, EventOf(o, u, env)) == s1;
    t := CleanupPerforms(v, s1, o, u.(at := WriteCleanup), env);
    StepPerforms(v, s, o, u, env, s1, t);
  }

  /** The copying loop, and everything after it. */
  ghost predicate EndsAsWriting(w: World, s: State, t: State, o: nat, u: Upload, env: Service.Environment)
    requires u.candidate.Some? && u.written <= |u.source|
  {
    var f := Candidate(u.candidate.value);
    if CopyFails(|u.source|, env.readFailure) then
      End(t, o) == Found(s).(
        files := if WriteCleanup in env.raises
                 then s.files[f := Service.Prefix(u.source, Copied(|u.source|, env.readFailure, u.written))]
                 else Without(s.files, f))
    else EndsAsWritten(w, s.(files := s.files[f := u.source]), t, o, u, env)
  }

  lemma ContinueStep(v: Services, s: State, o: nat, u: Upload, env: Service.Environment, next: Upload, s1: State)
    requires UploadIs(s, o, u) && u.at.Writing? && u.candidate.Some? && !Stops(u, env) && u.written < |u.source|
    requires next == u.(written := u.written + Min(READ_CHUNK_BYTES, |u.source| - u.written))
    requires s1 == Put(Write(s, Candidate(u.candidate.value), u.source[..next.written]), o, Uploading(next))
    ensures Next(v, s, EventOf(o, u, env)) == s1
  {
    assert Next(v, s, EventOf(o, u, env)) == WriteChunk(s, o, u) == Append(s, o, u, next.written);
  }

  lemma OverwritingForgets(files: map<FileName, Bytes>, f: FileName, before: Bytes, content: Bytes)
    ensures files[f := before][f := content] == files[f := content]
    ensures Without(files[f := before], f) == Without(files, f)
  {
  }

  /** A turn of the loop does not change where the loop leads. */
  lemma EndsAlike(w: World, s: State, s1: State, t: State, o: nat, u: Upload, next: Upload,
                  env: Service.Environment)
    requires u.candidate.Some? && u.at.Writing? && u.written < |u.source| && !Stops(u, env)
    requires next == u.(written := u.written + Min(READ_CHUNK_BYTES, |u.source| - u.written))
    requires s1.files == s.files[Candidate(u.candidate.value) := u.source[..next.written]]
    requires s1.datasets == s.datasets && s1.rules == s.rules
    requires EndsAsWriting(w, s1, t, o, next, env)
    ensures EndsAsWriting(w, s, t, o, u, env)
  {
    var f := Candidate(u.candidate.value);
    assert Copied(|u.source|, env.readFailure, u.written) == Copied(|u.source|, env.readFailure, next.written);
    OverwritingForgets(s.files, f, u.source[..next.written], u.source);
    OverwritingForgets(s.files, f, u.source[..next.written],
                       Service.Prefix(u.source, Copied(|u.source|, env.readFailure, u.written)));
  }

  lemma CopiedPerforms(w: World, s: State, o: nat, u: Upload, env: Service.Environment) returns (t: State)
    requires UploadIs(s, o, u) && u.at.Writing? && u.candidate == Some(env.candidate) && !u.committed
    requires u.installedKey.None? && u.written == |u.source| <= MAX_CSV_BYTES && !Stops(u, env)
    requires Candidate(env.candidate) in s.files && s.files[Candidate(env.candidate)] == u.source[..u.written]
    requires u.datasetId !in s.locks && env.key !in s.issued
    ensures Performs(ServicesOf(w), s, o, env, t) && EndsAsWriting(w, s, t, o, u, env)
  {
    var v := ServicesOf(w);
    var s1 := Put(s, o, At(u, Written));
    assert Next(v, s, EventOf(o, u, env)) == WriteChunk(s, o, u) == s1;
    assert u.source[..u.written] == u.source && s.files == s.files[Candidate(env.candidate) := u.source];
    t := WrittenPerforms(w, s1, o, u.(at := Written), env);
    StepPerforms(v, s, o, u, env, s1, t);
  }

  /** The loop fails exactly where it stops. */
  lemma StopIsFailure(u: Upload, env: Service.Environment)
    requires u.at.Writing? && u.written <= |u.source| && u.written <= MAX_CSV_BYTES && Stops(u, env)
    ensures CopyFails(|u.source|, env.readFailure)
    ensures Service.Prefix(u.source, Copied(|u.source|, env.readFailure, u.written)) == u.source[..u.written]
  {
  }

  lemma StoppedPerforms(w: World, s: State, o: nat, u: Upload, env: Service.Environment) returns (t: State)
    requires UploadIs(s, o, u) && u.at.Writing? && u.candidate.Some? && Stops(u, env)
    requires u.written <= |u.source| && u.written <= MAX_CSV_BYTES
    requires Candidate(u.candidate.value) in s.files && s.files[Candidate(u.candidate.value)] == u.source[..u.written]
    ensures Performs(ServicesOf(w), s, o, env, t) && EndsAsWriting(w, s, t, o, u, env)
  {
    t := StopPerforms(ServicesOf(w), s, o, u, env);
    StopIsFailure(u, env);
    assert s.files == s.files[Candidate(u.candidate.value) := u.source[..u.written]];
  }

  lemma {:induction false} WritingPerforms(w: World, s: State, o: nat, u: Upload, env: Service.Environment)
    returns (t: State)
    requires UploadIs(s, o, u) && u.at.Writing? && u.candidate == Some(env.candidate) && !u.committed
    requires u.installedKey.None? && u.written <= |u.source| && u.written <= MAX_CSV_BYTES
    requires Candidate(env.candidate) in s.files && s.files[Candidate(env.candidate)] == u.source[..u.written]
    requires u.datasetId !in s.locks && env.key !in s.issued
    ensures Performs(ServicesOf(w), s, o, env, t) && EndsAsWriting(w, s, t, o, u, env)
    decreases |u.source| - u.written
  {
    var v := ServicesOf(w);
    if Stops(u, env) {
      t := StoppedPerforms(w, s, o, u, env);
      return;
    }
    if u.written == |u.source| {
      t := CopiedPerforms(w, s, o, u, env);
      return;
    }
    var next := u.(written := u.written + Min(READ_CHUNK_BYTES, |u.source| - u.written));
    var s1 := Put(Write(s, Candidate(env.candidate), u.source[..next.written]), o, Uploading(next));
    ContinueStep(v, s, o, u, env, next, s1);
    t := WritingPerforms(w, s1, o, next, env);
    StepPerforms(v, s, o, u, env, s1, t);
    EndsAlike(w, s, s1, t, o, u, next, env);
  }

  /** The service's outcome for the whole request. */
  ghost predicate EndsAsRequested(w: World, s: State, t: State, o: nat, u: Upload, env: Service.Environment) {
    End(t, o)
    == Service.UploadOutcome(w, Found(s), s.rules, u.ownerId, u.datasetId, u.filename,
                             u.source, env)
  }

  lemma OpeningIs(v: Services, s: State, o: nat, u: Upload, env: Service.Environment, next: Upload)
    requires UploadIs(s, o, u) && u.at.Accepted? && u.written == 0 && Accepted !in env.raises
    requires env.candidate !in s.issued && next == u.(candidate := Some(env.candidate), at := Writing)
    ensures Next(v, s, EventOf(o, u, env))
         == Put(Write(Reserve(s, env.candidate, Candidate(env.candidate), o), Candidate(env.candidate), []), o,
                Uploading(next))
  {
    assert Next(v, s, EventOf(o, u, env)) == OpenCandidate(s, o, u, env.candidate);
  }

  lemma OpeningPerforms(w: World, s: State, o: nat, u: Upload, env: Service.Environment) returns (t: State)
    requires UploadIs(s, o, u) && u.at.Accepted? && u.candidate.None? && u.installedKey.None? && !u.committed
    requires u.written == 0 && Accepted !in env.raises && Candidate(env.candidate) !in s.files
    requires env.candidate !in s.issued && env.key !in s.issued && env.candidate != env.key
    requires u.datasetId !in s.locks
    ensures Performs(ServicesOf(w), s, o, env, t)
    ensures EndsAsWriting(w, s.(files := s.files[Candidate(env.candidate) := []]), t, o,
                          u.(candidate := Some(env.candidate)), env)
  {
    var v, f := ServicesOf(w), Candidate(env.candidate);
    var next := u.(candidate := Some(env.candidate), at := Writing);
    var s1 := Put(Write(Reserve(s, env.candidate, f, o), f, []), o, Uploading(next));
    OpeningIs(v, s, o, u, env, next);
    t := WritingPerforms(w, s1, o, next, env);
    StepPerforms(v, s, o, u, env, s1, t);
  }

  lemma OpeningRaises(w: World, s: State, o: nat, u: Upload, env: Service.Environment) returns (t: State)
    requires UploadIs(s, o, u) && u.at.Accepted? && Accepted in env.raises
    ensures Performs(ServicesOf(w), s, o, env, t) && EndsAsRequested(w, s, t, o, u, env)
  {
    t := Put(s, o, At(u, Failed));
    assert Next(ServicesOf(w), s, EventOf(o, u, env)) == FaultUpload(s, o, u, Raised(env)) == t;
    LastStepPerforms(ServicesOf(w), s, o, u, env, t);
  }

  /** From the empty candidate on, the outcome is that of the whole request. */
  lemma WritingIsRequested(w: World, s: State, t: State, o: nat, u: Upload, env: Service.Environment)
    requires u.written == 0 && Candidate(env.candidate) !in s.files
    requires Owned(s.datasets, u.datasetId, u.ownerId) && env.raises !! {Requested, Accepted}
    requires EndsAsWriting(w, s.(files := s.files[Candidate(env.candidate) := []]), t, o,
                           u.(candidate := Some(env.candidate)), env)
    ensures EndsAsRequested(w, s, t, o, u, env)
  {
    var f := Candidate(env.candidate);
    OverwritingForgets(s.files, f, [], u.source);
    OverwritingForgets(s.files, f, [], Service.Prefix(u.source, Copied(|u.source|, env.readFailure, 0)));
    assert Without(s.files, f) == s.files;
  }

  lemma AcceptedPerforms(w: World, s: State, o: nat, u: Upload, env: Service.Environment) returns (t: State)
    requires UploadIs(s, o, u) && u.at.Accepted? && u.candidate.None? && u.installedKey.None? && !u.committed
    requires u.written == 0 && Candidate(env.candidate) !in s.files
    requires env.candidate !in s.issued && env.key !in s.issued && env.candidate != env.key
    requires Owned(s.datasets, u.datasetId, u.ownerId) && u.datasetId !in s.locks && Requested !in env.raises
    ensures Performs(ServicesOf(w), s, o, env, t) && EndsAsRequested(w, s, t, o, u, env)
  {
    if Accepted in env.raises {
      t := OpeningRaises(w, s, o, u, env);
    } else {
      t := OpeningPerforms(w, s, o, u, env);
      WritingIsRequested(w, s, t, o, u, env);
    }
  }

  lemma RefusedPerforms(w: World, s: State, o: nat, u: Upload, env: Service.Environment) returns (t: State)
    requires UploadIs(s, o, u) && u.at.Requested?
    requires Requested in env.raises || !Owned(s.datasets, u.datasetId, u.ownerId)
    ensures Performs(ServicesOf(w), s, o, env, t) && EndsAsRequested(w, s, t, o, u, env)
  {
    t := Put(s, o, At(u, Failed));
    assert Next(ServicesOf(w), s, EventOf(o, u, env)) == t;
    LastStepPerforms(ServicesOf(w), s, o, u, env, t);
  }

  lemma OwnedPerforms(w: World, s: State, o: nat, u: Upload, env: Service.Environment) returns (t: State)
    requires UploadIs(s, o, u) && u.at.Requested? && u.candidate.None? && u.installedKey.None? && !u.committed
    requires u.written == 0 && Candidate(env.candidate) !in s.files
    requires env.candidate !in s.issued && env.key !in s.issued && env.candidate != env.key
    requires Owned(s.datasets, u.datasetId, u.ownerId) && u.datasetId !in s.locks && Requested !in env.raises
    ensures Performs(ServicesOf(w), s, o, env, t) && EndsAsRequested(w, s, t, o, u, env)
  {
    var s1 := Put(s, o, At(u, Accepted));
    assert Next(ServicesOf(w), s, EventOf(o, u, env)) == CheckUploadOwner(s, o, u) == s1;
    t := AcceptedPerforms(w, s1, o, u.(at := Accepted), env);
    StepPerforms(ServicesOf(w), s, o, u, env, s1, t);
  }

  /**
   `UploadCsv` and the protocol are one upload: whatever statements the environment lets
   raise, the steps and faults of the protocol at exactly these points end in exactly the
   rows and files that the method promises, and in success exactly when it does.
   */
  lemma UploadCsvIsARequest(w: World, s: State, o: nat, ownerId: nat, datasetId: nat, filename: string,
                            source: Bytes, env: Service.Environment) returns (t: State)
    requires Inv(ServicesOf(w), s) && UploadIs(s, o, NewUpload(ownerId, datasetId, filename, source))
    requires env.candidate !in s.issued && env.key !in s.issued && env.candidate != env.key
    requires datasetId !in s.locks
    ensures Performs(ServicesOf(w), s, o, env, t)
    ensures End(t, o)
         == Service.UploadOutcome(w, Found(s), s.rules, ownerId, datasetId, filename,
                                  source, env)
  {
    var v, u := ServicesOf(w), NewUpload(ownerId, datasetId, filename, source);
    assert Candidate(env.candidate) !in s.files;
    if Requested in env.raises || !Owned(s.datasets, datasetId, ownerId) {
      t := RefusedPerforms(w, s, o, u, env);
    } else {
      t := OwnedPerforms(w, s, o, u, env);
    }
  }

  // ---------------------------------------------------------------- rules

  /** Rule creation ends at once: nothing is stored. */
  lemma CreationEnds(v: Services, s: State, o: nat, k: Creation, c: Choice, t: State)
    requires CreationIs(s, o, k) && Next(v, s, Advance(o, c)) == t
    ensures Leads(v, s, o, t)
  {
    LeadsToItself(v, t, o);
    StepLeads(v, s, o, c, t, t);
  }

  lemma RefusedRule(v: Services, s: State, o: nat, k: Creation) returns (t: State)
    requires CreationIs(s, o, k) && k.at.Admission?
    requires !Owned(s.datasets, k.datasetId, k.ownerId)
             || (k.datasetId !in s.locks && !HasColumn(s.datasets[k.datasetId], k.definition.targetColumn))
    ensures Leads(v, s, o, t) && CreationIs(t, o, k.(at := CreationFailed))
    ensures t.rules == s.rules && t.datasets == s.datasets && t.files == s.files
  {
    t := Refuse(s, o, k);
    assert Next(v, s, Advance(o, NOTHING)) == LockForRule(s, o, k) == t;
    CreationEnds(v, s, o, k, NOTHING, t);
  }

  lemma DuplicateRule(v: Services, s: State, o: nat, k: Creation) returns (t: State)
    requires CreationIs(s, o, k) && k.at.Admission?
    requires Owned(s.datasets, k.datasetId, k.ownerId) && k.datasetId !in s.locks
    requires HasColumn(s.datasets[k.datasetId], k.definition.targetColumn)
    requires DefinitionTaken(s.rules, k.datasetId, k.definition)
    ensures Leads(v, s, o, t) && o in t.operations && t.operations[o].Creating?
    ensures t.operations[o].creation.at.CreationFailed?
    ensures t.rules == s.rules && t.datasets == s.datasets && t.files == s.files
  {
    var next := k.(row := s.datasets[k.datasetId], at := Checked);
    var s1 := Put(Lock(s, k.datasetId, o), o, Creating(next));
    assert Next(v, s, Advance(o, NOTHING)) == LockForRule(s, o, k) == s1;
    t := RollBack(s1, o, next);
    assert Next(v, s1, Advance(o, NOTHING)) == StoreRule(s1, o, next, NOTHING) == t;
    CreationEnds(v, s1, o, next, NOTHING, t);
    StepLeads(v, s, o, NOTHING, s1, t);
  }

  ghost predicate RuleIsStored(t: State, o: nat) {
    o in t.operations && t.operations[o].Creating? && t.operations[o].creation.at.RuleStored?
  }

  /** `CreateRule` and the protocol store the same rule, or both none. */
  lemma CreateRuleIsARequest(w: World, s: State, o: nat, ownerId: nat, datasetId: nat, request: RuleRequest,
                             ruleId: nat, now: int) returns (t: State)
    requires o in s.operations
    requires s.operations[o] == Start(ServicesOf(w), Request.CreateRule(ownerId, datasetId, request))
    requires datasetId !in s.locks && ruleId !in s.issued && ruleId !in s.rules
    ensures Leads(ServicesOf(w), s, o, t) && o in t.operations && Ended(t.operations[o])
    ensures t.datasets == s.datasets && t.files == s.files
    ensures RuleIsStored(t, o) <==> Service.RuleAccepted(w, s.datasets, s.rules, ownerId, datasetId, request)
    ensures t.rules == if RuleIsStored(t, o)
                       then s.rules[ruleId := RuleRow(datasetId, Admit(w, request).value, now)] else s.rules
  {
    var v := ServicesOf(w);
    assert v.admit(request) == Admit(w, request);
    if Admit(w, request).None? {
      t := s;
      LeadsToItself(v, s, o);
      return;
    }
    var k := s.operations[o].creation;
    if !Owned(s.datasets, datasetId, ownerId) || !HasColumn(s.datasets[datasetId], request.targetColumn) {
      t := RefusedRule(v, s, o, k);
    } else if DefinitionTaken(s.rules, datasetId, k.definition) {
      t := DuplicateRule(v, s, o, k);
    } else {
      t := RuleCanBeCreated(v, s, o, k, Choice(ruleId, now, []));
    }
  }

  ghost predicate RuleIsDeleted(t: State, o: nat) {
    o in t.operations && t.operations[o].Deleting? && t.operations[o].deletion.at.RuleDeleted?
  }

  /** A deletion that finds no dataset or no rule. */
  lemma RefusedDeletion(v: Services, s: State, o: nat, x: Deletion) returns (t: State)
    requires o in s.operations && s.operations[o] == Deleting(x) && x.at.DeletionRequested?
    requires !Service.RuleOfOwner(s.datasets, s.rules, x.ownerId, x.datasetId, x.ruleId)
    ensures Leads(v, s, o, t) && o in t.operations && t.operations[o] == Deleting(x.(at := DeletionFailed))
    ensures t.rules == s.rules && t.datasets == s.datasets && t.files == s.files
  {
    t := Put(s, o, Deleting(x.(at := DeletionFailed)));
    LeadsToItself(v, t, o);
    if !Owned(s.datasets, x.datasetId, x.ownerId) {
      assert Next(v, s, Advance(o, NOTHING)) == AdvanceDeletion(s, o, x) == t;
      StepLeads(v, s, o, NOTHING, t, t);
      return;
    }
    var s1 := Put(s, o, Deleting(x.(at := OwnerChecked)));
    assert Next(v, s, Advance(o, NOTHING)) == AdvanceDeletion(s, o, x) == s1;
    assert Next(v, s1, Advance(o, NOTHING)) == AdvanceDeletion(s1, o, x.(at := OwnerChecked)) == t;
    StepLeads(v, s1, o, NOTHING, t, t);
    StepLeads(v, s, o, NOTHING, s1, t);
  }

  /** `DeleteRule` and the protocol delete the same rule, or both none. */
  lemma DeleteRuleIsARequest(v: Services, s: State, o: nat, ownerId: nat, datasetId: nat, ruleId: nat)
    returns (t: State)
    requires o in s.operations && s.operations[o] == Start(v, Request.DeleteRule(ownerId, datasetId, ruleId))
    ensures Leads(v, s, o, t) && o in t.operations && Ended(t.operations[o])
    ensures t.datasets == s.datasets && t.files == s.files
    ensures RuleIsDeleted(t, o) <==> Service.RuleOfOwner(s.datasets, s.rules, ownerId, datasetId, ruleId)
    ensures t.rules == if RuleIsDeleted(t, o) then Without(s.rules, ruleId) else s.rules
  {
    var x := s.operations[o].deletion;
    if Service.RuleOfOwner(s.datasets, s.rules, ownerId, datasetId, ruleId) {
      t := RuleCanBeDeleted(v, s, o, x);
    } else {
      t := RefusedDeletion(v, s, o, x);
    }
  }

  // ---------------------------------------------------------------- analyses

  lemma AnalysisWithoutRules(v: Services, s: State, o: nat, a: Analysis, c: Choice) returns (t: State)
    requires AnalysisIs(s, o, a) && a.at.AnalysisRequested? && a.datasetId !in s.locks
    requires Owned(s.datasets, a.datasetId, a.ownerId) && Complete(s.datasets[a.datasetId])
    requires IsRuleListing(s.rules, a.datasetId, c.listing) && c.listing == []
    ensures Leads(v, s, o, t) && o in t.operations && t.operations[o].Analyzing?
    ensures t.operations[o].analysis.at.AnalysisFailed?
    ensures HistoryKept(s, t) && t.datasets == s.datasets && t.files == s.files
  {
    var locked := a.(row := s.datasets[a.datasetId], at := RowRead);
    var s1 := Put(Lock(s, a.datasetId, o), o, Analyzing(locked));
    assert Next(v, s, Advance(o, c)) == LockForAnalysis(s, o, a) == s1;
    t := ReleaseRow(s1, o, locked, AnalysisFailed);
    assert Next(v, s1, Advance(o, c)) == ReadRules(s1, o, locked, c) == t;
    LeadsToItself(v, t, o);
    StepLeads(v, s1, o, c, t, t);
    StepLeads(v, s, o, c, s1, t);
  }

  /** An analysis of a foreign or incomplete dataset, or of one without rules. */
  lemma RefusedAnalysis(v: Services, s: State, o: nat, a: Analysis, c: Choice) returns (t: State)
    requires AnalysisIs(s, o, a) && a.at.AnalysisRequested? && a.datasetId !in s.locks
    requires IsRuleListing(s.rules, a.datasetId, c.listing)
    requires !Owned(s.datasets, a.datasetId, a.ownerId) || !Complete(s.datasets[a.datasetId]) || c.listing == []
    ensures Leads(v, s, o, t) && o in t.operations && t.operations[o].Analyzing?
    ensures t.operations[o].analysis.at.AnalysisFailed?
    ensures HistoryKept(s, t) && t.datasets == s.datasets && t.files == s.files
  {
    if !Owned(s.datasets, a.datasetId, a.ownerId) || !Complete(s.datasets[a.datasetId]) {
      t := Put(s, o, Analyzing(a.(at := AnalysisFailed)));
      assert Next(v, s, Advance(o, c)) == LockForAnalysis(s, o, a) == t;
      LeadsToItself(v, t, o);
      StepLeads(v, s, o, c, t, t);
      return;
    }
    t := AnalysisWithoutRules(v, s, o, a, c);
  }

  /** A file that its row describes passes every check of the snapshot. */
  lemma DescribedIsVerified(w: World, files: map<FileName, Bytes>, row: DatasetRow)
    requires Complete(row) && Stored(row.storageKey.value) in files
    requires Describes(ServicesOf(w), row, files[Stored(row.storageKey.value)])
    ensures Analyses.Verified(w, Analyses.ActiveFile(files, row), SourceOf(row))
         == Ok(files[Stored(row.storageKey.value)])
  {
  }

  /** On tables that the invariant describes, a snapshot of a complete dataset is always verified and computed. */
  lemma CanRecordIff(w: World, s: State, ownerId: nat, datasetId: nat, listing: seq<RuleSnapshot>)
    requires Inv(ServicesOf(w), s) && IsRuleListing(s.rules, datasetId, listing)
    requires Owned(s.datasets, datasetId, ownerId) && Complete(s.datasets[datasetId]) && listing != []
    ensures Stored(s.datasets[datasetId].storageKey.value) in s.files
    ensures var row := s.datasets[datasetId];
      var computed := Compute(w, SourceOf(row), listing, s.files[Stored(row.storageKey.value)]);
      computed.Ok? && (Analyses.CanRecord(w, s.datasets, s.files, ownerId, datasetId, listing)
                       <==> Storable(computed.value.results))
  {
    var row := s.datasets[datasetId];
    CommittedIsCoherent(w, s, datasetId, listing);
    CoherentSnapshotComputes(w, SourceOf(row), listing, s.files[Stored(row.storageKey.value)]);
    DescribedIsVerified(w, s.files, row);
  }

  /** `CreateAnalysis` and the protocol record the same analysis, or both none. */
  lemma CreateAnalysisIsARequest(w: World, s: State, o: nat, ownerId: nat, datasetId: nat, c: Choice)
    returns (t: State)
    requires Inv(ServicesOf(w), s) && o in s.operations
    requires s.operations[o] == Start(ServicesOf(w), Request.CreateAnalysis(ownerId, datasetId))
    requires datasetId !in s.locks && c.uuid !in s.issued && c.uuid !in s.analyses
    requires IsRuleListing(s.rules, datasetId, c.listing)
    ensures Leads(ServicesOf(w), s, o, t) && o in t.operations && Ended(t.operations[o])
    ensures t.datasets == s.datasets && t.files == s.files
    ensures HasRecorded(t, o) <==> Analyses.CanRecord(w, s.datasets, s.files, ownerId, datasetId, c.listing)
    ensures !HasRecorded(t, o) ==> HistoryKept(s, t)
    ensures HasRecorded(t, o) ==>
      var row := s.datasets[datasetId];
      var computed := Compute(w, SourceOf(row), c.listing, s.files[Stored(row.storageKey.value)]).value;
      && t.analyses == s.analyses[c.uuid := AnalysisRow(datasetId, SourceOf(row), computed.totalViolations,
                                                        computed.score, c.now)]
      && t.results == InsertResults(s.results, c.uuid, computed.results)
  {
    var v, a := ServicesOf(w), s.operations[o].analysis;
    if !Owned(s.datasets, datasetId, ownerId) || !Complete(s.datasets[datasetId]) || c.listing == [] {
      t := RefusedAnalysis(v, s, o, a, c);
      return;
    }
    ServicesAreLawful(w);
    CanRecordIff(w, s, ownerId, datasetId, c.listing);
    t := AnalysisCanSucceed(v, s, o, a, c);
    ServicesCompute(w, SourceOf(s.datasets[datasetId]), c.listing,
                    s.files[Stored(s.datasets[datasetId].storageKey.value)]);
  }
}
