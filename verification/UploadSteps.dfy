/** Every step of an upload, and every exception it can meet, keeps the invariant. */
module UploadSteps {
  import opened Wrappers
  import opened Csv
  import opened Protocol
  import opened Invariant

  // Each step that can be taken has three lemmas: what the upload knows afterwards (`Point`),
  // that the resulting state is good (`Good`), and that the step is that one (`Keeps`).

  // ---------------------------------------------------------------- exceptions

  lemma RaisedPoint(v: Services, s: State, o: nat, u: Upload, x: Exception)
    requires UploadSound(v, s, o, u) && !UploadHoldsLock(u) && !GivesUp(u.at) && !u.at.Succeeded? && !u.at.Failed?
    ensures UploadSound(v, Put(s, o, At(u, Handler(u.at, x))), o, u.(at := Handler(u.at, x)))
  {
    assert UploadNames(Put(s, o, At(u, Handler(u.at, x))), o, u.(at := Handler(u.at, x)));
  }

  /** An exception, or a refusal, outside the transaction and before anything must be given up. */
  lemma RaisedGood(v: Services, s: State, o: nat, u: Upload, x: Exception)
    requires Shared(v, s) && o in s.operations && s.operations[o] == Uploading(u)
    requires UploadSound(v, s, o, u) && !UploadHoldsLock(u) && !GivesUp(u.at) && !u.at.Succeeded? && !u.at.Failed?
    ensures Good(v, s, Put(s, o, At(u, Handler(u.at, x))), o)
  {
    RaisedPoint(v, s, o, u, x);
    LocalChangeGood(v, s, o, At(u, Handler(u.at, x)));
  }

  lemma RolledBackPoint(v: Services, s: State, o: nat, u: Upload)
    requires UploadSound(v, s, o, u) && UploadHoldsLock(u)
    ensures UploadSound(v, Put(Unlock(s, u.datasetId), o, At(u, Discarding)), o, u.(at := Discarding))
  {
    assert UploadNames(Put(Unlock(s, u.datasetId), o, At(u, Discarding)), o, u.(at := Discarding));
  }

  lemma OwnsLock(v: Services, s: State, o: nat, u: Upload)
    requires UploadSound(v, s, o, u) && UploadHoldsLock(u)
    ensures u.datasetId in s.locks && s.locks[u.datasetId] == o
  {
  }

  /** An exception, or a refusal, inside the transaction. */
  lemma RolledBackGood(v: Services, s: State, o: nat, u: Upload)
    requires Shared(v, s) && o in s.operations && s.operations[o] == Uploading(u)
    requires UploadSound(v, s, o, u) && UploadHoldsLock(u)
    ensures Good(v, s, Put(Unlock(s, u.datasetId), o, At(u, Discarding)), o)
  {
    RolledBackPoint(v, s, o, u);
    OwnsLock(v, s, o, u);
    ReleaseGood(v, s, o, At(u, Discarding), u.datasetId);
  }

  /** After the commit only the old file can be given up. */
  lemma SettledGivesUpPoint(v: Services, s: State, o: nat, u: Upload, x: Exception)
    requires UploadSound(v, s, o, u) && (u.at.Committed? || u.at.Superseding?) && NamesIssued(s)
    ensures UploadSound(v, Put(Abandon(s, o), o, At(u, Handler(u.at, x))), o, u.(at := Handler(u.at, x)))
  {
    var t, next := Put(Abandon(s, o), o, At(u, Handler(u.at, x))), u.(at := Handler(u.at, x));
    assert UploadNames(t, o, next);
    assert CandidateGone(t, next);
  }

  lemma GivesUpEverything(s: State, o: nat, u: Upload)
    requires UploadNames(s, o, u) && (u.at.WriteCleanup? || u.at.Discarding? || u.at.Removing?)
    ensures var t, next := Put(Abandon(s, o), o, At(u, Failed)), u.(at := Failed);
      UploadNames(t, o, next) && NothingLeft(t, next)
  {
  }

  lemma FailureGivesUpPoint(v: Services, s: State, o: nat, u: Upload, x: Exception)
    requires UploadSound(v, s, o, u) && (u.at.WriteCleanup? || u.at.Discarding? || u.at.Removing?) && NamesIssued(s)
    ensures UploadSound(v, Put(Abandon(s, o), o, At(u, Handler(u.at, x))), o, u.(at := Handler(u.at, x)))
  {
    GivesUpEverything(s, o, u);
    assert Handler(u.at, x) == Failed;
  }

  lemma GivenUpGood(v: Services, s: State, o: nat, u: Upload, x: Exception)
    requires Shared(v, s) && o in s.operations && s.operations[o] == Uploading(u)
    requires UploadSound(v, s, o, u) && GivesUp(u.at)
    ensures Good(v, s, Put(Abandon(s, o), o, At(u, Handler(u.at, x))), o)
  {
    if u.at.Committed? || u.at.Superseding? {
      SettledGivesUpPoint(v, s, o, u, x);
    } else {
      FailureGivesUpPoint(v, s, o, u, x);
    }
    AbandonNamesGood(v, s, o, At(u, Handler(u.at, x)));
  }

  lemma FaultUploadKeeps(v: Services, s: State, o: nat, u: Upload, x: Exception)
    requires Shared(v, s) && o in s.operations && s.operations[o] == Uploading(u)
    requires UploadSound(v, s, o, u)
    ensures Good(v, s, FaultUpload(s, o, u, x), o)
  {
    if u.at.Succeeded? || u.at.Failed? {
      assert FaultUpload(s, o, u, x) == s;
      GoodStep(v, s, s, o, Uploading(u));
      return;
    }
    if UploadHoldsLock(u) {
      assert FaultUpload(s, o, u, x) == Put(Unlock(s, u.datasetId), o, At(u, Discarding));
      RolledBackGood(v, s, o, u);
      return;
    }
    if GivesUp(u.at) {
      assert FaultUpload(s, o, u, x) == Put(Abandon(s, o), o, At(u, Handler(u.at, x)));
      GivenUpGood(v, s, o, u, x);
      return;
    }
    assert FaultUpload(s, o, u, x) == Put(s, o, At(u, Handler(u.at, x)));
    RaisedGood(v, s, o, u, x);
  }

  // ---------------------------------------------------------------- before the transaction

  lemma AcceptedPoint(v: Services, s: State, o: nat, u: Upload)
    requires UploadSound(v, s, o, u) && u.at.Requested? && NamesIssued(s)
    ensures UploadSound(v, Put(s, o, At(u, Accepted)), o, u.(at := Accepted))
  {
  }

  lemma AcceptedGood(v: Services, s: State, o: nat, u: Upload)
    requires Shared(v, s) && o in s.operations && s.operations[o] == Uploading(u)
    requires UploadSound(v, s, o, u) && u.at.Requested?
    ensures Good(v, s, Put(s, o, At(u, Accepted)), o)
  {
    AcceptedPoint(v, s, o, u);
    LocalChangeGood(v, s, o, At(u, Accepted));
  }

  lemma CheckUploadOwnerKeeps(v: Services, s: State, o: nat, u: Upload)
    requires Shared(v, s) && o in s.operations && s.operations[o] == Uploading(u)
    requires UploadSound(v, s, o, u) && u.at.Requested?
    ensures Good(v, s, CheckUploadOwner(s, o, u), o)
  {
    if Owned(s.datasets, u.datasetId, u.ownerId) {
      assert CheckUploadOwner(s, o, u) == Put(s, o, At(u, Accepted));
      AcceptedGood(v, s, o, u);
      return;
    }
    assert CheckUploadOwner(s, o, u) == Put(s, o, At(u, Failed));
    RaisedGood(v, s, o, u, UnexpectedError);
  }

  function OpenedUpload(u: Upload, uuid: nat): Upload {
    u.(candidate := Some(uuid), written := 0, at := Writing)
  }

  function OpenedState(s: State, o: nat, u: Upload, uuid: nat): State {
    Put(Write(Reserve(s, uuid, Candidate(uuid), o), Candidate(uuid), []), o, Uploading(OpenedUpload(u, uuid)))
  }

  lemma OpenCandidatePoint(v: Services, s: State, o: nat, u: Upload, uuid: nat)
    requires UploadSound(v, s, o, u) && u.at.Accepted? && NamesIssued(s) && uuid !in s.issued
    ensures UploadSound(v, OpenedState(s, o, u, uuid), o, OpenedUpload(u, uuid))
  {
  }

  lemma OpenCandidateGood(v: Services, s: State, o: nat, u: Upload, uuid: nat)
    requires Shared(v, s) && o in s.operations && s.operations[o] == Uploading(u)
    requires UploadSound(v, s, o, u) && u.at.Accepted? && uuid !in s.issued
    ensures Good(v, s, OpenedState(s, o, u, uuid), o)
  {
    OpenCandidatePoint(v, s, o, u, uuid);
    FreshFileGood(v, s, o, Uploading(OpenedUpload(u, uuid)), Candidate(uuid), []);
  }

  lemma OpenCandidateKeeps(v: Services, s: State, o: nat, u: Upload, uuid: nat)
    requires Shared(v, s) && o in s.operations && s.operations[o] == Uploading(u)
    requires UploadSound(v, s, o, u) && u.at.Accepted?
    ensures Good(v, s, OpenCandidate(s, o, u, uuid), o)
  {
    if uuid in s.issued {
      assert OpenCandidate(s, o, u, uuid) == s;
      GoodStep(v, s, s, o, Uploading(u));
      return;
    }
    assert OpenCandidate(s, o, u, uuid) == OpenedState(s, o, u, uuid);
    OpenCandidateGood(v, s, o, u, uuid);
  }

  /** One more chunk is written; the candidate stays a prefix of the upload. */
  lemma AppendKeeps(v: Services, s: State, o: nat, u: Upload, size: nat)
    requires Shared(v, s) && o in s.operations && s.operations[o] == Uploading(u)
    requires UploadSound(v, s, o, u) && u.at.Writing? && size <= |u.source| && size <= MAX_CSV_BYTES
    ensures Good(v, s, Append(s, o, u, size), o)
  {
    var t, next := Append(s, o, u, size), u.(written := size, at := Writing);
    assert UploadNames(t, o, next);
    OwnWriteGood(v, s, o, Uploading(next), Candidate(u.candidate.value), u.source[..size]);
  }

  lemma WrittenGood(v: Services, s: State, o: nat, u: Upload)
    requires Shared(v, s) && o in s.operations && s.operations[o] == Uploading(u)
    requires UploadSound(v, s, o, u) && u.at.Writing? && u.written >= |u.source|
    ensures Good(v, s, Put(s, o, At(u, Written)), o)
  {
    assert u.source[..u.written] == u.source;
    assert UploadNames(Put(s, o, At(u, Written)), o, u.(at := Written));
    LocalChangeGood(v, s, o, At(u, Written));
  }

  /** A turn of the copying loop ends it, fails it or appends a chunk. */
  lemma WriteChunkIs(s: State, o: nat, u: Upload, size: nat)
    requires u.candidate.Some?
    requires u.written < |u.source| ==> size == u.written + Min(READ_CHUNK_BYTES, |u.source| - u.written)
    ensures u.written >= |u.source| ==> WriteChunk(s, o, u) == Put(s, o, At(u, Written))
    ensures u.written < |u.source| && size > MAX_CSV_BYTES ==> WriteChunk(s, o, u) == Put(s, o, At(u, WriteCleanup))
    ensures u.written < |u.source| && size <= MAX_CSV_BYTES ==> WriteChunk(s, o, u) == Append(s, o, u, size)
  {
  }

  lemma WriteChunkKeeps(v: Services, s: State, o: nat, u: Upload)
    requires Shared(v, s) && o in s.operations && s.operations[o] == Uploading(u)
    requires UploadSound(v, s, o, u) && u.at.Writing?
    ensures Good(v, s, WriteChunk(s, o, u), o)
  {
    var size := if u.written < |u.source| then u.written + Min(READ_CHUNK_BYTES, |u.source| - u.written) else 0;
    WriteChunkIs(s, o, u, size);
    if u.written >= |u.source| {
      WrittenGood(v, s, o, u);
      return;
    }
    if size > MAX_CSV_BYTES {
      RaisedGood(v, s, o, u, UnexpectedError);
      return;
    }
    AppendKeeps(v, s, o, u, size);
  }

  lemma CleanUpWritePoint(v: Services, s: State, o: nat, u: Upload)
    requires UploadSound(v, s, o, u) && u.at.WriteCleanup? && NamesIssued(s)
    ensures UploadSound(v, Put(Unlink(s, Candidate(u.candidate.value)), o, At(u, Failed)), o, u.(at := Failed))
  {
  }

  lemma CleanUpWriteOwns(v: Services, s: State, o: nat, u: Upload)
    requires NamesHeld(s) && o in s.operations && s.operations[o] == Uploading(u)
    requires UploadSound(v, s, o, u) && u.at.WriteCleanup?
    ensures var f := Candidate(u.candidate.value);
      Accounts(s, o, At(u, Failed), {f}) && (f in s.holders ==> HeldOnly(s, o, f))
  {
  }

  lemma CleanUpWriteGood(v: Services, s: State, o: nat, u: Upload)
    requires Shared(v, s) && o in s.operations && s.operations[o] == Uploading(u)
    requires UploadSound(v, s, o, u) && u.at.WriteCleanup?
    ensures Good(v, s, Put(Unlink(s, Candidate(u.candidate.value)), o, At(u, Failed)), o)
  {
    CleanUpWritePoint(v, s, o, u);
    CleanUpWriteOwns(v, s, o, u);
    OwnUnlinkGood(v, s, o, At(u, Failed), Candidate(u.candidate.value));
  }

  lemma CleanUpWriteKeeps(v: Services, s: State, o: nat, u: Upload)
    requires Shared(v, s) && o in s.operations && s.operations[o] == Uploading(u)
    requires UploadSound(v, s, o, u) && u.at.WriteCleanup?
    ensures Good(v, s, CleanUpWrite(s, o, u), o)
  {
    CleanUpWriteGood(v, s, o, u);
    assert CleanUpWrite(s, o, u) == Put(Unlink(s, Candidate(u.candidate.value)), o, At(u, Failed));
  }

  function ScannedUpload(u: Upload, c: Choice, structure: Structure): Upload {
    u.(structure := structure, now := c.now, newKey := Some(c.uuid), at := Scanned)
  }

  function ScannedState(s: State, o: nat, u: Upload, c: Choice, structure: Structure): State {
    Put(Reserve(s, c.uuid, Stored(c.uuid), o), o, Uploading(ScannedUpload(u, c, structure)))
  }

  lemma ScanCandidatePoint(v: Services, s: State, o: nat, u: Upload, c: Choice, structure: Structure)
    requires UploadSound(v, s, o, u) && u.at.Written? && NamesIssued(s)
    requires c.uuid !in s.issued && v.scan(u.source) == Some(structure)
    ensures UploadSound(v, ScannedState(s, o, u, c, structure), o, ScannedUpload(u, c, structure))
  {
  }

  /** The scan accepted the candidate: a fresh storage key is reserved. */
  lemma ScanAcceptedGood(v: Services, s: State, o: nat, u: Upload, c: Choice, structure: Structure)
    requires Shared(v, s) && o in s.operations && s.operations[o] == Uploading(u)
    requires UploadSound(v, s, o, u) && u.at.Written?
    requires c.uuid !in s.issued && v.scan(u.source) == Some(structure)
    ensures Good(v, s, ScannedState(s, o, u, c, structure), o)
  {
    ScanCandidatePoint(v, s, o, u, c, structure);
    FreshNameGood(v, s, o, Uploading(ScannedUpload(u, c, structure)), Stored(c.uuid));
  }

  lemma ScanCandidateIs(v: Services, s: State, o: nat, u: Upload, c: Choice)
    requires u.candidate.Some? && Candidate(u.candidate.value) in s.files
    requires s.files[Candidate(u.candidate.value)] == u.source
    ensures c.uuid in s.issued ==> ScanCandidate(v, s, o, u, c) == s
    ensures c.uuid !in s.issued && v.scan(u.source).None? ==>
      ScanCandidate(v, s, o, u, c) == Put(s, o, At(u, Discarding))
    ensures c.uuid !in s.issued && v.scan(u.source).Some? ==>
      ScanCandidate(v, s, o, u, c) == ScannedState(s, o, u, c, v.scan(u.source).value)
  {
  }

  lemma ScanCandidateKeeps(v: Services, s: State, o: nat, u: Upload, c: Choice)
    requires Shared(v, s) && o in s.operations && s.operations[o] == Uploading(u)
    requires UploadSound(v, s, o, u) && u.at.Written?
    ensures Good(v, s, ScanCandidate(v, s, o, u, c), o)
  {
    ScanCandidateIs(v, s, o, u, c);
    if c.uuid in s.issued {
      GoodStep(v, s, s, o, Uploading(u));
      return;
    }
    if v.scan(u.source).Some? {
      ScanAcceptedGood(v, s, o, u, c, v.scan(u.source).value);
      return;
    }
    RaisedGood(v, s, o, u, UnexpectedError);
  }

  // ---------------------------------------------------------------- the transaction

  function LockedUpload(u: Upload, row: DatasetRow): Upload {
    u.(row := row, at := Locked)
  }

  lemma LockForUploadPoint(v: Services, s: State, o: nat, u: Upload)
    requires UploadSound(v, s, o, u) && u.at.Scanned? && NamesIssued(s) && u.datasetId in s.datasets
    ensures var next := LockedUpload(u, s.datasets[u.datasetId]);
      UploadSound(v, Put(Lock(s, u.datasetId, o), o, Uploading(next)), o, next)
  {
  }

  lemma LockForUploadGood(v: Services, s: State, o: nat, u: Upload)
    requires Shared(v, s) && o in s.operations && s.operations[o] == Uploading(u)
    requires UploadSound(v, s, o, u) && u.at.Scanned? && u.datasetId in s.datasets && u.datasetId !in s.locks
    ensures Good(v, s, Put(Lock(s, u.datasetId, o), o, Uploading(LockedUpload(u, s.datasets[u.datasetId]))), o)
  {
    LockForUploadPoint(v, s, o, u);
    TakeLockGood(v, s, o, Uploading(LockedUpload(u, s.datasets[u.datasetId])), u.datasetId);
  }

  lemma LockForUploadKeeps(v: Services, s: State, o: nat, u: Upload)
    requires Shared(v, s) && o in s.operations && s.operations[o] == Uploading(u)
    requires UploadSound(v, s, o, u) && u.at.Scanned?
    ensures Good(v, s, LockForUpload(s, o, u), o)
  {
    if !Owned(s.datasets, u.datasetId, u.ownerId) {
      assert LockForUpload(s, o, u) == Put(s, o, At(u, Discarding));
      RaisedGood(v, s, o, u, UnexpectedError);
      return;
    }
    if u.datasetId in s.locks {
      assert LockForUpload(s, o, u) == s;
      GoodStep(v, s, s, o, Uploading(u));
      return;
    }
    assert LockForUpload(s, o, u)
        == Put(Lock(s, u.datasetId, o), o, Uploading(LockedUpload(u, s.datasets[u.datasetId])));
    LockForUploadGood(v, s, o, u);
  }

  function MarkedUpload(u: Upload): Upload {
    u.(oldKey := u.row.storageKey, installedKey := u.newKey, at := Marked)
  }

  lemma CheckCompatiblePoint(v: Services, s: State, o: nat, u: Upload)
    requires UploadSound(v, s, o, u) && u.at.Locked? && NamesIssued(s) && RowsBacked(v, s)
    requires TargetsWithin(s.rules, u.datasetId, u.structure.columns)
    ensures UploadSound(v, Put(s, o, Uploading(MarkedUpload(u))), o, MarkedUpload(u))
  {
    assert RowBacked(v, s, u.datasetId);
  }

  lemma CompatibleGood(v: Services, s: State, o: nat, u: Upload)
    requires Shared(v, s) && o in s.operations && s.operations[o] == Uploading(u)
    requires UploadSound(v, s, o, u) && u.at.Locked? && TargetsWithin(s.rules, u.datasetId, u.structure.columns)
    ensures Good(v, s, Put(s, o, Uploading(MarkedUpload(u))), o)
  {
    CheckCompatiblePoint(v, s, o, u);
    LocalChangeGood(v, s, o, Uploading(MarkedUpload(u)));
  }

  lemma CheckCompatibleKeeps(v: Services, s: State, o: nat, u: Upload)
    requires Shared(v, s) && o in s.operations && s.operations[o] == Uploading(u)
    requires UploadSound(v, s, o, u) && u.at.Locked?
    ensures Good(v, s, CheckCompatible(s, o, u), o)
  {
    if TargetsWithin(s.rules, u.datasetId, u.structure.columns) {
      assert CheckCompatible(s, o, u) == Put(s, o, Uploading(MarkedUpload(u)));
      CompatibleGood(v, s, o, u);
      return;
    }
    assert CheckCompatible(s, o, u) == Put(Unlock(s, u.datasetId), o, At(u, Discarding));
    RolledBackGood(v, s, o, u);
  }

  lemma InstallPoint(v: Services, s: State, o: nat, u: Upload)
    requires UploadSound(v, s, o, u) && u.at.Marked? && NamesIssued(s)
    ensures UploadSound(v, Put(Rename(s, Candidate(u.candidate.value), Stored(u.installedKey.value)), o,
                               At(u, Installed)), o, u.(at := Installed))
  {
  }

  lemma InstallOwns(v: Services, s: State, o: nat, u: Upload)
    requires NamesHeld(s) && o in s.operations && s.operations[o] == Uploading(u)
    requires UploadSound(v, s, o, u) && u.at.Marked?
    ensures var f, g := Candidate(u.candidate.value), Stored(u.installedKey.value);
      f in s.files && HeldOnly(s, o, f) && HeldOnly(s, o, g) && Accounts(s, o, At(u, Installed), {f})
  {
  }

  lemma InstallGood(v: Services, s: State, o: nat, u: Upload)
    requires Shared(v, s) && o in s.operations && s.operations[o] == Uploading(u)
    requires UploadSound(v, s, o, u) && u.at.Marked?
    ensures Good(v, s, Put(Rename(s, Candidate(u.candidate.value), Stored(u.installedKey.value)), o,
                           At(u, Installed)), o)
  {
    InstallPoint(v, s, o, u);
    InstallOwns(v, s, o, u);
    OwnRenameGood(v, s, o, At(u, Installed), Candidate(u.candidate.value), Stored(u.installedKey.value));
  }

  lemma InstallKeeps(v: Services, s: State, o: nat, u: Upload)
    requires Shared(v, s) && o in s.operations && s.operations[o] == Uploading(u)
    requires UploadSound(v, s, o, u) && u.at.Marked?
    ensures Good(v, s, Install(s, o, u), o)
  {
    InstallGood(v, s, o, u);
    assert Install(s, o, u)
        == Put(Rename(s, Candidate(u.candidate.value), Stored(u.installedKey.value)), o, At(u, Installed));
  }

  lemma FlushedPoint(v: Services, s: State, o: nat, u: Upload)
    requires UploadSound(v, s, o, u) && u.at.Installed? && NamesIssued(s) && SatisfiesChecks(UpdatedRow(v, u))
    ensures UploadSound(v, Put(s, o, At(u, Flushed)), o, u.(at := Flushed))
  {
  }

  lemma FlushedGood(v: Services, s: State, o: nat, u: Upload)
    requires Shared(v, s) && o in s.operations && s.operations[o] == Uploading(u)
    requires UploadSound(v, s, o, u) && u.at.Installed? && SatisfiesChecks(UpdatedRow(v, u))
    ensures Good(v, s, Put(s, o, At(u, Flushed)), o)
  {
    FlushedPoint(v, s, o, u);
    LocalChangeGood(v, s, o, At(u, Flushed));
  }

  lemma FlushRowKeeps(v: Services, s: State, o: nat, u: Upload)
    requires Shared(v, s) && o in s.operations && s.operations[o] == Uploading(u)
    requires UploadSound(v, s, o, u) && u.at.Installed?
    ensures Good(v, s, FlushRow(v, s, o, u), o)
  {
    if SatisfiesChecks(UpdatedRow(v, u)) {
      assert FlushRow(v, s, o, u) == Put(s, o, At(u, Flushed));
      FlushedGood(v, s, o, u);
      return;
    }
    assert FlushRow(v, s, o, u) == Put(Unlock(s, u.datasetId), o, At(u, Discarding));
    RolledBackGood(v, s, o, u);
  }

  // ---------------------------------------------------------------- after the commit, and the handler

  lemma ClosedPoint(v: Services, s: State, o: nat, u: Upload, at: UploadPoint)
    requires UploadSound(v, s, o, u) && u.at.Committed? && NamesIssued(s)
    requires at == if u.oldKey.Some? then Superseding else Succeeded
    ensures UploadSound(v, Put(s, o, At(u, at)), o, u.(at := at))
  {
  }

  lemma ClosedGood(v: Services, s: State, o: nat, u: Upload, at: UploadPoint)
    requires Shared(v, s) && o in s.operations && s.operations[o] == Uploading(u)
    requires UploadSound(v, s, o, u) && u.at.Committed?
    requires at == if u.oldKey.Some? then Superseding else Succeeded
    ensures Good(v, s, Put(s, o, At(u, at)), o)
  {
    ClosedPoint(v, s, o, u, at);
    LocalChangeGood(v, s, o, At(u, at));
  }

  lemma CloseSessionKeeps(v: Services, s: State, o: nat, u: Upload)
    requires Shared(v, s) && o in s.operations && s.operations[o] == Uploading(u)
    requires UploadSound(v, s, o, u) && u.at.Committed?
    ensures Good(v, s, CloseSession(s, o, u), o)
  {
    var at := if u.oldKey.Some? then Superseding else Succeeded;
    ClosedGood(v, s, o, u, at);
    assert CloseSession(s, o, u) == Put(s, o, At(u, at));
  }

  lemma RemoveOldPoint(v: Services, s: State, o: nat, u: Upload)
    requires UploadSound(v, s, o, u) && u.at.Superseding? && NamesIssued(s)
    ensures UploadSound(v, Put(Unlink(s, Stored(u.oldKey.value)), o, At(u, Succeeded)), o, u.(at := Succeeded))
  {
  }

  lemma RemoveOldKeeps(v: Services, s: State, o: nat, u: Upload)
    requires Shared(v, s) && o in s.operations && s.operations[o] == Uploading(u)
    requires UploadSound(v, s, o, u) && u.at.Superseding?
    ensures Good(v, s, RemoveOld(s, o, u), o)
  {
    RemoveOldPoint(v, s, o, u);
    OwnUnlinkGood(v, s, o, At(u, Succeeded), Stored(u.oldKey.value));
    assert RemoveOld(s, o, u) == Put(Unlink(s, Stored(u.oldKey.value)), o, At(u, Succeeded));
  }

  lemma DiscardedPoint(v: Services, s: State, o: nat, u: Upload)
    requires UploadSound(v, s, o, u) && u.at.Discarding? && u.installedKey.Some? && !u.committed && NamesIssued(s)
    ensures UploadSound(v, Put(Unlink(s, Candidate(u.candidate.value)), o, At(u, Removing)), o, u.(at := Removing))
  {
  }

  lemma DiscardedGood(v: Services, s: State, o: nat, u: Upload)
    requires Shared(v, s) && o in s.operations && s.operations[o] == Uploading(u)
    requires UploadSound(v, s, o, u) && u.at.Discarding? && u.installedKey.Some? && !u.committed
    ensures Good(v, s, Put(Unlink(s, Candidate(u.candidate.value)), o, At(u, Removing)), o)
  {
    DiscardedPoint(v, s, o, u);
    OwnUnlinkGood(v, s, o, At(u, Removing), Candidate(u.candidate.value));
  }

  lemma HandledPoint(v: Services, s: State, o: nat, u: Upload)
    requires UploadSound(v, s, o, u) && u.at.Discarding? && NamesIssued(s)
    ensures UploadSound(v, Put(Abandon(Unlink(s, Candidate(u.candidate.value)), o), o, At(u, Failed)), o,
                        u.(at := Failed))
  {
  }

  lemma HandledGood(v: Services, s: State, o: nat, u: Upload)
    requires Shared(v, s) && o in s.operations && s.operations[o] == Uploading(u)
    requires UploadSound(v, s, o, u) && u.at.Discarding?
    ensures Good(v, s, Put(Abandon(Unlink(s, Candidate(u.candidate.value)), o), o, At(u, Failed)), o)
  {
    HandledPoint(v, s, o, u);
    UnlinkAndAbandonGood(v, s, o, At(u, Failed), Candidate(u.candidate.value));
  }

  lemma DiscardCandidateKeeps(v: Services, s: State, o: nat, u: Upload)
    requires Shared(v, s) && o in s.operations && s.operations[o] == Uploading(u)
    requires UploadSound(v, s, o, u) && u.at.Discarding?
    ensures Good(v, s, DiscardCandidate(s, o, u), o)
  {
    var f := Candidate(u.candidate.value);
    if u.installedKey.Some? && !u.committed {
      assert DiscardCandidate(s, o, u) == Put(Unlink(s, f), o, At(u, Removing));
      DiscardedGood(v, s, o, u);
      return;
    }
    assert DiscardCandidate(s, o, u) == Put(Abandon(Unlink(s, f), o), o, At(u, Failed));
    HandledGood(v, s, o, u);
  }

  lemma RemoveInstalledPoint(v: Services, s: State, o: nat, u: Upload)
    requires UploadSound(v, s, o, u) && u.at.Removing? && NamesIssued(s)
    ensures UploadSound(v, Put(Unlink(s, Stored(u.installedKey.value)), o, At(u, Failed)), o, u.(at := Failed))
  {
  }

  lemma RemoveInstalledKeeps(v: Services, s: State, o: nat, u: Upload)
    requires Shared(v, s) && o in s.operations && s.operations[o] == Uploading(u)
    requires UploadSound(v, s, o, u) && u.at.Removing?
    ensures Good(v, s, RemoveInstalled(s, o, u), o)
  {
    RemoveInstalledPoint(v, s, o, u);
    OwnUnlinkGood(v, s, o, At(u, Failed), Stored(u.installedKey.value));
    assert RemoveInstalled(s, o, u) == Put(Unlink(s, Stored(u.installedKey.value)), o, At(u, Failed));
  }

  // ---------------------------------------------------------------- commit

  function OldName(u: Upload): Option<FileName> {
    if u.oldKey.Some? then Some(Stored(u.oldKey.value)) else None
  }

  function ActiveName(row: DatasetRow): Option<FileName> {
    if row.storageKey.Some? then Some(Stored(row.storageKey.value)) else None
  }

  /** The commit hands the new file to the row and the superseded one to the operation. */
  ghost predicate HandsOver(v: Services, s: State, t: State, o: nat, u: Upload)
    requires u.newKey.Some?
  {
    && t.files == s.files && t.rules == s.rules && t.issued == s.issued
    && t.datasets == s.datasets[u.datasetId := UpdatedRow(v, u)]
    && t.operations == s.operations[o := At(u.(committed := true), Committed)]
    && (forall d :: d in t.locks <==> d in s.locks && d != u.datasetId)
    && (forall d :: d in t.locks ==> t.locks[d] == s.locks[d])
    && (forall f :: f in t.holders <==> f in s.holders)
    && (forall f :: f in t.holders ==>
          t.holders[f] == if f == Stored(u.newKey.value) then HeldByRow(u.datasetId)
                          else if Some(f) == OldName(u) then HeldByOperation(o)
                          else s.holders[f])
    && HeldOnly(s, o, Stored(u.newKey.value))
    && (OldName(u).Some? ==>
          OldName(u).value in s.holders && s.holders[OldName(u).value] == HeldByRow(u.datasetId))
  }

  lemma CommitHandsOver(v: Services, s: State, o: nat, u: Upload)
    requires RowsBacked(v, s) && UploadSound(v, s, o, u) && u.at.Flushed?
    ensures HandsOver(v, s, CommitUpload(v, s, o, u), o, u)
  {
    assert RowBacked(v, s, u.datasetId);
  }

  lemma CommitRowHolders(v: Services, s: State, t: State, o: nat, u: Upload)
    requires NamesHeld(s) && u.newKey.Some? && HandsOver(v, s, t, o, u)
    requires u.datasetId in s.datasets && s.datasets[u.datasetId].storageKey == u.oldKey
    ensures forall f :: f in t.holders && t.holders[f].HeldByRow? ==>
      t.holders[f].datasetId in t.datasets && Some(f) == ActiveName(t.datasets[t.holders[f].datasetId])
  {
    forall f | f in t.holders && t.holders[f].HeldByRow?
      ensures t.holders[f].datasetId in t.datasets
           && Some(f) == ActiveName(t.datasets[t.holders[f].datasetId])
    {
      if f != Stored(u.newKey.value) {
        assert f == Stored(s.datasets[s.holders[f].datasetId].storageKey.value);
      }
    }
  }

  lemma CommitOperationHolders(v: Services, s: State, t: State, o: nat, u: Upload)
    requires NamesHeld(s) && o in s.operations && s.operations[o] == Uploading(u)
    requires u.at.Flushed? && u.newKey.Some? && HandsOver(v, s, t, o, u) && CandidateGone(s, u)
    ensures forall f :: f in t.holders && t.holders[f].HeldByOperation? ==>
      t.holders[f].operation in t.operations && AnswersFor(t.operations[t.holders[f].operation], f)
  {
    forall f | f in t.holders && t.holders[f].HeldByOperation?
      ensures t.holders[f].operation in t.operations && AnswersFor(t.operations[t.holders[f].operation], f)
    {
      if Some(f) != OldName(u) {
        assert AnswersFor(s.operations[s.holders[f].operation], f);
      }
    }
  }

  lemma CommitNames(v: Services, s: State, t: State, o: nat, u: Upload)
    requires NamesHeld(s) && o in s.operations && s.operations[o] == Uploading(u)
    requires u.at.Flushed? && u.newKey.Some? && HandsOver(v, s, t, o, u)
    requires u.datasetId in s.datasets && s.datasets[u.datasetId].storageKey == u.oldKey && CandidateGone(s, u)
    ensures NamesHeld(t)
  {
    CommitRowHolders(v, s, t, o, u);
    CommitOperationHolders(v, s, t, o, u);
  }

  lemma CommitRelies(v: Services, s: State, t: State, o: nat, u: Upload)
    requires o in s.operations && u.newKey.Some? && HandsOver(v, s, t, o, u)
    requires u.datasetId in s.locks && s.locks[u.datasetId] == o
    ensures Rely(s, t, o)
  {
  }

  lemma CommitRows(v: Services, s: State, o: nat, u: Upload)
    requires RowsBacked(v, s) && UploadSound(v, s, o, u) && u.at.Flushed?
    ensures RowsBacked(v, CommitUpload(v, s, o, u))
  {
    var t := CommitUpload(v, s, o, u);
    CommitHandsOver(v, s, o, u);
    forall d | d in t.datasets ensures d in t.issued && RowBacked(v, t, d) {
      assert RowBacked(v, s, d);
    }
  }

  lemma CommitRules(v: Services, s: State, t: State, o: nat, u: Upload)
    requires RulesSound(v, s) && u.newKey.Some? && HandsOver(v, s, t, o, u)
    requires TargetsWithin(s.rules, u.datasetId, u.structure.columns)
    ensures RulesSound(v, t)
  {
    forall r | r in t.rules ensures RuleSound(v, t, r) {
      assert RuleSound(v, s, r);
    }
  }

  lemma CommitUploadPoint(v: Services, s: State, o: nat, u: Upload)
    requires RowsBacked(v, s)
    requires UploadSound(v, s, o, u) && u.at.Flushed?
    ensures UploadSound(v, CommitUpload(v, s, o, u), o, u.(committed := true, at := Committed))
  {
    assert RowBacked(v, s, u.datasetId);
  }

  lemma CommitUploadKeeps(v: Services, s: State, o: nat, u: Upload)
    requires Shared(v, s) && o in s.operations && s.operations[o] == Uploading(u)
    requires UploadSound(v, s, o, u) && u.at.Flushed?
    ensures Good(v, s, CommitUpload(v, s, o, u), o)
  {
    CommitHandsOver(v, s, o, u);
    CommitNames(v, s, CommitUpload(v, s, o, u), o, u);
    CommitRelies(v, s, CommitUpload(v, s, o, u), o, u);
    CommitRows(v, s, o, u);
    CommitRules(v, s, CommitUpload(v, s, o, u), o, u);
    CommitUploadPoint(v, s, o, u);
  }
}
