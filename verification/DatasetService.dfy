/**
 `DatasetService` as one request runs it: nothing else interleaves, but any statement may
 raise. `Protocol` models the same operations step by step and in all interleavings.
 */
module DatasetService {
  import opened Wrappers
  import opened External
  import opened Csv
  import opened Configuration
  import opened Protocol
  import opened Storage

  datatype UploadError =
    | DatasetNotFound
    | StorageFailed(error: StorageError)
    | InvalidCsv
    | IncompatibleUpload
    | ConstraintViolated
    | Interrupted        // an exception of the environment
    | CloseFailed        // an exception after the commit
    | RemovalFailed      // the superseded file could not be removed, and not for an OSError

  datatype RuleError = InvalidRule | NoDataset | NotReady | UnknownColumn | DuplicateRule | OtherConstraint

  /** What the environment contributes to one upload: identifiers, the clock and the statements that raise. */
  datatype Environment = Environment(
    candidate: nat,
    key: nat,
    now: int,
    readFailure: Option<nat>,
    raises: set<UploadPoint>,
    unexpected: bool)   // what removing the superseded file raises is no OSError

  /** The points at which an exception prevents the commit or follows it. */
  const GUARDED: set<UploadPoint> :=
    {Requested, Accepted, Written, Scanned, Locked, Marked, Installed, Flushed, Committed}

  function NewRow(w: World, row: DatasetRow, filename: string, source: Bytes, structure: Structure,
                  env: Environment): DatasetRow
  {
    UploadedRow(row, filename, w.digest(source), |source|, structure, env.key, env.now)
  }

  // ---------------------------------------------------------------- the outcome of one upload

  /** Rows and files as an upload leaves them, and whether its caller gets a result. */
  datatype Outcome = Outcome(datasets: map<nat, DatasetRow>, files: map<FileName, Bytes>, succeeded: bool)

  /** The upload has a superseded file to remove. */
  predicate Supersedes(oldKey: Option<nat>, env: Environment) {
    oldKey.Some? && oldKey != Some(env.key)
  }

  /** The files after the exception handler. */
  function Compensated(files: map<FileName, Bytes>, candidate: nat, installedKey: Option<nat>, committed: bool,
                       env: Environment): map<FileName, Bytes>
  {
    if Discarding in env.raises then files
    else if installedKey.Some? && !committed && Removing !in env.raises then
      Without(Without(files, Candidate(candidate)), Stored(installedKey.value))
    else Without(files, Candidate(candidate))
  }

  /** From the commit on: close, remove the superseded file. */
  function AfterCommit(t: Outcome, oldKey: Option<nat>, env: Environment): Outcome {
    if Committed in env.raises then
      Outcome(t.datasets, Compensated(t.files, env.candidate, Some(env.key), true, env), false)
    else if !Supersedes(oldKey, env) then t.(succeeded := true)
    else if Superseding in env.raises then t.(succeeded := !env.unexpected)
    else Outcome(t.datasets, Without(t.files, Stored(oldKey.value)), true)
  }

  /** From the rename on: flush, then commit. */
  function AfterInstall(t: Outcome, datasetId: nat, row: DatasetRow, oldKey: Option<nat>, env: Environment): Outcome {
    if Installed in env.raises || !SatisfiesChecks(row) || Flushed in env.raises then
      t.(files := Compensated(t.files, env.candidate, Some(env.key), false, env))
    else AfterCommit(t.(datasets := t.datasets[datasetId := row]), oldKey, env)
  }

  /** From the row lock on. */
  function AfterScan(w: World, t: Outcome, rules: map<nat, RuleRow>, ownerId: nat, datasetId: nat, filename: string,
                     source: Bytes, structure: Structure, env: Environment): Outcome
  {
    if env.raises !! {Scanned, Locked} && Owned(t.datasets, datasetId, ownerId)
       && TargetsWithin(rules, datasetId, structure.columns)
    then
      if Marked in env.raises then t.(files := Compensated(t.files, env.candidate, Some(env.key), false, env))
      else
        AfterInstall(t.(files := Without(t.files, Candidate(env.candidate))[Stored(env.key) := source]), datasetId,
                     NewRow(w, t.datasets[datasetId], filename, source, structure, env),
                     t.datasets[datasetId].storageKey, env)
    else t.(files := Compensated(t.files, env.candidate, None, false, env))
  }

  /** From the complete candidate on. */
  function AfterWrite(w: World, t: Outcome, rules: map<nat, RuleRow>, ownerId: nat, datasetId: nat, filename: string,
                      source: Bytes, env: Environment): Outcome
  {
    if Written in env.raises || StructureOf(w, source).None? then
      t.(files := Compensated(t.files, env.candidate, None, false, env))
    else AfterScan(w, t, rules, ownerId, datasetId, filename, source, StructureOf(w, source).value, env)
  }

  function Prefix(source: Bytes, n: nat): Bytes {
    source[..Min(n, |source|)]
  }

  /** Rows, files and result of `upload_csv`, whatever raises; `t` is what it finds. */
  function UploadOutcome(w: World, t: Outcome, rules: map<nat, RuleRow>, ownerId: nat, datasetId: nat,
                         filename: string, source: Bytes, env: Environment): Outcome
  {
    var candidate := Candidate(env.candidate);
    if !Owned(t.datasets, datasetId, ownerId) || !(env.raises !! {Requested, Accepted}) || candidate in t.files then t
    else if CopyFails(|source|, env.readFailure) then
      if WriteCleanup in env.raises then
        t.(files := t.files[candidate := Prefix(source, Copied(|source|, env.readFailure, 0))])
      else t
    else
      AfterWrite(w, t.(files := t.files[candidate := source]), rules, ownerId, datasetId, filename, source, env)
  }

  /** Schema, owner, column and unique definition allow the rule. */
  predicate RuleAccepted(w: World, datasets: map<nat, DatasetRow>, rules: map<nat, RuleRow>, ownerId: nat,
                         datasetId: nat, request: RuleRequest)
  {
    && Admit(w, request).Some?
    && datasetId in datasets && datasets[datasetId].ownerId == ownerId
    && datasets[datasetId].columns.Some? && request.targetColumn in datasets[datasetId].columns.value
    && !exists r :: r in rules && rules[r].datasetId == datasetId
                    && rules[r].definition.ruleType == request.ruleType
                    && rules[r].definition.targetColumn == request.targetColumn
                    && rules[r].definition.configuration == Admit(w, request).value.configuration
  }

  /** The rule exists and belongs to a dataset of the owner. */
  predicate RuleOfOwner(datasets: map<nat, DatasetRow>, rules: map<nat, RuleRow>, ownerId: nat, datasetId: nat,
                        ruleId: nat)
  {
    && datasetId in datasets && datasets[datasetId].ownerId == ownerId
    && ruleId in rules && rules[ruleId].datasetId == datasetId
  }

  /** Undoing a written candidate, and an installed one, leaves the files as they were. */
  lemma CompensationRestores(files: map<FileName, Bytes>, c: FileName, k: FileName, content: Bytes)
    requires c !in files && k !in files
    ensures Without(files[c := content], c) == files
    ensures Without(Without(files[c := content], c), k) == files
    ensures Without(Without(Without(files[c := content], c)[k := content], c), k) == files
  {
  }

  lemma InstallationMoves(files: map<FileName, Bytes>, c: FileName, k: FileName, content: Bytes)
    requires c !in files && c != k
    ensures Without(files[c := content], c)[k := content] == files[k := content]
    ensures Without(Without(files[c := content], c)[k := content], c) == files[k := content]
  {
  }

  /** The data is acceptable and nothing raises up to the commit. */
  predicate Commits(w: World, t: Outcome, rules: map<nat, RuleRow>, ownerId: nat, datasetId: nat,
                    filename: string, source: Bytes, env: Environment)
  {
    && datasetId in t.datasets && t.datasets[datasetId].ownerId == ownerId
    && t.datasets[datasetId].createdAt <= env.now
    && Candidate(env.candidate) !in t.files
    && 1 <= |source| <= 10_485_760 && (env.readFailure.None? || |source| < env.readFailure.value)
    && StructureOf(w, source).Some?
    && (forall r :: r in rules && rules[r].datasetId == datasetId ==>
          rules[r].definition.targetColumn in StructureOf(w, source).value.columns)
    && env.raises !! GUARDED - {Committed}
  }

  lemma CommittedOutcome(w: World, t: Outcome, rules: map<nat, RuleRow>, ownerId: nat, datasetId: nat,
                         filename: string, source: Bytes, env: Environment)
    requires Commits(w, t, rules, ownerId, datasetId, filename, source, env)
    ensures var row := NewRow(w, t.datasets[datasetId], filename, source, StructureOf(w, source).value, env);
      var installed := Without(t.files[Candidate(env.candidate) := source], Candidate(env.candidate));
      UploadOutcome(w, t, rules, ownerId, datasetId, filename, source, env)
      == AfterCommit(Outcome(t.datasets[datasetId := row], installed[Stored(env.key) := source], t.succeeded),
                     t.datasets[datasetId].storageKey, env)
  {
  }

  lemma UncommittedOutcome(w: World, t: Outcome, rules: map<nat, RuleRow>, ownerId: nat, datasetId: nat,
                           filename: string, source: Bytes, env: Environment)
    requires !t.succeeded && !Commits(w, t, rules, ownerId, datasetId, filename, source, env)
    ensures var r := UploadOutcome(w, t, rules, ownerId, datasetId, filename, source, env);
      && r.datasets == t.datasets && !r.succeeded
      && (Stored(env.key) !in t.files && env.raises !! {WriteCleanup, Discarding, Removing} ==> r.files == t.files)
  {
    if Candidate(env.candidate) !in t.files && Stored(env.key) !in t.files {
      CompensationRestores(t.files, Candidate(env.candidate), Stored(env.key), source);
    }
  }

  /** The outcome in two cases: with a commit the row and its file are new, without one both are restored. */
  lemma OutcomeMeans(w: World, t: Outcome, rules: map<nat, RuleRow>, ownerId: nat, datasetId: nat,
                     filename: string, source: Bytes, env: Environment)
    requires !t.succeeded
    ensures var r := UploadOutcome(w, t, rules, ownerId, datasetId, filename, source, env);
      if Commits(w, t, rules, ownerId, datasetId, filename, source, env) then
        var oldKey := t.datasets[datasetId].storageKey;
        && r.datasets == t.datasets[datasetId :=
             NewRow(w, t.datasets[datasetId], filename, source, StructureOf(w, source).value, env)]
        && r.files == Replaced(t.files, env.key, source,
                               if Committed in env.raises || Superseding in env.raises then None else oldKey)
        && (r.succeeded <==> Committed !in env.raises
                             && !(Supersedes(oldKey, env) && Superseding in env.raises && env.unexpected))
      else
        && r.datasets == t.datasets && !r.succeeded
        && (Stored(env.key) !in t.files && env.raises !! {WriteCleanup, Discarding, Removing} ==> r.files == t.files)
  {
    if Commits(w, t, rules, ownerId, datasetId, filename, source, env) {
      CommittedOutcome(w, t, rules, ownerId, datasetId, filename, source, env);
      InstallationMoves(t.files, Candidate(env.candidate), Stored(env.key), source);
    } else {
      UncommittedOutcome(w, t, rules, ownerId, datasetId, filename, source, env);
    }
  }

  class Service {
    const w: World
    const storage: LocalDatasetStorage
    var datasets: map<nat, DatasetRow>
    var rules: map<nat, RuleRow>

    constructor (w: World, storage: LocalDatasetStorage)
      ensures this.w == w && this.storage == storage && datasets == map[] && rules == map[]
    {
      this.w := w;
      this.storage := storage;
      datasets := map[];
      rules := map[];
    }

    /** Whether an upload can be committed as far as the data is concerned. */
    predicate Acceptable(ownerId: nat, datasetId: nat, filename: string, source: Bytes, env: Environment)
      reads this, storage
    {
      && datasetId in datasets && datasets[datasetId].ownerId == ownerId
      && datasets[datasetId].createdAt <= env.now
      && Candidate(env.candidate) !in storage.files
      && 1 <= |source| <= 10_485_760
      && StructureOf(w, source).Some?
      && forall r :: r in rules && rules[r].datasetId == datasetId ==>
           rules[r].definition.targetColumn in StructureOf(w, source).value.columns
    }

    /** The row of an accepted upload: the old owner and creation, and what the file is. */
    function DescribedRow(row: DatasetRow, filename: string, source: Bytes, env: Environment): DatasetRow
      requires StructureOf(w, source).Some?
    {
      var records := w.records(source);
      row.(updatedAt := env.now, filename := Some(filename), storageKey := Some(env.key),
           digest := Some(w.digest(source)), size := Some(|source|), rowCount := Some(|records| - 1),
           columns := Some(records[0].fields), uploadedAt := Some(env.now))
    }

    /** Acceptability in terms of the checks that the method makes. */
    lemma AcceptableIff(ownerId: nat, datasetId: nat, filename: string, source: Bytes, env: Environment)
      ensures Acceptable(ownerId, datasetId, filename, source, env) <==>
        && Owned(datasets, datasetId, ownerId)
        && Candidate(env.candidate) !in storage.files
        && |source| <= MAX_CSV_BYTES
        && StructureOf(w, source).Some?
        && TargetsWithin(rules, datasetId, StructureOf(w, source).value.columns)
        && SatisfiesChecks(NewRow(w, datasets[datasetId], filename, source, StructureOf(w, source).value, env))
      ensures datasetId in datasets && StructureOf(w, source).Some? ==>
        NewRow(w, datasets[datasetId], filename, source, StructureOf(w, source).value, env)
        == DescribedRow(datasets[datasetId], filename, source, env)
    {
    }

    predicate Undisturbed(source: Bytes, env: Environment) {
      && (env.readFailure.None? || |source| < env.readFailure.value)
      && env.raises !! GUARDED
    }

    /** The exception handler: the candidate goes, and the installed file unless its row was committed. */
    method Compensate(candidate: CandidateFile, installedKey: Option<nat>, committed: bool, env: Environment)
      modifies storage`files
      ensures storage.files == Compensated(old(storage.files), candidate.uuid, installedKey, committed, env)
    {
      var discarded := storage.DiscardCandidate(candidate, Discarding in env.raises);
      if discarded.Err? {
        return;
      }
      if installedKey.Some? && !committed {
        var _ := storage.Remove(installedKey.value, Removing in env.raises);
      }
    }

    /** The locked transaction: check, install, update, commit, close. */
    method ReplaceActiveFile(ownerId: nat, datasetId: nat, filename: string, source: Bytes,
                             candidate: CandidateFile, structure: Structure, env: Environment)
      returns (installedKey: Option<nat>, committed: bool, oldKey: Option<nat>, error: Option<UploadError>)
      requires candidate == CandidateFile(env.candidate, |source|, w.digest(source))
      requires Candidate(env.candidate) in storage.files && storage.files[Candidate(env.candidate)] == source
      modifies this`datasets, storage`files
      ensures committed <==>
        && Owned(old(datasets), datasetId, ownerId)
        && TargetsWithin(rules, datasetId, structure.columns)
        && SatisfiesChecks(NewRow(w, old(datasets)[datasetId], filename, source, structure, env))
        && env.raises !! {Scanned, Locked, Marked, Installed, Flushed}
      ensures error.None? <==> committed && Committed !in env.raises
      ensures error == Some(CloseFailed) <==> committed && Committed in env.raises
      ensures error != Some(RemovalFailed)
      ensures error == Some(DatasetNotFound) ==>
        !(datasetId in old(datasets) && old(datasets)[datasetId].ownerId == ownerId)
      ensures committed ==>
        && oldKey == old(datasets)[datasetId].storageKey && installedKey == Some(env.key)
        && datasets == old(datasets)[datasetId := NewRow(w, old(datasets)[datasetId], filename, source, structure, env)]
        && storage.files == Without(old(storage.files), Candidate(env.candidate))[Stored(env.key) := source]
      ensures installedKey.Some? ==> installedKey == Some(env.key)
      ensures installedKey.Some? <==>
        && Owned(old(datasets), datasetId, ownerId)
        && TargetsWithin(rules, datasetId, structure.columns)
        && env.raises !! {Scanned, Locked}
      ensures !committed ==> datasets == old(datasets)
      ensures !committed ==>
        storage.files ==
          if installedKey.Some? && Marked !in env.raises
          then Without(old(storage.files), Candidate(env.candidate))[Stored(env.key) := source]
          else old(storage.files)
    {
      installedKey, committed, oldKey := None, false, None;
      if Scanned in env.raises {
        return installedKey, committed, oldKey, Some(Interrupted);
      }
      if !Owned(datasets, datasetId, ownerId) {
        return installedKey, committed, oldKey, Some(DatasetNotFound);
      }
      if Locked in env.raises {
        return installedKey, committed, oldKey, Some(Interrupted);
      }
      if !TargetsWithin(rules, datasetId, structure.columns) {
        return installedKey, committed, oldKey, Some(IncompatibleUpload);
      }
      var row := datasets[datasetId];
      oldKey := row.storageKey;
      installedKey := Some(env.key);
      var installed := storage.Install(candidate, env.key, Marked in env.raises, Installed in env.raises);
      if installed.Err? {
        return installedKey, committed, oldKey, Some(StorageFailed(installed.error));
      }
      row := row.(filename := Some(filename), storageKey := Some(env.key), digest := Some(candidate.digest),
                  size := Some(candidate.size), rowCount := Some(structure.rowCount),
                  columns := Some(structure.columns), uploadedAt := Some(env.now), updatedAt := env.now);
      if !SatisfiesChecks(row) {
        return installedKey, committed, oldKey, Some(ConstraintViolated);
      }
      if Flushed in env.raises {
        return installedKey, committed, oldKey, Some(Interrupted);
      }
      datasets := datasets[datasetId := row];
      committed := true;
      if Committed in env.raises {
        return installedKey, committed, oldKey, Some(CloseFailed);
      }
      return installedKey, committed, oldKey, None;
    }

    /** The `try` of `upload_csv`: scan and replace, and on any exception the handler. */
    method ReplaceOrCompensate(ownerId: nat, datasetId: nat, filename: string, source: Bytes, candidate: CandidateFile,
                               env: Environment)
      returns (oldKey: Option<nat>, error: Option<UploadError>)
      requires candidate == CandidateFile(env.candidate, |source|, w.digest(source))
      requires Candidate(env.candidate) in storage.files && storage.files[Candidate(env.candidate)] == source
      modifies this`datasets, storage`files
      ensures error.None? || error == Some(CloseFailed) <==>
        && StructureOf(w, source).Some?
        && Owned(old(datasets), datasetId, ownerId)
        && TargetsWithin(rules, datasetId, StructureOf(w, source).value.columns)
        && SatisfiesChecks(NewRow(w, old(datasets)[datasetId], filename, source, StructureOf(w, source).value, env))
        && env.raises !! {Written, Scanned, Locked, Marked, Installed, Flushed}
      ensures error == Some(CloseFailed) ==> Committed in env.raises
      ensures error != Some(RemovalFailed)
      ensures error == Some(DatasetNotFound) ==> !Owned(old(datasets), datasetId, ownerId)
      ensures error.None? ==> Committed !in env.raises && oldKey == old(datasets)[datasetId].storageKey
      ensures error.None? ==>
        AfterWrite(w, old(Outcome(datasets, storage.files, false)), rules, ownerId, datasetId, filename, source, env)
        == AfterCommit(Outcome(datasets, storage.files, false), oldKey, env)
      ensures error.Some? ==>
        AfterWrite(w, old(Outcome(datasets, storage.files, false)), rules, ownerId, datasetId, filename, source, env)
        == Outcome(datasets, storage.files, false)
    {
      var installedKey: Option<nat>, committed := None, false;
      oldKey, error := None, Some(Interrupted);
      if Written !in env.raises {
        var scanned := Scan(w, storage.files[Candidate(candidate.uuid)]);
        if scanned.Err? {
          error := Some(InvalidCsv);
        } else {
          installedKey, committed, oldKey, error :=
            ReplaceActiveFile(ownerId, datasetId, filename, source, candidate, scanned.value, env);
        }
      }
      if error.Some? {
        Compensate(candidate, installedKey, committed, env);
      }
    }

    /**
     `upload_csv`. It succeeds exactly when the data is acceptable and nothing raises up to the
     closing of the session, nor anything but an OSError afterwards; a failure before the commit
     restores the files and the row.
     */
    method UploadCsv(ownerId: nat, datasetId: nat, filename: string, source: Bytes, env: Environment)
      returns (r: Result<DatasetRow, UploadError>)
      modifies this`datasets, storage`files
      ensures Outcome(datasets, storage.files, r.Ok?)
           == UploadOutcome(w, old(Outcome(datasets, storage.files, false)), rules, ownerId, datasetId, filename,
                            source, env)
      ensures r.Ok? <==>
        && old(Acceptable(ownerId, datasetId, filename, source, env)) && Undisturbed(source, env)
        && !(Supersedes(old(datasets)[datasetId].storageKey, env) && Superseding in env.raises && env.unexpected)
      ensures r.Ok? || r == Err(CloseFailed) || r == Err(RemovalFailed) ==>
        && StructureOf(w, source).Some? && datasetId in old(datasets)
        && datasets == old(datasets)[datasetId :=
             NewRow(w, old(datasets)[datasetId], filename, source, StructureOf(w, source).value, env)]
      ensures r.Ok? ==> r.value == datasets[datasetId]
      ensures r.Ok? ==> r.value == DescribedRow(old(datasets)[datasetId], filename, source, env)
      ensures r == Err(DatasetNotFound) <==>
        Requested !in env.raises && !(datasetId in old(datasets) && old(datasets)[datasetId].ownerId == ownerId)
      ensures !(datasetId in old(datasets) && old(datasets)[datasetId].ownerId == ownerId) ==>
        r.Err? && datasets == old(datasets) && storage.files == old(storage.files)
      ensures r.Ok? ==>
        storage.files == Replaced(old(storage.files), env.key, source,
                                  if Superseding in env.raises then None else old(datasets)[datasetId].storageKey)
      ensures r == Err(CloseFailed) || r == Err(RemovalFailed) ==>
        storage.files == old(storage.files)[Stored(env.key) := source]
      ensures r.Err? && r.error != CloseFailed && r.error != RemovalFailed ==> datasets == old(datasets)
      ensures r.Err? && r.error != CloseFailed && r.error != RemovalFailed && Stored(env.key) !in old(storage.files)
              && env.raises !! {WriteCleanup, Discarding, Removing} ==>
        storage.files == old(storage.files)
    {
      OutcomeMeans(w, Outcome(datasets, storage.files, false), rules, ownerId, datasetId, filename, source, env);
      AcceptableIff(ownerId, datasetId, filename, source, env);
      if Requested in env.raises {
        return Err(Interrupted);
      }
      if !Owned(datasets, datasetId, ownerId) {
        return Err(DatasetNotFound);
      }
      if Accepted in env.raises {
        return Err(StorageFailed(OsError));
      }
      var written := storage.WriteCandidate(w, env.candidate, source, env.readFailure, WriteCleanup in env.raises);
      if written.Err? {
        return Err(StorageFailed(written.error));
      }
      var candidate := written.value;
      ghost var found := old(Outcome(datasets, storage.files, false));
      assert UploadOutcome(w, found, rules, ownerId, datasetId, filename, source, env)
          == AfterWrite(w, found.(files := storage.files), rules, ownerId, datasetId, filename, source, env);
      var oldKey, error := ReplaceOrCompensate(ownerId, datasetId, filename, source, candidate, env);
      if error.Some? {
        return Err(error.value);
      }
      if oldKey.Some? && oldKey != Some(env.key) {
        var removed := storage.Remove(oldKey.value, Superseding in env.raises);
        if removed.Err? && env.unexpected {
          return Err(RemovalFailed);
        }
      }
      return Ok(datasets[datasetId]);
    }

    /** `create_rule`: the row, its columns and the unique definition decide. */
    method CreateRule(ownerId: nat, datasetId: nat, request: RuleRequest, ruleId: nat, now: int)
      returns (r: Result<RuleRow, RuleError>)
      modifies this`rules
      ensures r.Ok? <==> RuleAccepted(w, datasets, old(rules), ownerId, datasetId, request) && ruleId !in old(rules)
      ensures r == Err(NoDataset) <==>
        Admit(w, request).Some? && !(datasetId in datasets && datasets[datasetId].ownerId == ownerId)
      ensures r == Err(DuplicateRule) ==>
        exists q :: q in rules && rules[q].datasetId == datasetId && Some(rules[q].definition) == Admit(w, request)
      ensures r.Ok? ==>
        && r.value == RuleRow(datasetId, Admit(w, request).value, now)
        && rules == old(rules)[ruleId := r.value]
      ensures r.Err? ==> rules == old(rules)
    {
      var admitted := Admit(w, request);
      if admitted.None? {
        return Err(InvalidRule);
      }
      var rule := RuleRow(datasetId, admitted.value, now);
      if !Owned(datasets, datasetId, ownerId) {
        return Err(NoDataset);
      }
      if datasets[datasetId].columns.None? {
        return Err(NotReady);
      }
      if rule.definition.targetColumn !in datasets[datasetId].columns.value {
        return Err(UnknownColumn);
      }
      if DefinitionTaken(rules, datasetId, rule.definition) {
        return Err(DuplicateRule);
      }
      if ruleId in rules {
        return Err(OtherConstraint);
      }
      rules := rules[ruleId := rule];
      return Ok(rule);
    }

    /** `delete_rule` */
    method DeleteRule(ownerId: nat, datasetId: nat, ruleId: nat) returns (r: Result<(), RuleError>)
      modifies this`rules
      ensures r.Ok? <==> RuleOfOwner(datasets, old(rules), ownerId, datasetId, ruleId)
      ensures rules == if r.Ok? then Without(old(rules), ruleId) else old(rules)
    {
      if !Owned(datasets, datasetId, ownerId) {
        return Err(NoDataset);
      }
      if ruleId !in rules || rules[ruleId].datasetId != datasetId {
        return Err(NoDataset);
      }
      rules := Without(rules, ruleId);
      return Ok(());
    }
  }
}
