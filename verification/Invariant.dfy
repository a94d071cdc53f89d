/** What every event of the protocol keeps. */
module Invariant {
  import opened Wrappers
  import opened External
  import opened Csv
  import opened Configuration
  import opened Protocol

  // ---------------------------------------------------------------- the invariant

  /** A definition that only the request schema can have produced. */
  ghost predicate Admissible(v: Services, definition: Definition) {
    exists request :: v.admit(request) == Some(definition)
  }

  /** The bytes are what the row's metadata describes. */
  ghost predicate Describes(v: Services, row: DatasetRow, content: Bytes) {
    && Complete(row)
    && |content| == row.size.value <= MAX_CSV_BYTES
    && v.digest(content) == row.digest.value
    && v.scan(content) == Some(Structure(row.rowCount.value, row.columns.value))
  }

  /** A committed row has no upload, or points to an existing complete file that it describes. */
  ghost predicate RowBacked(v: Services, s: State, d: nat)
    requires d in s.datasets
  {
    var row := s.datasets[d];
    || Vacant(row)
    || (&& Complete(row)
        && Stored(row.storageKey.value) in s.files
        && Describes(v, row, s.files[Stored(row.storageKey.value)])
        && Stored(row.storageKey.value) in s.holders
        && s.holders[Stored(row.storageKey.value)] == HeldByRow(d))
  }

  ghost predicate RowsBacked(v: Services, s: State) {
    forall d :: d in s.datasets ==> d in s.issued && RowBacked(v, s, d)
  }

  /** The names an upload is responsible for until it ends. */
  predicate Answers(u: Upload, f: FileName) {
    match f
    case Candidate(uuid) => u.candidate == Some(uuid) && !u.at.Succeeded? && !u.at.Failed?
    case Stored(uuid) =>
      || (u.newKey == Some(uuid) && !u.committed && !u.at.Failed?)
      || (u.oldKey == Some(uuid) && (u.at.Committed? || u.at.Superseding?))
  }

  predicate AnswersFor(operation: Operation, f: FileName) {
    operation.Uploading? && Answers(operation.upload, f)
  }

  /** Every file has a holder, and every held name was generated. */
  ghost predicate NamesIssued(s: State) {
    && (forall f :: f in s.files ==> f in s.holders)
    && (forall f :: f in s.holders ==> f.uuid in s.issued)
  }

  /** Every name has exactly one holder, and the holder knows it. */
  ghost predicate NamesHeld(s: State) {
    && NamesIssued(s)
    && (forall f :: f in s.holders && s.holders[f].Orphaned? ==> f in s.files)
    && (forall f :: f in s.holders && s.holders[f].HeldByRow? ==>
          var d := s.holders[f].datasetId;
          d in s.datasets && s.datasets[d].storageKey.Some? && f == Stored(s.datasets[d].storageKey.value))
    && (forall f :: f in s.holders && s.holders[f].HeldByOperation? ==>
          var o := s.holders[f].operation;
          o in s.operations && AnswersFor(s.operations[o], f))
  }

  /** Every rule was admitted by the schema and targets a column of the active header. */
  ghost predicate RuleSound(v: Services, s: State, r: nat)
    requires r in s.rules
  {
    var rule := s.rules[r];
    && r in s.issued
    && rule.datasetId in s.datasets
    && Complete(s.datasets[rule.datasetId])
    && rule.definition.targetColumn in s.datasets[rule.datasetId].columns.value
    && Admissible(v, rule.definition)
  }

  ghost predicate RulesSound(v: Services, s: State) {
    && (forall r :: r in s.rules ==> RuleSound(v, s, r))
    && (forall q, r :: q in s.rules && r in s.rules && q != r
                       && s.rules[q].datasetId == s.rules[r].datasetId ==>
          s.rules[q].definition != s.rules[r].definition)
  }

  /** The row lock is really held and the copied row is still the committed one. */
  ghost predicate LockHeld(s: State, o: nat, d: nat, row: DatasetRow) {
    && d in s.locks && s.locks[d] == o
    && d in s.datasets && s.datasets[d] == row
  }

  ghost predicate HeldOnly(s: State, o: nat, f: FileName) {
    f in s.holders && s.holders[f] == HeldByOperation(o)
  }

  ghost predicate HasFile(s: State, o: nat, f: FileName, content: Bytes) {
    f in s.files && s.files[f] == content && HeldOnly(s, o, f)
  }

  /** A name the operation answers for has no other holder. */
  ghost predicate OwnName(s: State, o: nat, u: Upload, f: FileName) {
    f.uuid in s.issued && (Answers(u, f) && f in s.holders ==> s.holders[f] == HeldByOperation(o))
  }

  ghost predicate UploadNames(s: State, o: nat, u: Upload) {
    && (u.candidate.Some? ==> OwnName(s, o, u, Candidate(u.candidate.value)))
    && (u.newKey.Some? ==> OwnName(s, o, u, Stored(u.newKey.value)))
    && (u.oldKey.Some? ==> OwnName(s, o, u, Stored(u.oldKey.value)))
  }

  predicate Unnamed(u: Upload) {
    u.newKey.None? && u.installedKey.None? && !u.committed
  }

  ghost predicate CandidateComplete(s: State, o: nat, u: Upload) {
    u.candidate.Some? && |u.source| <= MAX_CSV_BYTES && HasFile(s, o, Candidate(u.candidate.value), u.source)
  }

  ghost predicate CandidateGone(s: State, u: Upload) {
    u.candidate.Some? ==> Candidate(u.candidate.value) !in s.holders
  }

  ghost predicate Parsed(v: Services, s: State, o: nat, u: Upload) {
    && v.scan(u.source) == Some(u.structure) && |u.source| <= MAX_CSV_BYTES
    && u.newKey.Some? && HeldOnly(s, o, Stored(u.newKey.value)) && !u.committed
  }

  /** The old key is the locked row's, the new key is marked, and every rule keeps its column. */
  ghost predicate Compatible(s: State, o: nat, u: Upload) {
    && LockHeld(s, o, u.datasetId, u.row)
    && u.installedKey == u.newKey && u.oldKey == u.row.storageKey
    && TargetsWithin(s.rules, u.datasetId, u.structure.columns)
  }

  /** Nothing a failed upload created is left, except as an orphan. */
  ghost predicate NothingLeft(s: State, u: Upload) {
    && (u.candidate.Some? && Candidate(u.candidate.value) in s.holders ==>
          s.holders[Candidate(u.candidate.value)].Orphaned?)
    && (u.newKey.Some? && !u.committed && Stored(u.newKey.value) in s.holders ==>
          s.holders[Stored(u.newKey.value)].Orphaned?)
  }

  /** A superseded file is still there until its upload removes it. */
  ghost predicate OldFileWaits(s: State, o: nat, u: Upload) {
    u.oldKey.Some? ==> Stored(u.oldKey.value) in s.files && HeldOnly(s, o, Stored(u.oldKey.value))
  }

  /** What holds of the local variables and the shared state at each point of `upload_csv`. */
  ghost predicate UploadAt(v: Services, s: State, o: nat, u: Upload) {
    match u.at
    case Requested => u.candidate.None? && Unnamed(u)
    case Accepted => u.candidate.None? && Unnamed(u)
    case Writing =>
      && Unnamed(u) && u.candidate.Some? && u.written <= |u.source| && u.written <= MAX_CSV_BYTES
      && HasFile(s, o, Candidate(u.candidate.value), u.source[..u.written])
    case WriteCleanup => Unnamed(u) && u.candidate.Some?
    case Written => Unnamed(u) && CandidateComplete(s, o, u)
    case Scanned =>
      && CandidateComplete(s, o, u) && Parsed(v, s, o, u)
      && Stored(u.newKey.value) !in s.files && u.installedKey.None?
    case Locked =>
      && CandidateComplete(s, o, u) && Parsed(v, s, o, u) && LockHeld(s, o, u.datasetId, u.row)
      && Stored(u.newKey.value) !in s.files && u.installedKey.None?
    case Marked => CandidateComplete(s, o, u) && Parsed(v, s, o, u) && Compatible(s, o, u)
                   && Stored(u.newKey.value) !in s.files
    case Installed => CandidateGone(s, u) && Parsed(v, s, o, u) && Compatible(s, o, u) && u.candidate.Some?
                      && HasFile(s, o, Stored(u.newKey.value), u.source)
    case Flushed => CandidateGone(s, u) && Parsed(v, s, o, u) && Compatible(s, o, u) && u.candidate.Some?
                    && HasFile(s, o, Stored(u.newKey.value), u.source)
                    && SatisfiesChecks(UpdatedRow(v, u))
    case Committed => u.committed && u.installedKey == u.newKey && u.newKey.Some? && u.candidate.Some?
                      && CandidateGone(s, u) && u.oldKey != u.newKey && OldFileWaits(s, o, u)
    case Superseding => u.committed && u.installedKey == u.newKey && u.newKey.Some? && u.candidate.Some?
                        && CandidateGone(s, u) && u.oldKey != u.newKey && OldFileWaits(s, o, u) && u.oldKey.Some?
    case Discarding =>
      && u.candidate.Some?
      && (u.installedKey.Some? ==> u.installedKey == u.newKey)
      && (u.committed ==> u.installedKey.Some? && CandidateGone(s, u))
      && (u.newKey.Some? && u.installedKey.None? ==> Stored(u.newKey.value) !in s.files)
    case Removing => u.installedKey == u.newKey && u.newKey.Some? && !u.committed && CandidateGone(s, u)
    case Succeeded => u.committed && CandidateGone(s, u)
    case Failed => NothingLeft(s, u)
  }

  ghost predicate UploadSound(v: Services, s: State, o: nat, u: Upload) {
    UploadNames(s, o, u) && UploadAt(v, s, o, u)
  }

  ghost predicate CreationSound(v: Services, s: State, o: nat, k: Creation) {
    && (k.at.Admission? || k.at.Checked? ==> Admissible(v, k.definition))
    && (k.at.Checked? ==>
          && LockHeld(s, o, k.datasetId, k.row)
          && k.row.columns.Some? && k.definition.targetColumn in k.row.columns.value)
  }

  /** The rules a snapshot copied were admitted, distinct and for columns of the copied header. */
  ghost predicate SnapshotRulesSound(v: Services, row: DatasetRow, rules: seq<RuleSnapshot>) {
    && Complete(row)
    && (forall i :: 0 <= i < |rules| ==>
          Admissible(v, rules[i].definition) && rules[i].definition.targetColumn in row.columns.value)
    && forall i, j :: 0 <= i < j < |rules| ==> rules[i].ruleId != rules[j].ruleId
  }

  ghost predicate AnalysisSound(v: Services, s: State, o: nat, a: Analysis) {
    && !a.at.IntegrityFailed?
    && (AnalysisHoldsLock(a) ==> LockHeld(s, o, a.datasetId, a.row) && Complete(a.row))
    && (a.at.RulesRead? || a.at.Reading? || a.at.Captured? || a.at.Computed? ==>
          SnapshotRulesSound(v, a.row, a.rules) && a.rules != [])
    && (a.at.Reading? ==> Describes(v, a.row, a.handle) && a.content <= a.handle)
    && (a.at.Captured? || a.at.Computed? ==> Describes(v, a.row, a.content))
    && (a.at.Computed? ==> v.compute(SourceOf(a.row), a.rules, a.content) == Ok(a.computation))
  }

  ghost predicate OperationSound(v: Services, s: State, o: nat, operation: Operation) {
    match operation
    case Uploading(u) => UploadSound(v, s, o, u)
    case Creating(k) => CreationSound(v, s, o, k)
    case Deleting(_) => true
    case Analyzing(a) => AnalysisSound(v, s, o, a)
    case Crashed => true
  }

  ghost predicate OperationsSound(v: Services, s: State) {
    forall o :: o in s.operations ==> OperationSound(v, s, o, s.operations[o])
  }

  ghost predicate Inv(v: Services, s: State) {
    && RowsBacked(v, s)
    && NamesHeld(s)
    && RulesSound(v, s)
    && OperationsSound(v, s)
  }

  // ---------------------------------------------------------------- what a step leaves to the others

  /** A step of `o` touches nothing that another operation relies on. */
  ghost predicate Rely(s: State, t: State, o: nat) {
    && s.issued <= t.issued
    && (forall p :: p in t.operations && p != o ==> p in s.operations)
    && (forall p :: p in s.operations && p != o ==> p in t.operations && t.operations[p] == s.operations[p])
    && (forall f :: f in s.holders && s.holders[f] != HeldByOperation(o) ==>
          && (!s.holders[f].HeldByRow? ==> f in t.holders && t.holders[f] == s.holders[f])
          && (f in t.files <==> f in s.files) && (f in s.files ==> t.files[f] == s.files[f]))
    && (forall f :: f in t.holders && f !in s.holders ==> f.uuid !in s.issued)
    && (forall f :: f in t.files && f !in s.files ==> f in t.holders && t.holders[f] == HeldByOperation(o))
    && (forall d :: d in s.locks && s.locks[d] != o ==>
          && d in t.locks && t.locks[d] == s.locks[d]
          && (d in s.datasets ==> d in t.datasets && t.datasets[d] == s.datasets[d])
          && (forall r :: r in t.rules && t.rules[r].datasetId == d ==> r in s.rules && s.rules[r] == t.rules[r]))
  }

  /** A name that `p` holds, nobody holds or everybody gave up looks the same to `p` in both states. */
  ghost predicate SameName(s: State, t: State, p: nat, f: FileName) {
    && (f in s.holders && (s.holders[f] == HeldByOperation(p) || s.holders[f].Orphaned?) ==>
          && f in t.holders && t.holders[f] == s.holders[f]
          && (f in t.files <==> f in s.files) && (f in s.files ==> t.files[f] == s.files[f]))
    && (f !in s.holders && f.uuid in s.issued ==> f !in t.holders && (f in t.files ==> f in s.files))
  }

  ghost predicate SameNames(s: State, t: State, p: nat, u: Upload) {
    && (u.candidate.Some? ==> SameName(s, t, p, Candidate(u.candidate.value)))
    && (u.newKey.Some? ==> SameName(s, t, p, Stored(u.newKey.value)))
    && (u.oldKey.Some? ==> SameName(s, t, p, Stored(u.oldKey.value)))
  }

  ghost predicate SameUnderLock(s: State, t: State, p: nat, d: nat) {
    d in s.locks && s.locks[d] == p ==>
      && d in t.locks && t.locks[d] == p
      && (d in s.datasets ==> d in t.datasets && t.datasets[d] == s.datasets[d])
      && (forall r :: r in t.rules && t.rules[r].datasetId == d ==> r in s.rules && s.rules[r] == t.rules[r])
  }

  lemma NamesUnaffected(s: State, t: State, o: nat, p: nat, u: Upload)
    requires Rely(s, t, o) && p != o
    ensures SameNames(s, t, p, u)
  {
  }

  lemma NamesDependOn(s: State, t: State, p: nat, u: Upload)
    requires s.issued <= t.issued && SameNames(s, t, p, u) && UploadNames(s, p, u)
    ensures UploadNames(t, p, u)
  {
  }

  lemma LockedDependsOn(v: Services, s: State, t: State, p: nat, u: Upload)
    requires SameNames(s, t, p, u) && SameUnderLock(s, t, p, u.datasetId)
    requires UploadSound(v, s, p, u) && UploadHoldsLock(u)
    ensures UploadAt(v, t, p, u)
  {
    assert LockHeld(t, p, u.datasetId, u.row);
  }

  lemma UnlockedDependsOn(v: Services, s: State, t: State, p: nat, u: Upload)
    requires SameNames(s, t, p, u) && UploadSound(v, s, p, u) && !UploadHoldsLock(u)
    ensures UploadAt(v, t, p, u)
  {
  }

  /** At most the three names and the locked row of an upload matter to it. */
  lemma UploadDependsOn(v: Services, s: State, t: State, p: nat, u: Upload)
    requires s.issued <= t.issued && SameNames(s, t, p, u) && SameUnderLock(s, t, p, u.datasetId)
    requires UploadSound(v, s, p, u)
    ensures UploadSound(v, t, p, u)
  {
    NamesDependOn(s, t, p, u);
    if UploadHoldsLock(u) {
      LockedDependsOn(v, s, t, p, u);
    } else {
      UnlockedDependsOn(v, s, t, p, u);
    }
  }

  lemma UploadUnaffected(v: Services, s: State, t: State, o: nat, p: nat, u: Upload)
    requires Rely(s, t, o) && p != o && UploadSound(v, s, p, u)
    ensures UploadSound(v, t, p, u)
  {
    NamesUnaffected(s, t, o, p, u);
    UploadDependsOn(v, s, t, p, u);
  }

  lemma OthersUnaffected(v: Services, s: State, t: State, o: nat, p: nat)
    requires Rely(s, t, o) && p != o && p in s.operations
    requires OperationSound(v, s, p, s.operations[p])
    ensures OperationSound(v, t, p, t.operations[p])
  {
    if s.operations[p].Uploading? {
      UploadUnaffected(v, s, t, o, p, s.operations[p].upload);
    }
  }

  /** The shared part of the invariant, without what it says of single operations. */
  ghost predicate Shared(v: Services, s: State) {
    RowsBacked(v, s) && NamesHeld(s) && RulesSound(v, s)
  }

  /** What one step of `o` establishes; `StepKeeps` turns it into the whole invariant. */
  ghost predicate Good(v: Services, s: State, t: State, o: nat) {
    && Shared(v, t) && Rely(s, t, o)
    && o in t.operations && OperationSound(v, t, o, t.operations[o])
  }

  /** A step of `o` keeps the invariant if it keeps its own part of it and relies on nothing of the others. */
  lemma StepKeeps(v: Services, s: State, t: State, o: nat)
    requires Inv(v, s) && Good(v, s, t, o)
    ensures Inv(v, t)
  {
    forall p | p in t.operations ensures OperationSound(v, t, p, t.operations[p]) {
      if p != o {
        OthersUnaffected(v, s, t, o, p);
      }
    }
  }

  /** The step commits no row and no rule, and leaves the files of committed rows alone. */
  ghost predicate CommitsNothing(s: State, t: State) {
    && t.datasets == s.datasets && t.rules == s.rules && s.issued <= t.issued
    && forall f :: f in s.holders && s.holders[f].HeldByRow? ==>
         && f in t.holders && t.holders[f] == s.holders[f]
         && (f in t.files <==> f in s.files) && (f in s.files ==> t.files[f] == s.files[f])
  }

  lemma SharedFrame(v: Services, s: State, t: State)
    requires Shared(v, s) && NamesHeld(t) && CommitsNothing(s, t)
    ensures Shared(v, t)
  {
    forall d | d in t.datasets ensures d in t.issued && RowBacked(v, t, d) {
      assert RowBacked(v, s, d);
    }
    forall r | r in t.rules ensures RuleSound(v, t, r) {
      assert RuleSound(v, s, r);
    }
  }

  /** Every name the operation holds in `s`, except `dropped`, is one it answers for afterwards. */
  ghost predicate Accounts(s: State, o: nat, next: Operation, dropped: set<FileName>) {
    forall f :: f in s.holders && s.holders[f] == HeldByOperation(o) && f !in dropped ==> AnswersFor(next, f)
  }

  /** Changing only the operation's own record. */
  lemma LocalChange(s: State, o: nat, next: Operation)
    requires NamesHeld(s) && o in s.operations && Accounts(s, o, next, {})
    ensures var t := Put(s, o, next);
      NamesHeld(t) && Rely(s, t, o) && CommitsNothing(s, t)
  {
  }

  /** Rolling back: the operation's lock is released. */
  lemma Release(s: State, o: nat, next: Operation, d: nat)
    requires NamesHeld(s) && o in s.operations && Accounts(s, o, next, {})
    requires d in s.locks ==> s.locks[d] == o
    ensures var t := Put(Unlock(s, d), o, next);
      NamesHeld(t) && Rely(s, t, o) && CommitsNothing(s, t)
  {
  }

  /** Taking a free row lock. */
  lemma TakeLock(s: State, o: nat, next: Operation, d: nat)
    requires NamesHeld(s) && o in s.operations && Accounts(s, o, next, {}) && d !in s.locks
    ensures var t := Put(Lock(s, d, o), o, next);
      NamesHeld(t) && Rely(s, t, o) && CommitsNothing(s, t)
  {
  }

  lemma FreshNameNames(s: State, o: nat, next: Operation, f: FileName)
    requires NamesHeld(s) && o in s.operations && Accounts(s, o, next, {})
    requires f.uuid !in s.issued && AnswersFor(next, f)
    ensures NamesHeld(Put(Reserve(s, f.uuid, f, o), o, next))
  {
    assert f !in s.holders;
  }

  lemma FreshNameRelies(s: State, o: nat, next: Operation, f: FileName)
    requires NamesHeld(s) && o in s.operations && f.uuid !in s.issued
    ensures Rely(s, Put(Reserve(s, f.uuid, f, o), o, next), o)
  {
    assert f !in s.holders;
  }

  /** A fresh identifier gives the operation a new name. */
  lemma FreshName(s: State, o: nat, next: Operation, f: FileName)
    requires NamesHeld(s) && o in s.operations && Accounts(s, o, next, {})
    requires f.uuid !in s.issued && AnswersFor(next, f)
    ensures var t := Put(Reserve(s, f.uuid, f, o), o, next);
      NamesHeld(t) && Rely(s, t, o) && CommitsNothing(s, t) && HeldOnly(t, o, f)
  {
    assert f !in s.holders;
    FreshNameNames(s, o, next, f);
    FreshNameRelies(s, o, next, f);
  }

  /** Writing a file under a name the operation holds. */
  lemma OwnWriteNames(s: State, o: nat, next: Operation, f: FileName, content: Bytes)
    requires NamesHeld(s) && o in s.operations && Accounts(s, o, next, {}) && HeldOnly(s, o, f)
    ensures NamesHeld(Put(Write(s, f, content), o, next))
  {
  }

  lemma OwnWriteRelies(s: State, o: nat, next: Operation, f: FileName, content: Bytes)
    requires o in s.operations && HeldOnly(s, o, f)
    ensures Rely(s, Put(Write(s, f, content), o, next), o)
  {
  }

  lemma OwnWrite(s: State, o: nat, next: Operation, f: FileName, content: Bytes)
    requires NamesHeld(s) && o in s.operations && Accounts(s, o, next, {}) && HeldOnly(s, o, f)
    ensures var t := Put(Write(s, f, content), o, next);
      NamesHeld(t) && Rely(s, t, o) && CommitsNothing(s, t)
  {
    OwnWriteNames(s, o, next, f, content);
    OwnWriteRelies(s, o, next, f, content);
  }

  lemma FreshFileNames(s: State, o: nat, next: Operation, f: FileName, content: Bytes)
    requires NamesHeld(s) && o in s.operations && Accounts(s, o, next, {})
    requires f.uuid !in s.issued && AnswersFor(next, f)
    ensures NamesHeld(Put(Write(Reserve(s, f.uuid, f, o), f, content), o, next))
  {
    assert f !in s.holders;
    var named := Put(Reserve(s, f.uuid, f, o), o, next);
    FreshName(s, o, next, f);
    OwnWrite(named, o, next, f, content);
    assert Put(Write(Reserve(s, f.uuid, f, o), f, content), o, next) == Put(Write(named, f, content), o, next);
  }

  lemma FreshFileRelies(s: State, o: nat, next: Operation, f: FileName, content: Bytes)
    requires o in s.operations && f.uuid !in s.issued && f !in s.holders && f !in s.files
    ensures var t := Put(Write(Reserve(s, f.uuid, f, o), f, content), o, next);
      Rely(s, t, o) && CommitsNothing(s, t)
  {
  }

  /** A fresh identifier gives the operation a new file. */
  lemma FreshFile(s: State, o: nat, next: Operation, f: FileName, content: Bytes)
    requires NamesHeld(s) && o in s.operations && Accounts(s, o, next, {})
    requires f.uuid !in s.issued && AnswersFor(next, f)
    ensures var t := Put(Write(Reserve(s, f.uuid, f, o), f, content), o, next);
      NamesHeld(t) && Rely(s, t, o) && CommitsNothing(s, t)
  {
    assert f !in s.holders && f !in s.files;
    FreshFileNames(s, o, next, f, content);
    FreshFileRelies(s, o, next, f, content);
  }

  lemma OwnUnlinkNames(s: State, o: nat, next: Operation, f: FileName)
    requires NamesHeld(s) && o in s.operations && Accounts(s, o, next, {f})
    requires f in s.holders ==> HeldOnly(s, o, f)
    ensures NamesHeld(Put(Unlink(s, f), o, next))
  {
    var t := Put(Unlink(s, f), o, next);
    assert forall g :: g in t.holders <==> g in s.holders && g != f;
    assert forall g :: g in t.files <==> g in s.files && g != f;
  }

  lemma OwnUnlinkRelies(s: State, o: nat, next: Operation, f: FileName)
    requires NamesHeld(s) && o in s.operations
    requires f in s.holders ==> HeldOnly(s, o, f)
    ensures Rely(s, Put(Unlink(s, f), o, next), o)
  {
    var t := Put(Unlink(s, f), o, next);
    assert forall g :: g in t.holders <==> g in s.holders && g != f;
    assert forall g :: g in t.files <==> g in s.files && g != f;
  }

  /** Unlinking a name that nobody else holds. */
  lemma OwnUnlink(s: State, o: nat, next: Operation, f: FileName)
    requires NamesHeld(s) && o in s.operations && Accounts(s, o, next, {f})
    requires f in s.holders ==> HeldOnly(s, o, f)
    ensures var t := Put(Unlink(s, f), o, next);
      NamesHeld(t) && Rely(s, t, o) && CommitsNothing(s, t)
  {
    OwnUnlinkNames(s, o, next, f);
    OwnUnlinkRelies(s, o, next, f);
  }

  /** Some names of the operation become orphans, the others disappear with their files. */
  ghost predicate GivesUpNames(s: State, t: State, o: nat) {
    && (forall g :: g in t.holders ==>
          && g in s.holders && t.holders[g] == (if HeldOnly(s, o, g) then Orphaned else s.holders[g])
          && (HeldOnly(s, o, g) ==> g in t.files))
    && (forall g :: g in s.holders && !HeldOnly(s, o, g) ==> g in t.holders)
    && (forall g :: g in t.files ==> g in s.files && g in t.holders && t.files[g] == s.files[g])
    && (forall g :: g in s.files && !HeldOnly(s, o, g) ==> g in t.files)
  }

  lemma GiveUpNamesHeld(s: State, t: State, o: nat, next: Operation)
    requires NamesHeld(s) && o in s.operations && GivesUpNames(s, t, o)
    requires t == Put(s, o, next).(files := t.files, holders := t.holders)
    ensures NamesHeld(t) && CommitsNothing(s, t)
  {
  }

  lemma GiveUpRelies(s: State, t: State, o: nat, next: Operation)
    requires NamesHeld(s) && o in s.operations && GivesUpNames(s, t, o)
    requires t == Put(s, o, next).(files := t.files, holders := t.holders)
    ensures Rely(s, t, o)
  {
  }

  lemma GiveUp(s: State, t: State, o: nat, next: Operation)
    requires NamesHeld(s) && o in s.operations && GivesUpNames(s, t, o)
    requires t == Put(s, o, next).(files := t.files, holders := t.holders)
    ensures NamesHeld(t) && Rely(s, t, o) && CommitsNothing(s, t)
  {
    GiveUpNamesHeld(s, t, o, next);
    GiveUpRelies(s, t, o, next);
  }

  /** Unlinking a name and giving up the rest. */
  lemma UnlinkAndAbandon(s: State, o: nat, next: Operation, f: FileName)
    requires NamesHeld(s) && o in s.operations
    requires f in s.holders ==> HeldOnly(s, o, f)
    ensures var t := Put(Abandon(Unlink(s, f), o), o, next);
      NamesHeld(t) && Rely(s, t, o) && CommitsNothing(s, t)
  {
    var t := Put(Abandon(Unlink(s, f), o), o, next);
    assert GivesUpNames(s, t, o);
    GiveUp(s, t, o, next);
  }

  lemma OwnRenameNames(s: State, o: nat, next: Operation, f: FileName, g: FileName)
    requires NamesHeld(s) && o in s.operations && f != g
    requires f in s.files && HeldOnly(s, o, f) && HeldOnly(s, o, g) && Accounts(s, o, next, {f})
    ensures NamesHeld(Put(Rename(s, f, g), o, next))
  {
  }

  lemma OwnRenameRelies(s: State, o: nat, next: Operation, f: FileName, g: FileName)
    requires NamesHeld(s) && o in s.operations && f != g
    requires f in s.files && HeldOnly(s, o, f) && HeldOnly(s, o, g)
    ensures Rely(s, Put(Rename(s, f, g), o, next), o)
  {
  }

  /** Renaming the candidate to the reserved storage name. */
  lemma OwnRename(s: State, o: nat, next: Operation, f: FileName, g: FileName)
    requires NamesHeld(s) && o in s.operations && f != g
    requires f in s.files && HeldOnly(s, o, f) && HeldOnly(s, o, g) && Accounts(s, o, next, {f})
    ensures var t := Put(Rename(s, f, g), o, next);
      NamesHeld(t) && Rely(s, t, o) && CommitsNothing(s, t)
  {
    OwnRenameNames(s, o, next, f, g);
    OwnRenameRelies(s, o, next, f, g);
  }

  /** Giving up the names the operation still holds. */
  lemma AbandonNames(s: State, o: nat, next: Operation)
    requires NamesHeld(s) && o in s.operations
    ensures var t := Put(Abandon(s, o), o, next);
      NamesHeld(t) && Rely(s, t, o) && CommitsNothing(s, t)
  {
  }

  lemma GoodStep(v: Services, s: State, t: State, o: nat, next: Operation)
    requires Shared(v, s) && NamesHeld(t) && Rely(s, t, o) && CommitsNothing(s, t)
    requires o in t.operations && t.operations[o] == next && OperationSound(v, t, o, next)
    ensures Good(v, s, t, o)
  {
    SharedFrame(v, s, t);
  }

  lemma LocalChangeGood(v: Services, s: State, o: nat, next: Operation)
    requires Shared(v, s) && o in s.operations
    requires Accounts(s, o, next, {})
    requires OperationSound(v, Put(s, o, next), o, next)
    ensures Good(v, s, Put(s, o, next), o)
  {
    LocalChange(s, o, next);
    GoodStep(v, s, Put(s, o, next), o, next);
  }

  lemma ReleaseGood(v: Services, s: State, o: nat, next: Operation, d: nat)
    requires Shared(v, s) && o in s.operations
    requires Accounts(s, o, next, {}) && (d in s.locks ==> s.locks[d] == o)
    requires OperationSound(v, Put(Unlock(s, d), o, next), o, next)
    ensures Good(v, s, Put(Unlock(s, d), o, next), o)
  {
    Release(s, o, next, d);
    GoodStep(v, s, Put(Unlock(s, d), o, next), o, next);
  }

  lemma TakeLockGood(v: Services, s: State, o: nat, next: Operation, d: nat)
    requires Shared(v, s) && o in s.operations
    requires Accounts(s, o, next, {}) && d !in s.locks
    requires OperationSound(v, Put(Lock(s, d, o), o, next), o, next)
    ensures Good(v, s, Put(Lock(s, d, o), o, next), o)
  {
    TakeLock(s, o, next, d);
    GoodStep(v, s, Put(Lock(s, d, o), o, next), o, next);
  }

  lemma FreshNameGood(v: Services, s: State, o: nat, next: Operation, f: FileName)
    requires Shared(v, s) && o in s.operations
    requires Accounts(s, o, next, {}) && f.uuid !in s.issued && AnswersFor(next, f)
    requires OperationSound(v, Put(Reserve(s, f.uuid, f, o), o, next), o, next)
    ensures Good(v, s, Put(Reserve(s, f.uuid, f, o), o, next), o)
  {
    FreshName(s, o, next, f);
    GoodStep(v, s, Put(Reserve(s, f.uuid, f, o), o, next), o, next);
  }

  lemma FreshFileGood(v: Services, s: State, o: nat, next: Operation, f: FileName, content: Bytes)
    requires Shared(v, s) && o in s.operations
    requires Accounts(s, o, next, {}) && f.uuid !in s.issued && AnswersFor(next, f)
    requires OperationSound(v, Put(Write(Reserve(s, f.uuid, f, o), f, content), o, next), o, next)
    ensures Good(v, s, Put(Write(Reserve(s, f.uuid, f, o), f, content), o, next), o)
  {
    FreshFile(s, o, next, f, content);
    GoodStep(v, s, Put(Write(Reserve(s, f.uuid, f, o), f, content), o, next), o, next);
  }

  lemma OwnWriteGood(v: Services, s: State, o: nat, next: Operation, f: FileName, content: Bytes)
    requires Shared(v, s) && o in s.operations
    requires Accounts(s, o, next, {}) && HeldOnly(s, o, f)
    requires OperationSound(v, Put(Write(s, f, content), o, next), o, next)
    ensures Good(v, s, Put(Write(s, f, content), o, next), o)
  {
    OwnWrite(s, o, next, f, content);
    GoodStep(v, s, Put(Write(s, f, content), o, next), o, next);
  }

  lemma OwnUnlinkGood(v: Services, s: State, o: nat, next: Operation, f: FileName)
    requires Shared(v, s) && o in s.operations
    requires Accounts(s, o, next, {f}) && (f in s.holders ==> HeldOnly(s, o, f))
    requires OperationSound(v, Put(Unlink(s, f), o, next), o, next)
    ensures Good(v, s, Put(Unlink(s, f), o, next), o)
  {
    OwnUnlink(s, o, next, f);
    GoodStep(v, s, Put(Unlink(s, f), o, next), o, next);
  }

  lemma UnlinkAndAbandonGood(v: Services, s: State, o: nat, next: Operation, f: FileName)
    requires Shared(v, s) && o in s.operations
    requires (f in s.holders ==> HeldOnly(s, o, f))
    requires OperationSound(v, Put(Abandon(Unlink(s, f), o), o, next), o, next)
    ensures Good(v, s, Put(Abandon(Unlink(s, f), o), o, next), o)
  {
    UnlinkAndAbandon(s, o, next, f);
    GoodStep(v, s, Put(Abandon(Unlink(s, f), o), o, next), o, next);
  }

  lemma OwnRenameGood(v: Services, s: State, o: nat, next: Operation, f: FileName, g: FileName)
    requires Shared(v, s) && o in s.operations
    requires f != g && f in s.files && HeldOnly(s, o, f) && HeldOnly(s, o, g) && Accounts(s, o, next, {f})
    requires OperationSound(v, Put(Rename(s, f, g), o, next), o, next)
    ensures Good(v, s, Put(Rename(s, f, g), o, next), o)
  {
    OwnRename(s, o, next, f, g);
    GoodStep(v, s, Put(Rename(s, f, g), o, next), o, next);
  }

  lemma AbandonNamesGood(v: Services, s: State, o: nat, next: Operation)
    requires Shared(v, s) && o in s.operations
    requires OperationSound(v, Put(Abandon(s, o), o, next), o, next)
    ensures Good(v, s, Put(Abandon(s, o), o, next), o)
  {
    AbandonNames(s, o, next);
    GoodStep(v, s, Put(Abandon(s, o), o, next), o, next);
  }
}
