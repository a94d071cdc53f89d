/**
 The dataset, file and analysis protocol as a transition system.

 Any number of uploads, rule creations, rule deletions and analyses run at once. One event
 lets one operation take its next atomic step (a committed statement, a file-system call or
 a commit), raise an exception at that step, or die with its process. A transaction's
 writes become visible, and its row lock is released, in one step: commit or rollback.
 */
module Protocol {
  import opened Wrappers
  import opened External
  import opened Csv
  import opened Configuration
  import opened History

  const READ_CHUNK_BYTES: nat := 65_536

  // ---------------------------------------------------------------- state

  /**
   The computations the protocol uses but does not depend on: the digest, the upload's scan,
   the request schema and everything an analysis derives from its snapshot.
   */
  datatype Services = Services(
    digest: Bytes -> Bytes,
    scan: Bytes -> Option<Structure>,
    admit: RuleRequest -> Option<Definition>,
    compute: (Source, seq<RuleSnapshot>, Bytes) -> Result<Computation, IntegrityError>)

  /** The two name spaces of the storage root, both spelled from generated identifiers. */
  datatype FileName = Candidate(uuid: nat) | Stored(uuid: nat)

  datatype DatasetRow = DatasetRow(
    ownerId: nat,
    createdAt: int,
    updatedAt: int,
    filename: Option<string>,
    storageKey: Option<nat>,
    digest: Option<Bytes>,
    size: Option<nat>,
    rowCount: Option<nat>,
    columns: Option<seq<string>>,
    uploadedAt: Option<int>)

  datatype RuleRow = RuleRow(datasetId: nat, definition: Definition, createdAt: int)

  datatype UploadPoint =
    | Requested       // before the unlocked owner check
    | Accepted        // before the candidate file is created
    | Writing         // inside the chunk loop
    | WriteCleanup    // write_candidate's own exception handler
    | Written         // before the scan
    | Scanned         // before SELECT ... FOR UPDATE
    | Locked          // before the target-column query
    | Marked          // installed_key is set, before the rename
    | Installed       // before the flush
    | Flushed         // before the commit
    | Committed       // before the session is closed
    | Superseding     // before the old file is removed
    | Discarding      // exception handler: before the candidate is discarded
    | Removing        // exception handler: before the installed file is removed
    | Succeeded
    | Failed

  /** An `upload_csv` call: its arguments, then its local variables. */
  datatype Upload = Upload(
    ownerId: nat,
    datasetId: nat,
    filename: string,
    source: Bytes,
    at: UploadPoint,
    candidate: Option<nat>,
    written: nat,
    structure: Structure,
    now: int,
    newKey: Option<nat>,
    row: DatasetRow,
    installedKey: Option<nat>,
    oldKey: Option<nat>,
    committed: bool)

  datatype CreationPoint = Admission | Checked | RuleStored | CreationFailed

  datatype Creation = Creation(
    ownerId: nat, datasetId: nat, definition: Definition, at: CreationPoint, row: DatasetRow)

  datatype DeletionPoint = DeletionRequested | OwnerChecked | RuleFound | RuleDeleted | DeletionFailed

  datatype Deletion = Deletion(ownerId: nat, datasetId: nat, ruleId: nat, at: DeletionPoint)

  datatype AnalysisPoint =
    | AnalysisRequested
    | RowRead          // row lock held, metadata copied
    | RulesRead        // the complete rule list copied
    | Reading          // the active file is open
    | Captured         // snapshot verified, lock released
    | Computed         // rows ready, nothing written
    | Recorded
    | IntegrityFailed
    | AnalysisFailed

  datatype Analysis = Analysis(
    ownerId: nat,
    datasetId: nat,
    at: AnalysisPoint,
    row: DatasetRow,
    rules: seq<RuleSnapshot>,
    handle: Bytes,
    content: Bytes,
    computation: Computation,
    analysisId: nat)

  datatype Operation =
    | Uploading(upload: Upload)
    | Creating(creation: Creation)
    | Deleting(deletion: Deletion)
    | Analyzing(analysis: Analysis)
    | Crashed

  /** Who is responsible for a file name: history that no transition reads. */
  datatype Holder = HeldByRow(datasetId: nat) | HeldByOperation(operation: nat) | Orphaned

  datatype State = State(
    datasets: map<nat, DatasetRow>,
    rules: map<nat, RuleRow>,
    analyses: map<nat, AnalysisRow>,
    results: ResultTable,
    files: map<FileName, Bytes>,
    locks: map<nat, nat>,
    operations: map<nat, Operation>,
    issued: set<nat>,
    holders: map<FileName, Holder>)

  datatype Request =
    | UploadCsv(ownerId: nat, datasetId: nat, filename: string, source: Bytes)
    | CreateRule(ownerId: nat, datasetId: nat, rule: RuleRequest)
    | DeleteRule(ownerId: nat, datasetId: nat, ruleId: nat)
    | CreateAnalysis(ownerId: nat, datasetId: nat)

  /** What the environment supplies to a step: a generated identifier, the clock, the query's answer. */
  datatype Choice = Choice(uuid: nat, now: int, listing: seq<RuleSnapshot>)

  /** The kinds of exception that the handlers tell apart. */
  datatype Exception = FileError | UnexpectedError

  datatype Event =
    | CreateDataset(datasetId: nat, ownerId: nat, now: int)
    | Begin(operation: nat, request: Request)
    | Advance(operation: nat, choice: Choice)
    | Fault(operation: nat, exception: Exception)
    | Crash(operation: nat)

  const EMPTY_ROW := DatasetRow(0, 0, 0, None, None, None, None, None, None, None)

  const INITIAL := State(map[], map[], map[], map[], map[], map[], map[], {}, map[])

  // ---------------------------------------------------------------- tables

  predicate Vacant(row: DatasetRow) {
    && row.filename.None? && row.storageKey.None? && row.digest.None? && row.size.None?
    && row.rowCount.None? && row.columns.None? && row.uploadedAt.None?
  }

  predicate Complete(row: DatasetRow) {
    && row.filename.Some? && row.storageKey.Some? && row.digest.Some? && row.size.Some?
    && row.rowCount.Some? && row.columns.Some? && row.uploadedAt.Some?
  }

  /** The check constraints of the datasets table that an upload could violate. */
  predicate SatisfiesChecks(row: DatasetRow) {
    && (Vacant(row) || Complete(row))
    && (row.size.Some? ==> 1 <= row.size.value <= MAX_CSV_BYTES)
    && (row.columns.Some? ==> 1 <= |row.columns.value| <= MAX_COLUMNS)
    && row.updatedAt >= row.createdAt
    && (row.uploadedAt.Some? ==> row.createdAt <= row.uploadedAt.value <= row.updatedAt)
  }

  predicate Owned(datasets: map<nat, DatasetRow>, datasetId: nat, ownerId: nat) {
    datasetId in datasets && datasets[datasetId].ownerId == ownerId
  }

  function SourceOf(row: DatasetRow): Source
    requires Complete(row)
  {
    Source(row.filename.value, row.digest.value, row.size.value, row.rowCount.value,
           row.columns.value, row.uploadedAt.value)
  }

  predicate Precedes(a: RuleRow, aId: nat, b: RuleRow, bId: nat) {
    a.createdAt < b.createdAt || (a.createdAt == b.createdAt && aId < bId)
  }

  /** The answer of the ordered rule query: every rule of the dataset by creation time, then identifier. */
  ghost predicate IsRuleListing(rules: map<nat, RuleRow>, datasetId: nat, listing: seq<RuleSnapshot>) {
    && (forall i :: 0 <= i < |listing| ==>
          && listing[i].ruleId in rules
          && rules[listing[i].ruleId].datasetId == datasetId
          && rules[listing[i].ruleId].definition == listing[i].definition)
    && (forall i, j :: 0 <= i < j < |listing| ==>
          Precedes(rules[listing[i].ruleId], listing[i].ruleId, rules[listing[j].ruleId], listing[j].ruleId))
    && (forall r :: r in rules && rules[r].datasetId == datasetId ==>
          exists i :: 0 <= i < |listing| && listing[i].ruleId == r)
  }

  predicate TargetsWithin(rules: map<nat, RuleRow>, datasetId: nat, columns: seq<string>) {
    forall r :: r in rules && rules[r].datasetId == datasetId ==> rules[r].definition.targetColumn in columns
  }

  predicate DefinitionTaken(rules: map<nat, RuleRow>, datasetId: nat, definition: Definition) {
    exists r :: r in rules && rules[r].datasetId == datasetId && rules[r].definition == definition
  }

  // ---------------------------------------------------------------- primitive changes

  function Without<K(!new), V>(m: map<K, V>, key: K): (r: map<K, V>)
    ensures forall k :: k in r <==> k in m && k != key
    ensures forall k :: k in r ==> r[k] == m[k]
  {
    map k | k in m && k != key :: m[k]
  }

  function Put(s: State, o: nat, operation: Operation): State {
    s.(operations := s.operations[o := operation])
  }

  function Lock(s: State, d: nat, o: nat): State {
    s.(locks := s.locks[d := o])
  }

  function Unlock(s: State, d: nat): State {
    s.(locks := Without(s.locks, d))
  }

  function Reserve(s: State, uuid: nat, name: FileName, o: nat): State {
    s.(issued := s.issued + {uuid}, holders := s.holders[name := HeldByOperation(o)])
  }

  function Write(s: State, name: FileName, content: Bytes): State {
    s.(files := s.files[name := content])
  }

  /** Unlinking a name; a missing file is not an error. */
  function Unlink(s: State, name: FileName): State {
    s.(files := Without(s.files, name), holders := Without(s.holders, name))
  }

  function Rename(s: State, from: FileName, to: FileName): State
    requires from in s.files
  {
    s.(files := Without(s.files, from)[to := s.files[from]], holders := Without(s.holders, from))
  }

  function Disown(holders: map<FileName, Holder>, files: map<FileName, Bytes>, o: nat): (r: map<FileName, Holder>)
    ensures forall f :: f in r <==> f in holders && (holders[f] != HeldByOperation(o) || f in files)
    ensures forall f :: f in r ==> r[f] == if holders[f] == HeldByOperation(o) then Orphaned else holders[f]
  {
    map f | f in holders && (holders[f] != HeldByOperation(o) || f in files) ::
      if holders[f] == HeldByOperation(o) then Orphaned else holders[f]
  }

  /** The operation stops caring for its names: a file that still exists becomes an orphan. */
  function Abandon(s: State, o: nat): State {
    s.(holders := Disown(s.holders, s.files, o))
  }

  /** The step changes neither a file nor who holds it. */
  predicate FilesKept(s: State, t: State) {
    t.files == s.files && t.holders == s.holders
  }

  /** The step changes no recorded analysis. */
  predicate HistoryKept(s: State, t: State) {
    t.analyses == s.analyses && t.results == s.results
  }

  /** The step belongs to no analysis: it neither records nor begins one. */
  predicate NotAnalyzing(s: State, t: State) {
    && HistoryKept(s, t)
    && forall p :: p in t.operations && t.operations[p].Analyzing? ==> p in s.operations && s.operations[p].Analyzing?
  }

  /** The step of an upload commits nothing, and a committed upload stays committed. */
  predicate UploadMoves(s: State, t: State, o: nat, u: Upload) {
    && NotAnalyzing(s, t) && t.datasets == s.datasets && t.rules == s.rules
    && (t == s || (o in t.operations && t.operations[o].Uploading?
                   && t.operations[o].upload.committed == u.committed))
  }

  predicate NoNewOrphans(s: State, t: State) {
    forall f :: f in t.holders && t.holders[f].Orphaned? ==> f in s.holders && s.holders[f].Orphaned?
  }

  /** The same call with the same arguments, unless it has died. */
  predicate SameCall(operation: Operation, next: Operation) {
    match (operation, next)
    case (Uploading(u), Uploading(w)) =>
      u.ownerId == w.ownerId && u.datasetId == w.datasetId && u.filename == w.filename && u.source == w.source
    case (Creating(k), Creating(l)) =>
      k.ownerId == l.ownerId && k.datasetId == l.datasetId && k.definition == l.definition
    case (Deleting(x), Deleting(y)) => x.ownerId == y.ownerId && x.datasetId == y.datasetId && x.ruleId == y.ruleId
    case (Analyzing(a), Analyzing(b)) => a.ownerId == b.ownerId && a.datasetId == b.datasetId
    case (_, Crashed) => true
    case (_, _) => false
  }

  /** Only the operation's own record changes, for the same call, and its row lock follows its program point. */
  predicate LockFollows(s: State, t: State, o: nat, operation: Operation) {
    t == s
    || (o in t.operations
        && var next := t.operations[o];
           && t.operations == s.operations[o := next]
           && SameCall(operation, next)
           && t.locks == (if HoldsLock(next) == HoldsLock(operation) then s.locks
                          else if HoldsLock(next) then s.locks[DatasetOf(operation) := o]
                          else Without(s.locks, DatasetOf(operation))))
  }

  // ---------------------------------------------------------------- how far an operation has come

  function UploadRank(at: UploadPoint): nat {
    match at
    case Requested => 14
    case Accepted => 13
    case Writing => 12
    case Written => 11
    case Scanned => 10
    case Locked => 9
    case Marked => 8
    case Installed => 7
    case Flushed => 6
    case Committed => 5
    case Superseding => 4
    case Discarding => 3
    case Removing => 2
    case WriteCleanup => 1
    case Succeeded => 0
    case Failed => 0
  }

  function AnalysisRank(at: AnalysisPoint): nat {
    match at
    case AnalysisRequested => 6
    case RowRead => 5
    case RulesRead => 4
    case Reading => 3
    case Captured => 2
    case Computed => 1
    case _ => 0
  }

  function Rank(operation: Operation): nat {
    match operation
    case Uploading(u) => UploadRank(u.at)
    case Creating(k) => if k.at.Admission? then 2 else if k.at.Checked? then 1 else 0
    case Deleting(x) => if x.at.DeletionRequested? then 3 else if x.at.OwnerChecked? then 2
                        else if x.at.RuleFound? then 1 else 0
    case Analyzing(a) => AnalysisRank(a.at)
    case Crashed => 0
  }

  /** The bytes a loop still has to copy. */
  function Remaining(operation: Operation): nat {
    match operation
    case Uploading(u) => if u.at.Writing? && u.written <= |u.source| then |u.source| - u.written else 0
    case Analyzing(a) => if a.at.Reading? && |a.content| <= |a.handle| then |a.handle| - |a.content| else 0
    case _ => 0
  }

  /** The operation of `o` is closer to its end than `operation`. */
  predicate Nearer(t: State, o: nat, operation: Operation) {
    o in t.operations
    && (Rank(t.operations[o]) < Rank(operation)
        || (Rank(t.operations[o]) == Rank(operation) && Remaining(t.operations[o]) < Remaining(operation)))
  }

  // ---------------------------------------------------------------- upload_csv

  function NewUpload(ownerId: nat, datasetId: nat, filename: string, source: Bytes): Upload {
    Upload(ownerId, datasetId, filename, source, Requested, None, 0, Structure(0, []), 0, None,
           EMPTY_ROW, None, None, false)
  }

  function At(u: Upload, point: UploadPoint): Operation {
    Uploading(u.(at := point))
  }

  /** A row after a successful upload. */
  function UploadedRow(row: DatasetRow, filename: string, digest: Bytes, size: nat, structure: Structure,
                       key: nat, now: int): DatasetRow
  {
    DatasetRow(row.ownerId, row.createdAt, now, Some(filename), Some(key), Some(digest), Some(size),
               Some(structure.rowCount), Some(structure.columns), Some(now))
  }

  /** The files after a successful upload: the new one is active, the superseded one is gone. */
  function Replaced(files: map<FileName, Bytes>, key: nat, content: Bytes, oldKey: Option<nat>): map<FileName, Bytes> {
    if oldKey.Some? && oldKey != Some(key) then Without(files[Stored(key) := content], Stored(oldKey.value))
    else files[Stored(key) := content]
  }

  function UpdatedRow(v: Services, u: Upload): DatasetRow {
    DatasetRow(u.row.ownerId, u.row.createdAt, u.now, Some(u.filename), u.newKey,
               Some(v.digest(u.source)), Some(|u.source|), Some(u.structure.rowCount),
               Some(u.structure.columns), Some(u.now))
  }

  function CheckUploadOwner(s: State, o: nat, u: Upload): (t: State)
    ensures FilesKept(s, t) && UploadMoves(s, t, o, u)
    ensures u.at.Requested? ==> LockFollows(s, t, o, Uploading(u))
    ensures u.at.Requested? ==> Nearer(t, o, Uploading(u))
  {
    if Owned(s.datasets, u.datasetId, u.ownerId) then Put(s, o, At(u, Accepted))
    else Put(s, o, At(u, Failed))
  }

  function OpenCandidate(s: State, o: nat, u: Upload, uuid: nat): (t: State)
    ensures NoNewOrphans(s, t) && UploadMoves(s, t, o, u)
    ensures u.at.Accepted? ==> LockFollows(s, t, o, Uploading(u))
    ensures u.at.Accepted? && uuid !in s.issued ==> Nearer(t, o, Uploading(u))
  {
    if uuid in s.issued then s
    else Put(Write(Reserve(s, uuid, Candidate(uuid), o), Candidate(uuid), []), o,
             At(u.(candidate := Some(uuid), written := 0), Writing))
  }

  function Append(s: State, o: nat, u: Upload, size: nat): State
    requires u.candidate.Some? && size <= |u.source|
  {
    Put(Write(s, Candidate(u.candidate.value), u.source[..size]), o, At(u.(written := size), Writing))
  }

  function WriteChunk(s: State, o: nat, u: Upload): (t: State)
    ensures NoNewOrphans(s, t) && UploadMoves(s, t, o, u)
    ensures u.at.Writing? ==> LockFollows(s, t, o, Uploading(u))
    ensures u.at.Writing? ==> Nearer(t, o, Uploading(u))
  {
    if u.candidate.None? || u.written >= |u.source| then Put(s, o, At(u, Written))
    else
      var size := u.written + Min(READ_CHUNK_BYTES, |u.source| - u.written);
      if size > MAX_CSV_BYTES then Put(s, o, At(u, WriteCleanup))
      else Append(s, o, u, size)
  }

  function ScanCandidate(v: Services, s: State, o: nat, u: Upload, c: Choice): (t: State)
    ensures NoNewOrphans(s, t) && UploadMoves(s, t, o, u)
    ensures u.at.Written? ==> LockFollows(s, t, o, Uploading(u))
    ensures u.at.Written? && u.candidate.Some? && c.uuid !in s.issued ==> Nearer(t, o, Uploading(u))
  {
    if u.candidate.None? || c.uuid in s.issued then s
    else if Candidate(u.candidate.value) !in s.files then Put(s, o, At(u, Discarding))
    else
      match v.scan(s.files[Candidate(u.candidate.value)])
      case None => Put(s, o, At(u, Discarding))
      case Some(structure) =>
        Put(Reserve(s, c.uuid, Stored(c.uuid), o), o,
            At(u.(structure := structure, now := c.now, newKey := Some(c.uuid)), Scanned))
  }

  function HoldForUpload(s: State, o: nat, u: Upload, row: DatasetRow): (t: State)
    ensures FilesKept(s, t) && UploadMoves(s, t, o, u)
    ensures u.at.Scanned? ==> LockFollows(s, t, o, Uploading(u))
    ensures u.at.Scanned? ==> Nearer(t, o, Uploading(u))
  {
    Put(Lock(s, u.datasetId, o), o, At(u.(row := row), Locked))
  }

  function LockForUpload(s: State, o: nat, u: Upload): (t: State)
    ensures FilesKept(s, t) && UploadMoves(s, t, o, u)
    ensures u.at.Scanned? ==> LockFollows(s, t, o, Uploading(u))
    ensures u.at.Scanned? && u.datasetId !in s.locks ==> Nearer(t, o, Uploading(u))
  {
    if !Owned(s.datasets, u.datasetId, u.ownerId) then Put(s, o, At(u, Discarding))
    else if u.datasetId in s.locks then s
    else HoldForUpload(s, o, u, s.datasets[u.datasetId])
  }

  function CheckCompatible(s: State, o: nat, u: Upload): (t: State)
    ensures FilesKept(s, t) && UploadMoves(s, t, o, u)
    ensures u.at.Locked? ==> LockFollows(s, t, o, Uploading(u))
    ensures u.at.Locked? ==> Nearer(t, o, Uploading(u))
  {
    if TargetsWithin(s.rules, u.datasetId, u.structure.columns) then
      Put(s, o, At(u.(oldKey := u.row.storageKey, installedKey := u.newKey), Marked))
    else Put(Unlock(s, u.datasetId), o, At(u, Discarding))
  }

  function Install(s: State, o: nat, u: Upload): (t: State)
    ensures NoNewOrphans(s, t) && UploadMoves(s, t, o, u)
    ensures u.at.Marked? ==> LockFollows(s, t, o, Uploading(u))
    ensures u.at.Marked? && u.candidate.Some? && u.installedKey.Some? ==> Nearer(t, o, Uploading(u))
  {
    if u.candidate.None? || u.installedKey.None? then s
    else if Candidate(u.candidate.value) !in s.files then Put(Unlock(s, u.datasetId), o, At(u, Discarding))
    else Put(Rename(s, Candidate(u.candidate.value), Stored(u.installedKey.value)), o, At(u, Installed))
  }

  function FlushRow(v: Services, s: State, o: nat, u: Upload): (t: State)
    ensures FilesKept(s, t) && UploadMoves(s, t, o, u)
    ensures u.at.Installed? ==> LockFollows(s, t, o, Uploading(u))
    ensures u.at.Installed? ==> Nearer(t, o, Uploading(u))
  {
    if SatisfiesChecks(UpdatedRow(v, u)) then Put(s, o, At(u, Flushed))
    else Put(Unlock(s, u.datasetId), o, At(u, Discarding))
  }

  /** Commit: the row, the lock and, in the history, the responsibility for both files change at once. */
  function CommitUpload(v: Services, s: State, o: nat, u: Upload): (t: State)
    ensures NoNewOrphans(s, t)
    ensures NotAnalyzing(s, t) && t.rules == s.rules
    ensures t == s || (o in t.operations && t.operations[o].Uploading? && t.operations[o].upload.committed)
    ensures u.at.Flushed? ==> LockFollows(s, t, o, Uploading(u))
    ensures u.at.Flushed? && u.newKey.Some? ==> Nearer(t, o, Uploading(u))
  {
    if u.newKey.None? then s
    else
      var held := s.holders[Stored(u.newKey.value) := HeldByRow(u.datasetId)];
      Put(Unlock(s, u.datasetId).(
            datasets := s.datasets[u.datasetId := UpdatedRow(v, u)],
            holders := if u.oldKey.Some? then held[Stored(u.oldKey.value) := HeldByOperation(o)] else held),
          o, At(u.(committed := true), Committed))
  }

  function CloseSession(s: State, o: nat, u: Upload): (t: State)
    ensures FilesKept(s, t) && UploadMoves(s, t, o, u)
    ensures u.at.Committed? ==> LockFollows(s, t, o, Uploading(u))
    ensures u.at.Committed? ==> Nearer(t, o, Uploading(u))
  {
    if u.oldKey.Some? && u.oldKey != u.newKey then Put(s, o, At(u, Superseding))
    else Put(s, o, At(u, Succeeded))
  }

  function RemoveOld(s: State, o: nat, u: Upload): (t: State)
    ensures NoNewOrphans(s, t) && UploadMoves(s, t, o, u)
    ensures u.at.Superseding? ==> LockFollows(s, t, o, Uploading(u))
    ensures u.at.Superseding? && u.oldKey.Some? ==> Nearer(t, o, Uploading(u))
  {
    if u.oldKey.None? then s
    else Put(Unlink(s, Stored(u.oldKey.value)), o, At(u, Succeeded))
  }

  function DiscardCandidate(s: State, o: nat, u: Upload): (t: State)
    ensures UploadMoves(s, t, o, u)
    ensures u.at.Discarding? ==> LockFollows(s, t, o, Uploading(u))
    ensures u.at.Discarding? && u.candidate.Some? ==> Nearer(t, o, Uploading(u))
  {
    if u.candidate.None? then s
    else
      var after := Unlink(s, Candidate(u.candidate.value));
      if u.installedKey.Some? && !u.committed then Put(after, o, At(u, Removing))
      else Put(Abandon(after, o), o, At(u, Failed))
  }

  function RemoveInstalled(s: State, o: nat, u: Upload): (t: State)
    ensures NoNewOrphans(s, t) && UploadMoves(s, t, o, u)
    ensures u.at.Removing? ==> LockFollows(s, t, o, Uploading(u))
    ensures u.at.Removing? && u.installedKey.Some? ==> Nearer(t, o, Uploading(u))
  {
    if u.installedKey.None? then s
    else Put(Unlink(s, Stored(u.installedKey.value)), o, At(u, Failed))
  }

  function CleanUpWrite(s: State, o: nat, u: Upload): (t: State)
    ensures NoNewOrphans(s, t) && UploadMoves(s, t, o, u)
    ensures u.at.WriteCleanup? ==> LockFollows(s, t, o, Uploading(u))
    ensures u.at.WriteCleanup? && u.candidate.Some? ==> Nearer(t, o, Uploading(u))
  {
    if u.candidate.None? then s
    else Put(Unlink(s, Candidate(u.candidate.value)), o, At(u, Failed))
  }

  function AdvanceUpload(v: Services, s: State, o: nat, u: Upload, c: Choice): (t: State)
    ensures NotAnalyzing(s, t) && (!u.at.Discarding? ==> NoNewOrphans(s, t)) && t.rules == s.rules
    ensures u.at.Flushed? || UploadMoves(s, t, o, u)
    ensures t == s || (o in t.operations && t.operations[o].Uploading?
                       && (u.committed ==> t.operations[o].upload.committed))
    ensures LockFollows(s, t, o, Uploading(u))
  {
    match u.at
    case Requested => CheckUploadOwner(s, o, u)
    case Accepted => OpenCandidate(s, o, u, c.uuid)
    case Writing => WriteChunk(s, o, u)
    case WriteCleanup => CleanUpWrite(s, o, u)
    case Written => ScanCandidate(v, s, o, u, c)
    case Scanned => LockForUpload(s, o, u)
    case Locked => CheckCompatible(s, o, u)
    case Marked => Install(s, o, u)
    case Installed => FlushRow(v, s, o, u)
    case Flushed => CommitUpload(v, s, o, u)
    case Committed => CloseSession(s, o, u)
    case Superseding => RemoveOld(s, o, u)
    case Discarding => DiscardCandidate(s, o, u)
    case Removing => RemoveInstalled(s, o, u)
    case Succeeded => s
    case Failed => s
  }

  predicate UploadHoldsLock(u: Upload) {
    u.at.Locked? || u.at.Marked? || u.at.Installed? || u.at.Flushed?
  }

  /** Where an exception at a point takes the call: the enclosing handler, or its end. */
  function Handler(at: UploadPoint, x: Exception): UploadPoint {
    match at
    case Requested => Failed
    case Accepted => Failed
    case Writing => WriteCleanup
    case WriteCleanup => Failed       // the candidate could not be removed
    case Written => Discarding
    case Scanned => Discarding
    case Locked => Discarding
    case Marked => Discarding
    case Installed => Discarding
    case Flushed => Discarding
    case Committed => Discarding      // closing the session failed after the commit
    case Superseding => if x.FileError? then Succeeded else Failed   // the former is only logged
    case Discarding => Failed         // the candidate could not be removed: propagates
    case Removing => Failed           // the installed file could not be removed: swallowed
    case Succeeded => Succeeded
    case Failed => Failed
  }

  /** Points at which an exception leaves a file that no later code removes. */
  predicate GivesUp(at: UploadPoint) {
    at.WriteCleanup? || at.Committed? || at.Superseding? || at.Discarding? || at.Removing?
  }

  /** An exception at the current step; inside the transaction it rolls back first. */
  function FaultUpload(s: State, o: nat, u: Upload, x: Exception): (t: State)
    ensures UploadMoves(s, t, o, u)
    ensures FilesKept(if GivesUp(u.at) then Abandon(s, o) else s, t)
    ensures LockFollows(s, t, o, Uploading(u))
  {
    var next := At(u, Handler(u.at, x));
    if u.at.Succeeded? || u.at.Failed? then s
    else if UploadHoldsLock(u) then Put(Unlock(s, u.datasetId), o, next)
    else if GivesUp(u.at) then Put(Abandon(s, o), o, next)
    else Put(s, o, next)
  }

  // ---------------------------------------------------------------- create_rule and delete_rule

  predicate HasColumn(row: DatasetRow, column: string) {
    row.columns.Some? && column in row.columns.value
  }

  function Refuse(s: State, o: nat, k: Creation): (t: State)
    ensures FilesKept(s, t) && NotAnalyzing(s, t) && t.datasets == s.datasets && t.rules == s.rules
    ensures k.at.Admission? ==> LockFollows(s, t, o, Creating(k))
    ensures k.at.Admission? ==> Nearer(t, o, Creating(k))
  {
    Put(s, o, Creating(k.(at := CreationFailed)))
  }

  function HoldForRule(s: State, o: nat, k: Creation, row: DatasetRow): (t: State)
    ensures FilesKept(s, t) && NotAnalyzing(s, t) && t.datasets == s.datasets && t.rules == s.rules
    ensures k.at.Admission? ==> LockFollows(s, t, o, Creating(k))
    ensures k.at.Admission? ==> Nearer(t, o, Creating(k))
  {
    Put(Lock(s, k.datasetId, o), o, Creating(k.(row := row, at := Checked)))
  }

  /** Locks the row, then checks owner, readiness and column; a refusal rolls back. */
  function LockForRule(s: State, o: nat, k: Creation): (t: State)
    ensures FilesKept(s, t) && NotAnalyzing(s, t) && t.datasets == s.datasets && t.rules == s.rules
    ensures k.at.Admission? ==> LockFollows(s, t, o, Creating(k))
    ensures k.at.Admission? && k.datasetId !in s.locks ==> Nearer(t, o, Creating(k))
  {
    if !Owned(s.datasets, k.datasetId, k.ownerId) then Refuse(s, o, k)
    else if k.datasetId in s.locks then s
    else if !HasColumn(s.datasets[k.datasetId], k.definition.targetColumn) then Refuse(s, o, k)
    else HoldForRule(s, o, k, s.datasets[k.datasetId])
  }

  function RollBack(s: State, o: nat, k: Creation): (t: State)
    ensures FilesKept(s, t) && NotAnalyzing(s, t) && t.datasets == s.datasets && t.rules == s.rules
    ensures k.at.Checked? ==> LockFollows(s, t, o, Creating(k))
    ensures k.at.Checked? ==> Nearer(t, o, Creating(k))
  {
    Put(Unlock(s, k.datasetId), o, Creating(k.(at := CreationFailed)))
  }

  function InsertRule(s: State, o: nat, k: Creation, c: Choice): (t: State)
    ensures FilesKept(s, t) && NotAnalyzing(s, t) && t.datasets == s.datasets
    ensures k.at.Checked? ==> LockFollows(s, t, o, Creating(k))
    ensures k.at.Checked? ==> Nearer(t, o, Creating(k))
  {
    Put(Unlock(s, k.datasetId).(
          issued := s.issued + {c.uuid},
          rules := s.rules[c.uuid := RuleRow(k.datasetId, k.definition, c.now)]),
        o, Creating(k.(at := RuleStored)))
  }

  /** Flush and commit; the unique constraint on definitions decides between the two outcomes. */
  function StoreRule(s: State, o: nat, k: Creation, c: Choice): (t: State)
    ensures FilesKept(s, t) && NotAnalyzing(s, t) && t.datasets == s.datasets
    ensures k.at.Checked? ==> LockFollows(s, t, o, Creating(k))
    ensures k.at.Checked? && c.uuid !in s.issued && c.uuid !in s.rules ==> Nearer(t, o, Creating(k))
  {
    if DefinitionTaken(s.rules, k.datasetId, k.definition) then RollBack(s, o, k)
    else if c.uuid in s.issued || c.uuid in s.rules then s
    else InsertRule(s, o, k, c)
  }

  function AdvanceCreation(s: State, o: nat, k: Creation, c: Choice): (t: State)
    ensures FilesKept(s, t) && NotAnalyzing(s, t) && t.datasets == s.datasets
    ensures LockFollows(s, t, o, Creating(k))
  {
    match k.at
    case Admission => LockForRule(s, o, k)
    case Checked => StoreRule(s, o, k, c)
    case RuleStored => s
    case CreationFailed => s
  }

  function FaultCreation(s: State, o: nat, k: Creation): (t: State)
    ensures FilesKept(s, t) && NotAnalyzing(s, t) && t.datasets == s.datasets && t.rules == s.rules
    ensures LockFollows(s, t, o, Creating(k))
  {
    match k.at
    case Admission => Refuse(s, o, k)
    case Checked => RollBack(s, o, k)
    case RuleStored => s
    case CreationFailed => s
  }

  /** Deletion takes no dataset lock. */
  function AdvanceDeletion(s: State, o: nat, x: Deletion): (t: State)
    ensures FilesKept(s, t) && NotAnalyzing(s, t) && t.datasets == s.datasets
    ensures LockFollows(s, t, o, Deleting(x))
    ensures !x.at.RuleDeleted? && !x.at.DeletionFailed? ==> Nearer(t, o, Deleting(x))
    ensures !x.at.RuleFound? ==> t.rules == s.rules
  {
    match x.at
    case DeletionRequested =>
      Put(s, o, Deleting(x.(at := if Owned(s.datasets, x.datasetId, x.ownerId) then OwnerChecked else DeletionFailed)))
    case OwnerChecked =>
      Put(s, o, Deleting(x.(at := if x.ruleId in s.rules && s.rules[x.ruleId].datasetId == x.datasetId
                                  then RuleFound else DeletionFailed)))
    case RuleFound => Put(s.(rules := Without(s.rules, x.ruleId)), o, Deleting(x.(at := RuleDeleted)))
    case RuleDeleted => s
    case DeletionFailed => s
  }

  function FaultDeletion(s: State, o: nat, x: Deletion): (t: State)
    ensures FilesKept(s, t) && NotAnalyzing(s, t) && t.datasets == s.datasets && t.rules == s.rules
    ensures LockFollows(s, t, o, Deleting(x))
  {
    if x.at.RuleDeleted? then s else Put(s, o, Deleting(x.(at := DeletionFailed)))
  }

  // ---------------------------------------------------------------- create_analysis

  /** The analysis goes on without touching the lock. */
  function Proceed(s: State, o: nat, a: Analysis, next: Analysis): (t: State)
    ensures FilesKept(s, t) && HistoryKept(s, t) && t.datasets == s.datasets && t.rules == s.rules
    ensures next.datasetId == a.datasetId && next.ownerId == a.ownerId
            && AnalysisHoldsLock(next) == AnalysisHoldsLock(a) ==>
      LockFollows(s, t, o, Analyzing(a))
    ensures Rank(Analyzing(next)) < Rank(Analyzing(a)) ==> Nearer(t, o, Analyzing(a))
    ensures next.at == a.at && Remaining(Analyzing(next)) < Remaining(Analyzing(a)) ==> Nearer(t, o, Analyzing(a))
  {
    Put(s, o, Analyzing(next))
  }

  /** The snapshot's transaction ends and releases the row. */
  function ReleaseRow(s: State, o: nat, a: Analysis, at: AnalysisPoint): (t: State)
    ensures FilesKept(s, t) && HistoryKept(s, t) && t.datasets == s.datasets && t.rules == s.rules
    ensures AnalysisHoldsLock(a) && !AnalysisHoldsLock(a.(at := at)) ==> LockFollows(s, t, o, Analyzing(a))
    ensures AnalysisRank(at) < AnalysisRank(a.at) ==> Nearer(t, o, Analyzing(a))
  {
    Put(Unlock(s, a.datasetId), o, Analyzing(a.(at := at)))
  }

  function HoldForAnalysis(s: State, o: nat, a: Analysis, row: DatasetRow): (t: State)
    ensures FilesKept(s, t) && HistoryKept(s, t) && t.datasets == s.datasets && t.rules == s.rules
    ensures !AnalysisHoldsLock(a) ==> LockFollows(s, t, o, Analyzing(a))
    ensures a.at.AnalysisRequested? ==> Nearer(t, o, Analyzing(a))
  {
    Put(Lock(s, a.datasetId, o), o, Analyzing(a.(row := row, at := RowRead)))
  }

  function LockForAnalysis(s: State, o: nat, a: Analysis): (t: State)
    ensures FilesKept(s, t) && HistoryKept(s, t) && t.datasets == s.datasets && t.rules == s.rules
    ensures a.at.AnalysisRequested? ==> LockFollows(s, t, o, Analyzing(a))
    ensures a.at.AnalysisRequested? && a.datasetId !in s.locks ==> Nearer(t, o, Analyzing(a))
  {
    if !Owned(s.datasets, a.datasetId, a.ownerId) then Proceed(s, o, a, a.(at := AnalysisFailed))
    else if a.datasetId in s.locks then s
    else if !Complete(s.datasets[a.datasetId]) then Proceed(s, o, a, a.(at := AnalysisFailed))
    else HoldForAnalysis(s, o, a, s.datasets[a.datasetId])
  }

  ghost function ReadRules(s: State, o: nat, a: Analysis, c: Choice): (t: State)
    ensures FilesKept(s, t) && HistoryKept(s, t) && t.datasets == s.datasets && t.rules == s.rules
    ensures a.at.RowRead? ==> LockFollows(s, t, o, Analyzing(a))
    ensures a.at.RowRead? && IsRuleListing(s.rules, a.datasetId, c.listing) ==> Nearer(t, o, Analyzing(a))
  {
    if !IsRuleListing(s.rules, a.datasetId, c.listing) then s
    else if c.listing == [] then ReleaseRow(s, o, a, AnalysisFailed)
    else Proceed(s, o, a, a.(rules := c.listing, at := RulesRead))
  }

  function OpenActive(s: State, o: nat, a: Analysis): (t: State)
    ensures FilesKept(s, t) && HistoryKept(s, t) && t.datasets == s.datasets && t.rules == s.rules
    ensures a.at.RulesRead? ==> LockFollows(s, t, o, Analyzing(a))
    ensures a.at.RulesRead? ==> Nearer(t, o, Analyzing(a))
  {
    if a.row.storageKey.None? || Stored(a.row.storageKey.value) !in s.files then
      ReleaseRow(s, o, a, IntegrityFailed)
    else
      Proceed(s, o, a, a.(handle := s.files[Stored(a.row.storageKey.value)], content := [], at := Reading))
  }

  /** One turn of the read loop; at the end of the file, the size and digest checks. */
  function ReadChunk(v: Services, s: State, o: nat, a: Analysis): (t: State)
    ensures FilesKept(s, t) && HistoryKept(s, t) && t.datasets == s.datasets && t.rules == s.rules
    ensures a.at.Reading? ==> LockFollows(s, t, o, Analyzing(a))
    ensures a.at.Reading? && a.content <= a.handle ==> Nearer(t, o, Analyzing(a))
  {
    if |a.content| < |a.handle| then
      var size := |a.content| + Min(READ_CHUNK_BYTES, |a.handle| - |a.content|);
      if size > MAX_CSV_BYTES then ReleaseRow(s, o, a, IntegrityFailed)
      else Proceed(s, o, a, a.(content := a.handle[..size]))
    else if Some(|a.content|) != a.row.size || Some(v.digest(a.content)) != a.row.digest then
      ReleaseRow(s, o, a, IntegrityFailed)
    else ReleaseRow(s, o, a, Captured)
  }

  function ComputeRows(v: Services, s: State, o: nat, a: Analysis): (t: State)
    ensures FilesKept(s, t) && HistoryKept(s, t) && t.datasets == s.datasets && t.rules == s.rules
    ensures a.at.Captured? ==> LockFollows(s, t, o, Analyzing(a))
    ensures a.at.Captured? && Complete(a.row) ==> Nearer(t, o, Analyzing(a))
  {
    if !Complete(a.row) then s
    else
      match v.compute(SourceOf(a.row), a.rules, a.content)
      case Err(_) => Proceed(s, o, a, a.(at := IntegrityFailed))
      case Ok(computation) => Proceed(s, o, a, a.(computation := computation, at := Computed))
  }

  function InsertAnalysis(s: State, o: nat, a: Analysis, c: Choice): (t: State)
    requires Complete(a.row)
    ensures FilesKept(s, t) && t.datasets == s.datasets && t.rules == s.rules
    ensures a.at.Computed? ==> LockFollows(s, t, o, Analyzing(a)) && Nearer(t, o, Analyzing(a))
  {
    Put(s.(issued := s.issued + {c.uuid},
           analyses := s.analyses[c.uuid := AnalysisRow(a.datasetId, SourceOf(a.row), a.computation.totalViolations,
                                                        a.computation.score, c.now)],
           results := InsertResults(s.results, c.uuid, a.computation.results)),
        o, Analyzing(a.(analysisId := c.uuid, at := Recorded)))
  }

  function RefuseAnalysis(s: State, o: nat, a: Analysis): (t: State)
    ensures FilesKept(s, t) && t.datasets == s.datasets && t.rules == s.rules && HistoryKept(s, t)
    ensures a.at.Computed? ==> LockFollows(s, t, o, Analyzing(a)) && Nearer(t, o, Analyzing(a))
  {
    Put(s, o, Analyzing(a.(at := AnalysisFailed)))
  }

  /** One transaction inserts the analysis and all its results, unless the database refuses a sample. */
  function RecordAnalysis(s: State, o: nat, a: Analysis, c: Choice): (t: State)
    ensures FilesKept(s, t) && t.datasets == s.datasets && t.rules == s.rules
    ensures a.at.Computed? ==> LockFollows(s, t, o, Analyzing(a))
    ensures a.at.Computed? && Complete(a.row) && c.uuid !in s.issued && c.uuid !in s.analyses ==>
      Nearer(t, o, Analyzing(a))
  {
    if c.uuid in s.issued || c.uuid in s.analyses || !Complete(a.row) then s
    else if Storable(a.computation.results) then InsertAnalysis(s, o, a, c)
    else RefuseAnalysis(s, o, a)
  }

  ghost function AdvanceAnalysis(v: Services, s: State, o: nat, a: Analysis, c: Choice): (t: State)
    ensures FilesKept(s, t) && t.datasets == s.datasets && t.rules == s.rules
    ensures !a.at.Computed? ==> HistoryKept(s, t)
    ensures LockFollows(s, t, o, Analyzing(a))
  {
    match a.at
    case AnalysisRequested => LockForAnalysis(s, o, a)
    case RowRead => ReadRules(s, o, a, c)
    case RulesRead => OpenActive(s, o, a)
    case Reading => ReadChunk(v, s, o, a)
    case Captured => ComputeRows(v, s, o, a)
    case Computed => RecordAnalysis(s, o, a, c)
    case Recorded => s
    case IntegrityFailed => s
    case AnalysisFailed => s
  }

  predicate AnalysisHoldsLock(a: Analysis) {
    a.at.RowRead? || a.at.RulesRead? || a.at.Reading?
  }

  predicate AnalysisEnded(a: Analysis) {
    a.at.Recorded? || a.at.IntegrityFailed? || a.at.AnalysisFailed?
  }

  function FaultAnalysis(s: State, o: nat, a: Analysis): (t: State)
    ensures FilesKept(s, t) && HistoryKept(s, t) && t.datasets == s.datasets && t.rules == s.rules
    ensures LockFollows(s, t, o, Analyzing(a))
  {
    if AnalysisEnded(a) then s
    else if AnalysisHoldsLock(a) then ReleaseRow(s, o, a, AnalysisFailed)
    else Proceed(s, o, a, a.(at := AnalysisFailed))
  }

  // ---------------------------------------------------------------- events

  function Start(v: Services, request: Request): Operation {
    match request
    case UploadCsv(ownerId, datasetId, filename, source) =>
      Uploading(NewUpload(ownerId, datasetId, filename, source))
    case CreateRule(ownerId, datasetId, rule) =>
      (match v.admit(rule)
       case Some(definition) => Creating(Creation(ownerId, datasetId, definition, Admission, EMPTY_ROW))
       case None => Creating(Creation(ownerId, datasetId, Definition("", "", map[]), CreationFailed, EMPTY_ROW)))
    case DeleteRule(ownerId, datasetId, ruleId) =>
      Deleting(Deletion(ownerId, datasetId, ruleId, DeletionRequested))
    case CreateAnalysis(ownerId, datasetId) =>
      Analyzing(Analysis(ownerId, datasetId, AnalysisRequested, EMPTY_ROW, [], [], [], Computation(None, 0, []), 0))
  }

  predicate HoldsLock(operation: Operation) {
    match operation
    case Uploading(u) => UploadHoldsLock(u)
    case Creating(k) => k.at.Checked?
    case Deleting(_) => false
    case Analyzing(a) => AnalysisHoldsLock(a)
    case Crashed => false
  }

  function DatasetOf(operation: Operation): nat {
    match operation
    case Uploading(u) => u.datasetId
    case Creating(k) => k.datasetId
    case Deleting(x) => x.datasetId
    case Analyzing(a) => a.datasetId
    case Crashed => 0
  }

  /** The process dies: the database rolls back, the files stay. */
  function Die(s: State, o: nat, operation: Operation): (t: State)
    ensures HistoryKept(s, t)
    ensures FilesKept(Abandon(s, o), t)
    ensures t.datasets == s.datasets
    ensures LockFollows(s, t, o, operation)
  {
    var after := Abandon(s, o);
    Put(if HoldsLock(operation) then Unlock(after, DatasetOf(operation)) else after, o, Crashed)
  }

  ghost function AdvanceOperation(v: Services, s: State, o: nat, operation: Operation, c: Choice): (t: State)
    ensures operation.Analyzing? || NotAnalyzing(s, t)
    ensures operation.Uploading? || t.datasets == s.datasets
    ensures LockFollows(s, t, o, operation)
  {
    match operation
    case Uploading(u) => AdvanceUpload(v, s, o, u, c)
    case Creating(k) => AdvanceCreation(s, o, k, c)
    case Deleting(x) => AdvanceDeletion(s, o, x)
    case Analyzing(a) => AdvanceAnalysis(v, s, o, a, c)
    case Crashed => s
  }

  function FaultOperation(s: State, o: nat, operation: Operation, x: Exception): (t: State)
    ensures HistoryKept(s, t)
    ensures operation.Analyzing? || NotAnalyzing(s, t)
    ensures FilesKept(if operation.Uploading? && GivesUp(operation.upload.at) then Abandon(s, o) else s, t)
    ensures t.datasets == s.datasets && t.rules == s.rules
    ensures LockFollows(s, t, o, operation)
  {
    match operation
    case Uploading(u) => FaultUpload(s, o, u, x)
    case Creating(k) => FaultCreation(s, o, k)
    case Deleting(k) => FaultDeletion(s, o, k)
    case Analyzing(a) => FaultAnalysis(s, o, a)
    case Crashed => s
  }

  /** The effect of one event; an event that is not possible in `s` changes nothing. */
  ghost function Next(v: Services, s: State, e: Event): State {
    match e
    case CreateDataset(d, ownerId, now) =>
      if d in s.issued || d in s.datasets then s
      else s.(issued := s.issued + {d},
              datasets := s.datasets[d := EMPTY_ROW.(ownerId := ownerId, createdAt := now, updatedAt := now)])
    case Begin(o, request) => if o in s.operations then s else Put(s, o, Start(v, request))
    case Advance(o, c) => if o in s.operations then AdvanceOperation(v, s, o, s.operations[o], c) else s
    case Fault(o, x) => if o in s.operations then FaultOperation(s, o, s.operations[o], x) else s
    case Crash(o) => if o in s.operations then Die(s, o, s.operations[o]) else s
  }

  /** The state after a run. */
  ghost function Run(v: Services, events: seq<Event>): State {
    if events == [] then INITIAL
    else Next(v, Run(v, events[..|events| - 1]), events[|events| - 1])
  }
}
