/** The main results about every run of the protocol. */
module Safety {
  import opened Wrappers
  import opened External
  import opened Protocol
  import opened Invariant
  import opened UploadSteps
  import opened OtherSteps

  // ---------------------------------------------------------------- every event keeps the invariant

  /** Points before the commit, outside the handlers. */
  predicate Forward(at: UploadPoint) {
    at.Requested? || at.Accepted? || at.Writing? || at.Written? || at.Scanned?
  }

  lemma EarlyUploadAdvances(v: Services, s: State, o: nat, u: Upload, c: Choice)
    requires Shared(v, s) && o in s.operations && s.operations[o] == Uploading(u)
    requires UploadSound(v, s, o, u) && Forward(u.at)
    ensures Good(v, s, AdvanceUpload(v, s, o, u, c), o)
  {
    match u.at
    case Requested => CheckUploadOwnerKeeps(v, s, o, u);
    case Accepted => OpenCandidateKeeps(v, s, o, u, c.uuid);
    case Writing => WriteChunkKeeps(v, s, o, u);
    case Written => ScanCandidateKeeps(v, s, o, u, c);
    case Scanned => LockForUploadKeeps(v, s, o, u);
  }

  lemma LockedUploadAdvances(v: Services, s: State, o: nat, u: Upload, c: Choice)
    requires Shared(v, s) && o in s.operations && s.operations[o] == Uploading(u)
    requires UploadSound(v, s, o, u) && UploadHoldsLock(u)
    ensures Good(v, s, AdvanceUpload(v, s, o, u, c), o)
  {
    match u.at
    case Locked => CheckCompatibleKeeps(v, s, o, u);
    case Marked => InstallKeeps(v, s, o, u);
    case Installed => FlushRowKeeps(v, s, o, u);
    case Flushed => CommitUploadKeeps(v, s, o, u);
  }

  lemma LateUploadAdvances(v: Services, s: State, o: nat, u: Upload, c: Choice)
    requires Shared(v, s) && o in s.operations && s.operations[o] == Uploading(u)
    requires UploadSound(v, s, o, u) && !Forward(u.at) && !UploadHoldsLock(u)
    ensures Good(v, s, AdvanceUpload(v, s, o, u, c), o)
  {
    match u.at
    case WriteCleanup => CleanUpWriteKeeps(v, s, o, u);
    case Committed => CloseSessionKeeps(v, s, o, u);
    case Superseding => RemoveOldKeeps(v, s, o, u);
    case Discarding => DiscardCandidateKeeps(v, s, o, u);
    case Removing => RemoveInstalledKeeps(v, s, o, u);
    case Succeeded => GoodStep(v, s, s, o, Uploading(u));
    case Failed => GoodStep(v, s, s, o, Uploading(u));
  }

  lemma UploadAdvances(v: Services, s: State, o: nat, u: Upload, c: Choice)
    requires Shared(v, s) && o in s.operations && s.operations[o] == Uploading(u)
    requires UploadSound(v, s, o, u)
    ensures Good(v, s, AdvanceUpload(v, s, o, u, c), o)
  {
    if Forward(u.at) {
      EarlyUploadAdvances(v, s, o, u, c);
    } else if UploadHoldsLock(u) {
      LockedUploadAdvances(v, s, o, u, c);
    } else {
      LateUploadAdvances(v, s, o, u, c);
    }
  }

  lemma OperationAdvances(v: Services, s: State, o: nat, operation: Operation, c: Choice)
    requires Lawful(v)
    requires Shared(v, s) && o in s.operations && s.operations[o] == operation
    requires OperationSound(v, s, o, operation)
    ensures Good(v, s, AdvanceOperation(v, s, o, operation, c), o)
  {
    match operation
    case Uploading(u) => UploadAdvances(v, s, o, u, c);
    case Creating(k) => AdvanceCreationKeeps(v, s, o, k, c);
    case Deleting(x) => DeletionKeeps(v, s, o, x);
    case Analyzing(a) => AnalysisKeeps(v, s, o, a, c);
    case Crashed => GoodStep(v, s, s, o, Crashed);
  }

  lemma OperationFaults(v: Services, s: State, o: nat, operation: Operation, x: Exception)
    requires Shared(v, s) && o in s.operations && s.operations[o] == operation
    requires OperationSound(v, s, o, operation)
    ensures Good(v, s, FaultOperation(s, o, operation, x), o)
  {
    match operation
    case Uploading(u) => FaultUploadKeeps(v, s, o, u, x);
    case Creating(k) => FaultCreationKeeps(v, s, o, k);
    case Deleting(k) => FaultDeletionKeeps(v, s, o, k);
    case Analyzing(a) => FaultAnalysisKeeps(v, s, o, a);
    case Crashed => GoodStep(v, s, s, o, Crashed);
  }

  lemma NewOperationNames(s: State, o: nat, operation: Operation)
    requires NamesHeld(s) && o !in s.operations
    ensures var t := Put(s, o, operation);
      NamesHeld(t) && Rely(s, t, o) && CommitsNothing(s, t)
  {
  }

  lemma StartIsSound(v: Services, s: State, o: nat, request: Request)
    ensures OperationSound(v, s, o, Start(v, request))
  {
  }

  lemma BeginKeeps(v: Services, s: State, o: nat, request: Request)
    requires Inv(v, s) && o !in s.operations
    ensures Inv(v, Put(s, o, Start(v, request)))
  {
    var t := Put(s, o, Start(v, request));
    NewOperationNames(s, o, Start(v, request));
    StartIsSound(v, t, o, request);
    SharedFrame(v, s, t);
    StepKeeps(v, s, t, o);
  }

  /** A new vacant row affects nothing. */
  lemma NewRowKeepsShared(v: Services, s: State, d: nat, row: DatasetRow)
    requires Shared(v, s) && d !in s.issued && d !in s.datasets && Vacant(row)
    ensures Shared(v, s.(issued := s.issued + {d}, datasets := s.datasets[d := row]))
  {
    var t := s.(issued := s.issued + {d}, datasets := s.datasets[d := row]);
    forall x | x in t.datasets ensures x in t.issued && RowBacked(v, t, x) {
      if x != d { assert RowBacked(v, s, x); }
    }
    forall r | r in t.rules ensures RuleSound(v, t, r) {
      assert RuleSound(v, s, r);
    }
  }

  lemma NewRowRelies(s: State, d: nat, row: DatasetRow, o: nat)
    requires d !in s.issued && d !in s.datasets
    ensures Rely(s, s.(issued := s.issued + {d}, datasets := s.datasets[d := row]), o)
  {
  }

  lemma CreateDatasetKeeps(v: Services, s: State, d: nat, row: DatasetRow)
    requires Inv(v, s) && d !in s.issued && d !in s.datasets && Vacant(row)
    ensures Inv(v, s.(issued := s.issued + {d}, datasets := s.datasets[d := row]))
  {
    var t := s.(issued := s.issued + {d}, datasets := s.datasets[d := row]);
    NewRowKeepsShared(v, s, d, row);
    forall p | p in t.operations ensures OperationSound(v, t, p, t.operations[p]) {
      NewRowRelies(s, d, row, p + 1);
      OthersUnaffected(v, s, t, p + 1, p);
    }
  }

  /** A step, a fault or a crash of an existing operation. */
  lemma OperationEvents(v: Services, s: State, e: Event)
    requires Lawful(v) && Inv(v, s) && !e.CreateDataset? && !e.Begin? && e.operation in s.operations
    ensures Good(v, s, Next(v, s, e), e.operation)
  {
    assert OperationSound(v, s, e.operation, s.operations[e.operation]);
    match e
    case Advance(o, c) => OperationAdvances(v, s, o, s.operations[o], c);
    case Fault(o, x) => OperationFaults(v, s, o, s.operations[o], x);
    case Crash(o) => DieKeeps(v, s, o);
  }

  /** No event, fault or crash breaks the invariant. */
  lemma EventKeeps(v: Services, s: State, e: Event)
    requires Lawful(v) && Inv(v, s)
    ensures Inv(v, Next(v, s, e))
  {
    match e
    case CreateDataset(d, ownerId, now) =>
      if d !in s.issued && d !in s.datasets {
        CreateDatasetKeeps(v, s, d, EMPTY_ROW.(ownerId := ownerId, createdAt := now, updatedAt := now));
      }
    case Begin(o, request) =>
      if o !in s.operations {
        BeginKeeps(v, s, o, request);
      }
    case _ =>
      if e.operation in s.operations {
        OperationEvents(v, s, e);
        StepKeeps(v, s, Next(v, s, e), e.operation);
      }
  }

  lemma {:induction false} RunKeeps(v: Services, events: seq<Event>)
    requires Lawful(v)
    ensures Inv(v, Run(v, events))
  {
    if events != [] {
      RunKeeps(v, events[..|events| - 1]);
      EventKeeps(v, Run(v, events[..|events| - 1]), events[|events| - 1]);
    }
  }

  // ---------------------------------------------------------------- integrity of committed rows

  /** In every reachable state each committed row has no upload at all, or a complete file that it describes. */
  lemma CommittedRowsAreIntact(v: Services, events: seq<Event>, d: nat)
    requires Lawful(v)
    requires d in Run(v, events).datasets
    ensures var s := Run(v, events); var row := s.datasets[d];
      Vacant(row) || (&& Complete(row)
                      && Stored(row.storageKey.value) in s.files
                      && Describes(v, row, s.files[Stored(row.storageKey.value)]))
  {
    RunKeeps(v, events);
    assert RowBacked(v, Run(v, events), d);
  }

  /** In every reachable state each committed rule targets a column of its dataset's active header, and is unique. */
  lemma CommittedRulesMatchHeader(v: Services, events: seq<Event>, r: nat)
    requires Lawful(v)
    requires r in Run(v, events).rules
    ensures var s := Run(v, events); var rule := s.rules[r];
      && rule.datasetId in s.datasets
      && s.datasets[rule.datasetId].columns.Some?
      && rule.definition.targetColumn in s.datasets[rule.datasetId].columns.value
      && (forall q :: q in s.rules && q != r && s.rules[q].datasetId == rule.datasetId ==>
            s.rules[q].definition != rule.definition)
  {
    RunKeeps(v, events);
    assert RuleSound(v, Run(v, events), r);
  }

  /** No analysis of any run ever fails an integrity check, and a computed one has one result per captured rule. */
  lemma AnalysesNeverFailIntegrity(v: Services, events: seq<Event>, o: nat)
    requires Lawful(v)
    requires o in Run(v, events).operations && Run(v, events).operations[o].Analyzing?
    ensures var a := Run(v, events).operations[o].analysis;
      && !a.at.IntegrityFailed?
      && (a.at.Computed? ==> |a.computation.results| == |a.rules| > 0)
  {
    RunKeeps(v, events);
    var a := Run(v, events).operations[o].analysis;
    assert AnalysisSound(v, Run(v, events), o, a);
    if a.at.Computed? {
      assert Describes(v, a.row, a.content) && SnapshotRulesSound(v, a.row, a.rules);
    }
  }

  /** Operations that hold the row lock of one dataset exclude each other. */
  lemma LocksExclude(v: Services, events: seq<Event>, o: nat, p: nat)
    requires Lawful(v)
    requires var s := Run(v, events);
      && o in s.operations && p in s.operations
      && HoldsLock(s.operations[o]) && HoldsLock(s.operations[p])
      && DatasetOf(s.operations[o]) == DatasetOf(s.operations[p])
    ensures o == p
  {
    RunKeeps(v, events);
    LockIsOwn(v, Run(v, events), o, Run(v, events).operations[o]);
    LockIsOwn(v, Run(v, events), p, Run(v, events).operations[p]);
  }

  // ---------------------------------------------------------------- storage accounting

  function ActiveNames(s: State): set<FileName> {
    set d | d in s.datasets && s.datasets[d].storageKey.Some? :: Stored(s.datasets[d].storageKey.value)
  }

  function OrphanNames(s: State): set<FileName> {
    set f | f in s.files && f in s.holders && s.holders[f].Orphaned?
  }

  /** Files an unfinished operation still has to install or to remove. */
  function PendingNames(s: State): set<FileName> {
    set f | f in s.files && f in s.holders && s.holders[f].HeldByOperation?
  }

  predicate Ended(operation: Operation) {
    match operation
    case Uploading(u) => u.at.Succeeded? || u.at.Failed?
    case Creating(k) => k.at.RuleStored? || k.at.CreationFailed?
    case Deleting(x) => x.at.RuleDeleted? || x.at.DeletionFailed?
    case Analyzing(a) => AnalysisEnded(a)
    case Crashed => true
  }

  predicate Quiescent(s: State) {
    forall o :: o in s.operations ==> Ended(s.operations[o])
  }

  /** The storage root holds exactly the active files, the pending ones and the orphans. */
  lemma FilesAccounted(v: Services, events: seq<Event>)
    requires Lawful(v)
    ensures var s := Run(v, events);
      && s.files.Keys == ActiveNames(s) + PendingNames(s) + OrphanNames(s)
      && ActiveNames(s) !! PendingNames(s) !! OrphanNames(s)
      && (forall c, d :: c in s.datasets && d in s.datasets && c != d && s.datasets[c].storageKey.Some? ==>
            s.datasets[c].storageKey != s.datasets[d].storageKey)
  {
    RunKeeps(v, events);
    var s := Run(v, events);
    forall d | d in s.datasets ensures RowBacked(v, s, d) {}
    assert forall f :: f in ActiveNames(s) ==> f in s.files && f in s.holders && s.holders[f].HeldByRow?;
    forall f | f in s.files ensures f in ActiveNames(s) + PendingNames(s) + OrphanNames(s) {
      if s.holders[f].HeldByRow? {
        assert f == Stored(s.datasets[s.holders[f].datasetId].storageKey.value);
      }
    }
  }

  /** A pending file has an unfinished upload that answers for it. */
  lemma PendingIsInFlight(v: Services, s: State, f: FileName)
    requires Inv(v, s) && f in PendingNames(s)
    ensures var o := s.holders[f].operation; o in s.operations && !Ended(s.operations[o])
  {
    var o := s.holders[f].operation;
    assert OperationSound(v, s, o, s.operations[o]);
    assert AnswersFor(s.operations[o], f);
  }

  /** With no operation in flight nothing is pending: every file is active or an orphan. */
  lemma QuiescentFiles(v: Services, events: seq<Event>)
    requires Lawful(v) && Quiescent(Run(v, events))
    ensures var s := Run(v, events);
      s.files.Keys == ActiveNames(s) + OrphanNames(s) && ActiveNames(s) !! OrphanNames(s)
  {
    FilesAccounted(v, events);
    RunKeeps(v, events);
    forall f | f in PendingNames(Run(v, events)) ensures false {
      PendingIsInFlight(v, Run(v, events), f);
    }
  }

  /** Points at which the candidate exists, or may exist, under its own name. */
  predicate Copying(at: UploadPoint) {
    at.Writing? || at.WriteCleanup? || at.Written? || at.Scanned? || at.Locked? || at.Marked?
  }

  /** The files an upload has created or superseded and not yet handed over, by its point and locals. */
  predicate Owns(u: Upload, f: FileName) {
    match f
    case Candidate(uuid) => u.candidate == Some(uuid) && (Copying(u.at) || u.at.Discarding?)
    case Stored(uuid) =>
      || (u.newKey == Some(uuid)
          && (u.at.Installed? || u.at.Flushed? || u.at.Removing? || (u.at.Discarding? && !u.committed)))
      || (u.oldKey == Some(uuid) && (u.at.Committed? || u.at.Superseding?))
  }

  function OwnedFiles(s: State, o: nat): set<FileName>
    requires o in s.operations
  {
    set f | f in s.files && s.operations[o].Uploading? && Owns(s.operations[o].upload, f)
  }

  function HeldFiles(s: State, o: nat): set<FileName> {
    set f | f in s.files && f in s.holders && s.holders[f] == HeldByOperation(o)
  }

  lemma UploadHoldsWhatItOwns(v: Services, s: State, o: nat, u: Upload, f: FileName)
    requires NamesHeld(s) && o in s.operations && s.operations[o] == Uploading(u) && UploadSound(v, s, o, u)
    requires f in s.files
    ensures HeldOnly(s, o, f) <==> Owns(u, f)
  {
    assert HeldOnly(s, o, f) ==> Answers(u, f);
  }

  /** The bookkeeping of holders says nothing that program points and locals do not say. */
  lemma HeldFilesAreOwned(v: Services, s: State, o: nat)
    requires Inv(v, s) && o in s.operations
    ensures HeldFiles(s, o) == OwnedFiles(s, o)
  {
    assert OperationSound(v, s, o, s.operations[o]);
    forall f | f in s.files ensures f in HeldFiles(s, o) <==> f in OwnedFiles(s, o) {
      if s.operations[o].Uploading? {
        UploadHoldsWhatItOwns(v, s, o, s.operations[o].upload, f);
      } else {
        assert HeldOnly(s, o, f) ==> AnswersFor(s.operations[o], f);
      }
    }
  }

  /** A crash, or an exception where no later code removes what the upload still owns. */
  predicate Abandons(s: State, e: Event) {
    match e
    case Crash(o) => o in s.operations
    case Fault(o, _) => o in s.operations && s.operations[o].Uploading? && GivesUp(s.operations[o].upload.at)
    case _ => false
  }

  /** The files an event abandons. */
  function LeftBehind(s: State, e: Event): set<FileName> {
    if Abandons(s, e) then OwnedFiles(s, e.operation) else {}
  }

  /** A finished upload's handler has only the candidate left to give up, and that is gone. */
  lemma DiscardOrphansNothing(s: State, o: nat, u: Upload)
    requires !(u.installedKey.Some? && !u.committed) ==>
      forall f :: f in s.files && HeldOnly(s, o, f) ==> u.candidate == Some(f.uuid) && f.Candidate?
    ensures NoNewOrphans(s, DiscardCandidate(s, o, u))
  {
    if u.candidate.None? {
      return;
    }
    var after := Unlink(s, Candidate(u.candidate.value));
    if u.installedKey.Some? && !u.committed {
      assert DiscardCandidate(s, o, u).holders == after.holders;
      return;
    }
    assert DiscardCandidate(s, o, u).holders == Abandon(after, o).holders;
    assert forall f :: f in after.files && f in after.holders ==> f in s.files && after.holders[f] == s.holders[f];
  }

  lemma OnlyCandidateLeft(v: Services, s: State, o: nat, u: Upload, f: FileName)
    requires NamesHeld(s) && o in s.operations && s.operations[o] == Uploading(u)
    requires UploadSound(v, s, o, u) && u.at.Discarding? && !(u.installedKey.Some? && !u.committed)
    requires f in s.files && HeldOnly(s, o, f)
    ensures u.candidate == Some(f.uuid) && f.Candidate?
  {
    assert Answers(u, f);
  }

  lemma AdvanceOrphansNothing(v: Services, s: State, o: nat, c: Choice)
    requires Inv(v, s) && o in s.operations
    ensures NoNewOrphans(s, AdvanceOperation(v, s, o, s.operations[o], c))
  {
    var operation := s.operations[o];
    if operation.Uploading? {
      assert OperationSound(v, s, o, operation);
      if operation.upload.at.Discarding? {
        var u := operation.upload;
        forall f | f in s.files && HeldOnly(s, o, f) && !(u.installedKey.Some? && !u.committed)
          ensures u.candidate == Some(f.uuid) && f.Candidate?
        {
          OnlyCandidateLeft(v, s, o, u, f);
        }
        DiscardOrphansNothing(s, o, u);
      } else {
        assert NoNewOrphans(s, AdvanceUpload(v, s, o, operation.upload, c));
      }
    } else {
      assert FilesKept(s, AdvanceOperation(v, s, o, operation, c));
    }
  }

  lemma AbandonOrphans(s: State, o: nat)
    requires forall f :: f in s.files ==> f in s.holders
    ensures OrphanNames(Abandon(s, o)) == OrphanNames(s) + HeldFiles(s, o)
  {
  }

  lemma OrphansDependOnFiles(s: State, t: State)
    requires FilesKept(s, t)
    ensures OrphanNames(s) == OrphanNames(t)
  {
  }

  lemma FaultOrphans(s: State, o: nat, x: Exception)
    requires o in s.operations && forall f :: f in s.files ==> f in s.holders
    ensures OrphanNames(FaultOperation(s, o, s.operations[o], x))
         == OrphanNames(s) + if Abandons(s, Fault(o, x)) then HeldFiles(s, o) else {}
  {
    var operation := s.operations[o];
    var t := FaultOperation(s, o, operation, x);
    if operation.Uploading? && GivesUp(operation.upload.at) {
      AbandonOrphans(s, o);
      OrphansDependOnFiles(Abandon(s, o), t);
      return;
    }
    OrphansDependOnFiles(s, t);
  }

  lemma CrashOrphans(s: State, o: nat)
    requires o in s.operations && forall f :: f in s.files ==> f in s.holders
    ensures OrphanNames(Die(s, o, s.operations[o])) == OrphanNames(s) + HeldFiles(s, o)
  {
    AbandonOrphans(s, o);
    OrphansDependOnFiles(Abandon(s, o), Die(s, o, s.operations[o]));
  }

  lemma OrphansStay(s: State, t: State, o: nat)
    requires NamesHeld(t) && Rely(s, t, o) && NoNewOrphans(s, t)
    ensures OrphanNames(t) == OrphanNames(s)
  {
  }

  lemma AdvanceLeavesOrphans(v: Services, s: State, o: nat, c: Choice)
    requires Lawful(v) && Inv(v, s) && o in s.operations
    ensures OrphanNames(AdvanceOperation(v, s, o, s.operations[o], c)) == OrphanNames(s)
  {
    assert OperationSound(v, s, o, s.operations[o]);
    OperationAdvances(v, s, o, s.operations[o], c);
    AdvanceOrphansNothing(v, s, o, c);
    OrphansStay(s, AdvanceOperation(v, s, o, s.operations[o], c), o);
  }

  /** The event orphans exactly what it leaves behind. */
  ghost predicate OrphansGrow(v: Services, s: State, e: Event) {
    OrphanNames(Next(v, s, e)) == OrphanNames(s) + LeftBehind(s, e)
  }

  lemma NothingLeftBehind(v: Services, s: State, e: Event)
    requires FilesKept(s, Next(v, s, e)) && !Abandons(s, e)
    ensures OrphansGrow(v, s, e)
  {
    OrphansDependOnFiles(s, Next(v, s, e));
  }

  lemma CreateGrows(v: Services, s: State, datasetId: nat, owner: nat, now: int)
    ensures OrphansGrow(v, s, CreateDataset(datasetId, owner, now))
  {
    NothingLeftBehind(v, s, CreateDataset(datasetId, owner, now));
  }

  lemma BeginGrows(v: Services, s: State, o: nat, request: Request)
    ensures OrphansGrow(v, s, Begin(o, request))
  {
    NothingLeftBehind(v, s, Begin(o, request));
  }

  /** An event of an operation that does not exist does nothing. */
  lemma UnknownGrows(v: Services, s: State, e: Event)
    requires !e.CreateDataset? && !e.Begin? && e.operation !in s.operations
    ensures OrphansGrow(v, s, e)
  {
    assert Next(v, s, e) == s;
    NothingLeftBehind(v, s, e);
  }

  lemma AdvanceGrows(v: Services, s: State, o: nat, c: Choice)
    requires Lawful(v) && Inv(v, s) && o in s.operations
    ensures OrphansGrow(v, s, Advance(o, c))
  {
    AdvanceLeavesOrphans(v, s, o, c);
  }

  lemma FaultGrows(v: Services, s: State, o: nat, x: Exception)
    requires Inv(v, s) && o in s.operations
    ensures OrphansGrow(v, s, Fault(o, x))
  {
    HeldFilesAreOwned(v, s, o);
    FaultOrphans(s, o, x);
  }

  lemma CrashGrows(v: Services, s: State, o: nat)
    requires Inv(v, s) && o in s.operations
    ensures OrphansGrow(v, s, Crash(o))
  {
    HeldFilesAreOwned(v, s, o);
    CrashOrphans(s, o);
  }

  /** An event orphans exactly the files its operation abandons, and nothing ever adopts an orphan. */
  lemma OrphansGrowByLeftBehind(v: Services, s: State, e: Event)
    requires Lawful(v) && Inv(v, s)
    ensures OrphansGrow(v, s, e)
  {
    match e
    case CreateDataset(datasetId, owner, now) => CreateGrows(v, s, datasetId, owner, now);
    case Begin(o, request) => BeginGrows(v, s, o, request);
    case Advance(o, c) => if o in s.operations { AdvanceGrows(v, s, o, c); } else { UnknownGrows(v, s, e); }
    case Fault(o, x) => if o in s.operations { FaultGrows(v, s, o, x); } else { UnknownGrows(v, s, e); }
    case Crash(o) => if o in s.operations { CrashGrows(v, s, o); } else { UnknownGrows(v, s, e); }
  }

  /** All files ever abandoned during a run. */
  ghost function AllLeftBehind(v: Services, events: seq<Event>): set<FileName> {
    if events == [] then {}
    else
      var before := events[..|events| - 1];
      AllLeftBehind(v, before) + LeftBehind(Run(v, before), events[|events| - 1])
  }

  lemma {:induction false} OrphansAreTheAbandonedFiles(v: Services, events: seq<Event>)
    requires Lawful(v)
    ensures OrphanNames(Run(v, events)) == AllLeftBehind(v, events)
  {
    if events != [] {
      var before := events[..|events| - 1];
      OrphansAreTheAbandonedFiles(v, before);
      RunKeeps(v, before);
      OrphansGrowByLeftBehind(v, Run(v, before), events[|events| - 1]);
    }
  }

  /** Event `j` of the run abandons no file. */
  ghost predicate Tidy(v: Services, events: seq<Event>, j: nat)
    requires j < |events|
  {
    LeftBehind(Run(v, events[..j]), events[j]) == {}
  }

  lemma TidyPrefix(v: Services, events: seq<Event>, n: nat, j: nat)
    requires j < n <= |events|
    ensures Tidy(v, events[..n], j) <==> Tidy(v, events, j)
  {
    assert events[..n][..j] == events[..j];
  }

  lemma TidyPrefixes(v: Services, events: seq<Event>, n: nat)
    requires n <= |events|
    ensures (forall j :: 0 <= j < n ==> Tidy(v, events[..n], j)) <==> forall j :: 0 <= j < n ==> Tidy(v, events, j)
  {
    forall j | 0 <= j < n ensures Tidy(v, events[..n], j) <==> Tidy(v, events, j) {
      TidyPrefix(v, events, n, j);
    }
  }

  lemma {:induction false} AllTidyIff(v: Services, events: seq<Event>)
    ensures AllLeftBehind(v, events) == {} <==> forall j :: 0 <= j < |events| ==> Tidy(v, events, j)
  {
    if events != [] {
      var n := |events| - 1;
      AllTidyIff(v, events[..n]);
      TidyPrefixes(v, events, n);
      assert AllLeftBehind(v, events) == AllLeftBehind(v, events[..n]) + LeftBehind(Run(v, events[..n]), events[n]);
      assert Tidy(v, events, n) <==> LeftBehind(Run(v, events[..n]), events[n]) == {};
    }
  }

  /**
   With nothing in flight, the root holds the active files and nothing else if and only if no
   event of the run was a crash, or an exception at a point that gives up, of an upload that
   at that moment owned an existing file.
   */
  lemma OnlyActiveFilesRemain(v: Services, events: seq<Event>)
    requires Lawful(v) && Quiescent(Run(v, events))
    ensures Run(v, events).files.Keys == ActiveNames(Run(v, events))
       <==> forall j :: 0 <= j < |events| ==> Tidy(v, events, j)
  {
    QuiescentFiles(v, events);
    OrphansAreTheAbandonedFiles(v, events);
    AllTidyIff(v, events);
  }

  /** Without crashes and abandoning faults, whatever else failed, only active files are left. */
  lemma UndisturbedRunsLeaveActiveFiles(v: Services, events: seq<Event>)
    requires Lawful(v) && Quiescent(Run(v, events))
    requires forall j :: 0 <= j < |events| ==> !Abandons(Run(v, events[..j]), events[j])
    ensures Run(v, events).files.Keys == ActiveNames(Run(v, events))
  {
    OnlyActiveFilesRemain(v, events);
  }

  /** A failed upload leaves no row with its key and no file of its own, except one it had to abandon. */
  lemma FailedUploadLeavesNothing(v: Services, events: seq<Event>, o: nat)
    requires Lawful(v)
    requires o in Run(v, events).operations && Run(v, events).operations[o].Uploading?
    requires Run(v, events).operations[o].upload.at.Failed? && !Run(v, events).operations[o].upload.committed
    ensures var s := Run(v, events); var u := s.operations[o].upload;
      && (u.candidate.Some? && Candidate(u.candidate.value) in s.files ==>
            Candidate(u.candidate.value) in AllLeftBehind(v, events))
      && (u.newKey.Some? && Stored(u.newKey.value) in s.files ==>
            Stored(u.newKey.value) in AllLeftBehind(v, events))
      && (u.newKey.Some? ==> forall d :: d in s.datasets ==> s.datasets[d].storageKey != u.newKey)
  {
    RunKeeps(v, events);
    OrphansAreTheAbandonedFiles(v, events);
    var s := Run(v, events);
    assert UploadSound(v, s, o, s.operations[o].upload);
    forall d | d in s.datasets ensures RowBacked(v, s, d) {}
  }

  // ---------------------------------------------------------------- rows change only by commits

  /** The event is the commit of an upload to `d`. */
  predicate CommitsTo(s: State, e: Event, d: nat) {
    && e.Advance? && e.operation in s.operations && s.operations[e.operation].Uploading?
    && s.operations[e.operation].upload.at.Flushed? && s.operations[e.operation].upload.datasetId == d
  }

  predicate HasCommitted(s: State, o: nat) {
    o in s.operations && s.operations[o].Uploading? && s.operations[o].upload.committed
  }

  /** The row changes in the commit of an upload to it, which then knows that it has committed. */
  ghost predicate RowChange(s: State, t: State, e: Event, d: nat)
    requires d in s.datasets
  {
    d in t.datasets && (t.datasets[d] == s.datasets[d] || (CommitsTo(s, e, d) && HasCommitted(t, e.operation)))
  }

  lemma CommitChangesRow(v: Services, s: State, e: Event, d: nat, o: nat, u: Upload)
    requires e.Advance? && e.operation == o && o in s.operations && s.operations[o] == Uploading(u) && u.at.Flushed?
    requires u.newKey.Some? && d in s.datasets
    ensures RowChange(s, CommitUpload(v, s, o, u), e, d)
  {
    assert CommitUpload(v, s, o, u).operations == s.operations[o := At(u.(committed := true), Committed)];
    assert CommitUpload(v, s, o, u).datasets == s.datasets[u.datasetId := UpdatedRow(v, u)];
  }

  predicate IsCommit(s: State, e: Event) {
    && e.Advance? && e.operation in s.operations && s.operations[e.operation].Uploading?
    && s.operations[e.operation].upload.at.Flushed?
  }

  lemma OthersChangeNoRow(v: Services, s: State, e: Event, d: nat)
    requires d in s.datasets && !IsCommit(s, e)
    ensures d in Next(v, s, e).datasets && Next(v, s, e).datasets[d] == s.datasets[d]
  {
  }

  /** A row changes only in the commit of an upload to it, which then knows that it has committed. */
  lemma RowsChangeOnlyByCommits(v: Services, s: State, e: Event, d: nat)
    requires Inv(v, s) && d in s.datasets
    ensures RowChange(s, Next(v, s, e), e, d)
  {
    if IsCommit(s, e) {
      var o, u := e.operation, s.operations[e.operation].upload;
      assert OperationSound(v, s, o, s.operations[o]);
      assert Next(v, s, e) == CommitUpload(v, s, o, u);
      CommitChangesRow(v, s, e, d, o, u);
      return;
    }
    OthersChangeNoRow(v, s, e, d);
  }

  /** The row is vacant or complete, within its limits, and its times are in order. */
  predicate WithinLimits(row: DatasetRow) {
    && row.createdAt <= row.updatedAt
    && (row.storageKey.Some? ==>
          && row.size.Some? && 1 <= row.size.value <= 10_485_760
          && row.columns.Some? && 1 <= |row.columns.value| <= 256
          && row.uploadedAt == Some(row.updatedAt) && row.filename.Some?)
  }

  lemma CommittedRowIsWithinLimits(v: Services, s: State, o: nat, u: Upload)
    requires UploadSound(v, s, o, u) && u.at.Flushed?
    ensures WithinLimits(UpdatedRow(v, u))
  {
  }

  lemma CommitKeepsLimits(v: Services, s: State, e: Event, d: nat)
    requires Inv(v, s) && IsCommit(s, e)
    requires d in Next(v, s, e).datasets && (d in s.datasets ==> WithinLimits(s.datasets[d]))
    ensures WithinLimits(Next(v, s, e).datasets[d])
  {
    var o, u := e.operation, s.operations[e.operation].upload;
    assert OperationSound(v, s, o, s.operations[o]);
    CommittedRowIsWithinLimits(v, s, o, u);
    assert CommitUpload(v, s, o, u).datasets == s.datasets[u.datasetId := UpdatedRow(v, u)];
    assert Next(v, s, e) == CommitUpload(v, s, o, u);
  }

  lemma NewRowIsVacant(v: Services, s: State, e: Event, d: nat)
    requires !IsCommit(s, e) && d in Next(v, s, e).datasets && d !in s.datasets
    ensures WithinLimits(Next(v, s, e).datasets[d])
  {
  }

  lemma EventKeepsLimits(v: Services, s: State, e: Event, d: nat)
    requires Inv(v, s) && d in Next(v, s, e).datasets && (d in s.datasets ==> WithinLimits(s.datasets[d]))
    ensures WithinLimits(Next(v, s, e).datasets[d])
  {
    if IsCommit(s, e) {
      CommitKeepsLimits(v, s, e, d);
    } else if d in s.datasets {
      OthersChangeNoRow(v, s, e, d);
    } else {
      NewRowIsVacant(v, s, e, d);
    }
  }

  /** In every reachable state an uploaded file has 1 to 10485760 bytes and 1 to 256 columns. */
  lemma {:induction false} CommittedRowsAreWithinLimits(v: Services, events: seq<Event>, d: nat)
    requires Lawful(v) && d in Run(v, events).datasets
    ensures WithinLimits(Run(v, events).datasets[d])
  {
    var before, e := events[..|events| - 1], events[|events| - 1];
    RunKeeps(v, before);
    if d in Run(v, before).datasets {
      CommittedRowsAreWithinLimits(v, before, d);
    }
    EventKeepsLimits(v, Run(v, before), e, d);
  }

  lemma RelyKeepsOthers(s: State, t: State, o: nat, p: nat)
    requires Rely(s, t, o) && p in s.operations && p != o
    ensures p in t.operations && t.operations[p] == s.operations[p]
  {
  }

  lemma OthersStay(v: Services, s: State, e: Event, p: nat)
    requires Lawful(v) && Inv(v, s) && p in s.operations && (e.CreateDataset? || e.operation != p)
    ensures p in Next(v, s, e).operations && Next(v, s, e).operations[p] == s.operations[p]
  {
    if !e.CreateDataset? && !e.Begin? && e.operation in s.operations {
      OperationEvents(v, s, e);
      RelyKeepsOthers(s, Next(v, s, e), e.operation, p);
    }
  }

  /** It has committed or died: either way it is past the point of changing a row again. */
  predicate Settled(s: State, o: nat) {
    o in s.operations && (s.operations[o].Crashed? || (s.operations[o].Uploading? && s.operations[o].upload.committed))
  }

  lemma SettledStays(v: Services, s: State, e: Event, o: nat)
    requires Lawful(v) && Inv(v, s) && Settled(s, o)
    ensures Settled(Next(v, s, e), o)
  {
    if e.CreateDataset? || e.operation != o {
      OthersStay(v, s, e, o);
      return;
    }
    if s.operations[o].Crashed? || e.Begin? {
      return;
    }
    var u := s.operations[o].upload;
    match e
    case Advance(_, c) => assert Next(v, s, e) == AdvanceUpload(v, s, o, u, c);
    case Fault(_, x) => assert Next(v, s, e) == FaultUpload(s, o, u, x);
    case Crash(_) => assert Next(v, s, e).operations[o] == Crashed;
  }

  lemma {:induction false} SettledForever(v: Services, events: seq<Event>, j: nat, o: nat)
    requires Lawful(v) && j <= |events| && Settled(Run(v, events[..j]), o)
    ensures Settled(Run(v, events), o)
    decreases |events| - j
  {
    if j == |events| {
      assert events[..j] == events;
      return;
    }
    RunKeeps(v, events[..j]);
    assert events[..j + 1][..j] == events[..j];
    SettledStays(v, Run(v, events[..j]), events[j], o);
    SettledForever(v, events, j + 1, o);
  }

  /**
   An upload that fails without committing has changed no row in any of its steps: only what
   other operations committed meanwhile is different.
   */
  lemma FailedUploadChangesNoRow(v: Services, events: seq<Event>, o: nat, j: nat, d: nat)
    requires Lawful(v) && j < |events| && !events[j].CreateDataset? && events[j].operation == o
    requires o in Run(v, events).operations && Run(v, events).operations[o].Uploading?
    requires !Run(v, events).operations[o].upload.committed
    requires d in Run(v, events[..j]).datasets
    ensures d in Run(v, events[..j + 1]).datasets
    ensures Run(v, events[..j + 1]).datasets[d] == Run(v, events[..j]).datasets[d]
  {
    var s := Run(v, events[..j]);
    RunKeeps(v, events[..j]);
    assert events[..j + 1][..j] == events[..j];
    RowsChangeOnlyByCommits(v, s, events[j], d);
    if HasCommitted(Run(v, events[..j + 1]), o) {
      SettledForever(v, events, j + 1, o);
    }
  }

  // ---------------------------------------------------------------- limits of the guarantees

  lemma CommittedOwnsOldFile(v: Services, s: State, o: nat, u: Upload, x: Exception)
    requires o in s.operations && s.operations[o] == Uploading(u) && UploadSound(v, s, o, u) && u.at.Committed?
    ensures LeftBehind(s, Fault(o, x)) == if u.oldKey.Some? then {Stored(u.oldKey.value)} else {}
  {
  }

  /**
   A failure to close the session after a successful commit skips the removal of the old
   file: neither a crash nor a failing removal, yet the file stays, and no row names it.
   */
  lemma CloseErrorOrphansOldFile(v: Services, events: seq<Event>, o: nat, x: Exception)
    requires Lawful(v)
    requires o in Run(v, events).operations && Run(v, events).operations[o].Uploading?
    requires Run(v, events).operations[o].upload.at.Committed?
    ensures var u := Run(v, events).operations[o].upload;
      var t := Run(v, events + [Fault(o, x)]);
      && OrphanNames(t) == OrphanNames(Run(v, events)) + (if u.oldKey.Some? then {Stored(u.oldKey.value)} else {})
      && (u.oldKey.Some? ==> Stored(u.oldKey.value) in t.files && Stored(u.oldKey.value) !in ActiveNames(t))
      && o in t.operations && t.operations[o] == At(u, Discarding)
  {
    var s, u := Run(v, events), Run(v, events).operations[o].upload;
    RunKeeps(v, events);
    assert OperationSound(v, s, o, s.operations[o]);
    CommittedOwnsOldFile(v, s, o, u, x);
    OrphansGrowByLeftBehind(v, s, Fault(o, x));
    FilesAccounted(v, events + [Fault(o, x)]);
    assert (events + [Fault(o, x)])[..|events|] == events;
    assert Run(v, events + [Fault(o, x)]) == FaultUpload(s, o, u, x) == Put(Abandon(s, o), o, At(u, Discarding));
  }

  /** Every row is vacant or has a complete file that it describes. */
  ghost predicate Intact(v: Services, datasets: map<nat, DatasetRow>, files: map<FileName, Bytes>) {
    forall d :: d in datasets ==>
      Vacant(datasets[d]) || (&& Complete(datasets[d])
                              && Stored(datasets[d].storageKey.value) in files
                              && Describes(v, datasets[d], files[Stored(datasets[d].storageKey.value)]))
  }

  /** A commit that took effect although its upload was told that it had failed. */
  function LoseAcknowledgement(v: Services, s: State, o: nat, u: Upload): State {
    Put(CommitUpload(v, s, o, u), o, At(u, Discarding))
  }

  /** The handler that then runs: both of its removals may raise. */
  function HandleLoss(s: State, o: nat, u: Upload, discards: bool, removes: bool): State {
    if !discards then FaultUpload(s, o, u.(at := Discarding), FileError)
    else
      var after := DiscardCandidate(s, o, u.(at := Discarding));
      if removes then RemoveInstalled(after, o, u.(at := Removing))
      else FaultUpload(after, o, u.(at := Removing), FileError)
  }

  lemma LossOnTables(v: Services, s: State, o: nat, u: Upload)
    requires UploadSound(v, s, o, u) && u.at.Flushed?
    ensures var lost := LoseAcknowledgement(v, s, o, u);
      lost.datasets == s.datasets[u.datasetId := UpdatedRow(v, u)] && lost.files == s.files
  {
  }

  lemma HandlerOnTables(s: State, o: nat, u: Upload, discards: bool, removes: bool)
    requires u.candidate.Some? && u.installedKey.Some? && !u.committed
    ensures var end := HandleLoss(s, o, u, discards, removes);
      && end.datasets == s.datasets
      && end.files == if !discards then s.files
                      else if !removes then Without(s.files, Candidate(u.candidate.value))
                      else Without(Without(s.files, Candidate(u.candidate.value)), Stored(u.installedKey.value))
  {
    if !discards {
      assert HandleLoss(s, o, u, discards, removes) == FaultUpload(s, o, u.(at := Discarding), FileError);
      return;
    }
    var after := Put(Unlink(s, Candidate(u.candidate.value)), o, At(u, Removing));
    assert DiscardCandidate(s, o, u.(at := Discarding)) == after;
    if removes {
      assert HandleLoss(s, o, u, discards, removes) == RemoveInstalled(after, o, u.(at := Removing));
      return;
    }
    assert HandleLoss(s, o, u, discards, removes) == FaultUpload(after, o, u.(at := Removing), FileError);
  }

  lemma CommitIsIntact(v: Services, s: State, o: nat, u: Upload)
    requires RowsBacked(v, s) && UploadSound(v, s, o, u) && u.at.Flushed?
    ensures Intact(v, s.datasets[u.datasetId := UpdatedRow(v, u)], s.files)
  {
    forall d | d in s.datasets ensures RowBacked(v, s, d) {
    }
  }

  /** Rows survive the removal of a candidate, but not that of a row's own file. */
  lemma RemovalAndRows(v: Services, datasets: map<nat, DatasetRow>, files: map<FileName, Bytes>, d: nat, c: nat)
    requires Intact(v, datasets, files) && d in datasets && Complete(datasets[d])
    ensures Intact(v, datasets, Without(files, Candidate(c)))
    ensures !Intact(v, datasets, Without(Without(files, Candidate(c)), Stored(datasets[d].storageKey.value)))
  {
  }

  /**
   The one exception the code cannot absorb, at any point of any run: if the commit took
   effect but an exception came before the flag was set, committed rows stay intact exactly
   if the handler fails to remove the file of the committed row.
   */
  lemma LostAcknowledgementBreaksIntegrityIff(v: Services, events: seq<Event>, o: nat, discards: bool, removes: bool)
    requires Lawful(v)
    requires o in Run(v, events).operations && Run(v, events).operations[o].Uploading?
    requires Run(v, events).operations[o].upload.at.Flushed?
    ensures var s, u := Run(v, events), Run(v, events).operations[o].upload;
      var lost := LoseAcknowledgement(v, s, o, u);
      var end := HandleLoss(lost, o, u, discards, removes);
      && Intact(v, lost.datasets, lost.files)
      && (Intact(v, end.datasets, end.files) <==> !(discards && removes))
  {
    var s, u := Run(v, events), Run(v, events).operations[o].upload;
    RunKeeps(v, events);
    assert OperationSound(v, s, o, s.operations[o]);
    LossOnTables(v, s, o, u);
    HandlerOnTables(LoseAcknowledgement(v, s, o, u), o, u, discards, removes);
    CommitIsIntact(v, s, o, u);
    RemovalAndRows(v, s.datasets[u.datasetId := UpdatedRow(v, u)], s.files, u.datasetId, u.candidate.value);
  }

  lemma HandlerRemoves(s: State, o: nat, u: Upload)
    requires u.candidate.Some? && u.installedKey.Some? && !u.committed
    ensures var end := RemoveInstalled(DiscardCandidate(s, o, u.(at := Discarding)), o, u.(at := Removing));
      end.datasets == s.datasets && Stored(u.installedKey.value) !in end.files
  {
    var mid := Put(Unlink(s, Candidate(u.candidate.value)), o, At(u, Removing));
    assert DiscardCandidate(s, o, u.(at := Discarding)) == mid;
    assert RemoveInstalled(mid, o, u.(at := Removing))
        == Put(Unlink(mid, Stored(u.installedKey.value)), o, At(u, Failed));
  }

  /**
   The one exception the code cannot absorb: the commit took effect, but an exception was
   raised before the flag was set. The handler then removes the file of the committed row.
   */
  lemma LostAcknowledgementBreaksIntegrity(v: Services, s: State, o: nat, u: Upload)
    requires UploadSound(v, s, o, u) && u.at.Flushed?
    ensures var lost := CommitUpload(v, s, o, u);
      var end := RemoveInstalled(DiscardCandidate(lost, o, u.(at := Discarding)), o, u.(at := Removing));
      && end.datasets == s.datasets[u.datasetId := UpdatedRow(v, u)]
      && Complete(UpdatedRow(v, u))
      && Stored(UpdatedRow(v, u).storageKey.value) !in end.files
  {
    HandlerRemoves(CommitUpload(v, s, o, u), o, u);
  }
}
