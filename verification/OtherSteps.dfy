/** Rule creation, rule deletion, analyses and crashes keep the invariant. */
module OtherSteps {
  import opened Wrappers
  import opened Csv
  import opened Configuration
  import opened History
  import opened Protocol
  import opened Invariant

  /**
   What an analysis may rely on: a snapshot whose parts agree is never refused by the
   computation, and every captured rule gets one result.
   */
  ghost predicate Lawful(v: Services) {
    forall row, rules, content :: Describes(v, row, content) && SnapshotRulesSound(v, row, rules) ==>
      && v.compute(SourceOf(row), rules, content).Ok?
      && |v.compute(SourceOf(row), rules, content).value.results| == |rules|
  }

  // ---------------------------------------------------------------- rules

  lemma InsertRuleNames(s: State, o: nat, k: Creation, c: Choice)
    requires NamesHeld(s) && o in s.operations && s.operations[o] == Creating(k)
    ensures NamesHeld(InsertRule(s, o, k, c))
  {
  }

  lemma InsertRuleRelies(v: Services, s: State, o: nat, k: Creation, c: Choice)
    requires o in s.operations && CreationSound(v, s, o, k) && k.at.Checked?
    ensures Rely(s, InsertRule(s, o, k, c), o)
  {
  }

  lemma InsertRuleRows(v: Services, s: State, o: nat, k: Creation, c: Choice)
    requires RowsBacked(v, s)
    ensures RowsBacked(v, InsertRule(s, o, k, c))
  {
    var t := InsertRule(s, o, k, c);
    forall d | d in t.datasets ensures d in t.issued && RowBacked(v, t, d) {
      assert RowBacked(v, s, d);
    }
  }

  lemma InsertRuleRules(v: Services, s: State, o: nat, k: Creation, c: Choice)
    requires RulesSound(v, s) && k.datasetId in s.datasets && RowBacked(v, s, k.datasetId)
    requires CreationSound(v, s, o, k) && k.at.Checked?
    requires !DefinitionTaken(s.rules, k.datasetId, k.definition) && c.uuid !in s.rules
    ensures RulesSound(v, InsertRule(s, o, k, c))
  {
    var t := InsertRule(s, o, k, c);
    forall r | r in t.rules ensures RuleSound(v, t, r) {
      if r != c.uuid {
        assert RuleSound(v, s, r);
      }
    }
  }

  lemma InsertRuleGood(v: Services, s: State, o: nat, k: Creation, c: Choice)
    requires Shared(v, s) && o in s.operations && s.operations[o] == Creating(k)
    requires CreationSound(v, s, o, k) && k.at.Checked?
    requires !DefinitionTaken(s.rules, k.datasetId, k.definition) && c.uuid !in s.rules
    ensures Good(v, s, InsertRule(s, o, k, c), o)
  {
    assert RowBacked(v, s, k.datasetId);
    InsertRuleNames(s, o, k, c);
    InsertRuleRelies(v, s, o, k, c);
    InsertRuleRows(v, s, o, k, c);
    InsertRuleRules(v, s, o, k, c);
  }

  /** A refusal or an exception while the row is locked. */
  lemma RollBackGood(v: Services, s: State, o: nat, k: Creation)
    requires Shared(v, s) && o in s.operations && s.operations[o] == Creating(k)
    requires CreationSound(v, s, o, k) && k.at.Checked?
    ensures Good(v, s, RollBack(s, o, k), o)
  {
    ReleaseGood(v, s, o, Creating(k.(at := CreationFailed)), k.datasetId);
  }

  lemma StoreRuleKeeps(v: Services, s: State, o: nat, k: Creation, c: Choice)
    requires Shared(v, s) && o in s.operations && s.operations[o] == Creating(k)
    requires CreationSound(v, s, o, k) && k.at.Checked?
    ensures Good(v, s, StoreRule(s, o, k, c), o)
  {
    if DefinitionTaken(s.rules, k.datasetId, k.definition) {
      RollBackGood(v, s, o, k);
      return;
    }
    if c.uuid in s.issued || c.uuid in s.rules {
      GoodStep(v, s, s, o, Creating(k));
      return;
    }
    InsertRuleGood(v, s, o, k, c);
  }

  lemma RefuseGood(v: Services, s: State, o: nat, k: Creation)
    requires Shared(v, s) && o in s.operations && s.operations[o] == Creating(k)
    ensures Good(v, s, Refuse(s, o, k), o)
  {
    LocalChangeGood(v, s, o, Creating(k.(at := CreationFailed)));
  }

  lemma HoldForRuleGood(v: Services, s: State, o: nat, k: Creation)
    requires Shared(v, s) && o in s.operations && s.operations[o] == Creating(k)
    requires CreationSound(v, s, o, k) && k.at.Admission? && k.datasetId in s.datasets && k.datasetId !in s.locks
    requires HasColumn(s.datasets[k.datasetId], k.definition.targetColumn)
    ensures Good(v, s, HoldForRule(s, o, k, s.datasets[k.datasetId]), o)
  {
    TakeLockGood(v, s, o, Creating(k.(row := s.datasets[k.datasetId], at := Checked)), k.datasetId);
  }

  lemma LockForRuleKeeps(v: Services, s: State, o: nat, k: Creation)
    requires Shared(v, s) && o in s.operations && s.operations[o] == Creating(k)
    requires CreationSound(v, s, o, k) && k.at.Admission?
    ensures Good(v, s, LockForRule(s, o, k), o)
  {
    if !Owned(s.datasets, k.datasetId, k.ownerId) {
      RefuseGood(v, s, o, k);
      return;
    }
    if k.datasetId in s.locks {
      GoodStep(v, s, s, o, Creating(k));
      return;
    }
    if !HasColumn(s.datasets[k.datasetId], k.definition.targetColumn) {
      RefuseGood(v, s, o, k);
      return;
    }
    HoldForRuleGood(v, s, o, k);
  }

  lemma AdvanceCreationKeeps(v: Services, s: State, o: nat, k: Creation, c: Choice)
    requires Shared(v, s) && o in s.operations && s.operations[o] == Creating(k)
    requires CreationSound(v, s, o, k)
    ensures Good(v, s, AdvanceCreation(s, o, k, c), o)
  {
    match k.at
    case Admission => LockForRuleKeeps(v, s, o, k);
    case Checked => StoreRuleKeeps(v, s, o, k, c);
    case RuleStored => GoodStep(v, s, s, o, Creating(k));
    case CreationFailed => GoodStep(v, s, s, o, Creating(k));
  }

  lemma FaultCreationKeeps(v: Services, s: State, o: nat, k: Creation)
    requires Shared(v, s) && o in s.operations && s.operations[o] == Creating(k)
    requires CreationSound(v, s, o, k)
    ensures Good(v, s, FaultCreation(s, o, k), o)
  {
    match k.at
    case Admission => RefuseGood(v, s, o, k);
    case Checked => RollBackGood(v, s, o, k);
    case RuleStored => GoodStep(v, s, s, o, Creating(k));
    case CreationFailed => GoodStep(v, s, s, o, Creating(k));
  }

  /** Deleting a rule without any lock: every other operation relies at most on rules not appearing. */
  function RuleGone(s: State, o: nat, x: Deletion): State {
    Put(s.(rules := Without(s.rules, x.ruleId)), o, Deleting(x.(at := RuleDeleted)))
  }

  lemma DeletedRuleNames(s: State, o: nat, x: Deletion)
    requires NamesHeld(s) && o in s.operations && s.operations[o] == Deleting(x)
    ensures NamesHeld(RuleGone(s, o, x)) && Rely(s, RuleGone(s, o, x), o)
  {
  }

  lemma DeletedRuleRows(v: Services, s: State, o: nat, x: Deletion)
    requires RowsBacked(v, s)
    ensures RowsBacked(v, RuleGone(s, o, x))
  {
    var t := RuleGone(s, o, x);
    forall d | d in t.datasets ensures d in t.issued && RowBacked(v, t, d) {
      assert RowBacked(v, s, d);
    }
  }

  lemma DeletedRuleRules(v: Services, s: State, o: nat, x: Deletion)
    requires RulesSound(v, s)
    ensures RulesSound(v, RuleGone(s, o, x))
  {
    var t := RuleGone(s, o, x);
    forall r | r in t.rules ensures RuleSound(v, t, r) {
      assert RuleSound(v, s, r);
    }
  }

  lemma DeleteRuleKeeps(v: Services, s: State, o: nat, x: Deletion)
    requires Shared(v, s) && o in s.operations && s.operations[o] == Deleting(x)
    ensures Good(v, s, RuleGone(s, o, x), o)
  {
    DeletedRuleNames(s, o, x);
    DeletedRuleRows(v, s, o, x);
    DeletedRuleRules(v, s, o, x);
  }

  lemma DeletionWaits(v: Services, s: State, o: nat, x: Deletion, at: DeletionPoint)
    requires Shared(v, s) && o in s.operations && s.operations[o] == Deleting(x)
    ensures Good(v, s, Put(s, o, Deleting(x.(at := at))), o)
  {
    LocalChangeGood(v, s, o, Deleting(x.(at := at)));
  }

  lemma DeletionKeeps(v: Services, s: State, o: nat, x: Deletion)
    requires Shared(v, s) && o in s.operations && s.operations[o] == Deleting(x)
    ensures Good(v, s, AdvanceDeletion(s, o, x), o)
  {
    match x.at
    case DeletionRequested =>
      DeletionWaits(v, s, o, x, if Owned(s.datasets, x.datasetId, x.ownerId) then OwnerChecked else DeletionFailed);
    case OwnerChecked =>
      DeletionWaits(v, s, o, x, if x.ruleId in s.rules && s.rules[x.ruleId].datasetId == x.datasetId
                                then RuleFound else DeletionFailed);
    case RuleFound => DeleteRuleKeeps(v, s, o, x);
    case RuleDeleted => GoodStep(v, s, s, o, Deleting(x));
    case DeletionFailed => GoodStep(v, s, s, o, Deleting(x));
  }

  lemma FaultDeletionKeeps(v: Services, s: State, o: nat, x: Deletion)
    requires Shared(v, s) && o in s.operations && s.operations[o] == Deleting(x)
    ensures Good(v, s, FaultDeletion(s, o, x), o)
  {
    if x.at.RuleDeleted? {
      GoodStep(v, s, s, o, Deleting(x));
      return;
    }
    LocalChangeGood(v, s, o, Deleting(x.(at := DeletionFailed)));
  }

  // ---------------------------------------------------------------- analyses

  lemma HoldForAnalysisKeeps(v: Services, s: State, o: nat, a: Analysis)
    requires Shared(v, s) && o in s.operations && s.operations[o] == Analyzing(a) && a.at.AnalysisRequested?
    requires a.datasetId in s.datasets && Complete(s.datasets[a.datasetId]) && a.datasetId !in s.locks
    ensures Good(v, s, HoldForAnalysis(s, o, a, s.datasets[a.datasetId]), o)
  {
    TakeLockGood(v, s, o, Analyzing(a.(row := s.datasets[a.datasetId], at := RowRead)), a.datasetId);
  }

  lemma LockForAnalysisKeeps(v: Services, s: State, o: nat, a: Analysis)
    requires Shared(v, s) && o in s.operations && s.operations[o] == Analyzing(a)
    requires AnalysisSound(v, s, o, a) && a.at.AnalysisRequested?
    ensures Good(v, s, LockForAnalysis(s, o, a), o)
  {
    var available := Owned(s.datasets, a.datasetId, a.ownerId);
    if available && a.datasetId in s.locks {
      GoodStep(v, s, s, o, Analyzing(a));
      return;
    }
    if available && Complete(s.datasets[a.datasetId]) {
      assert LockForAnalysis(s, o, a) == HoldForAnalysis(s, o, a, s.datasets[a.datasetId]);
      HoldForAnalysisKeeps(v, s, o, a);
      return;
    }
    assert LockForAnalysis(s, o, a) == Put(s, o, Analyzing(a.(at := AnalysisFailed)));
    LocalChangeGood(v, s, o, Analyzing(a.(at := AnalysisFailed)));
  }

  /** Any complete answer of the rule query is a sound rule snapshot of the locked row. */
  lemma ListingSound(v: Services, s: State, d: nat, listing: seq<RuleSnapshot>)
    requires RulesSound(v, s) && d in s.datasets && Complete(s.datasets[d])
    requires IsRuleListing(s.rules, d, listing)
    ensures SnapshotRulesSound(v, s.datasets[d], listing)
  {
    forall i | 0 <= i < |listing|
      ensures Admissible(v, listing[i].definition)
           && listing[i].definition.targetColumn in s.datasets[d].columns.value
    {
      assert RuleSound(v, s, listing[i].ruleId);
    }
  }

  lemma ProceedGood(v: Services, s: State, o: nat, a: Analysis, next: Analysis)
    requires Shared(v, s) && o in s.operations && s.operations[o] == Analyzing(a)
    requires AnalysisSound(v, Put(s, o, Analyzing(next)), o, next)
    ensures Good(v, s, Proceed(s, o, a, next), o)
  {
    LocalChangeGood(v, s, o, Analyzing(next));
  }

  lemma ReleaseRowGood(v: Services, s: State, o: nat, a: Analysis, at: AnalysisPoint)
    requires Shared(v, s) && o in s.operations && s.operations[o] == Analyzing(a)
    requires AnalysisSound(v, s, o, a) && AnalysisHoldsLock(a)
    requires AnalysisSound(v, ReleaseRow(s, o, a, at), o, a.(at := at))
    ensures Good(v, s, ReleaseRow(s, o, a, at), o)
  {
    ReleaseGood(v, s, o, Analyzing(a.(at := at)), a.datasetId);
  }

  lemma ListingGood(v: Services, s: State, o: nat, a: Analysis, listing: seq<RuleSnapshot>)
    requires Shared(v, s) && o in s.operations && s.operations[o] == Analyzing(a)
    requires AnalysisSound(v, s, o, a) && a.at.RowRead?
    requires IsRuleListing(s.rules, a.datasetId, listing) && listing != []
    ensures Good(v, s, Proceed(s, o, a, a.(rules := listing, at := RulesRead)), o)
  {
    ListingSound(v, s, a.datasetId, listing);
    ProceedGood(v, s, o, a, a.(rules := listing, at := RulesRead));
  }

  lemma ReadRulesKeeps(v: Services, s: State, o: nat, a: Analysis, c: Choice)
    requires Shared(v, s) && o in s.operations && s.operations[o] == Analyzing(a)
    requires AnalysisSound(v, s, o, a) && a.at.RowRead?
    ensures Good(v, s, ReadRules(s, o, a, c), o)
  {
    if !IsRuleListing(s.rules, a.datasetId, c.listing) {
      assert ReadRules(s, o, a, c) == s;
      GoodStep(v, s, s, o, Analyzing(a));
      return;
    }
    if c.listing == [] {
      assert ReadRules(s, o, a, c) == ReleaseRow(s, o, a, AnalysisFailed);
      ReleaseRowGood(v, s, o, a, AnalysisFailed);
      return;
    }
    assert ReadRules(s, o, a, c) == Proceed(s, o, a, a.(rules := c.listing, at := RulesRead));
    ListingGood(v, s, o, a, c.listing);
  }

  /** The active file of a locked row is there. */
  lemma OpenActiveKeeps(v: Services, s: State, o: nat, a: Analysis)
    requires Shared(v, s) && o in s.operations && s.operations[o] == Analyzing(a)
    requires AnalysisSound(v, s, o, a) && a.at.RulesRead?
    ensures Good(v, s, OpenActive(s, o, a), o)
  {
    assert RowBacked(v, s, a.datasetId);
    var next := Analyzing(a.(handle := s.files[Stored(a.row.storageKey.value)], content := [], at := Reading));
    assert OpenActive(s, o, a) == Put(s, o, next);
    LocalChangeGood(v, s, o, next);
  }

  lemma ChunkIs(v: Services, s: State, o: nat, a: Analysis, size: nat)
    requires |a.content| < |a.handle| <= MAX_CSV_BYTES
    requires size == |a.content| + Min(READ_CHUNK_BYTES, |a.handle| - |a.content|)
    ensures ReadChunk(v, s, o, a) == Proceed(s, o, a, a.(content := a.handle[..size]))
  {
  }

  lemma MoreToRead(v: Services, s: State, o: nat, a: Analysis)
    requires Shared(v, s) && o in s.operations && s.operations[o] == Analyzing(a)
    requires AnalysisSound(v, s, o, a) && a.at.Reading? && |a.content| < |a.handle|
    ensures Good(v, s, ReadChunk(v, s, o, a), o)
  {
    var size := |a.content| + Min(READ_CHUNK_BYTES, |a.handle| - |a.content|);
    ChunkIs(v, s, o, a, size);
    ProceedGood(v, s, o, a, a.(content := a.handle[..size]));
  }

  lemma AllRead(v: Services, s: State, o: nat, a: Analysis)
    requires Shared(v, s) && o in s.operations && s.operations[o] == Analyzing(a)
    requires AnalysisSound(v, s, o, a) && a.at.Reading? && |a.content| >= |a.handle|
    ensures Good(v, s, ReadChunk(v, s, o, a), o)
  {
    assert a.content == a.handle;
    assert ReadChunk(v, s, o, a) == ReleaseRow(s, o, a, Captured);
    ReleaseRowGood(v, s, o, a, Captured);
  }

  /** What was read so far is a prefix of the file, so the limit, size and digest checks pass. */
  lemma ReadChunkKeeps(v: Services, s: State, o: nat, a: Analysis)
    requires Shared(v, s) && o in s.operations && s.operations[o] == Analyzing(a)
    requires AnalysisSound(v, s, o, a) && a.at.Reading?
    ensures Good(v, s, ReadChunk(v, s, o, a), o)
  {
    if |a.content| < |a.handle| {
      MoreToRead(v, s, o, a);
    } else {
      AllRead(v, s, o, a);
    }
  }

  lemma ComputeRowsKeeps(v: Services, s: State, o: nat, a: Analysis)
    requires Lawful(v)
    requires Shared(v, s) && o in s.operations && s.operations[o] == Analyzing(a)
    requires AnalysisSound(v, s, o, a) && a.at.Captured?
    ensures Good(v, s, ComputeRows(v, s, o, a), o)
  {
    var computed := v.compute(SourceOf(a.row), a.rules, a.content);
    assert computed.Ok?;
    var next := Analyzing(a.(computation := computed.value, at := Computed));
    assert ComputeRows(v, s, o, a) == Put(s, o, next);
    LocalChangeGood(v, s, o, next);
  }

  /** Recording an analysis touches neither rows, rules, files nor locks. */
  lemma RecordChange(s: State, t: State, o: nat, next: Operation, uuid: nat)
    requires NamesHeld(s) && o in s.operations && !s.operations[o].Uploading?
    requires t == Put(s.(issued := s.issued + {uuid}, analyses := t.analyses, results := t.results), o, next)
    ensures NamesHeld(t) && Rely(s, t, o) && CommitsNothing(s, t)
  {
  }

  lemma InsertAnalysisKeeps(v: Services, s: State, o: nat, a: Analysis, c: Choice)
    requires Shared(v, s) && o in s.operations && s.operations[o] == Analyzing(a) && Complete(a.row)
    ensures Good(v, s, InsertAnalysis(s, o, a, c), o)
  {
    var t, next := InsertAnalysis(s, o, a, c), Analyzing(a.(analysisId := c.uuid, at := Recorded));
    assert t == Put(s.(issued := s.issued + {c.uuid}, analyses := t.analyses, results := t.results), o, next);
    RecordChange(s, t, o, next, c.uuid);
    GoodStep(v, s, t, o, next);
  }

  lemma RecordAnalysisKeeps(v: Services, s: State, o: nat, a: Analysis, c: Choice)
    requires Shared(v, s) && o in s.operations && s.operations[o] == Analyzing(a)
    requires AnalysisSound(v, s, o, a) && a.at.Computed?
    ensures Good(v, s, RecordAnalysis(s, o, a, c), o)
  {
    if c.uuid in s.issued || c.uuid in s.analyses {
      GoodStep(v, s, s, o, Analyzing(a));
      return;
    }
    if !Storable(a.computation.results) {
      assert RecordAnalysis(s, o, a, c) == Put(s, o, Analyzing(a.(at := AnalysisFailed)));
      LocalChangeGood(v, s, o, Analyzing(a.(at := AnalysisFailed)));
      return;
    }
    InsertAnalysisKeeps(v, s, o, a, c);
  }

  lemma AnalysisKeeps(v: Services, s: State, o: nat, a: Analysis, c: Choice)
    requires Lawful(v)
    requires Shared(v, s) && o in s.operations && s.operations[o] == Analyzing(a)
    requires AnalysisSound(v, s, o, a)
    ensures Good(v, s, AdvanceAnalysis(v, s, o, a, c), o)
  {
    match a.at
    case AnalysisRequested => LockForAnalysisKeeps(v, s, o, a);
    case RowRead => ReadRulesKeeps(v, s, o, a, c);
    case RulesRead => OpenActiveKeeps(v, s, o, a);
    case Reading => ReadChunkKeeps(v, s, o, a);
    case Captured => ComputeRowsKeeps(v, s, o, a);
    case Computed => RecordAnalysisKeeps(v, s, o, a, c);
    case _ => GoodStep(v, s, s, o, Analyzing(a));
  }

  lemma FaultAnalysisKeeps(v: Services, s: State, o: nat, a: Analysis)
    requires Shared(v, s) && o in s.operations && s.operations[o] == Analyzing(a)
    requires AnalysisSound(v, s, o, a)
    ensures Good(v, s, FaultAnalysis(s, o, a), o)
  {
    var failed := Analyzing(a.(at := AnalysisFailed));
    if AnalysisEnded(a) {
      GoodStep(v, s, s, o, Analyzing(a));
      return;
    }
    if AnalysisHoldsLock(a) {
      assert FaultAnalysis(s, o, a) == Put(Unlock(s, a.datasetId), o, failed);
      ReleaseGood(v, s, o, failed, a.datasetId);
      return;
    }
    assert FaultAnalysis(s, o, a) == Put(s, o, failed);
    LocalChangeGood(v, s, o, failed);
  }

  // ---------------------------------------------------------------- crashes

  lemma DieHolders(s: State, o: nat, locks: map<nat, nat>)
    requires NamesHeld(s) && o in s.operations
    ensures NamesHeld(Put(Abandon(s, o).(locks := locks), o, Crashed))
  {
  }

  lemma DieRelies(s: State, o: nat, locks: map<nat, nat>)
    requires NamesHeld(s) && o in s.operations
    requires forall d :: d in s.locks && s.locks[d] != o ==> d in locks && locks[d] == s.locks[d]
    ensures Rely(s, Put(Abandon(s, o).(locks := locks), o, Crashed), o)
  {
  }

  lemma DieNames(s: State, o: nat, locks: map<nat, nat>)
    requires NamesHeld(s) && o in s.operations
    requires forall d :: d in s.locks && s.locks[d] != o ==> d in locks && locks[d] == s.locks[d]
    ensures var t := Put(Abandon(s, o).(locks := locks), o, Crashed);
      NamesHeld(t) && Rely(s, t, o) && CommitsNothing(s, t)
  {
    DieHolders(s, o, locks);
    DieRelies(s, o, locks);
  }

  lemma DieGood(v: Services, s: State, o: nat, locks: map<nat, nat>)
    requires Shared(v, s) && o in s.operations
    requires forall d :: d in s.locks && s.locks[d] != o ==> d in locks && locks[d] == s.locks[d]
    ensures Good(v, s, Put(Abandon(s, o).(locks := locks), o, Crashed), o)
  {
    DieNames(s, o, locks);
    GoodStep(v, s, Put(Abandon(s, o).(locks := locks), o, Crashed), o, Crashed);
  }

  lemma LockIsOwn(v: Services, s: State, o: nat, operation: Operation)
    requires OperationSound(v, s, o, operation) && HoldsLock(operation)
    ensures DatasetOf(operation) in s.locks && s.locks[DatasetOf(operation)] == o
  {
  }

  function LocksAfter(s: State, operation: Operation): map<nat, nat> {
    if HoldsLock(operation) then Without(s.locks, DatasetOf(operation)) else s.locks
  }

  lemma LocksAfterRely(v: Services, s: State, o: nat, operation: Operation)
    requires OperationSound(v, s, o, operation)
    ensures forall d :: d in s.locks && s.locks[d] != o ==>
      d in LocksAfter(s, operation) && LocksAfter(s, operation)[d] == s.locks[d]
  {
    if HoldsLock(operation) {
      LockIsOwn(v, s, o, operation);
    }
  }

  lemma DieKeeps(v: Services, s: State, o: nat)
    requires Shared(v, s) && o in s.operations && OperationSound(v, s, o, s.operations[o])
    ensures Good(v, s, Die(s, o, s.operations[o]), o)
  {
    var operation := s.operations[o];
    LocksAfterRely(v, s, o, operation);
    DieGood(v, s, o, LocksAfter(s, operation));
    assert Die(s, o, operation) == Put(Abandon(s, o).(locks := LocksAfter(s, operation)), o, Crashed);
  }
}
