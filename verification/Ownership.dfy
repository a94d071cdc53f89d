/**
 Whose datasets an operation may touch. Owner checks are made once and without a lock that
 outlives them; that they still hold when something is committed is a property of whole runs.
 */
module Ownership {
  import opened Protocol
  import opened Invariant
  import opened OtherSteps
  import opened Safety
  import opened Snapshots

  /** The dataset exists and its row names this owner. */
  predicate BelongsTo(s: State, d: nat, ownerId: nat) {
    d in s.datasets && s.datasets[d].ownerId == ownerId
  }

  /** Past its owner check, and not refused. */
  predicate Admitted(operation: Operation) {
    match operation
    case Uploading(u) => !u.at.Requested? && !u.at.Failed?
    case Creating(k) => k.at.Checked? || k.at.RuleStored?
    case Deleting(x) => x.at.OwnerChecked? || x.at.RuleFound? || x.at.RuleDeleted?
    case Analyzing(a) => !a.at.AnalysisRequested? && !a.at.AnalysisFailed?
    case Crashed => false
  }

  function OwnerOf(operation: Operation): nat {
    match operation
    case Uploading(u) => u.ownerId
    case Creating(k) => k.ownerId
    case Deleting(x) => x.ownerId
    case Analyzing(a) => a.ownerId
    case Crashed => 0
  }

  /** An admitted operation is one of the owner, and a rule it has found is one of the dataset. */
  ghost predicate Entitled(s: State, operation: Operation) {
    && (Admitted(operation) ==> BelongsTo(s, DatasetOf(operation), OwnerOf(operation)))
    && (operation.Deleting? && operation.deletion.at.RuleFound? ==>
          var x := operation.deletion;
          && x.ruleId in s.issued
          && (x.ruleId in s.rules ==> s.rules[x.ruleId].datasetId == x.datasetId))
  }

  ghost predicate AllEntitled(s: State) {
    forall o :: o in s.operations ==> Entitled(s, s.operations[o])
  }

  ghost predicate RowOwnerKept(s: State, t: State, d: nat)
    requires d in s.datasets
  {
    && d in t.datasets && t.datasets[d].ownerId == s.datasets[d].ownerId
    && t.datasets[d].createdAt == s.datasets[d].createdAt
  }

  /** Rules that were there stay as they are, and a new one has a new identifier. */
  ghost predicate RulesKept(s: State, t: State) {
    && (forall r :: r in t.rules && r in s.rules ==> t.rules[r] == s.rules[r])
    && (forall r :: r in t.rules && r !in s.rules ==> r !in s.issued)
  }

  /** Datasets keep their owners, and rules that were there keep their datasets. */
  ghost predicate OwnersKept(s: State, t: State) {
    && s.issued <= t.issued
    && (forall d :: d in s.datasets ==> RowOwnerKept(s, t, d))
    && RulesKept(s, t)
  }

  // ---------------------------------------------------------------- what an operation does to itself

  /** Only the owner check admits an operation, and only finding a rule makes it found. */
  ghost predicate Continues(s: State, operation: Operation, next: Operation) {
    && SameCall(operation, next)
    && (Admitted(next) ==> Admitted(operation) || BelongsTo(s, DatasetOf(operation), OwnerOf(operation)))
    && (next.Deleting? && next.deletion.at.RuleFound? && next != operation ==>
          next.deletion.ruleId in s.rules && s.rules[next.deletion.ruleId].datasetId == next.deletion.datasetId)
  }

  /** The step leaves its own operation as a continuation. */
  ghost predicate GoesOn(s: State, t: State, o: nat, operation: Operation) {
    o in t.operations && Continues(s, operation, t.operations[o])
  }

  lemma AdmittedGoesOn(s: State, t: State, o: nat, operation: Operation)
    requires o in s.operations && s.operations[o] == operation && LockFollows(s, t, o, operation)
    requires Admitted(operation) && !operation.Deleting?
    ensures GoesOn(s, t, o, operation)
  {
  }

  lemma RequestedUploadGoesOn(s: State, o: nat, u: Upload)
    requires u.at.Requested?
    ensures GoesOn(s, CheckUploadOwner(s, o, u), o, Uploading(u))
  {
  }

  lemma UploadGoesOn(v: Services, s: State, o: nat, u: Upload, c: Choice)
    requires o in s.operations && s.operations[o] == Uploading(u)
    ensures GoesOn(s, AdvanceUpload(v, s, o, u, c), o, Uploading(u))
  {
    if Admitted(Uploading(u)) {
      AdmittedGoesOn(s, AdvanceUpload(v, s, o, u, c), o, Uploading(u));
    } else if u.at.Requested? {
      RequestedUploadGoesOn(s, o, u);
    } else {
      assert AdvanceUpload(v, s, o, u, c) == s;
    }
  }

  lemma RequestedRuleGoesOn(s: State, o: nat, k: Creation)
    requires o in s.operations && s.operations[o] == Creating(k) && k.at.Admission?
    ensures GoesOn(s, LockForRule(s, o, k), o, Creating(k))
  {
  }

  lemma CreationGoesOn(s: State, o: nat, k: Creation, c: Choice)
    requires o in s.operations && s.operations[o] == Creating(k)
    ensures GoesOn(s, AdvanceCreation(s, o, k, c), o, Creating(k))
  {
    if Admitted(Creating(k)) {
      AdmittedGoesOn(s, AdvanceCreation(s, o, k, c), o, Creating(k));
    } else if k.at.Admission? {
      RequestedRuleGoesOn(s, o, k);
    } else {
      assert AdvanceCreation(s, o, k, c) == s;
    }
  }

  lemma RequestedDeletionGoesOn(s: State, o: nat, x: Deletion)
    requires x.at.DeletionRequested?
    ensures GoesOn(s, AdvanceDeletion(s, o, x), o, Deleting(x))
  {
  }

  lemma CheckedDeletionGoesOn(s: State, o: nat, x: Deletion)
    requires x.at.OwnerChecked? || x.at.RuleFound?
    ensures GoesOn(s, AdvanceDeletion(s, o, x), o, Deleting(x))
  {
  }

  lemma DeletionGoesOn(s: State, o: nat, x: Deletion)
    requires o in s.operations && s.operations[o] == Deleting(x)
    ensures GoesOn(s, AdvanceDeletion(s, o, x), o, Deleting(x))
  {
    if x.at.DeletionRequested? {
      RequestedDeletionGoesOn(s, o, x);
    } else if x.at.OwnerChecked? || x.at.RuleFound? {
      CheckedDeletionGoesOn(s, o, x);
    }
  }

  lemma RequestedAnalysisGoesOn(s: State, o: nat, a: Analysis)
    requires o in s.operations && s.operations[o] == Analyzing(a) && a.at.AnalysisRequested?
    ensures GoesOn(s, LockForAnalysis(s, o, a), o, Analyzing(a))
  {
  }

  lemma AnalysisGoesOn(v: Services, s: State, o: nat, a: Analysis, c: Choice)
    requires o in s.operations && s.operations[o] == Analyzing(a)
    ensures GoesOn(s, AdvanceAnalysis(v, s, o, a, c), o, Analyzing(a))
  {
    if Admitted(Analyzing(a)) {
      AdmittedGoesOn(s, AdvanceAnalysis(v, s, o, a, c), o, Analyzing(a));
    } else if a.at.AnalysisRequested? {
      RequestedAnalysisGoesOn(s, o, a);
    } else {
      assert AdvanceAnalysis(v, s, o, a, c) == s;
    }
  }

  lemma AdvanceGoesOn(v: Services, s: State, o: nat, operation: Operation, c: Choice)
    requires o in s.operations && s.operations[o] == operation
    ensures GoesOn(s, AdvanceOperation(v, s, o, operation, c), o, operation)
  {
    match operation
    case Uploading(u) => UploadGoesOn(v, s, o, u, c);
    case Creating(k) => CreationGoesOn(s, o, k, c);
    case Deleting(x) => DeletionGoesOn(s, o, x);
    case Analyzing(a) => AnalysisGoesOn(v, s, o, a, c);
    case Crashed =>
  }

  /** An exception admits nobody. */
  lemma FaultedUploadGoesOn(s: State, o: nat, u: Upload, x: Exception)
    requires o in s.operations && s.operations[o] == Uploading(u)
    ensures GoesOn(s, FaultUpload(s, o, u, x), o, Uploading(u))
  {
    if Admitted(Uploading(u)) {
      AdmittedGoesOn(s, FaultUpload(s, o, u, x), o, Uploading(u));
    }
  }

  lemma FaultedCreationGoesOn(s: State, o: nat, k: Creation)
    requires o in s.operations && s.operations[o] == Creating(k)
    ensures GoesOn(s, FaultCreation(s, o, k), o, Creating(k))
  {
  }

  lemma FaultedAnalysisGoesOn(s: State, o: nat, a: Analysis)
    requires o in s.operations && s.operations[o] == Analyzing(a)
    ensures GoesOn(s, FaultAnalysis(s, o, a), o, Analyzing(a))
  {
    if Admitted(Analyzing(a)) {
      AdmittedGoesOn(s, FaultAnalysis(s, o, a), o, Analyzing(a));
    }
  }

  lemma FaultGoesOn(s: State, o: nat, operation: Operation, x: Exception)
    requires o in s.operations && s.operations[o] == operation
    ensures GoesOn(s, FaultOperation(s, o, operation, x), o, operation)
  {
    match operation
    case Uploading(u) => FaultedUploadGoesOn(s, o, u, x);
    case Creating(k) => FaultedCreationGoesOn(s, o, k);
    case Deleting(_) =>
    case Analyzing(a) => FaultedAnalysisGoesOn(s, o, a);
    case Crashed =>
  }

  /** Whatever event of its own: an operation continues. */
  lemma EventGoesOn(v: Services, s: State, e: Event)
    requires !e.CreateDataset? && e.operation in s.operations
    ensures GoesOn(s, Next(v, s, e), e.operation, s.operations[e.operation])
  {
    match e
    case Begin(_, _) =>
    case Advance(o, c) => AdvanceGoesOn(v, s, o, s.operations[o], c);
    case Fault(o, x) => FaultGoesOn(s, o, s.operations[o], x);
    case Crash(o) =>
  }

  // ---------------------------------------------------------------- what an event does to the tables

  /** The event inserts this rule. */
  predicate Inserts(s: State, t: State, e: Event) {
    && e.Advance? && e.operation in s.operations && s.operations[e.operation].Creating?
    && s.operations[e.operation].creation.at.Checked?
    && e.choice.uuid !in s.issued && e.choice.uuid !in s.rules
    && var k := s.operations[e.operation].creation;
       t.rules == s.rules[e.choice.uuid := RuleRow(k.datasetId, k.definition, e.choice.now)]
  }

  predicate Deletes(s: State, t: State, e: Event) {
    && e.Advance? && e.operation in s.operations && s.operations[e.operation].Deleting?
    && s.operations[e.operation].deletion.at.RuleFound?
    && t.rules == Without(s.rules, s.operations[e.operation].deletion.ruleId)
  }

  lemma StoreAndRules(s: State, o: nat, k: Creation, c: Choice)
    requires o in s.operations && s.operations[o] == Creating(k) && k.at.Checked?
    ensures var t := StoreRule(s, o, k, c); t.rules == s.rules || Inserts(s, t, Advance(o, c))
  {
  }

  lemma CreationAndRules(s: State, o: nat, k: Creation, c: Choice)
    requires o in s.operations && s.operations[o] == Creating(k)
    ensures var t := AdvanceCreation(s, o, k, c); t.rules == s.rules || Inserts(s, t, Advance(o, c))
  {
    if k.at.Checked? {
      StoreAndRules(s, o, k, c);
    }
  }

  lemma FoundRuleGoes(s: State, o: nat, x: Deletion)
    requires x.at.RuleFound?
    ensures AdvanceDeletion(s, o, x).rules == Without(s.rules, x.ruleId)
  {
  }

  lemma DeletionAndRules(s: State, o: nat, x: Deletion, c: Choice)
    requires o in s.operations && s.operations[o] == Deleting(x)
    ensures var t := AdvanceDeletion(s, o, x); t.rules == s.rules || Deletes(s, t, Advance(o, c))
  {
    if x.at.RuleFound? {
      FoundRuleGoes(s, o, x);
    }
  }

  ghost predicate ChangesOneRule(v: Services, s: State, e: Event) {
    var t := Next(v, s, e);
    t.rules == s.rules || Inserts(s, t, e) || Deletes(s, t, e)
  }

  lemma AdvanceAndRules(v: Services, s: State, o: nat, c: Choice)
    requires o in s.operations
    ensures ChangesOneRule(v, s, Advance(o, c))
  {
    match s.operations[o]
    case Uploading(u) =>
    case Creating(k) => CreationAndRules(s, o, k, c);
    case Deleting(x) => DeletionAndRules(s, o, x, c);
    case Analyzing(a) =>
    case Crashed =>
  }

  /** An event inserts one rule, deletes one, or leaves the table alone. */
  lemma EventAndRules(v: Services, s: State, e: Event)
    ensures ChangesOneRule(v, s, e)
  {
    match e
    case CreateDataset(_, _, _) =>
    case Begin(_, _) =>
    case Advance(o, c) => if o in s.operations { AdvanceAndRules(v, s, o, c); }
    case Fault(_, _) =>
    case Crash(_) =>
  }

  lemma CommitKeepsOwner(v: Services, s: State, o: nat, u: Upload, d: nat)
    requires UploadSound(v, s, o, u) && u.at.Flushed? && d in s.datasets
    ensures RowOwnerKept(s, CommitUpload(v, s, o, u), d)
  {
    assert CommitUpload(v, s, o, u).datasets == s.datasets[u.datasetId := UpdatedRow(v, u)];
  }

  lemma RowKeepsOwner(v: Services, s: State, e: Event, d: nat)
    requires Inv(v, s) && d in s.datasets
    ensures RowOwnerKept(s, Next(v, s, e), d)
  {
    if IsCommit(s, e) {
      var o, u := e.operation, s.operations[e.operation].upload;
      assert OperationSound(v, s, o, s.operations[o]);
      CommitKeepsOwner(v, s, o, u, d);
      assert Next(v, s, e) == CommitUpload(v, s, o, u);
    } else {
      OthersChangeNoRow(v, s, e, d);
    }
  }

  lemma IssuedStays(v: Services, s: State, e: Event)
    requires Lawful(v) && Inv(v, s)
    ensures s.issued <= Next(v, s, e).issued
  {
    if !e.CreateDataset? && !e.Begin? && e.operation in s.operations {
      OperationEvents(v, s, e);
    }
  }

  lemma RulesStay(v: Services, s: State, e: Event)
    requires ChangesOneRule(v, s, e)
    ensures RulesKept(s, Next(v, s, e))
  {
  }

  lemma OwnersStay(v: Services, s: State, e: Event)
    requires Lawful(v) && Inv(v, s)
    ensures OwnersKept(s, Next(v, s, e))
  {
    IssuedStays(v, s, e);
    EventAndRules(v, s, e);
    RulesStay(v, s, e);
    forall d | d in s.datasets ensures RowOwnerKept(s, Next(v, s, e), d) {
      RowKeepsOwner(v, s, e, d);
    }
  }

  // ---------------------------------------------------------------- the invariant

  lemma StaysEntitled(s: State, t: State, operation: Operation)
    requires OwnersKept(s, t) && Entitled(s, operation)
    ensures Entitled(t, operation)
  {
  }

  lemma ContinuationIsEntitled(v: Services, s: State, t: State, operation: Operation, next: Operation)
    requires RulesSound(v, s) && OwnersKept(s, t) && Entitled(s, operation) && Continues(s, operation, next)
    ensures Entitled(t, next)
  {
    if next.Deleting? && next.deletion.at.RuleFound? && next != operation {
      assert RuleSound(v, s, next.deletion.ruleId);
    }
  }

  lemma StartIsEntitled(v: Services, s: State, request: Request)
    ensures Entitled(s, Start(v, request))
  {
  }

  lemma NewOperationBegins(v: Services, s: State, e: Event, p: nat)
    requires Lawful(v) && Inv(v, s) && p in Next(v, s, e).operations && p !in s.operations
    ensures e.Begin? && e.operation == p && Next(v, s, e).operations[p] == Start(v, e.request)
  {
    if !e.CreateDataset? && !e.Begin? && e.operation in s.operations {
      OperationEvents(v, s, e);
    }
  }

  lemma OneStaysEntitled(v: Services, s: State, e: Event, p: nat)
    requires Lawful(v) && Inv(v, s) && AllEntitled(s) && p in Next(v, s, e).operations
    requires OwnersKept(s, Next(v, s, e))
    ensures Entitled(Next(v, s, e), Next(v, s, e).operations[p])
  {
    var t := Next(v, s, e);
    if p !in s.operations {
      assert e.Begin? && e.operation == p && t.operations[p] == Start(v, e.request) by {
        NewOperationBegins(v, s, e, p);
      }
      StartIsEntitled(v, t, e.request);
    } else if !e.CreateDataset? && e.operation == p {
      EventGoesOn(v, s, e);
      ContinuationIsEntitled(v, s, t, s.operations[p], t.operations[p]);
    } else {
      OthersStay(v, s, e, p);
      StaysEntitled(s, t, s.operations[p]);
    }
  }

  lemma EventKeepsEntitled(v: Services, s: State, e: Event)
    requires Lawful(v) && Inv(v, s) && AllEntitled(s)
    ensures AllEntitled(Next(v, s, e))
  {
    OwnersStay(v, s, e);
    forall p | p in Next(v, s, e).operations ensures Entitled(Next(v, s, e), Next(v, s, e).operations[p]) {
      OneStaysEntitled(v, s, e, p);
    }
  }

  lemma {:induction false} RunEntitled(v: Services, events: seq<Event>)
    requires Lawful(v)
    ensures AllEntitled(Run(v, events))
  {
    if events != [] {
      RunEntitled(v, events[..|events| - 1]);
      RunKeeps(v, events[..|events| - 1]);
      EventKeepsEntitled(v, Run(v, events[..|events| - 1]), events[|events| - 1]);
    }
  }

  // ---------------------------------------------------------------- main results

  /** A row changes only in a step of an upload that names its dataset and its owner. */
  lemma OnlyOwnersChangeRows(v: Services, events: seq<Event>, e: Event, d: nat)
    requires Lawful(v) && d in Run(v, events).datasets
    requires var t := Next(v, Run(v, events), e);
      d !in t.datasets || t.datasets[d] != Run(v, events).datasets[d]
    ensures var s := Run(v, events);
      && e.Advance? && e.operation in s.operations && s.operations[e.operation].Uploading?
      && var u := s.operations[e.operation].upload;
         u.datasetId == d && u.ownerId == s.datasets[d].ownerId
  {
    RunKeeps(v, events);
    RunEntitled(v, events);
    RowsChangeOnlyByCommits(v, Run(v, events), e, d);
    assert Entitled(Run(v, events), Run(v, events).operations[e.operation]);
  }

  /** A rule appears only in a step of a creation by the owner of its dataset, with the definition created. */
  lemma OnlyOwnersCreateRules(v: Services, events: seq<Event>, e: Event, r: nat)
    requires Lawful(v) && r !in Run(v, events).rules && r in Next(v, Run(v, events), e).rules
    ensures var s, rule := Run(v, events), Next(v, Run(v, events), e).rules[r];
      && e.Advance? && e.operation in s.operations && s.operations[e.operation].Creating?
      && var k := s.operations[e.operation].creation;
         && k.datasetId == rule.datasetId && k.definition == rule.definition
         && rule.datasetId in s.datasets && k.ownerId == s.datasets[rule.datasetId].ownerId
  {
    RunEntitled(v, events);
    EventAndRules(v, Run(v, events), e);
    assert Entitled(Run(v, events), Run(v, events).operations[e.operation]);
  }

  /** A rule disappears only in a step of a deletion that names it, by the owner of its dataset; no rule changes. */
  lemma OnlyOwnersDeleteRules(v: Services, events: seq<Event>, e: Event, r: nat)
    requires Lawful(v) && r in Run(v, events).rules
    ensures var s, t := Run(v, events), Next(v, Run(v, events), e);
      r in t.rules ==> t.rules[r] == s.rules[r]
    ensures var s, t := Run(v, events), Next(v, Run(v, events), e);
      r !in t.rules ==>
        && e.Advance? && e.operation in s.operations && s.operations[e.operation].Deleting?
        && var x := s.operations[e.operation].deletion;
           && x.ruleId == r && x.datasetId == s.rules[r].datasetId
           && x.datasetId in s.datasets && x.ownerId == s.datasets[x.datasetId].ownerId
  {
    RunEntitled(v, events);
    EventAndRules(v, Run(v, events), e);
    RulesStay(v, Run(v, events), e);
    if r !in Next(v, Run(v, events), e).rules {
      assert Entitled(Run(v, events), Run(v, events).operations[e.operation]);
    }
  }

  lemma RecordingBelongs(v: Services, s: State, e: Event, x: nat)
    requires AllEntitled(s) && RecordsNow(s, e) && x !in s.analyses && x in Next(v, s, e).analyses
    ensures var a, row := s.operations[e.operation].analysis, Next(v, s, e).analyses[x];
      a.datasetId == row.datasetId && BelongsTo(s, a.datasetId, a.ownerId)
  {
    assert Entitled(s, s.operations[e.operation]);
    assert Next(v, s, e) == RecordAnalysis(s, e.operation, s.operations[e.operation].analysis, e.choice);
  }

  /** An analysis is recorded only in a step of an analysis by the owner of its dataset. */
  lemma OnlyOwnersRecordAnalyses(v: Services, events: seq<Event>, e: Event, x: nat)
    requires Lawful(v) && x !in Run(v, events).analyses && x in Next(v, Run(v, events), e).analyses
    ensures var s, row := Run(v, events), Next(v, Run(v, events), e).analyses[x];
      && e.Advance? && e.operation in s.operations && s.operations[e.operation].Analyzing?
      && var a := s.operations[e.operation].analysis;
         && a.datasetId == row.datasetId
         && row.datasetId in s.datasets && a.ownerId == s.datasets[row.datasetId].ownerId
  {
    RunEntitled(v, events);
    if !RecordsNow(Run(v, events), e) {
      OtherEventsKeepHistory(v, Run(v, events), e);
    }
    RecordingBelongs(v, Run(v, events), e, x);
  }

  /** An operation on a dataset that does not exist or has another owner never ends well. */
  lemma StrangersFail(v: Services, events: seq<Event>, o: nat)
    requires Lawful(v) && o in Run(v, events).operations
    ensures var s := Run(v, events);
      match s.operations[o]
      case Uploading(u) =>
        u.at.Succeeded? ==> u.datasetId in s.datasets && s.datasets[u.datasetId].ownerId == u.ownerId
      case Creating(k) =>
        k.at.RuleStored? ==> k.datasetId in s.datasets && s.datasets[k.datasetId].ownerId == k.ownerId
      case Deleting(x) =>
        x.at.RuleDeleted? ==> x.datasetId in s.datasets && s.datasets[x.datasetId].ownerId == x.ownerId
      case Analyzing(a) =>
        a.at.Recorded? ==> a.datasetId in s.datasets && s.datasets[a.datasetId].ownerId == a.ownerId
      case Crashed => true
  {
    RunEntitled(v, events);
    assert Entitled(Run(v, events), Run(v, events).operations[o]);
  }

  // ---------------------------------------------------------------- calls and creators

  /** The operation has the arguments of the request. */
  predicate IsCallOf(operation: Operation, request: Request) {
    match operation
    case Uploading(u) => request == UploadCsv(u.ownerId, u.datasetId, u.filename, u.source)
    case Creating(k) => request.CreateRule? && request.ownerId == k.ownerId && request.datasetId == k.datasetId
    case Deleting(x) => request == DeleteRule(x.ownerId, x.datasetId, x.ruleId)
    case Analyzing(a) => request == CreateAnalysis(a.ownerId, a.datasetId)
    case Crashed => true
  }

  ghost predicate WasRequested(events: seq<Event>, o: nat, operation: Operation) {
    exists i :: 0 <= i < |events| && events[i].Begin? && events[i].operation == o
                && IsCallOf(operation, events[i].request)
  }

  lemma RequestStays(events: seq<Event>, e: Event, o: nat, operation: Operation, next: Operation)
    requires WasRequested(events, o, operation) && SameCall(operation, next)
    ensures WasRequested(events + [e], o, next)
  {
    var i :| 0 <= i < |events| && events[i].Begin? && events[i].operation == o
             && IsCallOf(operation, events[i].request);
    assert (events + [e])[i] == events[i];
  }

  lemma OneStaysRequested(v: Services, before: seq<Event>, e: Event, o: nat)
    requires Lawful(v) && Inv(v, Run(v, before)) && o in Next(v, Run(v, before), e).operations
    requires o in Run(v, before).operations ==> WasRequested(before, o, Run(v, before).operations[o])
    ensures WasRequested(before + [e], o, Next(v, Run(v, before), e).operations[o])
  {
    var s := Run(v, before);
    if o !in s.operations {
      NewOperationBegins(v, s, e, o);
      assert (before + [e])[|before|] == e && IsCallOf(Start(v, e.request), e.request);
    } else if !e.CreateDataset? && e.operation == o {
      EventGoesOn(v, s, e);
      RequestStays(before, e, o, s.operations[o], Next(v, s, e).operations[o]);
    } else {
      OthersStay(v, s, e, o);
      RequestStays(before, e, o, s.operations[o], s.operations[o]);
    }
  }

  /** Every operation works with the arguments of the request that began it. */
  lemma {:induction false} OperationsWereRequested(v: Services, events: seq<Event>, o: nat)
    requires Lawful(v) && o in Run(v, events).operations
    ensures WasRequested(events, o, Run(v, events).operations[o])
  {
    var before, e := events[..|events| - 1], events[|events| - 1];
    RunKeeps(v, before);
    if o in Run(v, before).operations {
      OperationsWereRequested(v, before, o);
    }
    OneStaysRequested(v, before, e, o);
    assert before + [e] == events;
  }

  ghost predicate WasCreated(events: seq<Event>, d: nat, row: DatasetRow) {
    exists i :: 0 <= i < |events| && events[i] == CreateDataset(d, row.ownerId, row.createdAt)
  }

  lemma CommitAddsNoRow(v: Services, s: State, e: Event)
    requires Inv(v, s) && IsCommit(s, e)
    ensures Next(v, s, e).datasets.Keys == s.datasets.Keys
  {
    var u := s.operations[e.operation].upload;
    assert OperationSound(v, s, e.operation, s.operations[e.operation]);
    assert Next(v, s, e) == CommitUpload(v, s, e.operation, u);
    assert u.datasetId in s.datasets;
  }

  lemma NewRowIsCreated(v: Services, s: State, e: Event, d: nat)
    requires Inv(v, s) && d in Next(v, s, e).datasets && d !in s.datasets
    ensures e == CreateDataset(d, Next(v, s, e).datasets[d].ownerId, Next(v, s, e).datasets[d].createdAt)
  {
    if IsCommit(s, e) {
      CommitAddsNoRow(v, s, e);
    }
  }

  /** A dataset belongs to the user who created it, for ever. */
  lemma {:induction false} OwnersAreCreators(v: Services, events: seq<Event>, d: nat)
    requires Lawful(v) && d in Run(v, events).datasets
    ensures WasCreated(events, d, Run(v, events).datasets[d])
  {
    var before, e := events[..|events| - 1], events[|events| - 1];
    var s := Run(v, before);
    RunKeeps(v, before);
    if d in s.datasets {
      OwnersAreCreators(v, before, d);
      RowKeepsOwner(v, s, e, d);
      var i :| 0 <= i < |before| && before[i] == CreateDataset(d, s.datasets[d].ownerId, s.datasets[d].createdAt);
      assert events[i] == before[i];
    } else {
      NewRowIsCreated(v, s, e, d);
      assert events[|events| - 1] == e;
    }
  }
}
