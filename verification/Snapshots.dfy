/**
 Snapshots of concurrent analyses are linearizable: what an analysis captures is the
 committed state at one instant of the run, and what it records is computed from that state
 alone and never changes again.
 */
module Snapshots {
  import opened Wrappers
  import opened External
  import opened Configuration
  import opened History
  import opened Protocol
  import opened Invariant
  import opened OtherSteps
  import opened Safety

  /** In `s`, while `o` is between its two reads, these are the committed row, rules and file of `d`. */
  ghost predicate Observes(s: State, o: nat, d: nat, row: DatasetRow, rules: seq<RuleSnapshot>, content: Bytes) {
    && o in s.operations && s.operations[o].Analyzing? && s.operations[o].analysis.at.RowRead?
    && d in s.datasets && s.datasets[d] == row && Complete(row)
    && IsRuleListing(s.rules, d, rules)
    && Stored(row.storageKey.value) in s.files && s.files[Stored(row.storageKey.value)] == content
  }

  /** Some instant of the run showed exactly this to `o`. */
  ghost predicate SeenBy(v: Services, events: seq<Event>, o: nat, d: nat, row: DatasetRow,
                         rules: seq<RuleSnapshot>, content: Bytes)
  {
    exists j :: 0 <= j <= |events| && Observes(Run(v, events[..j]), o, d, row, rules, content)
  }

  /** The recorded analysis `x` and all its results are the computation on this snapshot. */
  ghost predicate Records(v: Services, s: State, x: nat, d: nat, row: DatasetRow,
                          rules: seq<RuleSnapshot>, content: Bytes)
  {
    && Complete(row) && x in s.analyses
    && var computed := v.compute(SourceOf(row), rules, content);
    && computed.Ok? && |computed.value.results| == |rules| > 0
    && s.analyses[x].datasetId == d
    && s.analyses[x].source == SourceOf(row)
    && s.analyses[x].totalViolations == computed.value.totalViolations
    && s.analyses[x].score == computed.value.score
    && (forall p: nat :: (x, p) in s.results <==> p < |rules|)
    && (forall p: nat :: p < |rules| ==> s.results[(x, p)] == computed.value.results[p])
  }

  /** What an analysis in progress holds was seen at one instant. */
  ghost predicate Traced(v: Services, events: seq<Event>, s: State, o: nat, a: Analysis) {
    && (a.at.RulesRead? ==>
          && a.row.storageKey.Some? && Stored(a.row.storageKey.value) in s.files
          && SeenBy(v, events, o, a.datasetId, a.row, a.rules, s.files[Stored(a.row.storageKey.value)]))
    && (a.at.Reading? ==> SeenBy(v, events, o, a.datasetId, a.row, a.rules, a.handle))
    && (a.at.Captured? || a.at.Computed? || a.at.Recorded? ==>
          SeenBy(v, events, o, a.datasetId, a.row, a.rules, a.content))
    && (a.at.Recorded? ==>
          && Records(v, s, a.analysisId, a.datasetId, a.row, a.rules, a.content)
          && v.compute(SourceOf(a.row), a.rules, a.content) == Ok(a.computation))
  }

  /** A recorded analysis stands for one snapshot. */
  ghost predicate Grounded(v: Services, events: seq<Event>, s: State, x: nat)
    requires x in s.analyses
  {
    exists o, row, rules, content ::
      && SeenBy(v, events, o, s.analyses[x].datasetId, row, rules, content)
      && Records(v, s, x, s.analyses[x].datasetId, row, rules, content)
  }

  ghost predicate ResultsOwned(s: State) {
    forall x: nat, p: nat :: (x, p) in s.results ==> x in s.analyses
  }

  ghost predicate AllTraced(v: Services, events: seq<Event>, s: State) {
    && ResultsOwned(s)
    && (forall o :: o in s.operations && s.operations[o].Analyzing? ==>
          Traced(v, events, s, o, s.operations[o].analysis))
    && (forall x :: x in s.analyses ==> Grounded(v, events, s, x))
  }

  // ---------------------------------------------------------------- what events leave alone

  /** Recorded analyses and their results stay as they are. */
  ghost predicate HistoryGrows(s: State, t: State) {
    && (forall x :: x in s.analyses ==> x in t.analyses && t.analyses[x] == s.analyses[x])
    && (forall x: nat, p: nat :: x in s.analyses ==> ((x, p) in t.results <==> (x, p) in s.results))
    && (forall x: nat, p: nat :: x in s.analyses && (x, p) in s.results ==> t.results[(x, p)] == s.results[(x, p)])
  }

  /** Operations other than `o` keep their locals, and files of committed rows keep their bytes. */
  ghost predicate Undisturbed(s: State, t: State, o: nat) {
    && (forall p :: p in t.operations && t.operations[p].Analyzing? && p != o ==>
          p in s.operations && s.operations[p] == t.operations[p])
    && (forall f :: f in s.files && f in s.holders && s.holders[f].HeldByRow? ==>
          f in t.files && t.files[f] == s.files[f])
  }

  lemma SeenStays(v: Services, events: seq<Event>, e: Event, o: nat, d: nat, row: DatasetRow,
                  rules: seq<RuleSnapshot>, content: Bytes)
    requires SeenBy(v, events, o, d, row, rules, content)
    ensures SeenBy(v, events + [e], o, d, row, rules, content)
  {
    var j :| 0 <= j <= |events| && Observes(Run(v, events[..j]), o, d, row, rules, content);
    assert (events + [e])[..j] == events[..j];
  }

  lemma RecordsStay(v: Services, s: State, t: State, x: nat, d: nat, row: DatasetRow,
                    rules: seq<RuleSnapshot>, content: Bytes)
    requires Records(v, s, x, d, row, rules, content) && HistoryGrows(s, t)
    ensures Records(v, t, x, d, row, rules, content)
  {
  }

  lemma GroundedStays(v: Services, events: seq<Event>, e: Event, s: State, t: State, x: nat)
    requires x in s.analyses && Grounded(v, events, s, x) && HistoryGrows(s, t)
    ensures Grounded(v, events + [e], t, x)
  {
    var o, row, rules, content :|
      && SeenBy(v, events, o, s.analyses[x].datasetId, row, rules, content)
      && Records(v, s, x, s.analyses[x].datasetId, row, rules, content);
    SeenStays(v, events, e, o, s.analyses[x].datasetId, row, rules, content);
    RecordsStay(v, s, t, x, s.analyses[x].datasetId, row, rules, content);
  }

  /** An analysis that did not move still holds what it saw: nobody touches the file of its locked row. */
  lemma TracedStays(v: Services, events: seq<Event>, e: Event, s: State, t: State, o: nat, a: Analysis)
    requires Traced(v, events, s, o, a) && HistoryGrows(s, t)
    requires a.at.RulesRead? && a.row.storageKey.Some? && Stored(a.row.storageKey.value) in s.files ==>
      var f := Stored(a.row.storageKey.value); f in t.files && t.files[f] == s.files[f]
    ensures Traced(v, events + [e], t, o, a)
  {
    if a.at.RulesRead? {
      SeenStays(v, events, e, o, a.datasetId, a.row, a.rules, s.files[Stored(a.row.storageKey.value)]);
      return;
    }
    if a.at.Reading? {
      SeenStays(v, events, e, o, a.datasetId, a.row, a.rules, a.handle);
      return;
    }
    if a.at.Captured? || a.at.Computed? || a.at.Recorded? {
      SeenStays(v, events, e, o, a.datasetId, a.row, a.rules, a.content);
      if a.at.Recorded? {
        RecordsStay(v, s, t, a.analysisId, a.datasetId, a.row, a.rules, a.content);
      }
    }
  }

  /** The file an analysis is about to open belongs to the row it has locked. */
  lemma LockedFile(v: Services, s: State, o: nat, a: Analysis)
    requires RowsBacked(v, s) && AnalysisSound(v, s, o, a) && AnalysisHoldsLock(a)
    ensures a.row.storageKey.Some?
    ensures var f := Stored(a.row.storageKey.value);
      f in s.files && f in s.holders && s.holders[f].HeldByRow?
  {
    assert RowBacked(v, s, a.datasetId);
  }

  // ---------------------------------------------------------------- the analysis' own steps

  /** The instant of the snapshot: row and file cannot change under the lock, the rules are read now. */
  lemma ReadRulesTraced(v: Services, events: seq<Event>, e: Event, s: State, o: nat, a: Analysis, c: Choice)
    requires s == Run(v, events) && RowsBacked(v, s) && AnalysisSound(v, s, o, a) && a.at.RowRead?
    requires o in s.operations && s.operations[o] == Analyzing(a)
    requires IsRuleListing(s.rules, a.datasetId, c.listing)
    ensures Traced(v, events + [e], s, o, a.(rules := c.listing, at := RulesRead))
  {
    LockedFile(v, s, o, a);
    var content := s.files[Stored(a.row.storageKey.value)];
    assert events[..|events|] == events;
    assert Observes(s, o, a.datasetId, a.row, c.listing, content);
    SeenStays(v, events, e, o, a.datasetId, a.row, c.listing, content);
  }

  lemma OpenActiveTraced(v: Services, events: seq<Event>, e: Event, s: State, o: nat, a: Analysis)
    requires Traced(v, events, s, o, a) && a.at.RulesRead?
    ensures Traced(v, events + [e], s, o,
                   a.(handle := s.files[Stored(a.row.storageKey.value)], content := [], at := Reading))
  {
    SeenStays(v, events, e, o, a.datasetId, a.row, a.rules, s.files[Stored(a.row.storageKey.value)]);
  }

  lemma ReadChunkTraced(v: Services, events: seq<Event>, e: Event, s: State, o: nat, a: Analysis, next: Analysis)
    requires Traced(v, events, s, o, a) && a.at.Reading?
    requires next == a.(content := next.content, at := next.at)
    requires next.at.Reading? || (next.at.Captured? && next.content == a.handle)
    ensures Traced(v, events + [e], s, o, next)
  {
    SeenStays(v, events, e, o, a.datasetId, a.row, a.rules, a.handle);
  }

  /** What one transaction inserts is exactly the computation on the snapshot. */
  lemma RecordAnalysisTraced(v: Services, events: seq<Event>, e: Event, s: State, o: nat, a: Analysis, c: Choice)
    requires Traced(v, events, s, o, a) && AnalysisSound(v, s, o, a) && a.at.Computed? && ResultsOwned(s)
    requires |a.computation.results| == |a.rules| && c.uuid !in s.analyses
    ensures Traced(v, events + [e], InsertAnalysis(s, o, a, c), o, a.(analysisId := c.uuid, at := Recorded))
  {
    SeenStays(v, events, e, o, a.datasetId, a.row, a.rules, a.content);
    var t := InsertAnalysis(s, o, a, c);
    assert t.analyses == s.analyses[c.uuid := AnalysisRow(a.datasetId, SourceOf(a.row),
                                                          a.computation.totalViolations,
                                                          a.computation.score, c.now)];
    assert t.results == InsertResults(s.results, c.uuid, a.computation.results);
    assert Records(v, t, c.uuid, a.datasetId, a.row, a.rules, a.content);
  }

  /** After the step, the analysis of `o` is traced. */
  ghost predicate OwnTraced(v: Services, events: seq<Event>, t: State, o: nat) {
    o in t.operations && t.operations[o].Analyzing? && Traced(v, events, t, o, t.operations[o].analysis)
  }

  lemma Moves(v: Services, events: seq<Event>, s: State, t: State, o: nat, next: Analysis)
    requires Traced(v, events, s, o, next) && FilesKept(s, t) && HistoryKept(s, t)
    requires o in t.operations && t.operations[o] == Analyzing(next)
    ensures OwnTraced(v, events, t, o)
  {
    assert Traced(v, events, t, o, next);
  }

  lemma LockForAnalysisMoves(v: Services, events: seq<Event>, s: State, o: nat, a: Analysis)
    requires o in s.operations && s.operations[o] == Analyzing(a) && a.at.AnalysisRequested?
    ensures OwnTraced(v, events, LockForAnalysis(s, o, a), o)
  {
    var available := Owned(s.datasets, a.datasetId, a.ownerId);
    if available && a.datasetId in s.locks {
      assert LockForAnalysis(s, o, a) == s;
      return;
    }
    if available && Complete(s.datasets[a.datasetId]) {
      assert LockForAnalysis(s, o, a) == HoldForAnalysis(s, o, a, s.datasets[a.datasetId]);
      return;
    }
    assert LockForAnalysis(s, o, a) == Put(s, o, Analyzing(a.(at := AnalysisFailed)));
  }

  lemma ReadRulesMoves(v: Services, events: seq<Event>, e: Event, s: State, o: nat, a: Analysis, c: Choice)
    requires s == Run(v, events) && RowsBacked(v, s) && AnalysisSound(v, s, o, a) && a.at.RowRead?
    requires o in s.operations && s.operations[o] == Analyzing(a)
    ensures OwnTraced(v, events + [e], ReadRules(s, o, a, c), o)
  {
    var t := ReadRules(s, o, a, c);
    if !IsRuleListing(s.rules, a.datasetId, c.listing) {
      return;
    }
    if c.listing == [] {
      assert t == Put(Unlock(s, a.datasetId), o, Analyzing(a.(at := AnalysisFailed)));
      return;
    }
    ReadRulesTraced(v, events, e, s, o, a, c);
    assert t == Put(s, o, Analyzing(a.(rules := c.listing, at := RulesRead)));
    Moves(v, events + [e], s, t, o, a.(rules := c.listing, at := RulesRead));
  }

  lemma OpenActiveMoves(v: Services, events: seq<Event>, e: Event, s: State, o: nat, a: Analysis)
    requires Traced(v, events, s, o, a) && a.at.RulesRead?
    ensures OwnTraced(v, events + [e], OpenActive(s, o, a), o)
  {
    OpenActiveTraced(v, events, e, s, o, a);
    var next := a.(handle := s.files[Stored(a.row.storageKey.value)], content := [], at := Reading);
    assert OpenActive(s, o, a) == Put(s, o, Analyzing(next));
    Moves(v, events + [e], s, OpenActive(s, o, a), o, next);
  }

  lemma ReadChunkMoves(v: Services, events: seq<Event>, e: Event, s: State, o: nat, a: Analysis)
    requires Traced(v, events, s, o, a) && AnalysisSound(v, s, o, a) && a.at.Reading?
    ensures OwnTraced(v, events + [e], ReadChunk(v, s, o, a), o)
  {
    var t := ReadChunk(v, s, o, a);
    if |a.content| < |a.handle| {
      var next := a.(content := a.handle[..|a.content| + Min(READ_CHUNK_BYTES, |a.handle| - |a.content|)]);
      assert t == Put(s, o, Analyzing(next));
      ReadChunkTraced(v, events, e, s, o, a, next);
      Moves(v, events + [e], s, t, o, next);
      return;
    }
    assert a.content == a.handle;
    var next := a.(at := Captured);
    assert t == Put(Unlock(s, a.datasetId), o, Analyzing(next));
    ReadChunkTraced(v, events, e, s, o, a, next);
    Moves(v, events + [e], s, t, o, next);
  }

  lemma ComputeRowsMoves(v: Services, events: seq<Event>, e: Event, s: State, o: nat, a: Analysis)
    requires Lawful(v)
    requires Traced(v, events, s, o, a) && AnalysisSound(v, s, o, a) && a.at.Captured?
    ensures OwnTraced(v, events + [e], ComputeRows(v, s, o, a), o)
  {
    TracedStays(v, events, e, s, s, o, a);
    assert Describes(v, a.row, a.content) && SnapshotRulesSound(v, a.row, a.rules);
    var next := a.(computation := v.compute(SourceOf(a.row), a.rules, a.content).value, at := Computed);
    assert ComputeRows(v, s, o, a) == Put(s, o, Analyzing(next));
    Moves(v, events + [e], s, ComputeRows(v, s, o, a), o, next);
  }

  lemma WaitingMoves(v: Services, events: seq<Event>, e: Event, s: State, o: nat, a: Analysis)
    requires Traced(v, events, s, o, a) && o in s.operations && s.operations[o] == Analyzing(a)
    ensures OwnTraced(v, events + [e], s, o)
  {
    TracedStays(v, events, e, s, s, o, a);
  }

  lemma FailedIsTraced(v: Services, events: seq<Event>, t: State, o: nat, a: Analysis)
    requires o in t.operations && t.operations[o] == Analyzing(a) && a.at.AnalysisFailed?
    ensures OwnTraced(v, events, t, o)
  {
  }

  lemma InsertAnalysisMoves(v: Services, events: seq<Event>, e: Event, s: State, o: nat, a: Analysis, c: Choice)
    requires Lawful(v)
    requires Traced(v, events, s, o, a) && AnalysisSound(v, s, o, a) && a.at.Computed? && ResultsOwned(s)
    requires c.uuid !in s.analyses && Complete(a.row)
    ensures OwnTraced(v, events + [e], InsertAnalysis(s, o, a, c), o)
  {
    assert Describes(v, a.row, a.content) && SnapshotRulesSound(v, a.row, a.rules);
    RecordAnalysisTraced(v, events, e, s, o, a, c);
    assert InsertAnalysis(s, o, a, c).operations
        == s.operations[o := Analyzing(a.(analysisId := c.uuid, at := Recorded))];
  }

  lemma RecordAnalysisMoves(v: Services, events: seq<Event>, e: Event, s: State, o: nat, a: Analysis, c: Choice)
    requires Lawful(v)
    requires Traced(v, events, s, o, a) && AnalysisSound(v, s, o, a) && a.at.Computed? && ResultsOwned(s)
    requires o in s.operations && s.operations[o] == Analyzing(a)
    ensures OwnTraced(v, events + [e], RecordAnalysis(s, o, a, c), o)
  {
    if c.uuid in s.issued || c.uuid in s.analyses || !Complete(a.row) {
      WaitingMoves(v, events, e, s, o, a);
      assert RecordAnalysis(s, o, a, c) == s;
    } else if Storable(a.computation.results) {
      InsertAnalysisMoves(v, events, e, s, o, a, c);
      assert RecordAnalysis(s, o, a, c) == InsertAnalysis(s, o, a, c);
    } else {
      FailedIsTraced(v, events + [e], RefuseAnalysis(s, o, a), o, a.(at := AnalysisFailed));
      assert RecordAnalysis(s, o, a, c) == RefuseAnalysis(s, o, a);
    }
  }

  /** The step of one analysis keeps its own record traced. */
  lemma AnalysisMoves(v: Services, events: seq<Event>, e: Event, s: State, o: nat, a: Analysis, c: Choice)
    requires Lawful(v) && s == Run(v, events) && RowsBacked(v, s) && ResultsOwned(s)
    requires o in s.operations && s.operations[o] == Analyzing(a)
    requires AnalysisSound(v, s, o, a) && Traced(v, events, s, o, a)
    ensures OwnTraced(v, events + [e], AdvanceAnalysis(v, s, o, a, c), o)
  {
    match a.at
    case AnalysisRequested => LockForAnalysisMoves(v, events + [e], s, o, a);
    case RowRead => ReadRulesMoves(v, events, e, s, o, a, c);
    case RulesRead => OpenActiveMoves(v, events, e, s, o, a);
    case Reading => ReadChunkMoves(v, events, e, s, o, a);
    case Captured => ComputeRowsMoves(v, events, e, s, o, a);
    case Computed => RecordAnalysisMoves(v, events, e, s, o, a, c);
    case _ => WaitingMoves(v, events, e, s, o, a);
  }

  // ---------------------------------------------------------------- every event

  lemma InsertGrows(s: State, o: nat, a: Analysis, c: Choice)
    requires ResultsOwned(s) && Complete(a.row) && c.uuid !in s.analyses
    ensures var t := InsertAnalysis(s, o, a, c);
      HistoryGrows(s, t) && ResultsOwned(t) && t.analyses.Keys == s.analyses.Keys + {c.uuid}
  {
    assert InsertAnalysis(s, o, a, c).results == InsertResults(s.results, c.uuid, a.computation.results);
  }

  lemma RefusalKeepsHistory(s: State, o: nat, a: Analysis, c: Choice)
    requires || c.uuid in s.issued || c.uuid in s.analyses || !Complete(a.row)
             || !Storable(a.computation.results)
    ensures HistoryKept(s, RecordAnalysis(s, o, a, c))
  {
  }

  lemma KeptGrows(s: State, t: State)
    requires HistoryKept(s, t)
    ensures HistoryGrows(s, t) && (ResultsOwned(s) ==> ResultsOwned(t))
  {
  }

  lemma RecordGrows(s: State, o: nat, a: Analysis, c: Choice)
    requires ResultsOwned(s)
    ensures var t := RecordAnalysis(s, o, a, c);
      HistoryGrows(s, t) && ResultsOwned(t) && forall x :: x in t.analyses && x !in s.analyses ==> x == c.uuid
  {
    if c.uuid !in s.issued && c.uuid !in s.analyses && Complete(a.row) && Storable(a.computation.results) {
      InsertGrows(s, o, a, c);
      assert RecordAnalysis(s, o, a, c) == InsertAnalysis(s, o, a, c);
    } else {
      RefusalKeepsHistory(s, o, a, c);
      KeptGrows(s, RecordAnalysis(s, o, a, c));
    }
  }

  predicate RecordsNow(s: State, e: Event) {
    && e.Advance? && e.operation in s.operations && s.operations[e.operation].Analyzing?
    && s.operations[e.operation].analysis.at.Computed?
  }

  lemma CreateKeepsHistory(v: Services, s: State, d: nat, ownerId: nat, now: int)
    ensures HistoryKept(s, Next(v, s, CreateDataset(d, ownerId, now)))
  {
  }

  lemma BeginKeepsHistory(v: Services, s: State, o: nat, request: Request)
    ensures HistoryKept(s, Next(v, s, Begin(o, request)))
  {
  }

  lemma AdvanceKeepsHistory(v: Services, s: State, o: nat, c: Choice)
    requires !RecordsNow(s, Advance(o, c))
    ensures HistoryKept(s, Next(v, s, Advance(o, c)))
  {
    if o in s.operations && s.operations[o].Analyzing? {
      assert AdvanceOperation(v, s, o, s.operations[o], c) == AdvanceAnalysis(v, s, o, s.operations[o].analysis, c);
    }
  }

  lemma FaultKeepsHistory(v: Services, s: State, o: nat, x: Exception)
    ensures HistoryKept(s, Next(v, s, Fault(o, x)))
  {
  }

  lemma CrashKeepsHistory(v: Services, s: State, o: nat)
    ensures HistoryKept(s, Next(v, s, Crash(o)))
  {
  }

  lemma OtherEventsKeepHistory(v: Services, s: State, e: Event)
    requires !RecordsNow(s, e)
    ensures HistoryKept(s, Next(v, s, e))
  {
    match e
    case CreateDataset(d, ownerId, now) => CreateKeepsHistory(v, s, d, ownerId, now);
    case Begin(o, request) => BeginKeepsHistory(v, s, o, request);
    case Advance(o, c) => AdvanceKeepsHistory(v, s, o, c);
    case Fault(o, x) => FaultKeepsHistory(v, s, o, x);
    case Crash(o) => CrashKeepsHistory(v, s, o);
  }

  /** Only the recording step of an analysis changes the history. */
  lemma EventHistory(v: Services, s: State, e: Event)
    requires ResultsOwned(s)
    ensures HistoryGrows(s, Next(v, s, e)) && ResultsOwned(Next(v, s, e))
    ensures !RecordsNow(s, e) ==> HistoryKept(s, Next(v, s, e))
  {
    if RecordsNow(s, e) {
      RecordGrows(s, e.operation, s.operations[e.operation].analysis, e.choice);
    } else {
      OtherEventsKeepHistory(v, s, e);
      KeptGrows(s, Next(v, s, e));
    }
  }

  lemma GoodIsUndisturbed(v: Services, s: State, t: State, o: nat)
    requires Good(v, s, t, o)
    ensures Undisturbed(s, t, o)
  {
  }

  lemma QuietEventUndisturbed(v: Services, s: State, e: Event, o: nat)
    requires e.CreateDataset? || e.operation == o
    requires e.CreateDataset? || e.Begin? || o !in s.operations
    ensures Undisturbed(s, Next(v, s, e), o)
  {
  }

  lemma OperationUndisturbed(v: Services, s: State, e: Event, o: nat)
    requires Lawful(v) && Inv(v, s) && !e.CreateDataset? && !e.Begin? && e.operation == o && o in s.operations
    ensures Undisturbed(s, Next(v, s, e), o)
  {
    OperationEvents(v, s, e);
    GoodIsUndisturbed(v, s, Next(v, s, e), o);
  }

  /** An event disturbs at most its own operation. */
  lemma EventUndisturbed(v: Services, s: State, e: Event, o: nat)
    requires Lawful(v) && Inv(v, s) && (e.CreateDataset? || e.operation == o)
    ensures Undisturbed(s, Next(v, s, e), o)
  {
    if e.CreateDataset? || e.Begin? || o !in s.operations {
      QuietEventUndisturbed(v, s, e, o);
    } else {
      OperationUndisturbed(v, s, e, o);
    }
  }

  lemma FaultEndsAnalysis(s: State, o: nat, a: Analysis)
    requires !AnalysisEnded(a)
    ensures FaultAnalysis(s, o, a).operations == s.operations[o := Analyzing(a.(at := AnalysisFailed))]
  {
  }

  /** Faults and crashes of an analysis leave nothing to trace. */
  lemma FaultMoves(v: Services, events: seq<Event>, e: Event, s: State, o: nat, a: Analysis)
    requires Traced(v, events, s, o, a) && o in s.operations && s.operations[o] == Analyzing(a)
    ensures OwnTraced(v, events + [e], FaultAnalysis(s, o, a), o)
  {
    if AnalysisEnded(a) {
      WaitingMoves(v, events, e, s, o, a);
    } else {
      FaultEndsAnalysis(s, o, a);
      FailedIsTraced(v, events + [e], FaultAnalysis(s, o, a), o, a.(at := AnalysisFailed));
    }
  }

  /** An analysis after an event of its own. */
  lemma OwnEventMoves(v: Services, events: seq<Event>, e: Event, s: State, o: nat, a: Analysis)
    requires Lawful(v) && s == Run(v, events) && RowsBacked(v, s) && ResultsOwned(s)
    requires !e.CreateDataset? && !e.Crash? && e.operation == o
    requires o in s.operations && s.operations[o] == Analyzing(a)
    requires AnalysisSound(v, s, o, a) && Traced(v, events, s, o, a)
    ensures OwnTraced(v, events + [e], Next(v, s, e), o)
  {
    match e
    case Begin(_, _) =>
      WaitingMoves(v, events, e, s, o, a);
    case Advance(_, c) =>
      AnalysisMoves(v, events, e, s, o, a, c);
    case Fault(_, _) =>
      FaultMoves(v, events, e, s, o, a);
  }

  lemma BeginTraced(v: Services, events: seq<Event>, s: State, o: nat, request: Request)
    requires Start(v, request).Analyzing?
    ensures OwnTraced(v, events, Put(s, o, Start(v, request)), o)
  {
    assert Start(v, request).analysis.at.AnalysisRequested?;
  }

  lemma OnlyAnalysesContinue(v: Services, s: State, e: Event)
    requires !e.CreateDataset? && e.operation in s.operations
    requires e.operation in Next(v, s, e).operations && Next(v, s, e).operations[e.operation].Analyzing?
    ensures s.operations[e.operation].Analyzing? && !e.Crash?
  {
    assert e.Crash? || s.operations[e.operation].Analyzing? || NotAnalyzing(s, Next(v, s, e));
  }

  /** The analysis of `o` after an event of `o` itself. */
  lemma OwnEventTraced(v: Services, events: seq<Event>, e: Event, s: State)
    requires Lawful(v) && s == Run(v, events) && Inv(v, s) && AllTraced(v, events, s)
    requires !e.CreateDataset? && e.operation in Next(v, s, e).operations
    requires Next(v, s, e).operations[e.operation].Analyzing?
    ensures OwnTraced(v, events + [e], Next(v, s, e), e.operation)
  {
    var o := e.operation;
    if o !in s.operations {
      BeginTraced(v, events + [e], s, o, e.request);
    } else {
      OnlyAnalysesContinue(v, s, e);
      assert OperationSound(v, s, o, s.operations[o]);
      OwnEventMoves(v, events, e, s, o, s.operations[o].analysis);
    }
  }

  /** An analysis that an event does not belong to. */
  lemma OthersTraced(v: Services, events: seq<Event>, e: Event, s: State, t: State, o: nat, p: nat)
    requires RowsBacked(v, s) && HistoryGrows(s, t) && Undisturbed(s, t, o)
    requires p != o && p in t.operations && t.operations[p].Analyzing?
    requires p in s.operations ==> OperationSound(v, s, p, s.operations[p])
    requires p in s.operations && s.operations[p].Analyzing? ==> Traced(v, events, s, p, s.operations[p].analysis)
    ensures Traced(v, events + [e], t, p, t.operations[p].analysis)
  {
    var a := s.operations[p].analysis;
    if a.at.RulesRead? {
      LockedFile(v, s, p, a);
    }
    TracedStays(v, events, e, s, t, p, a);
  }

  /** The event that records an analysis is the last step of the analysis that computed it. */
  lemma RecorderOf(v: Services, s: State, e: Event, x: nat) returns (o: nat)
    requires ResultsOwned(s) && x in Next(v, s, e).analyses && x !in s.analyses
    ensures e.Advance? && o == e.operation && o in Next(v, s, e).operations
    ensures var operation := Next(v, s, e).operations[o];
      operation.Analyzing? && operation.analysis.at.Recorded? && operation.analysis.analysisId == x
  {
    assert RecordsNow(s, e) || HistoryKept(s, Next(v, s, e));
    o := e.operation;
    var a := s.operations[o].analysis;
    RecordGrows(s, o, a, e.choice);
    assert Next(v, s, e) == RecordAnalysis(s, o, a, e.choice) == InsertAnalysis(s, o, a, e.choice);
    assert Next(v, s, e).operations == s.operations[o := Analyzing(a.(analysisId := x, at := Recorded))];
  }

  /** A new record was made by an analysis that has just been traced. */
  lemma NewIsGrounded(v: Services, events: seq<Event>, e: Event, s: State, x: nat)
    requires Lawful(v) && s == Run(v, events) && Inv(v, s) && AllTraced(v, events, s)
    requires x in Next(v, s, e).analyses && x !in s.analyses
    ensures Grounded(v, events + [e], Next(v, s, e), x)
  {
    var o := RecorderOf(v, s, e, x);
    OwnEventTraced(v, events, e, s);
    var a := Next(v, s, e).operations[o].analysis;
    assert Traced(v, events + [e], Next(v, s, e), o, a);
  }

  lemma EventTraced(v: Services, events: seq<Event>, e: Event)
    requires Lawful(v) && Inv(v, Run(v, events)) && AllTraced(v, events, Run(v, events))
    ensures AllTraced(v, events + [e], Next(v, Run(v, events), e))
  {
    var s := Run(v, events);
    var t := Next(v, s, e);
    EventHistory(v, s, e);
    forall p | p in t.operations && t.operations[p].Analyzing?
      ensures Traced(v, events + [e], t, p, t.operations[p].analysis)
    {
      if !e.CreateDataset? && p == e.operation {
        OwnEventTraced(v, events, e, s);
      } else {
        var o := if e.CreateDataset? then p + 1 else e.operation;
        EventUndisturbed(v, s, e, o);
        OthersTraced(v, events, e, s, t, o, p);
      }
    }
    forall x | x in t.analyses ensures Grounded(v, events + [e], t, x) {
      if x in s.analyses {
        GroundedStays(v, events, e, s, t, x);
      } else {
        NewIsGrounded(v, events, e, s, x);
      }
    }
  }

  lemma RunAppends(v: Services, before: seq<Event>, e: Event)
    ensures Run(v, before + [e]) == Next(v, Run(v, before), e)
  {
    assert (before + [e])[..|before|] == before;
  }

  lemma {:induction false} RunTraced(v: Services, events: seq<Event>)
    requires Lawful(v)
    ensures AllTraced(v, events, Run(v, events))
  {
    if events != [] {
      var before, e := events[..|events| - 1], events[|events| - 1];
      assert before + [e] == events;
      RunTraced(v, before);
      RunKeeps(v, before);
      RunAppends(v, before, e);
      EventTraced(v, before, e);
    }
  }

  // ---------------------------------------------------------------- main results

  /**
   Linearizability: what an analysis holds when its snapshot is complete is the committed row,
   rule list and file of its dataset at one instant while it was running.
   */
  lemma SnapshotsAreInstants(v: Services, events: seq<Event>, o: nat)
    requires Lawful(v)
    requires o in Run(v, events).operations && Run(v, events).operations[o].Analyzing?
    requires var at := Run(v, events).operations[o].analysis.at; at.Captured? || at.Computed? || at.Recorded?
    ensures var a := Run(v, events).operations[o].analysis;
      SeenBy(v, events, o, a.datasetId, a.row, a.rules, a.content)
  {
    RunTraced(v, events);
    assert Traced(v, events, Run(v, events), o, Run(v, events).operations[o].analysis);
  }

  /** Every recorded analysis, with all its results, is the computation on one instant's committed state. */
  lemma RecordsComeFromInstants(v: Services, events: seq<Event>, x: nat)
    requires Lawful(v) && x in Run(v, events).analyses
    ensures Grounded(v, events, Run(v, events), x)
  {
    RunTraced(v, events);
  }

  /** A recorded analysis and its results never change, and no result is ever added or lost. */
  lemma {:induction false} HistoryIsPermanent(v: Services, events: seq<Event>, more: seq<Event>)
    requires Lawful(v)
    ensures HistoryGrows(Run(v, events), Run(v, events + more))
  {
    if more == [] {
      assert events + more == events;
    } else {
      var before, e := more[..|more| - 1], more[|more| - 1];
      HistoryIsPermanent(v, events, before);
      RunTraced(v, events + before);
      assert events + more == (events + before) + [e];
      EventHistory(v, Run(v, events + before), e);
    }
  }

  /** The rule list of an instant: exactly the rules of the dataset, the oldest first, ties by identifier. */
  lemma ListingIsOldestFirst(rules: map<nat, RuleRow>, d: nat, listing: seq<RuleSnapshot>, r: nat, i: nat, j: nat)
    requires IsRuleListing(rules, d, listing)
    ensures (exists k :: 0 <= k < |listing| && listing[k].ruleId == r) <==> r in rules && rules[r].datasetId == d
    ensures i < |listing| ==> listing[i] == RuleSnapshot(listing[i].ruleId, rules[listing[i].ruleId].definition)
    ensures i < j < |listing| ==>
      var a, b := listing[i].ruleId, listing[j].ruleId;
      rules[a].createdAt < rules[b].createdAt || (rules[a].createdAt == rules[b].createdAt && a < b)
  {
  }

  lemma BothEmpty(rules: map<nat, RuleRow>, d: nat, p: seq<RuleSnapshot>, q: seq<RuleSnapshot>)
    requires IsRuleListing(rules, d, p) && IsRuleListing(rules, d, q)
    ensures p != [] ==> q != []
  {
    assert p != [] ==> rules[p[0].ruleId].datasetId == d;
  }

  lemma FirstIsListed(rules: map<nat, RuleRow>, d: nat, p: seq<RuleSnapshot>, q: seq<RuleSnapshot>)
    requires IsRuleListing(rules, d, p) && IsRuleListing(rules, d, q) && p != [] && q != []
    ensures p[0].ruleId == q[0].ruleId || Precedes(rules[p[0].ruleId], p[0].ruleId, rules[q[0].ruleId], q[0].ruleId)
  {
    var i :| 0 <= i < |p| && p[i].ruleId == q[0].ruleId;
  }

  lemma TailIsListing(rules: map<nat, RuleRow>, d: nat, p: seq<RuleSnapshot>)
    requires IsRuleListing(rules, d, p) && p != []
    ensures IsRuleListing(Without(rules, p[0].ruleId), d, p[1..])
  {
    var rest := Without(rules, p[0].ruleId);
    forall r | r in rest && rest[r].datasetId == d
      ensures exists i :: 0 <= i < |p[1..]| && p[1..][i].ruleId == r
    {
      var i :| 0 <= i < |p| && p[i].ruleId == r;
      assert p[1..][i - 1].ruleId == r;
    }
  }

  /** The rule list of an instant is unique: the query's order leaves no choice. */
  lemma {:induction false} RuleListingIsUnique(rules: map<nat, RuleRow>, d: nat,
                                               p: seq<RuleSnapshot>, q: seq<RuleSnapshot>)
    requires IsRuleListing(rules, d, p) && IsRuleListing(rules, d, q)
    ensures p == q
    decreases |p|
  {
    BothEmpty(rules, d, p, q);
    BothEmpty(rules, d, q, p);
    if p == [] {
      return;
    }
    FirstIsListed(rules, d, p, q);
    FirstIsListed(rules, d, q, p);
    assert p[0] == q[0];
    TailIsListing(rules, d, p);
    TailIsListing(rules, d, q);
    RuleListingIsUnique(Without(rules, p[0].ruleId), d, p[1..], q[1..]);
    assert p == [p[0]] + p[1..] && q == [q[0]] + q[1..];
  }
}
