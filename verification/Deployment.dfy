/**
 The protocol with DataCheck's own computations in place: the scan, the request schema, the
 engine and the persistence checks. Nothing about them is left to assume.
 */
module Deployment {
  import opened Wrappers
  import opened External
  import opened Csv
  import opened Rules
  import opened Engine
  import opened Configuration
  import opened History
  import opened Protocol
  import opened Invariant
  import opened OtherSteps
  import opened Safety
  import opened Snapshots
  import opened Completion
  import opened Meanings
  import Analyses = AnalysisService

  function ServicesOf(w: World): Services {
    Services(
      w.digest,
      content => StructureOf(w, content),
      request => Admit(w, request),
      (source, rules, content) => Compute(w, source, rules, content))
  }

  /** A snapshot the protocol vouches for is coherent in the sense of the computation. */
  lemma SoundSnapshotsAreCoherent(w: World, row: DatasetRow, rules: seq<RuleSnapshot>, content: Bytes)
    requires Describes(ServicesOf(w), row, content) && SnapshotRulesSound(ServicesOf(w), row, rules)
    ensures Coherent(w, SourceOf(row), rules, content)
  {
    var v := ServicesOf(w);
    forall i | 0 <= i < |rules| ensures Admitted(w, rules[i].definition) {
      assert Admissible(v, rules[i].definition);
      var request :| v.admit(request) == Some(rules[i].definition);
      assert Admit(w, request) == Some(rules[i].definition);
    }
  }

  /** The layers agree: no check between snapshot and persistence ever fires on a sound snapshot. */
  lemma ServicesAreLawful(w: World)
    ensures Lawful(ServicesOf(w))
  {
    var v := ServicesOf(w);
    forall row, rules, content | Describes(v, row, content) && SnapshotRulesSound(v, row, rules)
      ensures v.compute(SourceOf(row), rules, content).Ok?
           && |v.compute(SourceOf(row), rules, content).value.results| == |rules|
    {
      SoundSnapshotsAreCoherent(w, row, rules, content);
      CoherentSnapshotComputes(w, SourceOf(row), rules, content);
    }
  }

  /** The results of `x`, by position. */
  function RecordedRows(s: State, x: nat, n: nat): (rows: seq<ResultRow>)
    requires forall p: nat :: p < n ==> (x, p) in s.results
    ensures |rows| == n && forall p :: 0 <= p < n ==> rows[p] == s.results[(x, p)]
  {
    seq(n, p requires 0 <= p < n => s.results[(x, p)])
  }

  lemma ServicesCompute(w: World, source: Source, rules: seq<RuleSnapshot>, content: Bytes)
    ensures ServicesOf(w).compute(source, rules, content) == Compute(w, source, rules, content)
  {
  }

  /** What is committed of a complete dataset is coherent. */
  lemma CommittedIsCoherent(w: World, s: State, d: nat, rules: seq<RuleSnapshot>)
    requires Inv(ServicesOf(w), s) && d in s.datasets && Complete(s.datasets[d]) && IsRuleListing(s.rules, d, rules)
    ensures var row := s.datasets[d];
      && Stored(row.storageKey.value) in s.files
      && Describes(ServicesOf(w), row, s.files[Stored(row.storageKey.value)])
      && Coherent(w, SourceOf(row), rules, s.files[Stored(row.storageKey.value)])
  {
    assert RowBacked(ServicesOf(w), s, d);
    ListingSound(ServicesOf(w), s, d, rules);
    SoundSnapshotsAreCoherent(w, s.datasets[d], rules, s.files[Stored(s.datasets[d].storageKey.value)]);
  }

  /** What an operation of a run has seen at one instant is coherent. */
  lemma SeenIsCoherent(w: World, events: seq<Event>, o: nat, d: nat, row: DatasetRow, rules: seq<RuleSnapshot>,
                       content: Bytes)
    requires SeenBy(ServicesOf(w), events, o, d, row, rules, content)
    ensures Complete(row) && Coherent(w, SourceOf(row), rules, content)
  {
    var v := ServicesOf(w);
    ServicesAreLawful(w);
    var j :| 0 <= j <= |events| && Observes(Run(v, events[..j]), o, d, row, rules, content);
    RunKeeps(v, events[..j]);
    CommittedIsCoherent(w, Run(v, events[..j]), d, rules);
  }

  /** The recorded results of `x` are, position by position, what the rules mean on the content. */
  ghost predicate ResultsDescribe(w: World, s: State, x: nat, rules: seq<RuleSnapshot>, content: Bytes) {
    && (forall p: nat :: (x, p) in s.results <==> p < |rules|)
    && (forall p: nat :: p < |rules| ==> DescribesRule(w, content, rules[p], s.results[(x, p)]))
  }

  /**
   Each result of `x` has the identity of a captured rule, in order, and reports on the column
   of the content that the rule names; the analysis sums the results up.
   */
  ghost predicate RecordIsTrue(w: World, s: State, x: nat, rules: seq<RuleSnapshot>, content: Bytes)
    requires x in s.analyses
  {
    && (forall p: nat :: (x, p) in s.results <==> p < |rules|)
    && (forall p: nat :: p < |rules| ==> s.results[(x, p)].definition == rules[p].definition)
    && AllReport(w, rules, content, RecordedRows(s, x, |rules|))
    && SumsUp(RecordedRows(s, x, |rules|), s.analyses[x].totalViolations, s.analyses[x].score)
  }

  lemma RecordReports(w: World, s: State, x: nat, d: nat, row: DatasetRow, rules: seq<RuleSnapshot>, content: Bytes)
    requires Records(ServicesOf(w), s, x, d, row, rules, content) && ResultsDescribe(w, s, x, rules, content)
    ensures RecordIsTrue(w, s, x, rules, content)
  {
    ServicesCompute(w, SourceOf(row), rules, content);
    var computed := Compute(w, SourceOf(row), rules, content).value;
    assert RecordedRows(s, x, |rules|) == computed.results;
    ComputationsReport(w, SourceOf(row), rules, content);
    ComputationSumsUp(w, SourceOf(row), rules, content);
  }

  lemma RecordDescribes(w: World, s: State, x: nat, d: nat, row: DatasetRow, rules: seq<RuleSnapshot>,
                        content: Bytes)
    requires Records(ServicesOf(w), s, x, d, row, rules, content)
    requires Complete(row) && Coherent(w, SourceOf(row), rules, content)
    ensures s.analyses[x].source == SourceOf(row) && ResultsDescribe(w, s, x, rules, content)
  {
    CoherentSnapshotComputes(w, SourceOf(row), rules, content);
    ServicesCompute(w, SourceOf(row), rules, content);
  }

  /**
   Every recorded analysis of every run: its results are what the rules committed at one
   instant mean on the file committed at that instant, cell by cell, and its totals and score
   are theirs.
   */
  lemma RecordedAnalysesAreTrue(w: World, events: seq<Event>, x: nat)
    requires x in Run(ServicesOf(w), events).analyses
    ensures var s := Run(ServicesOf(w), events);
      exists o, row, rules, content ::
        && SeenBy(ServicesOf(w), events, o, s.analyses[x].datasetId, row, rules, content)
        && IsSourceOf(w, s.analyses[x].source, row, content)
        && ResultsDescribe(w, s, x, rules, content) && RecordIsTrue(w, s, x, rules, content)
  {
    var v := ServicesOf(w);
    var s := Run(v, events);
    ServicesAreLawful(w);
    RecordsComeFromInstants(v, events, x);
    var d := s.analyses[x].datasetId;
    var o, row, rules, content :|
      SeenBy(v, events, o, d, row, rules, content) && Records(v, s, x, d, row, rules, content);
    SeenIsCoherent(w, events, o, d, row, rules, content);
    RecordDescribes(w, s, x, d, row, rules, content);
    RecordReports(w, s, x, d, row, rules, content);
    ServicesCompute(w, SourceOf(row), rules, content);
    SourceIs(w, row, rules, content);
  }

  /** Rows that say what rules mean are always read back. */
  lemma DescribedRowsReadBack(w: World, s: State, x: nat, rules: seq<RuleSnapshot>, content: Bytes,
                              listing: seq<(nat, ResultRow)>)
    requires x in s.analyses && ResultsDescribe(w, s, x, rules, content) && IsListing(s.results, x, listing)
    ensures listing == Enumerated(RecordedRows(s, x, |rules|))
    ensures DetailOf(x, s.analyses[x], listing).Some?
  {
    ListingIsEnumeration(s.results, x, RecordedRows(s, x, |rules|), listing);
    forall i | 0 <= i < |listing| ensures ReferenceOf(listing[i].0, listing[i].1).Some? {
      assert DescribesRule(w, content, rules[i], s.results[(x, i)]);
    }
  }

  lemma DescriptionStays(w: World, s: State, t: State, x: nat, rules: seq<RuleSnapshot>, content: Bytes)
    requires x in s.analyses && HistoryGrows(s, t) && ResultsDescribe(w, s, x, rules, content)
    ensures ResultsDescribe(w, t, x, rules, content)
    ensures RecordedRows(s, x, |rules|) == RecordedRows(t, x, |rules|)
  {
    forall p: nat | p < |rules| ensures t.results[(x, p)] == s.results[(x, p)] {
      assert (x, p) in s.results;
    }
  }

  lemma DescriptionOf(w: World, events: seq<Event>, x: nat) returns (rules: seq<RuleSnapshot>, content: Bytes)
    requires x in Run(ServicesOf(w), events).analyses
    ensures ResultsDescribe(w, Run(ServicesOf(w), events), x, rules, content)
  {
    RecordedAnalysesAreTrue(w, events, x);
    var s := Run(ServicesOf(w), events);
    var o, row, listing, bytes :|
      && SeenBy(ServicesOf(w), events, o, s.analyses[x].datasetId, row, listing, bytes)
      && ResultsDescribe(w, s, x, listing, bytes);
    rules, content := listing, bytes;
  }

  /** `get_analysis` returns `detail`: the result query has an answer, and whatever it is reads as `detail`. */
  ghost predicate ReadsAs(s: State, x: nat, detail: Detail) {
    && x in s.analyses
    && (exists answer :: IsListing(s.results, x, answer))
    && forall answer :: IsListing(s.results, x, answer) ==> DetailOf(x, s.analyses[x], answer) == Some(detail)
  }

  /** Results at positions 0 to n-1 are read as they are. */
  lemma RowsReadAs(s: State, x: nat, rows: seq<ResultRow>, detail: Detail)
    requires x in s.analyses && DetailOf(x, s.analyses[x], Enumerated(rows)) == Some(detail)
    requires forall p: nat :: (x, p) in s.results <==> p < |rows|
    requires forall p: nat :: p < |rows| ==> s.results[(x, p)] == rows[p]
    ensures ReadsAs(s, x, detail)
  {
    EnumerationIsListing(s.results, x, rows);
    forall answer | IsListing(s.results, x, answer) ensures answer == Enumerated(rows) {
      ListingIsEnumeration(s.results, x, rows, answer);
    }
  }

  lemma DescribedRowsReadAs(w: World, s: State, x: nat, rules: seq<RuleSnapshot>, content: Bytes)
    returns (detail: Detail)
    requires x in s.analyses && ResultsDescribe(w, s, x, rules, content)
    ensures DetailOf(x, s.analyses[x], Enumerated(RecordedRows(s, x, |rules|))) == Some(detail)
    ensures ReadsAs(s, x, detail)
    ensures |detail.ruleResults| == |rules|
    ensures forall i :: 0 <= i < |rules| ==> detail.ruleResults[i].position == i
  {
    var rows := RecordedRows(s, x, |rules|);
    EnumerationIsListing(s.results, x, rows);
    DescribedRowsReadBack(w, s, x, rules, content, Enumerated(rows));
    detail := DetailOf(x, s.analyses[x], Enumerated(rows)).value;
    RowsReadAs(s, x, rows, detail);
    forall i | 0 <= i < |rules| ensures detail.ruleResults[i].position == i {
      assert ReferenceOf(Enumerated(rows)[i].0, Enumerated(rows)[i].1) == Some(detail.ruleResults[i]);
    }
  }

  lemma ReadsAlike(w: World, s: State, t: State, x: nat, rules: seq<RuleSnapshot>, content: Bytes)
    returns (detail: Detail)
    requires x in s.analyses && HistoryGrows(s, t) && ResultsDescribe(w, s, x, rules, content)
    ensures ReadsAs(s, x, detail) && ReadsAs(t, x, detail)
    ensures forall i :: 0 <= i < |detail.ruleResults| ==> detail.ruleResults[i].position == i
  {
    detail := DescribedRowsReadAs(w, s, x, rules, content);
    DescriptionStays(w, s, t, x, rules, content);
    var later := DescribedRowsReadAs(w, t, x, rules, content);
  }

  /**
   Reading a recorded analysis succeeds in every later state and always gives the same detail:
   one result per captured rule, at positions 0 to n-1.
   */
  lemma AnalysesReadBackForever(w: World, events: seq<Event>, more: seq<Event>, x: nat) returns (detail: Detail)
    requires x in Run(ServicesOf(w), events).analyses
    ensures ReadsAs(Run(ServicesOf(w), events), x, detail)
    ensures ReadsAs(Run(ServicesOf(w), events + more), x, detail)
    ensures forall i :: 0 <= i < |detail.ruleResults| ==> detail.ruleResults[i].position == i
  {
    var v := ServicesOf(w);
    ServicesAreLawful(w);
    HistoryIsPermanent(v, events, more);
    var rules, content := DescriptionOf(w, events, x);
    detail := ReadsAlike(w, Run(v, events), Run(v, events + more), x, rules, content);
  }

  /** A finished analysis, as one record of its program point and locals. */
  ghost predicate HasRecorded(s: State, o: nat) {
    o in s.operations && s.operations[o].Analyzing? && s.operations[o].analysis.at.Recorded?
  }

  lemma RecordedReadsAsCreated(w: World, s: State, t: State, a: Analysis)
    requires Records(ServicesOf(w), s, a.analysisId, a.datasetId, a.row, a.rules, a.content)
    requires Compute(w, SourceOf(a.row), a.rules, a.content) == Ok(a.computation)
    requires HistoryGrows(s, t)
    ensures var created := Analyses.Created(a.analysisId, s.analyses[a.analysisId], a.computation);
      created.Some? && ReadsAs(t, a.analysisId, created.value)
  {
    var x, rows := a.analysisId, a.computation.results;
    assert forall p: nat :: (x, p) in t.results <==> p < |rows|;
    assert forall p: nat :: p < |rows| ==> (x, p) in s.results && t.results[(x, p)] == rows[p];
    Analyses.ComputedRowsReadBack(w, SourceOf(a.row), a.rules, a.content, x, s.analyses[x]);
    RowsReadAs(t, x, rows, Analyses.Created(x, s.analyses[x], a.computation).value);
  }

  /**
   What `create_analysis` returned is what `get_analysis` returns in that state and in every
   later state of the run.
   */
  lemma GetReturnsWhatCreateReturned(w: World, events: seq<Event>, more: seq<Event>, o: nat)
    requires HasRecorded(Run(ServicesOf(w), events), o)
    ensures var s := Run(ServicesOf(w), events);
      var a := s.operations[o].analysis;
      && a.analysisId in s.analyses
      && var created := Analyses.Created(a.analysisId, s.analyses[a.analysisId], a.computation);
         created.Some? && ReadsAs(Run(ServicesOf(w), events + more), a.analysisId, created.value)
  {
    var v := ServicesOf(w);
    var s, a := Run(v, events), Run(v, events).operations[o].analysis;
    ServicesAreLawful(w);
    RunTraced(v, events);
    assert Traced(v, events, s, o, a);
    HistoryIsPermanent(v, events, more);
    ServicesCompute(w, SourceOf(a.row), a.rules, a.content);
    RecordedReadsAsCreated(w, s, Run(v, events + more), a);
  }

  // ---------------------------------------------------------------- what the database refuses

  /** The samples of a rule on the content. */
  function SamplesOfRule(w: World, content: Bytes, rule: RuleSnapshot): seq<Sample>
    requires ReadTable(w, content).Some? && AdaptRule(w, rule).Some?
    requires rule.definition.targetColumn in ReadTable(w, content).value.columns
  {
    Meaning(w, AdaptRule(w, rule).value.spec,
            ColumnOf(ReadTable(w, content).value, rule.definition.targetColumn)).samples
  }

  predicate WithoutNul(samples: seq<Sample>) {
    forall k :: 0 <= k < |samples| && samples[k].preview.Some? ==> '\0' !in samples[k].preview.value
  }

  lemma StoredSamplesIff(stored: seq<Json>, samples: seq<Sample>)
    requires StoredAs(stored, samples)
    ensures (forall k :: 0 <= k < |stored| ==> StorableSample(stored[k])) <==> WithoutNul(samples)
  {
    forall k | 0 <= k < |samples|
      ensures StorableSample(stored[k]) <==> (samples[k].preview.Some? ==> '\0' !in samples[k].preview.value)
    {
      SampleIsStorableIff(samples[k]);
    }
  }

  /** The rows of a coherent snapshot are accepted exactly if no sampled preview contains U+0000. */
  lemma StorableIff(w: World, source: Source, rules: seq<RuleSnapshot>, content: Bytes)
    requires Coherent(w, source, rules, content)
    ensures Compute(w, source, rules, content).Ok?
    ensures forall i :: 0 <= i < |rules| ==>
      && ReadTable(w, content).Some? && AdaptRule(w, rules[i]).Some?
      && rules[i].definition.targetColumn in ReadTable(w, content).value.columns
    ensures Storable(Compute(w, source, rules, content).value.results)
       <==> forall i :: 0 <= i < |rules| ==> WithoutNul(SamplesOfRule(w, content, rules[i]))
  {
    CoherentSnapshotComputes(w, source, rules, content);
    var rows := Compute(w, source, rules, content).value.results;
    forall i | 0 <= i < |rules|
      ensures && ReadTable(w, content).Some? && AdaptRule(w, rules[i]).Some?
              && rules[i].definition.targetColumn in ReadTable(w, content).value.columns
      ensures (forall k :: 0 <= k < |rows[i].samples| ==> StorableSample(rows[i].samples[k]))
         <==> WithoutNul(SamplesOfRule(w, content, rules[i]))
    {
      assert DescribesRule(w, content, rules[i], rows[i]);
      StoredSamplesIff(rows[i].samples, SamplesOfRule(w, content, rules[i]));
    }
  }

  /**
   An undisturbed analysis of a complete dataset with rules ends, and it is recorded if and
   only if no preview it samples contains U+0000.
   */
  lemma AnalysisIsRecordedIff(w: World, s: State, o: nat, a: Analysis, c: Choice) returns (t: State, content: Bytes)
    requires Inv(ServicesOf(w), s) && AnalysisIs(s, o, a) && a.at.AnalysisRequested?
    requires a.datasetId in s.datasets && s.datasets[a.datasetId].ownerId == a.ownerId && a.datasetId !in s.locks
    requires Complete(s.datasets[a.datasetId])
    requires IsRuleListing(s.rules, a.datasetId, c.listing) && c.listing != []
    requires c.uuid !in s.issued && c.uuid !in s.analyses
    ensures Leads(ServicesOf(w), s, o, t) && o in t.operations && Ended(t.operations[o])
    ensures var name := Stored(s.datasets[a.datasetId].storageKey.value); name in s.files && content == s.files[name]
    ensures forall i :: 0 <= i < |c.listing| ==>
      && ReadTable(w, content).Some? && AdaptRule(w, c.listing[i]).Some?
      && c.listing[i].definition.targetColumn in ReadTable(w, content).value.columns
    ensures HasRecorded(t, o)
       <==> forall i :: 0 <= i < |c.listing| ==> WithoutNul(SamplesOfRule(w, content, c.listing[i]))
  {
    var v, row := ServicesOf(w), s.datasets[a.datasetId];
    ServicesAreLawful(w);
    CommittedIsCoherent(w, s, a.datasetId, c.listing);
    content := s.files[Stored(row.storageKey.value)];
    t := AnalysisCanSucceed(v, s, o, a, c);
    StorableIff(w, SourceOf(row), c.listing, content);
    ServicesCompute(w, SourceOf(row), c.listing, content);
  }
}
