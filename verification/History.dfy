/**
 The persisted form of an analysis: how a captured snapshot becomes rows, and how the rows
 become the reference a caller sees.
 */
module History {
  import opened Wrappers
  import opened External
  import opened Csv
  import opened Rules
  import opened Configuration
  import opened Engine
  import opened Score

  datatype Source = Source(
    filename: string,
    digest: Bytes,
    size: nat,
    rowCount: nat,
    columns: seq<string>,
    uploadedAt: int)

  datatype IntegrityError =
    | Unavailable
    | TooLarge
    | SizeMismatch
    | HashMismatch
    | UnparseableCsv
    | ColumnsMismatch
    | RowCountMismatch
    | InvalidStoredRule
    | EngineRejectedState
    | ResultCountMismatch
    | EngineRowCountMismatch
    | ResultOrderMismatch
    | CountMismatch
    | InvalidSample

  datatype AnalysisRow = AnalysisRow(
    datasetId: nat,
    source: Source,
    totalViolations: nat,
    score: Option<nat>,
    createdAt: int)

  datatype ResultRow = ResultRow(
    sourceRuleId: nat,
    definition: Definition,
    evaluated: nat,
    passed: nat,
    violations: nat,
    skipped: nat,
    samples: seq<Json>)

  type ResultTable = map<(nat, nat), ResultRow>

  datatype ResultReference = ResultReference(
    position: nat,
    sourceRuleId: nat,
    definition: Definition,
    evaluated: nat,
    passed: nat,
    violations: nat,
    skipped: nat,
    samples: seq<Sample>)

  datatype Detail = Detail(
    analysisId: nat,
    datasetId: nat,
    score: Option<nat>,
    sourceRowCount: nat,
    totalViolations: nat,
    createdAt: int,
    source: Source,
    ruleResults: seq<ResultReference>)

  /** What an analysis computes from its snapshot before it writes anything. */
  datatype Computation = Computation(score: Option<nat>, totalViolations: nat, results: seq<ResultRow>)

  // ---------------------------------------------------------------- from snapshot to rows

  function LoadTable(w: World, content: Bytes, columns: seq<string>, rowCount: nat): (r: Result<Frame, IntegrityError>)
    ensures r.Ok? ==> Tabular(r.value) && r.value.columns == columns && |r.value.rows| == rowCount
  {
    match ReadTable(w, content)
    case None => Err(UnparseableCsv)
    case Some(frame) =>
      if frame.columns != columns then Err(ColumnsMismatch)
      else if |frame.rows| != rowCount then Err(RowCountMismatch)
      else Ok(frame)
  }

  function SampleJson(sample: Sample): Json {
    Object(map["row_number" := Int(sample.rowNumber),
               "value_preview" := (if sample.preview.None? then Null else Text(sample.preview.value)),
               "truncated" := Bool(sample.truncated)])
  }

  function RowOf(adapted: AdaptedRule, result: RuleResult): ResultRow {
    ResultRow(adapted.ruleId, adapted.definition, result.evaluated, result.passed, result.violations,
              result.skipped,
              seq(|result.samples|, k requires 0 <= k < |result.samples| => SampleJson(result.samples[k])))
  }

  predicate StorableSample(stored: Json) {
    stored.Object? ==> StorableFields(stored.fields)
  }

  /** The database accepts the samples of all rows. */
  predicate Storable(rows: seq<ResultRow>) {
    forall i, k :: 0 <= i < |rows| && 0 <= k < |rows[i].samples| ==> StorableSample(rows[i].samples[k])
  }

  predicate ConsistentResult(rowCount: nat, adapted: AdaptedRule, result: RuleResult) {
    result.rule == adapted.spec && result.evaluated + result.skipped == rowCount
  }

  /** One row per rule in order, unless the engine's output contradicts the snapshot. */
  function ResultRows(rowCount: nat, adapted: seq<AdaptedRule>, results: seq<RuleResult>): Option<seq<ResultRow>>
    requires |adapted| == |results|
  {
    if forall i :: 0 <= i < |results| ==> ConsistentResult(rowCount, adapted[i], results[i]) then
      Some(seq(|results|, i requires 0 <= i < |results| => RowOf(adapted[i], results[i])))
    else None
  }

  /** The loop that builds the result rows, with its two integrity checks. */
  method ResultModels(rowCount: nat, adapted: seq<AdaptedRule>, results: seq<RuleResult>)
    returns (r: Result<seq<ResultRow>, IntegrityError>)
    requires |adapted| == |results|
    ensures r.Ok? <==> ResultRows(rowCount, adapted, results).Some?
    ensures r.Ok? ==> Some(r.value) == ResultRows(rowCount, adapted, results)
  {
    var rows: seq<ResultRow> := [];
    for i := 0 to |results|
      invariant |rows| == i
      invariant forall j :: 0 <= j < i ==>
        ConsistentResult(rowCount, adapted[j], results[j]) && rows[j] == RowOf(adapted[j], results[j])
    {
      if results[i].rule != adapted[i].spec {
        return Err(ResultOrderMismatch);
      }
      if results[i].evaluated + results[i].skipped != rowCount {
        return Err(CountMismatch);
      }
      rows := rows + [RowOf(adapted[i], results[i])];
    }
    assert ResultRows(rowCount, adapted, results).Some?;
    assert rows == ResultRows(rowCount, adapted, results).value;
    return Ok(rows);
  }

  function SpecsOf(adapted: seq<AdaptedRule>): (specs: seq<RuleSpec>)
    ensures |specs| == |adapted|
    ensures forall i :: 0 <= i < |specs| ==> specs[i] == adapted[i].spec
  {
    seq(|adapted|, i requires 0 <= i < |adapted| => adapted[i].spec)
  }

  /** Everything between capturing the snapshot and writing the rows, checks included. */
  function Compute(w: World, source: Source, rules: seq<RuleSnapshot>, content: Bytes)
    : Result<Computation, IntegrityError>
  {
    match LoadTable(w, content, source.columns, source.rowCount)
    case Err(error) => Err(error)
    case Ok(frame) =>
      match AdaptRules(w, rules)
      case None => Err(InvalidStoredRule)
      case Some(adapted) =>
        var specs := SpecsOf(adapted);
        if !ValidInputs(w, frame, specs) then Err(EngineRejectedState)
        else
          assert forall i :: 0 <= i < |specs| ==> ValidRule(w, frame, specs[i]);
          var results := Results(w, frame, specs);
          if |frame.rows| != source.rowCount then Err(EngineRowCountMismatch)
          else
            match ResultRows(source.rowCount, adapted, results)
            case None => Err(ResultOrderMismatch)
            case Some(rows) => Ok(Computation(CalculateQualityScore(results), TotalViolations(results), rows))
  }

  // ---------------------------------------------------------------- from rows to a reference

  /** Reads one stored sample back; anything but a positive row number, text or null, and a boolean is refused. */
  function SampleReference(stored: Json): Option<Sample> {
    if !stored.Object? then None
    else
      var f := stored.fields;
      if "row_number" !in f || !f["row_number"].Int? || f["row_number"].integer < 1 then None
      else if "truncated" !in f || !f["truncated"].Bool? then None
      else if "value_preview" in f && !f["value_preview"].Null? && !f["value_preview"].Text? then None
      else
        Some(Sample(f["row_number"].integer,
                    (if "value_preview" in f && f["value_preview"].Text? then Some(f["value_preview"].text) else None),
                    f["truncated"].truth))
  }

  function SampleReferences(stored: seq<Json>): (r: Option<seq<Sample>>)
    ensures r.Some? ==> |r.value| == |stored|
    ensures (forall k :: 0 <= k < |stored| ==> SampleReference(stored[k]).Some?) ==> r.Some?
    ensures r.Some? ==> forall k :: 0 <= k < |stored| ==> SampleReference(stored[k]) == Some(r.value[k])
  {
    if stored == [] then Some([])
    else
      match (SampleReferences(stored[..|stored| - 1]), SampleReference(stored[|stored| - 1]))
      case (Some(samples), Some(last)) => Some(samples + [last])
      case (_, _) =>
        assert forall k :: 0 <= k < |stored| - 1 ==> stored[..|stored| - 1][k] == stored[k];
        None
  }

  function ReferenceOf(position: nat, row: ResultRow): Option<ResultReference> {
    match SampleReferences(row.samples)
    case None => None
    case Some(samples) =>
      Some(ResultReference(position, row.sourceRuleId, row.definition, row.evaluated, row.passed,
                           row.violations, row.skipped, samples))
  }

  function ReferencesOf(listing: seq<(nat, ResultRow)>): (r: Option<seq<ResultReference>>)
    ensures r.Some? ==> |r.value| == |listing|
    ensures r.Some? ==> forall i :: 0 <= i < |listing| ==> ReferenceOf(listing[i].0, listing[i].1) == Some(r.value[i])
    ensures (forall i :: 0 <= i < |listing| ==> ReferenceOf(listing[i].0, listing[i].1).Some?) ==> r.Some?
  {
    if listing == [] then Some([])
    else
      var n := |listing| - 1;
      match (ReferencesOf(listing[..n]), ReferenceOf(listing[n].0, listing[n].1))
      case (Some(references), Some(last)) => Some(references + [last])
      case (_, _) =>
        assert forall i :: 0 <= i < n ==> listing[..n][i] == listing[i];
        None
  }

  function DetailOf(analysisId: nat, row: AnalysisRow, listing: seq<(nat, ResultRow)>): Option<Detail> {
    match ReferencesOf(listing)
    case None => None
    case Some(references) =>
      Some(Detail(analysisId, row.datasetId, row.score, row.source.rowCount, row.totalViolations,
                  row.createdAt, row.source, references))
  }

  /** The sample a caller sees has the number, the text and the mark that are stored. */
  predicate SampleShows(sample: Sample, stored: Json) {
    && stored.Object? && {"row_number", "truncated"} <= stored.fields.Keys
    && stored.fields["row_number"] == Int(sample.rowNumber)
    && stored.fields["truncated"] == Bool(sample.truncated)
    && match sample.preview
       case Some(text) => "value_preview" in stored.fields && stored.fields["value_preview"] == Text(text)
       case None => "value_preview" !in stored.fields || stored.fields["value_preview"] == Null
  }

  /** The result a caller sees has every field of the stored row. */
  predicate Shows(reference: ResultReference, position: nat, row: ResultRow) {
    && reference.position == position
    && reference.sourceRuleId == row.sourceRuleId
    && reference.definition == row.definition
    && reference.evaluated == row.evaluated && reference.passed == row.passed
    && reference.violations == row.violations && reference.skipped == row.skipped
    && |reference.samples| == |row.samples|
    && forall k :: 0 <= k < |row.samples| ==> SampleShows(reference.samples[k], row.samples[k])
  }

  /** A detail shows the analysis and its results field by field. */
  lemma DetailShows(analysisId: nat, row: AnalysisRow, listing: seq<(nat, ResultRow)>)
    requires DetailOf(analysisId, row, listing).Some?
    ensures var detail := DetailOf(analysisId, row, listing).value;
      && detail.analysisId == analysisId && detail.datasetId == row.datasetId
      && detail.score == row.score && detail.totalViolations == row.totalViolations
      && detail.createdAt == row.createdAt && detail.source == row.source
      && detail.sourceRowCount == row.source.rowCount
      && |detail.ruleResults| == |listing|
      && forall i :: 0 <= i < |listing| ==> Shows(detail.ruleResults[i], listing[i].0, listing[i].1)
  {
    var detail := DetailOf(analysisId, row, listing).value;
    forall i | 0 <= i < |listing| ensures Shows(detail.ruleResults[i], listing[i].0, listing[i].1) {
      assert ReferenceOf(listing[i].0, listing[i].1) == Some(detail.ruleResults[i]);
      var stored := listing[i].1.samples;
      forall k | 0 <= k < |stored| ensures SampleShows(detail.ruleResults[i].samples[k], stored[k]) {
        assert SampleReference(stored[k]) == Some(detail.ruleResults[i].samples[k]);
      }
    }
  }

  /** The answer of the ordered query for one analysis: all its rows, by increasing position. */
  ghost predicate IsListing(table: ResultTable, analysisId: nat, listing: seq<(nat, ResultRow)>) {
    && (forall i, j :: 0 <= i < j < |listing| ==> listing[i].0 < listing[j].0)
    && (forall i :: 0 <= i < |listing| ==>
          (analysisId, listing[i].0) in table && table[(analysisId, listing[i].0)] == listing[i].1)
    && (forall p: nat :: (analysisId, p) in table ==> exists i :: 0 <= i < |listing| && listing[i].0 == p)
  }

  function Enumerated(rows: seq<ResultRow>): (r: seq<(nat, ResultRow)>)
    ensures |r| == |rows|
  {
    seq(|rows|, i requires 0 <= i < |rows| => (i, rows[i]))
  }

  /** The table after one transaction has inserted `rows` for a new analysis. */
  function InsertResults(table: ResultTable, analysisId: nat, rows: seq<ResultRow>): (r: ResultTable)
    ensures forall a: nat, p: nat :: (a, p) in r <==> (a, p) in table || (a == analysisId && p < |rows|)
    ensures forall p: nat :: p < |rows| ==> r[(analysisId, p)] == rows[p]
    ensures forall a: nat, p: nat :: (a, p) in table && !(a == analysisId && p < |rows|) ==> r[(a, p)] == table[(a, p)]
    decreases |rows|
  {
    if rows == [] then table
    else InsertResults(table, analysisId, rows[..|rows| - 1])[(analysisId, |rows| - 1) := rows[|rows| - 1]]
  }

  // ---------------------------------------------------------------- what both directions promise

  /** A snapshot whose parts agree: the content scans to the metadata and every rule was admitted for its header. */
  ghost predicate Coherent(w: World, source: Source, rules: seq<RuleSnapshot>, content: Bytes) {
    && StructureOf(w, content) == Some(Structure(source.rowCount, source.columns))
    && |content| == source.size
    && w.digest(content) == source.digest
    && (forall i :: 0 <= i < |rules| ==>
          Admitted(w, rules[i].definition) && rules[i].definition.targetColumn in source.columns)
    && forall i, j :: 0 <= i < j < |rules| ==> rules[i].ruleId != rules[j].ruleId
  }

  predicate StoredAs(stored: seq<Json>, samples: seq<Sample>) {
    |stored| == |samples| && forall k :: 0 <= k < |samples| ==> stored[k] == SampleJson(samples[k])
  }

  /** The row a rule must produce on the content, stated through the meaning of the rule. */
  ghost predicate DescribesRule(w: World, content: Bytes, rule: RuleSnapshot, row: ResultRow) {
    && row.sourceRuleId == rule.ruleId
    && row.definition == rule.definition
    && ReadTable(w, content).Some?
    && AdaptRule(w, rule).Some?
    && rule.definition.targetColumn in ReadTable(w, content).value.columns
    && var meaning := Meaning(w, AdaptRule(w, rule).value.spec,
                              ColumnOf(ReadTable(w, content).value, rule.definition.targetColumn));
       && row.evaluated == meaning.evaluated && row.passed == meaning.passed
       && row.violations == meaning.violations && row.skipped == meaning.skipped
       && SampleReferences(row.samples) == Some(meaning.samples)
       && StoredAs(row.samples, meaning.samples)
  }

  /** A sample is refused exactly for a preview that contains U+0000. */
  lemma SampleIsStorableIff(sample: Sample)
    ensures StorableSample(SampleJson(sample)) <==> (sample.preview.Some? ==> '\0' !in sample.preview.value)
  {
    var stored := SampleJson(sample);
    assert stored.fields["value_preview"] == if sample.preview.None? then Null else Text(sample.preview.value);
  }

  lemma SampleRoundTrip(sample: Sample)
    requires sample.rowNumber >= 1
    ensures SampleReference(SampleJson(sample)) == Some(sample)
  {
  }

  /** The stored samples of an engine result are read back unchanged and never refused. */
  lemma SamplesRoundTrip(w: World, rule: RuleSpec, values: seq<Cell>, adapted: AdaptedRule)
    ensures SampleReferences(RowOf(adapted, Meaning(w, rule, values)).samples) == Some(Meaning(w, rule, values).samples)
  {
    var samples := Meaning(w, rule, values).samples;
    var stored := RowOf(adapted, Meaning(w, rule, values)).samples;
    forall k | 0 <= k < |samples| ensures SampleReference(stored[k]) == Some(samples[k]) {
      SampleRoundTrip(samples[k]);
    }
    assert SampleReferences(stored).Some?;
    assert SampleReferences(stored).value == samples;
  }

  /** The row built from the meaning of an adapted rule is the row the rule must produce. */
  lemma MeaningIsDescribed(w: World, content: Bytes, rule: RuleSnapshot, adapted: AdaptedRule)
    requires AdaptRule(w, rule) == Some(adapted) && Admitted(w, rule.definition)
    requires ReadTable(w, content).Some? && rule.definition.targetColumn in ReadTable(w, content).value.columns
    ensures var column := ColumnOf(ReadTable(w, content).value, rule.definition.targetColumn);
      DescribesRule(w, content, rule, RowOf(adapted, Meaning(w, adapted.spec, column)))
  {
    AdmittedRuleAdapts(w, rule);
    SamplesRoundTrip(w, adapted.spec, ColumnOf(ReadTable(w, content).value, rule.definition.targetColumn), adapted);
  }

  /** No integrity check fires on a coherent snapshot, and every rule gets the row it means. */
  lemma CoherentSnapshotComputes(w: World, source: Source, rules: seq<RuleSnapshot>, content: Bytes)
    requires Coherent(w, source, rules, content)
    ensures Compute(w, source, rules, content).Ok?
    ensures |Compute(w, source, rules, content).value.results| == |rules|
    ensures forall i :: 0 <= i < |rules| ==>
      DescribesRule(w, content, rules[i], Compute(w, source, rules, content).value.results[i])
  {
    ScannedContentReadsBack(w, content);
    var frame := ReadTable(w, content).value;
    AdmittedRulesAdapt(w, rules);
    var adapted := AdaptRules(w, rules).value;
    var specs := SpecsOf(adapted);
    forall i | 0 <= i < |rules| ensures specs[i] == AdaptRule(w, rules[i]).value.spec
      && specs[i].targetColumn == rules[i].definition.targetColumn {
      AdmittedRuleAdapts(w, rules[i]);
    }
    AdmittedRulesAreValidInputs(w, frame, rules, specs);
    var results := Results(w, frame, specs);
    forall i | 0 <= i < |rules| ensures ConsistentResult(source.rowCount, adapted[i], results[i]) {
      CountsCoverRows(w, specs[i], ColumnOf(frame, specs[i].targetColumn));
    }
    forall i | 0 <= i < |rules|
      ensures DescribesRule(w, content, rules[i], RowOf(adapted[i], results[i]))
    {
      MeaningIsDescribed(w, content, rules[i], adapted[i]);
    }
  }

  lemma {:induction false} PositionsAreDense(after: ResultTable, analysisId: nat, rows: seq<ResultRow>,
                                            listing: seq<(nat, ResultRow)>, i: nat)
    requires i < |listing| && IsListing(after, analysisId, listing)
    requires forall p: nat :: (analysisId, p) in after <==> p < |rows|
    ensures listing[i].0 == i
  {
    if i > 0 {
      PositionsAreDense(after, analysisId, rows, listing, i - 1);
    }
    assert (analysisId, listing[i].0) in after;
    assert (analysisId, i) in after;
    var j :| 0 <= j < |listing| && listing[j].0 == i;
  }

  /** The ordered query on an analysis with n results has one possible answer: the rows at positions 0 to n-1. */
  lemma ListingIsEnumeration(table: ResultTable, analysisId: nat, rows: seq<ResultRow>, listing: seq<(nat, ResultRow)>)
    requires forall p: nat :: (analysisId, p) in table <==> p < |rows|
    requires forall p: nat :: p < |rows| ==> table[(analysisId, p)] == rows[p]
    requires IsListing(table, analysisId, listing)
    ensures listing == Enumerated(rows)
  {
    forall i | 0 <= i < |listing| ensures listing[i].0 == i {
      PositionsAreDense(table, analysisId, rows, listing, i);
    }
    assert |listing| > 0 ==> (analysisId, listing[|listing| - 1].0) in table;
    assert |rows| > 0 ==> (analysisId, |rows| - 1) in table;
  }

  /** And it has that answer. */
  lemma EnumerationIsListing(table: ResultTable, analysisId: nat, rows: seq<ResultRow>)
    requires forall p: nat :: (analysisId, p) in table <==> p < |rows|
    requires forall p: nat :: p < |rows| ==> table[(analysisId, p)] == rows[p]
    ensures IsListing(table, analysisId, Enumerated(rows))
  {
    forall p: nat | (analysisId, p) in table
      ensures exists i :: 0 <= i < |Enumerated(rows)| && Enumerated(rows)[i].0 == p
    {
      assert Enumerated(rows)[p].0 == p;
    }
  }

  // ---------------------------------------------------------------- check constraints

  /** Equal to its `btrim`, which removes blanks from both ends. */
  predicate Unpadded(s: string) {
    s != "" ==> s[0] != ' ' && s[|s| - 1] != ' '
  }

  /** The check constraints of the results table that computed values could violate. */
  predicate ResultChecks(w: World, row: ResultRow) {
    && (w.isSpace(' ') ==> Unpadded(row.definition.targetColumn))
    && row.definition.ruleType in {"required", "unique", "type", "range", "regex"}
    && 1 <= |row.definition.targetColumn| <= MAX_COLUMN_NAME_LENGTH
    && row.evaluated == row.passed + row.violations
    && |row.samples| <= VIOLATION_SAMPLE_LIMIT
  }

  lemma StrippedIsUnpadded(w: World, s: string)
    requires s == Strip(w, s) && w.isSpace(' ')
    ensures Unpadded(s)
  {
  }

  lemma DescribedRowSatisfiesChecks(w: World, content: Bytes, rule: RuleSnapshot, row: ResultRow)
    requires DescribesRule(w, content, rule, row) && Admitted(w, rule.definition)
    ensures ResultChecks(w, row) && row.evaluated + row.skipped == |ReadTable(w, content).value.rows|
  {
    var spec := AdaptRule(w, rule).value.spec;
    var values := ColumnOf(ReadTable(w, content).value, rule.definition.targetColumn);
    CountsCoverRows(w, spec, values);
    SamplesAreFirstViolations(w, spec, values);
    var request :| Admit(w, request) == Some(rule.definition);
    if w.isSpace(' ') {
      StrippedIsUnpadded(w, rule.definition.targetColumn);
    }
  }

  /** No check or unique constraint refuses the rows of a coherent snapshot. */
  lemma ComputedRowsSatisfyChecks(w: World, source: Source, rules: seq<RuleSnapshot>, content: Bytes)
    requires Coherent(w, source, rules, content)
    ensures Compute(w, source, rules, content).Ok?
    ensures var rows := Compute(w, source, rules, content).value.results;
      && (forall i :: 0 <= i < |rows| ==> ResultChecks(w, rows[i]))
      && (forall i :: 0 <= i < |rows| ==> rows[i].evaluated + rows[i].skipped == source.rowCount)
      && (forall i, j :: 0 <= i < j < |rows| ==> rows[i].sourceRuleId != rows[j].sourceRuleId)
  {
    CoherentSnapshotComputes(w, source, rules, content);
    ScannedContentReadsBack(w, content);
    var rows := Compute(w, source, rules, content).value.results;
    forall i | 0 <= i < |rows|
      ensures ResultChecks(w, rows[i]) && rows[i].evaluated + rows[i].skipped == source.rowCount
      ensures rows[i].sourceRuleId == rules[i].ruleId
    {
      DescribedRowSatisfiesChecks(w, content, rules[i], rows[i]);
    }
  }
}
