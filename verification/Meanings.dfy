/**
 What a stored rule says about the cells of a CSV file, read off its type name and its JSON
 configuration, and what the recorded counts and samples therefore are.
 */
module Meanings {
  import opened Wrappers
  import opened External
  import opened Csv
  import opened Rules
  import opened Configuration
  import opened Engine
  import opened Score
  import opened History
  import opened Protocol

  // ---------------------------------------------------------------- the reference

  /** The recorded source is the row's metadata, and the row's metadata is the content's. */
  predicate IsSourceOf(w: World, source: Source, row: DatasetRow, content: Bytes) {
    && row.filename == Some(source.filename) && row.uploadedAt == Some(source.uploadedAt)
    && row.digest == Some(source.digest) && source.digest == w.digest(content)
    && row.size == Some(source.size) && source.size == |content|
    && row.rowCount == Some(source.rowCount) && source.rowCount + 1 == |w.records(content)|
    && row.columns == Some(source.columns) && |w.records(content)| > 0 && w.records(content)[0] == Row(source.columns)
  }

  /** The grammar called `name` accepts the text. */
  predicate HasType(w: World, name: string, text: string) {
    || name == "string"
    || (name == "integer" && w.isInteger(text))
    || (name == "number" && w.number(text).Some? && w.number(text).value.Finite?)
    || (name == "boolean" && w.isBoolean(text))
    || (name == "date" && w.isDate(text))
    || (name == "datetime" && w.isDatetime(text))
  }

  /** The configuration sets no boundary, or one on the right side of `x`. */
  ghost predicate AtLeastMinimum(w: World, fields: Fields, x: real) {
    forall low :: "minimum" in fields && Denotes(w, fields["minimum"], low) ==> low <= x
  }

  ghost predicate AtMostMaximum(w: World, fields: Fields, x: real) {
    forall high :: "maximum" in fields && Denotes(w, fields["maximum"], high) ==> x <= high
  }

  /** The text is a finite number between the boundaries. */
  ghost predicate InRange(w: World, fields: Fields, text: string) {
    && w.number(text).Some? && w.number(text).value.Finite?
    && AtLeastMinimum(w, fields, w.number(text).value.value)
    && AtMostMaximum(w, fields, w.number(text).value.value)
  }

  /** The configuration names a type whose grammar accepts the text. */
  ghost predicate Typed(w: World, fields: Fields, text: string) {
    exists name :: "expected_type" in fields && fields["expected_type"] == Text(name) && HasType(w, name, text)
  }

  /** The configuration has a pattern that occurs in the text. */
  ghost predicate Matched(w: World, fields: Fields, text: string) {
    exists pattern :: "pattern" in fields && fields["pattern"] == Text(pattern) && w.contains(pattern, text)
  }

  /** The cell in row `i` breaks the rule. */
  ghost predicate Breaks(w: World, rule: Definition, cells: seq<string>, i: nat)
    requires i < |cells|
  {
    if rule.ruleType == "required" then Blank(w, cells[i])
    else
      && !Blank(w, cells[i])
      && (|| (rule.ruleType == "unique" && exists j :: 0 <= j < i && cells[j] == cells[i])
          || (rule.ruleType == "type" && !Typed(w, rule.configuration, cells[i]))
          || (rule.ruleType == "range" && !InRange(w, rule.configuration, cells[i]))
          || (rule.ruleType == "regex" && !Matched(w, rule.configuration, cells[i])))
  }

  /** A rule other than a required rule has nothing to say about blank cells. */
  predicate Ignores(w: World, rule: Definition, cells: seq<string>, i: nat)
    requires i < |cells|
  {
    rule.ruleType != "required" && Blank(w, cells[i])
  }

  /** `cells` are the fields below the header field `column`. */
  ghost predicate IsColumn(w: World, content: Bytes, column: string, cells: seq<string>) {
    var records := w.records(content);
    && |records| == |cells| + 1 && records[0].Row?
    && exists j :: 0 <= j < |records[0].fields| && records[0].fields[j] == column
         && forall i :: 0 <= i < |cells| ==>
              records[i + 1].Row? && j < |records[i + 1].fields| && cells[i] == records[i + 1].fields[j]
  }

  ghost function Breaking(w: World, rule: Definition, cells: seq<string>): set<nat> {
    set i: nat | i < |cells| && Breaks(w, rule, cells, i)
  }

  function Ignored(w: World, rule: Definition, cells: seq<string>): set<nat> {
    set i: nat | i < |cells| && Ignores(w, rule, cells, i)
  }

  /** The stored sample of row `i`: its number, at most 128 characters of the cell, and whether that is all. */
  function StoredSample(cells: seq<string>, i: nat): Json
    requires i < |cells|
  {
    Object(map["row_number" := Int(i + 1),
               "value_preview" := Text(cells[i][..Min(128, |cells[i]|)]),
               "truncated" := Bool(|cells[i]| > 128)])
  }

  /** The samples are the first 20 breaking rows in row order, or all if there are fewer. */
  ghost predicate ShowsFirst(w: World, rule: Definition, cells: seq<string>, samples: seq<Json>) {
    exists rows: seq<nat> ::
      && |rows| == |samples| == Min(20, |Breaking(w, rule, cells)|)
      && (forall k :: 0 <= k < |rows| ==>
            rows[k] in Breaking(w, rule, cells) && samples[k] == StoredSample(cells, rows[k]))
      && (forall k, l :: 0 <= k < l < |rows| ==> rows[k] < rows[l])
      && (forall i :: i in Breaking(w, rule, cells) && i !in rows ==> forall k :: 0 <= k < |rows| ==> rows[k] < i)
  }

  /** Counts and samples of the row are what the rule says about the cells. */
  ghost predicate Reports(w: World, rule: Definition, cells: seq<string>, row: ResultRow) {
    && row.violations == |Breaking(w, rule, cells)|
    && row.skipped == |Ignored(w, rule, cells)|
    && row.evaluated == |cells| - |Ignored(w, rule, cells)|
    && row.passed == |cells| - |Ignored(w, rule, cells)| - |Breaking(w, rule, cells)|
    && ShowsFirst(w, rule, cells, row.samples)
  }

  /** The row reports on the rule and the column of the file that it names. */
  ghost predicate ReportsOn(w: World, rule: RuleSnapshot, content: Bytes, row: ResultRow) {
    && row.sourceRuleId == rule.ruleId
    && exists cells :: IsColumn(w, content, rule.definition.targetColumn, cells)
                       && Reports(w, rule.definition, cells, row)
  }

  // ---------------------------------------------------------------- verdicts

  /** The values of a column without null. */
  ghost predicate Holds(values: seq<Cell>, cells: seq<string>) {
    |values| == |cells| && forall i :: 0 <= i < |cells| ==> values[i] == Some(cells[i])
  }

  lemma TypeMeans(w: World, rule: RuleSnapshot, text: string)
    requires AdaptRule(w, rule).Some? && rule.definition.ruleType == "type"
    ensures Passes(w, AdaptRule(w, rule).value.spec, text) <==> Typed(w, rule.definition.configuration, text)
  {
    var fields := rule.definition.configuration;
    assert fields["expected_type"] == Text(fields["expected_type"].text);
  }

  lemma RangeMeans(w: World, rule: RuleSnapshot, text: string)
    requires AdaptRule(w, rule).Some? && rule.definition.ruleType == "range"
    ensures Passes(w, AdaptRule(w, rule).value.spec, text) <==> InRange(w, rule.definition.configuration, text)
  {
    var fields := rule.definition.configuration;
    BoundaryIff(w, fields, "minimum");
    BoundaryIff(w, fields, "maximum");
  }

  lemma RegexMeans(w: World, rule: RuleSnapshot, text: string)
    requires AdaptRule(w, rule).Some? && rule.definition.ruleType == "regex"
    ensures Passes(w, AdaptRule(w, rule).value.spec, text) <==> Matched(w, rule.definition.configuration, text)
  {
    var fields := rule.definition.configuration;
    assert fields["pattern"] == Text(fields["pattern"].text);
  }

  lemma OccurrenceMeans(values: seq<Cell>, cells: seq<string>, i: nat)
    requires i < |cells| && Holds(values, cells)
    ensures OccursBefore(values, i) <==> exists j :: 0 <= j < i && cells[j] == cells[i]
  {
    if OccursBefore(values, i) {
      var j :| 0 <= j < i && values[..i][j] == values[i];
      assert cells[j] == cells[i];
    }
    forall j | 0 <= j < i && cells[j] == cells[i] ensures OccursBefore(values, i) {
      assert values[..i][j] == values[i];
    }
  }

  /** The verdict of the adapted rule is what the stored definition says. */
  lemma VerdictMeans(w: World, rule: RuleSnapshot, values: seq<Cell>, cells: seq<string>, i: nat)
    requires AdaptRule(w, rule).Some? && i < |cells| && Holds(values, cells)
    ensures var spec := AdaptRule(w, rule).value.spec;
      && (VerdictAt(w, spec, values, i) == Violation <==> Breaks(w, rule.definition, cells, i))
      && (VerdictAt(w, spec, values, i) == Skip <==> Ignores(w, rule.definition, cells, i))
  {
    MissingIffBlank(w, values[i]);
    OccurrenceMeans(values, cells, i);
    var spec := AdaptRule(w, rule).value.spec;
    if rule.definition.ruleType == "type" {
      TypeMeans(w, rule, cells[i]);
    } else if rule.definition.ruleType == "range" {
      RangeMeans(w, rule, cells[i]);
    } else if rule.definition.ruleType == "regex" {
      RegexMeans(w, rule, cells[i]);
    }
  }

  // ---------------------------------------------------------------- counts and samples

  function RowsAt(w: World, rule: RuleSpec, values: seq<Cell>, verdict: Verdict): set<nat> {
    set i: nat | i < |values| && VerdictAt(w, rule, values, i) == verdict
  }

  /** A further row joins exactly the set of its own verdict. */
  lemma RowsAtStep(w: World, rule: RuleSpec, values: seq<Cell>, verdict: Verdict)
    requires values != []
    ensures var n := |values| - 1;
      && n !in RowsAt(w, rule, values[..n], verdict)
      && RowsAt(w, rule, values, verdict)
         == if VerdictAt(w, rule, values, n) == verdict then RowsAt(w, rule, values[..n], verdict) + {n}
            else RowsAt(w, rule, values[..n], verdict)
  {
    var n := |values| - 1;
    forall i: nat | i < n ensures VerdictAt(w, rule, values[..n], i) == VerdictAt(w, rule, values, i) {
      assert values[..n][..i] == values[..i];
    }
  }

  lemma {:induction false} CountIs(w: World, rule: RuleSpec, values: seq<Cell>, verdict: Verdict)
    ensures |RowsWith(w, rule, values, verdict)| == |RowsAt(w, rule, values, verdict)|
  {
    if values == [] {
      assert RowsAt(w, rule, values, verdict) == {};
    } else {
      CountIs(w, rule, values[..|values| - 1], verdict);
      RowsAtStep(w, rule, values, verdict);
    }
  }

  lemma SampleIs(values: seq<Cell>, cells: seq<string>, i: nat)
    requires i < |cells| && Holds(values, cells)
    ensures SampleJson(SampleOf(values, i + 1)) == StoredSample(cells, i)
  {
  }

  /** Rows counted from 0. */
  function Indices(samples: seq<Sample>): (rows: seq<nat>)
    requires forall k :: 0 <= k < |samples| ==> samples[k].rowNumber >= 1
    ensures |rows| == |samples| && forall k :: 0 <= k < |rows| ==> rows[k] == samples[k].rowNumber - 1
  {
    seq(|samples|, k requires 0 <= k < |samples| => (samples[k].rowNumber - 1) as nat)
  }

  lemma ShownRowsBreak(w: World, spec: RuleSpec, values: seq<Cell>, cells: seq<string>, samples: seq<Json>, k: nat)
    requires Holds(values, cells) && StoredAs(samples, Meaning(w, spec, values).samples) && k < |samples|
    ensures var i := Meaning(w, spec, values).samples[k].rowNumber - 1;
      i >= 0 && i in RowsAt(w, spec, values, Violation) && samples[k] == StoredSample(cells, i)
  {
    SamplesAreFirstViolations(w, spec, values);
    var row := Meaning(w, spec, values).samples[k].rowNumber;
    assert RowHas(w, spec, values, Violation, row);
    SampleIs(values, cells, row - 1);
  }

  lemma OtherRowsFollow(w: World, spec: RuleSpec, values: seq<Cell>, rows: seq<nat>, i: nat)
    requires var shown := Meaning(w, spec, values).samples;
      |rows| == |shown| && forall k :: 0 <= k < |rows| ==> rows[k] == shown[k].rowNumber - 1
    requires i in RowsAt(w, spec, values, Violation) && i !in rows
    ensures forall k :: 0 <= k < |rows| ==> rows[k] < i
  {
    SamplesAreFirstViolations(w, spec, values);
    var shown := Meaning(w, spec, values).samples;
    assert RowHas(w, spec, values, Violation, i + 1);
    forall k | 0 <= k < |shown| ensures shown[k].rowNumber != i + 1 {
      assert rows[k] in rows;
    }
    var last := VIOLATION_SAMPLE_LIMIT - 1;
    assert forall k :: 0 <= k < last ==> shown[k].rowNumber < shown[last].rowNumber;
  }

  lemma ListedRows(w: World, spec: RuleSpec, values: seq<Cell>) returns (rows: seq<nat>)
    ensures var shown := Meaning(w, spec, values).samples;
      |rows| == |shown| && forall k :: 0 <= k < |rows| ==> rows[k] == shown[k].rowNumber - 1
    ensures |rows| == Min(20, |RowsAt(w, spec, values, Violation)|)
    ensures forall k, l :: 0 <= k < l < |rows| ==> rows[k] < rows[l]
  {
    SamplesAreFirstViolations(w, spec, values);
    CountIs(w, spec, values, Violation);
    rows := Indices(Meaning(w, spec, values).samples);
  }

  lemma SamplesShow(w: World, rule: RuleSnapshot, values: seq<Cell>, cells: seq<string>, samples: seq<Json>)
    requires AdaptRule(w, rule).Some? && Holds(values, cells)
    requires StoredAs(samples, Meaning(w, AdaptRule(w, rule).value.spec, values).samples)
    requires Breaking(w, rule.definition, cells) == RowsAt(w, AdaptRule(w, rule).value.spec, values, Violation)
    ensures ShowsFirst(w, rule.definition, cells, samples)
  {
    var spec := AdaptRule(w, rule).value.spec;
    var rows := ListedRows(w, spec, values);
    forall k | 0 <= k < |rows|
      ensures rows[k] in Breaking(w, rule.definition, cells) && samples[k] == StoredSample(cells, rows[k])
    {
      ShownRowsBreak(w, spec, values, cells, samples, k);
    }
    forall i | i in Breaking(w, rule.definition, cells) && i !in rows
      ensures forall k :: 0 <= k < |rows| ==> rows[k] < i
    {
      OtherRowsFollow(w, spec, values, rows, i);
    }
  }

  /** The meaning of the adapted rule, stored, reports on the cells. */
  lemma MeaningReports(w: World, rule: RuleSnapshot, values: seq<Cell>, cells: seq<string>, row: ResultRow)
    requires AdaptRule(w, rule).Some? && Holds(values, cells)
    requires var meaning := Meaning(w, AdaptRule(w, rule).value.spec, values);
      && row.evaluated == meaning.evaluated && row.passed == meaning.passed
      && row.violations == meaning.violations && row.skipped == meaning.skipped
      && StoredAs(row.samples, meaning.samples)
    ensures Reports(w, rule.definition, cells, row)
  {
    var spec := AdaptRule(w, rule).value.spec;
    forall i: nat | i < |cells|
      ensures VerdictAt(w, spec, values, i) == Violation <==> Breaks(w, rule.definition, cells, i)
      ensures VerdictAt(w, spec, values, i) == Skip <==> Ignores(w, rule.definition, cells, i)
    {
      VerdictMeans(w, rule, values, cells, i);
    }
    assert Breaking(w, rule.definition, cells) == RowsAt(w, spec, values, Violation);
    assert Ignored(w, rule.definition, cells) == RowsAt(w, spec, values, Skip);
    CountIs(w, spec, values, Violation);
    CountIs(w, spec, values, Skip);
    CountsCoverRows(w, spec, values);
    SamplesShow(w, rule, values, cells, row.samples);
  }

  /** The fields below a header field. */
  function CellsBelow(records: seq<Record>, j: nat): (cells: seq<string>)
    requires Rectangular(records) && j < |records[0].fields|
    ensures |cells| == |records| - 1 && forall i :: 0 <= i < |cells| ==> cells[i] == records[i + 1].fields[j]
  {
    seq(|records| - 1, i requires 0 <= i < |records| - 1 => records[i + 1].fields[j])
  }

  lemma ColumnHolds(w: World, content: Bytes, column: string) returns (cells: seq<string>)
    requires ReadTable(w, content).Some? && column in ReadTable(w, content).value.columns
    ensures IsColumn(w, content, column, cells)
    ensures Holds(ColumnOf(ReadTable(w, content).value, column), cells)
  {
    var frame, records := ReadTable(w, content).value, w.records(content);
    var j := IndexOf(frame.columns, column);
    CellsAreFields(w, content, 0, 0);
    cells := CellsBelow(records, j);
    forall i | 0 <= i < |cells| ensures frame.rows[i][j] == Some(cells[i]) {
      CellsAreFields(w, content, i, j);
    }
  }

  /**
   Whatever an analysis computes reports, rule by rule, on the column of the file that the rule
   names: the counts and the first breaking rows, as its type and configuration say.
   */
  lemma ComputationReports(w: World, source: Source, rules: seq<RuleSnapshot>, content: Bytes, p: nat)
    requires Compute(w, source, rules, content).Ok? && p < |rules|
    ensures |Compute(w, source, rules, content).value.results| == |rules|
    ensures ReportsOn(w, rules[p], content, Compute(w, source, rules, content).value.results[p])
  {
    var frame := LoadTable(w, content, source.columns, source.rowCount).value;
    var adapted := AdaptRules(w, rules).value;
    assert ValidRule(w, frame, SpecsOf(adapted)[p]);
    var column := rules[p].definition.targetColumn;
    assert adapted[p].spec.targetColumn == column;
    var cells := ColumnHolds(w, content, column);
    MeaningReports(w, rules[p], ColumnOf(frame, column), cells,
                   Compute(w, source, rules, content).value.results[p]);
  }

  /** One row per rule, each reporting on its rule. */
  ghost predicate AllReport(w: World, rules: seq<RuleSnapshot>, content: Bytes, rows: seq<ResultRow>) {
    |rows| == |rules| && forall p :: 0 <= p < |rules| ==> ReportsOn(w, rules[p], content, rows[p])
  }

  lemma ComputationsReport(w: World, source: Source, rules: seq<RuleSnapshot>, content: Bytes)
    requires Compute(w, source, rules, content).Ok?
    ensures AllReport(w, rules, content, Compute(w, source, rules, content).value.results)
  {
    var rows := Compute(w, source, rules, content).value.results;
    forall p | 0 <= p < |rules| ensures |rows| == |rules| && ReportsOn(w, rules[p], content, rows[p]) {
      ComputationReports(w, source, rules, content, p);
    }
    if rules == [] {
      assert AdaptRules(w, rules).value == [];
    }
  }

  /** What could be computed was loaded with the row's columns and height. */
  lemma SourceIs(w: World, row: DatasetRow, rules: seq<RuleSnapshot>, content: Bytes)
    requires Complete(row) && Compute(w, SourceOf(row), rules, content).Ok?
    requires row.size == Some(|content|) && row.digest == Some(w.digest(content))
    ensures IsSourceOf(w, SourceOf(row), row, content)
  {
    CellsAreFields(w, content, 0, 0);
  }

  // ---------------------------------------------------------------- totals and score

  function PassedIn(rows: seq<ResultRow>): nat {
    if rows == [] then 0 else PassedIn(rows[..|rows| - 1]) + rows[|rows| - 1].passed
  }

  function EvaluatedIn(rows: seq<ResultRow>): nat {
    if rows == [] then 0 else EvaluatedIn(rows[..|rows| - 1]) + rows[|rows| - 1].evaluated
  }

  function ViolationsIn(rows: seq<ResultRow>): nat {
    if rows == [] then 0 else ViolationsIn(rows[..|rows| - 1]) + rows[|rows| - 1].violations
  }

  /**
   The analysis sums up its results: all violations, no score exactly if nothing was evaluated,
   and otherwise the percentage of passed among evaluated cells in hundredths, rounded half up.
   */
  ghost predicate SumsUp(rows: seq<ResultRow>, totalViolations: nat, score: Option<nat>) {
    && totalViolations == ViolationsIn(rows)
    && (score.None? <==> EvaluatedIn(rows) == 0)
    && (score.Some? && EvaluatedIn(rows) <= 100_000_000_000_000_000_000_000_000_000_000_000 ==>
          var p, e, h := PassedIn(rows), EvaluatedIn(rows), score.value;
          h <= 10_000 && 2 * (e * h) - e <= 20_000 * p < 2 * (e * h) + e)
  }

  /** The rows have the counts of the results. */
  ghost predicate Counts(rows: seq<ResultRow>, results: seq<RuleResult>) {
    |rows| == |results| && forall i :: 0 <= i < |rows| ==>
      && rows[i].passed == results[i].passed && rows[i].evaluated == results[i].evaluated
      && rows[i].violations == results[i].violations
  }

  lemma {:induction false} TotalsAreSums(rows: seq<ResultRow>, results: seq<RuleResult>)
    requires Counts(rows, results)
    ensures PassedIn(rows) == TotalPassed(results) && EvaluatedIn(rows) == TotalEvaluated(results)
    ensures ViolationsIn(rows) == TotalViolations(results)
  {
    if rows != [] {
      TotalsAreSums(rows[..|rows| - 1], results[..|rows| - 1]);
    }
  }

  lemma NothingToScore(results: seq<RuleResult>)
    ensures CalculateQualityScore(results).None? <==> TotalEvaluated(results) == 0
  {
  }

  lemma BoundIs()
    ensures Pow10(35) == 100_000_000_000_000_000_000_000_000_000_000_000
  {
    assert Pow10(5) == 100_000;
    Pow10Adds(5, 5);
    Pow10Adds(10, 5);
    Pow10Adds(15, 10);
    Pow10Adds(25, 10);
  }

  lemma ScoreSumsUp(rows: seq<ResultRow>, results: seq<RuleResult>)
    requires Counts(rows, results) && Balanced(results)
    ensures SumsUp(rows, TotalViolations(results), CalculateQualityScore(results))
  {
    TotalsAreSums(rows, results);
    NothingToScore(results);
    BoundIs();
    if WithinPrecision(results) {
      ScoreIsRoundedPercentage(results);
    }
  }

  /** What an analysis computes as its totals sums up its results. */
  lemma ComputationSumsUp(w: World, source: Source, rules: seq<RuleSnapshot>, content: Bytes)
    requires Compute(w, source, rules, content).Ok?
    ensures var computed := Compute(w, source, rules, content).value;
      SumsUp(computed.results, computed.totalViolations, computed.score)
  {
    var frame := LoadTable(w, content, source.columns, source.rowCount).value;
    var adapted := AdaptRules(w, rules).value;
    var specs := SpecsOf(adapted);
    assert forall i :: 0 <= i < |specs| ==> ValidRule(w, frame, specs[i]);
    var results := Results(w, frame, specs);
    forall i | 0 <= i < |results| ensures results[i].passed + results[i].violations == results[i].evaluated {
      CountsCoverRows(w, specs[i], ColumnOf(frame, specs[i].targetColumn));
    }
    ScoreSumsUp(Compute(w, source, rules, content).value.results, results);
  }
}
