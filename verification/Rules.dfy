/**
 Rule specifications, the five evaluators and the declarative meaning they refine.

 Each row of a column gets one verdict. The meaning of a rule is the list of rows with
 each verdict; the evaluators keep counters, a bounded sample list and a seen-set instead.
 */
module Rules {
  import opened Wrappers
  import opened External
  import opened Csv

  const VIOLATION_SAMPLE_LIMIT: nat := 20
  const VALUE_PREVIEW_LIMIT: nat := 128

  datatype ExpectedType = AnyString | Integer | Number | Boolean | Date | Datetime

  datatype RuleSpec =
    | Required(ruleId: nat, targetColumn: string)
    | Unique(ruleId: nat, targetColumn: string)
    | TypeOf(ruleId: nat, targetColumn: string, expectedType: ExpectedType)
    | Range(ruleId: nat, targetColumn: string, minimum: Option<Float>, maximum: Option<Float>)
    | Regex(ruleId: nat, targetColumn: string, pattern: string)

  datatype Sample = Sample(rowNumber: nat, preview: Cell, truncated: bool)

  datatype RuleResult = RuleResult(
    rule: RuleSpec,
    evaluated: nat,
    passed: nat,
    violations: nat,
    skipped: nat,
    samples: seq<Sample>)

  datatype InputError =
    | DuplicateRuleId
    | EmptyTargetColumn
    | UnknownTargetColumn
    | UnboundedRange
    | NonFiniteBoundary
    | InvertedRange
    | EmptyPattern
    | InvalidPattern

  // ---------------------------------------------------------------- meaning

  datatype Verdict = Pass | Violation | Skip

  predicate IsMissing(w: World, value: Cell) {
    value.None? || value.value == "" || Strip(w, value.value) == ""
  }

  function ParseNumber(w: World, value: string): Option<Float> {
    match w.number(value)
    case None => None
    case Some(parsed) => if parsed.Finite? then Some(parsed) else None
  }

  predicate MatchesType(w: World, value: string, expectedType: ExpectedType) {
    match expectedType
    case AnyString => true
    case Integer => w.isInteger(value)
    case Number => ParseNumber(w, value).Some?
    case Boolean => w.isBoolean(value)
    case Date => w.isDate(value)
    case Datetime => w.isDatetime(value)
  }

  /** `<=` of binary64. */
  predicate AtMost(a: Float, b: Float) {
    !a.NotANumber? && !b.NotANumber? && !Less(b, a)
  }

  predicate WithinRange(w: World, value: string, minimum: Option<Float>, maximum: Option<Float>) {
    match ParseNumber(w, value)
    case None => false
    case Some(parsed) =>
      && !(minimum.Some? && Less(parsed, minimum.value))
      && (maximum.None? || AtMost(parsed, maximum.value))
  }

  /** What a rule other than `Required` and `Unique` demands of one present value. */
  predicate Passes(w: World, rule: RuleSpec, value: string) {
    match rule
    case Required(_, _) => true
    case Unique(_, _) => true
    case TypeOf(_, _, expectedType) => MatchesType(w, value, expectedType)
    case Range(_, _, minimum, maximum) => WithinRange(w, value, minimum, maximum)
    case Regex(_, _, pattern) => w.contains(pattern, value)
  }

  predicate OccursBefore(values: seq<Cell>, i: nat)
    requires i < |values|
  {
    values[i] in values[..i]
  }

  function VerdictAt(w: World, rule: RuleSpec, values: seq<Cell>, i: nat): Verdict
    requires i < |values|
  {
    if IsMissing(w, values[i]) then (if rule.Required? then Violation else Skip)
    else if rule.Unique? && OccursBefore(values, i) then Violation
    else if Passes(w, rule, values[i].value) then Pass
    else Violation
  }

  /** The row numbers, first data row 1, that carry `verdict`, in increasing order. */
  function RowsWith(w: World, rule: RuleSpec, values: seq<Cell>, verdict: Verdict): (rows: seq<nat>)
    ensures forall k :: 0 <= k < |rows| ==> 1 <= rows[k] <= |values|
  {
    if values == [] then []
    else
      var n := |values| - 1;
      RowsWith(w, rule, values[..n], verdict)
      + if VerdictAt(w, rule, values, n) == verdict then [n + 1] else []
  }

  predicate RowHas(w: World, rule: RuleSpec, values: seq<Cell>, verdict: Verdict, row: nat) {
    1 <= row <= |values| && VerdictAt(w, rule, values, row - 1) == verdict
  }

  /** `RowsWith` lists exactly the rows with that verdict, once each and in row order. */
  lemma {:induction false} RowsWithExact(w: World, rule: RuleSpec, values: seq<Cell>, verdict: Verdict)
    ensures forall row :: row in RowsWith(w, rule, values, verdict) <==> RowHas(w, rule, values, verdict, row)
    ensures forall k, l :: 0 <= k < l < |RowsWith(w, rule, values, verdict)| ==>
      RowsWith(w, rule, values, verdict)[k] < RowsWith(w, rule, values, verdict)[l]
  {
    if values != [] {
      var n := |values| - 1;
      RowsWithExact(w, rule, values[..n], verdict);
      forall row: nat
        ensures row in RowsWith(w, rule, values, verdict) <==> RowHas(w, rule, values, verdict, row)
      {
        if 1 <= row <= n {
          assert values[..n][..row - 1] == values[..row - 1];
          assert RowHas(w, rule, values[..n], verdict, row) <==> RowHas(w, rule, values, verdict, row);
        }
      }
    }
  }

  function PreviewOf(value: Cell, rowNumber: nat): Sample {
    Sample(rowNumber,
           if value.None? then None else Some(value.value[..Min(VALUE_PREVIEW_LIMIT, |value.value|)]),
           value.Some? && |value.value| > VALUE_PREVIEW_LIMIT)
  }

  function SampleOf(values: seq<Cell>, row: nat): Sample
    requires 1 <= row <= |values|
  {
    PreviewOf(values[row - 1], row)
  }

  function SamplesOf(values: seq<Cell>, rows: seq<nat>): (r: seq<Sample>)
    requires forall k :: 0 <= k < |rows| ==> 1 <= rows[k] <= |values|
    ensures |r| == |rows|
  {
    seq(|rows|, k requires 0 <= k < |rows| => SampleOf(values, rows[k]))
  }

  function FirstRows(rows: seq<nat>): seq<nat> {
    rows[..Min(VIOLATION_SAMPLE_LIMIT, |rows|)]
  }

  /** The meaning of a rule on a column. */
  function Meaning(w: World, rule: RuleSpec, values: seq<Cell>): RuleResult {
    var violating := RowsWith(w, rule, values, Violation);
    var passing := RowsWith(w, rule, values, Pass);
    RuleResult(rule, |passing| + |violating|, |passing|, |violating|,
               |RowsWith(w, rule, values, Skip)|,
               SamplesOf(values, FirstRows(violating)))
  }

  // ---------------------------------------------------------------- evaluators

  /** Appends a bounded preview of `value` unless the sample list is already full. */
  method AppendSample(samples: seq<Sample>, rowNumber: nat, value: Cell) returns (r: seq<Sample>)
    requires rowNumber >= 1
    ensures r == if |samples| < VIOLATION_SAMPLE_LIMIT then samples + [PreviewOf(value, rowNumber)] else samples
  {
    if |samples| >= VIOLATION_SAMPLE_LIMIT {
      return samples;
    }
    var preview := if value.None? then None
                   else Some(value.value[..Min(VALUE_PREVIEW_LIMIT, |value.value|)]);
    return samples + [Sample(rowNumber, preview, value.Some? && |value.value| > VALUE_PREVIEW_LIMIT)];
  }

  /** The counters and samples are right for the first `n` rows. */
  ghost predicate Progress(w: World, rule: RuleSpec, values: seq<Cell>, n: nat,
                           violations: int, skipped: int, samples: seq<Sample>)
    requires n <= |values|
  {
    && violations == |RowsWith(w, rule, values[..n], Violation)|
    && skipped == |RowsWith(w, rule, values[..n], Skip)|
    && samples == SamplesOf(values, FirstRows(RowsWith(w, rule, values[..n], Violation)))
  }

  /** Row `n + 1` joins the list of its own verdict and no other. */
  lemma RowsWithStep(w: World, rule: RuleSpec, values: seq<Cell>, n: nat, verdict: Verdict)
    requires n < |values|
    ensures RowsWith(w, rule, values[..n + 1], verdict)
         == RowsWith(w, rule, values[..n], verdict)
            + if VerdictAt(w, rule, values, n) == verdict then [n + 1] else []
  {
    assert values[..n + 1][..n] == values[..n];
  }

  lemma ProgressStep(w: World, rule: RuleSpec, values: seq<Cell>, n: nat,
                     violations: int, skipped: int, samples: seq<Sample>)
    requires n < |values| && Progress(w, rule, values, n, violations, skipped, samples)
    ensures match VerdictAt(w, rule, values, n)
            case Pass => Progress(w, rule, values, n + 1, violations, skipped, samples)
            case Skip => Progress(w, rule, values, n + 1, violations, skipped + 1, samples)
            case Violation =>
              Progress(w, rule, values, n + 1, violations + 1, skipped,
                       if |samples| < VIOLATION_SAMPLE_LIMIT then samples + [SampleOf(values, n + 1)] else samples)
  {
    RowsWithStep(w, rule, values, n, Violation);
    RowsWithStep(w, rule, values, n, Skip);
  }

  /** Every row carries exactly one verdict. */
  lemma {:induction false} VerdictsPartition(w: World, rule: RuleSpec, values: seq<Cell>)
    ensures |RowsWith(w, rule, values, Pass)| + |RowsWith(w, rule, values, Violation)|
            + |RowsWith(w, rule, values, Skip)| == |values|
  {
    if values != [] {
      VerdictsPartition(w, rule, values[..|values| - 1]);
    }
  }

  /** The counters the evaluators keep determine the meaning of the rule. */
  method ResultOf(w: World, rule: RuleSpec, ghost values: seq<Cell>,
                  evaluated: int, violations: int, skipped: int, samples: seq<Sample>)
    returns (r: RuleResult)
    requires evaluated == |values| - skipped
    requires Progress(w, rule, values, |values|, violations, skipped, samples)
    ensures r == Meaning(w, rule, values)
  {
    assert values[..|values|] == values;
    VerdictsPartition(w, rule, values);
    return RuleResult(rule, evaluated, evaluated - violations, violations, skipped, samples);
  }

  method EvaluateRequired(w: World, values: seq<Cell>, rule: RuleSpec) returns (r: RuleResult)
    requires rule.Required?
    ensures r == Meaning(w, rule, values)
  {
    var samples: seq<Sample> := [];
    var violations := 0;
    for i := 0 to |values|
      invariant Progress(w, rule, values, i, violations, 0, samples)
    {
      ProgressStep(w, rule, values, i, violations, 0, samples);
      if IsMissing(w, values[i]) {
        violations := violations + 1;
        samples := AppendSample(samples, i + 1, values[i]);
      }
    }
    r := ResultOf(w, rule, values, |values|, violations, 0, samples);
  }

  /** The present values of the first `n` rows. */
  ghost predicate SeenIs(w: World, values: seq<Cell>, n: nat, seen: set<string>)
    requires n <= |values|
  {
    forall v: string :: v in seen <==> Some(v) in values[..n] && !IsMissing(w, Some(v))
  }

  lemma SeenStep(w: World, values: seq<Cell>, n: nat, seen: set<string>)
    requires n < |values| && SeenIs(w, values, n, seen)
    ensures IsMissing(w, values[n]) ==> SeenIs(w, values, n + 1, seen)
    ensures !IsMissing(w, values[n]) ==>
      && SeenIs(w, values, n + 1, seen + {values[n].value})
      && (values[n].value in seen <==> OccursBefore(values, n))
  {
    assert values[..n + 1] == values[..n] + [values[n]];
  }

  method EvaluateUnique(w: World, values: seq<Cell>, rule: RuleSpec) returns (r: RuleResult)
    requires rule.Unique?
    ensures r == Meaning(w, rule, values)
  {
    var seen: set<string> := {};
    var samples: seq<Sample> := [];
    var violations, skipped := 0, 0;
    for i := 0 to |values|
      invariant SeenIs(w, values, i, seen)
      invariant Progress(w, rule, values, i, violations, skipped, samples)
    {
      ProgressStep(w, rule, values, i, violations, skipped, samples);
      SeenStep(w, values, i, seen);
      if IsMissing(w, values[i]) {
        skipped := skipped + 1;
        continue;
      }
      if values[i].value in seen {
        violations := violations + 1;
        samples := AppendSample(samples, i + 1, values[i]);
      } else {
        seen := seen + {values[i].value};
      }
    }
    r := ResultOf(w, rule, values, |values| - skipped, violations, skipped, samples);
  }

  method EvaluateNonMissing(w: World, values: seq<Cell>, rule: RuleSpec) returns (r: RuleResult)
    requires rule.TypeOf? || rule.Range?
    ensures r == Meaning(w, rule, values)
  {
    var samples: seq<Sample> := [];
    var violations, skipped := 0, 0;
    for i := 0 to |values|
      invariant Progress(w, rule, values, i, violations, skipped, samples)
    {
      ProgressStep(w, rule, values, i, violations, skipped, samples);
      if IsMissing(w, values[i]) {
        skipped := skipped + 1;
        continue;
      }
      if !Passes(w, rule, values[i].value) {
        violations := violations + 1;
        samples := AppendSample(samples, i + 1, values[i]);
      }
    }
    r := ResultOf(w, rule, values, |values| - skipped, violations, skipped, samples);
  }

  /** The regular-expression engine's answer for a whole column; null stays null. */
  function Matches(w: World, values: seq<Cell>, pattern: string): (r: seq<Option<bool>>)
    ensures |r| == |values|
  {
    seq(|values|, i requires 0 <= i < |values| =>
      if values[i].None? then None else Some(w.contains(pattern, values[i].value)))
  }

  method EvaluateRegex(w: World, values: seq<Cell>, rule: RuleSpec) returns (r: Result<RuleResult, InputError>)
    requires rule.Regex?
    ensures r == if w.compiles(rule.pattern) then Ok(Meaning(w, rule, values)) else Err(InvalidPattern)
  {
    if !w.compiles(rule.pattern) {
      return Err(InvalidPattern);
    }
    var matches := Matches(w, values, rule.pattern);
    var samples: seq<Sample> := [];
    var violations, skipped := 0, 0;
    for i := 0 to |values|
      invariant Progress(w, rule, values, i, violations, skipped, samples)
    {
      ProgressStep(w, rule, values, i, violations, skipped, samples);
      if IsMissing(w, values[i]) {
        skipped := skipped + 1;
        continue;
      }
      if matches[i] != Some(true) {
        violations := violations + 1;
        samples := AppendSample(samples, i + 1, values[i]);
      }
    }
    var result := ResultOf(w, rule, values, |values| - skipped, violations, skipped, samples);
    return Ok(result);
  }

  /** Every evaluator computes the meaning of its rule; only an uncompilable pattern is refused. */
  method EvaluateRule(w: World, values: seq<Cell>, rule: RuleSpec) returns (r: Result<RuleResult, InputError>)
    ensures r == if rule.Regex? && !w.compiles(rule.pattern) then Err(InvalidPattern)
                 else Ok(Meaning(w, rule, values))
  {
    match rule
    case Required(_, _) =>
      var result := EvaluateRequired(w, values, rule);
      return Ok(result);
    case Unique(_, _) =>
      var result := EvaluateUnique(w, values, rule);
      return Ok(result);
    case TypeOf(_, _, _) =>
      var result := EvaluateNonMissing(w, values, rule);
      return Ok(result);
    case Range(_, _, _, _) =>
      var result := EvaluateNonMissing(w, values, rule);
      return Ok(result);
    case Regex(_, _, _) =>
      r := EvaluateRegex(w, values, rule);
  }

  // ---------------------------------------------------------------- what the meaning promises

  /** The counts cover every row once. */
  lemma CountsCoverRows(w: World, rule: RuleSpec, values: seq<Cell>)
    ensures var r := Meaning(w, rule, values);
      && r.evaluated == r.passed + r.violations
      && r.evaluated + r.skipped == |values|
  {
    VerdictsPartition(w, rule, values);
  }

  /** Null and all-white-space cells, and no others. */
  lemma MissingIffBlank(w: World, value: Cell)
    ensures IsMissing(w, value) <==> value.None? || Blank(w, value.value)
  {
    if value.Some? {
      StripEmptyIffBlank(w, value.value);
    }
  }

  /** The blank cells are exactly the violations of a required rule and what any other rule skips. */
  lemma BlankCellsDecide(w: World, rule: RuleSpec, values: seq<Cell>, row: nat)
    requires 1 <= row <= |values|
    ensures RowHas(w, rule, values, if rule.Required? then Violation else Skip, row)
       <==> values[row - 1].None? || Blank(w, values[row - 1].value)
  {
    MissingIffBlank(w, values[row - 1]);
  }

  predicate Sampled(samples: seq<Sample>, row: nat) {
    exists k :: 0 <= k < |samples| && samples[k].rowNumber == row
  }

  /** The samples are the first violating rows in row order, and all of them unless the list is full. */
  lemma SamplesAreFirstViolations(w: World, rule: RuleSpec, values: seq<Cell>)
    ensures var r := Meaning(w, rule, values);
      && |r.samples| == Min(VIOLATION_SAMPLE_LIMIT, r.violations)
      && (forall k :: 0 <= k < |r.samples| ==>
            && RowHas(w, rule, values, Violation, r.samples[k].rowNumber)
            && r.samples[k] == SampleOf(values, r.samples[k].rowNumber))
      && (forall k, l :: 0 <= k < l < |r.samples| ==> r.samples[k].rowNumber < r.samples[l].rowNumber)
      && (forall row :: RowHas(w, rule, values, Violation, row) && !Sampled(r.samples, row) ==>
            && |r.samples| == VIOLATION_SAMPLE_LIMIT
            && r.samples[VIOLATION_SAMPLE_LIMIT - 1].rowNumber < row)
  {
    RowsWithExact(w, rule, values, Violation);
    var rows := RowsWith(w, rule, values, Violation);
    var r := Meaning(w, rule, values);
    forall k | 0 <= k < |r.samples|
      ensures RowHas(w, rule, values, Violation, r.samples[k].rowNumber)
           && r.samples[k] == SampleOf(values, r.samples[k].rowNumber)
    {
      assert rows[k] in rows;
    }
    forall row | RowHas(w, rule, values, Violation, row)
      ensures || Sampled(r.samples, row)
              || (|r.samples| == VIOLATION_SAMPLE_LIMIT
                  && r.samples[VIOLATION_SAMPLE_LIMIT - 1].rowNumber < row)
    {
      assert row in rows;
      var at :| 0 <= at < |rows| && rows[at] == row;
      if at < |r.samples| {
        assert r.samples[at].rowNumber == row;
      }
    }
  }

  /** The distinct values a uniqueness rule looks at. */
  function PresentValues(w: World, values: seq<Cell>): set<Cell> {
    set c | c in values && !IsMissing(w, c)
  }

  /** A uniqueness rule passes exactly one row per distinct present value. */
  lemma {:induction false} UniquePassesOncePerValue(w: World, rule: RuleSpec, values: seq<Cell>)
    requires rule.Unique?
    ensures |RowsWith(w, rule, values, Pass)| == |PresentValues(w, values)|
  {
    if values != [] {
      var n := |values| - 1;
      UniquePassesOncePerValue(w, rule, values[..n]);
      assert values == values[..n] + [values[n]];
      if VerdictAt(w, rule, values, n) == Pass {
        assert PresentValues(w, values) == PresentValues(w, values[..n]) + {values[n]};
      } else {
        assert PresentValues(w, values) == PresentValues(w, values[..n]);
      }
    }
  }

  /** The verdict of a row depends on its own value alone, except for the uniqueness rule's passes. */
  function Tally(w: World, rule: RuleSpec, values: seq<Cell>, verdict: Verdict): nat
    decreases |values|
  {
    if values == [] then 0
    else Tally(w, rule, values[..|values| - 1], verdict)
         + if VerdictAt(w, rule, [values[|values| - 1]], 0) == verdict then 1 else 0
  }

  lemma {:induction false} TallyWithout(w: World, rule: RuleSpec, values: seq<Cell>, verdict: Verdict, j: nat)
    requires j < |values|
    ensures Tally(w, rule, values, verdict)
         == Tally(w, rule, values[..j] + values[j + 1..], verdict)
            + if VerdictAt(w, rule, [values[j]], 0) == verdict then 1 else 0
  {
    var n := |values| - 1;
    if j < n {
      TallyWithout(w, rule, values[..n], verdict, j);
      var rest := values[..j] + values[j + 1..];
      assert rest[..|rest| - 1] == values[..n][..j] + values[..n][j + 1..];
    } else {
      assert values[..j] + values[j + 1..] == values[..n];
    }
  }

  /** The last value of `xs` occurs in its permutation `ys`, and the rests are permutations again. */
  lemma LastOccurs<T>(xs: seq<T>, ys: seq<T>) returns (j: nat)
    requires xs != [] && multiset(xs) == multiset(ys)
    ensures j < |ys| && ys[j] == xs[|xs| - 1]
    ensures multiset(xs[..|xs| - 1]) == multiset(ys[..j] + ys[j + 1..])
  {
    var n := |xs| - 1;
    assert xs[n] in multiset(ys);
    j :| 0 <= j < |ys| && ys[j] == xs[n];
    MultisetWithout(xs, n);
    assert xs[..n] + xs[n + 1..] == xs[..n];
    MultisetWithout(ys, j);
  }

  lemma {:induction false} TallyPermutes(w: World, rule: RuleSpec, xs: seq<Cell>, ys: seq<Cell>, verdict: Verdict)
    requires multiset(xs) == multiset(ys)
    ensures Tally(w, rule, xs, verdict) == Tally(w, rule, ys, verdict)
    decreases |xs|
  {
    assert |xs| == |multiset(xs)| == |multiset(ys)| == |ys|;
    if xs != [] {
      var j := LastOccurs(xs, ys);
      TallyPermutes(w, rule, xs[..|xs| - 1], ys[..j] + ys[j + 1..], verdict);
      TallyWithout(w, rule, ys, verdict, j);
    }
  }

  lemma {:induction false} TallyCountsRows(w: World, rule: RuleSpec, values: seq<Cell>, verdict: Verdict)
    requires rule.Unique? ==> verdict == Skip
    ensures |RowsWith(w, rule, values, verdict)| == Tally(w, rule, values, verdict)
  {
    if values != [] {
      TallyCountsRows(w, rule, values[..|values| - 1], verdict);
    }
  }

  /** No count depends on the order of the rows, not even for the order-sensitive uniqueness rule. */
  lemma CountsIgnoreRowOrder(w: World, rule: RuleSpec, xs: seq<Cell>, ys: seq<Cell>)
    requires multiset(xs) == multiset(ys)
    ensures var a, b := Meaning(w, rule, xs), Meaning(w, rule, ys);
      && a.evaluated == b.evaluated && a.passed == b.passed
      && a.violations == b.violations && a.skipped == b.skipped
  {
    assert |xs| == |multiset(xs)| == |multiset(ys)| == |ys|;
    VerdictsPartition(w, rule, xs);
    VerdictsPartition(w, rule, ys);
    TallyPermutes(w, rule, xs, ys, Skip);
    TallyCountsRows(w, rule, xs, Skip);
    TallyCountsRows(w, rule, ys, Skip);
    if rule.Unique? {
      UniquePassesOncePerValue(w, rule, xs);
      UniquePassesOncePerValue(w, rule, ys);
      assert forall c :: c in xs <==> c in multiset(xs);
      assert forall c :: c in ys <==> c in multiset(ys);
      assert PresentValues(w, xs) == PresentValues(w, ys);
    } else {
      TallyPermutes(w, rule, xs, ys, Pass);
      TallyCountsRows(w, rule, xs, Pass);
      TallyCountsRows(w, rule, ys, Pass);
    }
  }
}
