/** The validation engine: input checks, then one result per rule in rule order. */
module Engine {
  import opened Wrappers
  import opened External
  import opened Csv
  import opened Rules
  import opened Configuration

  datatype EngineResult = EngineResult(totalRows: nat, ruleResults: seq<RuleResult>)

  predicate Tabular(frame: Frame) {
    forall i :: 0 <= i < |frame.rows| ==> |frame.rows[i]| == |frame.columns|
  }

  function IndexOf(columns: seq<string>, column: string): (i: nat)
    requires column in columns
    ensures i < |columns| && columns[i] == column
  {
    if columns[0] == column then 0 else 1 + IndexOf(columns[1..], column)
  }

  function ColumnOf(frame: Frame, column: string): (values: seq<Cell>)
    requires Tabular(frame) && column in frame.columns
    ensures |values| == |frame.rows|
  {
    var at := IndexOf(frame.columns, column);
    seq(|frame.rows|, i requires 0 <= i < |frame.rows| => frame.rows[i][at])
  }

  /** In a table with distinct names, a rule looks at the cells of the column with its name. */
  lemma ColumnIs(frame: Frame, j: nat)
    requires Tabular(frame) && j < |frame.columns|
    requires forall k, l :: 0 <= k < l < |frame.columns| ==> frame.columns[k] != frame.columns[l]
    ensures forall i :: 0 <= i < |frame.rows| ==> ColumnOf(frame, frame.columns[j])[i] == frame.rows[i][j]
  {
    assert IndexOf(frame.columns, frame.columns[j]) == j;
  }

  predicate ValidRange(rule: RuleSpec)
    requires rule.Range?
  {
    && (rule.minimum.Some? || rule.maximum.Some?)
    && (rule.minimum.Some? ==> rule.minimum.value.Finite?)
    && (rule.maximum.Some? ==> rule.maximum.value.Finite?)
    && !(rule.minimum.Some? && rule.maximum.Some? && Less(rule.maximum.value, rule.minimum.value))
  }

  predicate ValidRule(w: World, frame: Frame, rule: RuleSpec) {
    && rule.targetColumn != ""
    && rule.targetColumn in frame.columns
    && (rule.Range? ==> ValidRange(rule))
    && (rule.Regex? ==> rule.pattern != "" && w.compiles(rule.pattern))
  }

  /** What the engine demands of its inputs. */
  predicate ValidInputs(w: World, frame: Frame, rules: seq<RuleSpec>) {
    && (forall i :: 0 <= i < |rules| ==> ValidRule(w, frame, rules[i]))
    && forall i, j :: 0 <= i < j < |rules| ==> rules[i].ruleId != rules[j].ruleId
  }

  function Results(w: World, frame: Frame, rules: seq<RuleSpec>): (r: seq<RuleResult>)
    requires Tabular(frame)
    requires forall i :: 0 <= i < |rules| ==> rules[i].targetColumn in frame.columns
    ensures |r| == |rules|
  {
    seq(|rules|, i requires 0 <= i < |rules| => Meaning(w, rules[i], ColumnOf(frame, rules[i].targetColumn)))
  }

  method ValidateRange(rule: RuleSpec) returns (r: Result<(), InputError>)
    requires rule.Range?
    ensures r.Ok? <==> ValidRange(rule)
  {
    if rule.minimum.None? && rule.maximum.None? {
      return Err(UnboundedRange);
    }
    var boundaries := [rule.minimum, rule.maximum];
    for i := 0 to |boundaries|
      invariant forall j :: 0 <= j < i ==> boundaries[j].Some? ==> boundaries[j].value.Finite?
    {
      if boundaries[i].None? {
        continue;
      }
      if !boundaries[i].value.Finite? {
        return Err(NonFiniteBoundary);
      }
    }
    assert boundaries[0] == rule.minimum && boundaries[1] == rule.maximum;
    if rule.minimum.Some? && rule.maximum.Some? && Less(rule.maximum.value, rule.minimum.value) {
      return Err(InvertedRange);
    }
    return Ok(());
  }

  method ValidateInputs(w: World, frame: Frame, rules: seq<RuleSpec>) returns (r: Result<(), InputError>)
    ensures r.Ok? <==> ValidInputs(w, frame, rules)
  {
    var seen: set<nat> := {};
    for i := 0 to |rules|
      invariant seen == set j | 0 <= j < i :: rules[j].ruleId
      invariant ValidInputs(w, frame, rules[..i])
    {
      var rule := rules[i];
      assert rules[..i + 1] == rules[..i] + [rule];
      if rule.ruleId in seen {
        return Err(DuplicateRuleId);
      }
      seen := seen + {rule.ruleId};
      if rule.targetColumn == "" {
        return Err(EmptyTargetColumn);
      }
      if rule.targetColumn !in frame.columns {
        return Err(UnknownTargetColumn);
      }
      if rule.Range? {
        var checked := ValidateRange(rule);
        if checked.Err? {
          return checked;
        }
      }
      if rule.Regex? {
        if rule.pattern == "" {
          return Err(EmptyPattern);
        }
        if !w.compiles(rule.pattern) {
          return Err(InvalidPattern);
        }
      }
      assert ValidRule(w, frame, rule);
    }
    assert rules[..|rules|] == rules;
    return Ok(());
  }

  /** The result is the meaning of the rule on the cells below the name it targets. */
  ghost predicate EvaluatesTarget(w: World, frame: Frame, rule: RuleSpec, result: RuleResult)
    requires Tabular(frame)
  {
    exists j, values: seq<Cell> ::
      && 0 <= j < |frame.columns| && frame.columns[j] == rule.targetColumn
      && |values| == |frame.rows| && (forall i :: 0 <= i < |values| ==> values[i] == frame.rows[i][j])
      && result == Meaning(w, rule, values)
  }

  lemma ResultIsOfTarget(w: World, frame: Frame, rule: RuleSpec)
    requires Tabular(frame) && rule.targetColumn in frame.columns
    ensures EvaluatesTarget(w, frame, rule, Meaning(w, rule, ColumnOf(frame, rule.targetColumn)))
  {
    var j := IndexOf(frame.columns, rule.targetColumn);
    var values := ColumnOf(frame, rule.targetColumn);
    assert frame.columns[j] == rule.targetColumn && forall i :: 0 <= i < |values| ==> values[i] == frame.rows[i][j];
  }

  /** The engine refuses exactly the invalid inputs, and otherwise returns every rule's meaning. */
  method Validate(w: World, frame: Frame, rules: seq<RuleSpec>) returns (r: Result<EngineResult, InputError>)
    requires Tabular(frame)
    ensures r.Ok? <==> ValidInputs(w, frame, rules)
    ensures r.Ok? ==> r.value == EngineResult(|frame.rows|, Results(w, frame, rules))
    ensures r.Ok? ==> |r.value.ruleResults| == |rules|
    ensures r.Ok? ==> forall k :: 0 <= k < |rules| ==>
      EvaluatesTarget(w, frame, rules[k], r.value.ruleResults[k])
  {
    var checked := ValidateInputs(w, frame, rules);
    if checked.Err? {
      return Err(checked.error);
    }
    var results: seq<RuleResult> := [];
    for i := 0 to |rules|
      invariant results == Results(w, frame, rules)[..i]
    {
      assert ValidRule(w, frame, rules[i]);
      var result := EvaluateRule(w, ColumnOf(frame, rules[i].targetColumn), rules[i]);
      results := results + [result.value];
    }
    forall k | 0 <= k < |rules| ensures EvaluatesTarget(w, frame, rules[k], results[k]) {
      ResultIsOfTarget(w, frame, rules[k]);
    }
    return Ok(EngineResult(|frame.rows|, results));
  }

  /** Rules the schema admitted, on columns the table has and with distinct identities, are never refused. */
  lemma AdmittedRulesAreValidInputs(w: World, frame: Frame, rules: seq<RuleSnapshot>, specs: seq<RuleSpec>)
    requires forall i :: 0 <= i < |rules| ==>
      Admitted(w, rules[i].definition) && rules[i].definition.targetColumn in frame.columns
    requires forall i, j :: 0 <= i < j < |rules| ==> rules[i].ruleId != rules[j].ruleId
    requires |specs| == |rules|
    requires forall i :: 0 <= i < |rules| ==>
      AdaptRule(w, rules[i]).Some? && specs[i] == AdaptRule(w, rules[i]).value.spec
    ensures ValidInputs(w, frame, specs)
  {
    forall i | 0 <= i < |rules|
      ensures ValidRule(w, frame, specs[i]) && specs[i].ruleId == rules[i].ruleId
    {
      AdmittedRuleAdapts(w, rules[i]);
    }
  }
}
