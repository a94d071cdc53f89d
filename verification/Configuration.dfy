/**
 Rule definitions on their way from a request to the validation engine: the request
 schema, the canonical form that is stored, and the adapter that reads it back.
 */
module Configuration {
  import opened Wrappers
  import opened External
  import opened Csv
  import opened Rules

  const MAX_REGEX_PATTERN_LENGTH: nat := 256

  datatype Json =
    | Null
    | Bool(truth: bool)
    | Int(integer: int)
    | Real(float: Float)
    | Text(text: string)
    | Object(fields: map<string, Json>)

  type Fields = map<string, Json>

  /** A validated configuration, before it is dumped to JSON. */
  datatype Settings =
    | NoSettings
    | TypeSettings(expectedType: ExpectedType)
    | RangeSettings(minimum: Option<Float>, maximum: Option<Float>)
    | RegexSettings(pattern: string)

  datatype RuleRequest = RuleRequest(ruleType: string, targetColumn: string, configuration: Fields)

  /** What a rule row stores besides its identity; the unique constraint compares all of it. */
  datatype Definition = Definition(ruleType: string, targetColumn: string, configuration: Fields)

  datatype RuleSnapshot = RuleSnapshot(ruleId: nat, definition: Definition)

  datatype AdaptedRule = AdaptedRule(ruleId: nat, definition: Definition, spec: RuleSpec)

  // ---------------------------------------------------------------- request schema

  function TypeName(expectedType: ExpectedType): string {
    match expectedType
    case AnyString => "string"
    case Integer => "integer"
    case Number => "number"
    case Boolean => "boolean"
    case Date => "date"
    case Datetime => "datetime"
  }

  function ParseTypeName(name: string): Option<ExpectedType> {
    if name == "string" then Some(AnyString)
    else if name == "integer" then Some(Integer)
    else if name == "number" then Some(Number)
    else if name == "boolean" then Some(Boolean)
    else if name == "date" then Some(Date)
    else if name == "datetime" then Some(Datetime)
    else None
  }

  /** A range boundary: absent or null is no boundary; otherwise a finite JSON number, never a boolean. */
  function ParseBoundary(w: World, fields: Fields, key: string): Result<Option<Float>, ()> {
    if key !in fields then Ok(None)
    else match fields[key]
      case Null => Ok(None)
      case Int(i) => if w.toFloat(i).Finite? then Ok(Some(w.toFloat(i))) else Err(())
      case Real(f) => if f.Finite? then Ok(Some(f)) else Err(())
      case _ => Err(())
  }

  predicate AcceptedBounds(minimum: Option<Float>, maximum: Option<Float>) {
    && (minimum.Some? || maximum.Some?)
    && !(minimum.Some? && maximum.Some? && Less(maximum.value, minimum.value))
  }

  predicate AcceptedPattern(w: World, pattern: string) {
    && 1 <= |pattern| <= MAX_REGEX_PATTERN_LENGTH
    && (forall i :: 0 <= i < |pattern| ==> !w.isControl(pattern[i]))
    && w.compiles(pattern)
  }

  /** The per-type configuration model; extra fields are forbidden everywhere. */
  function ParseSettings(w: World, ruleType: string, fields: Fields): Option<Settings> {
    if ruleType == "required" || ruleType == "unique" then
      if fields == map[] then Some(NoSettings) else None
    else if ruleType == "type" then
      if fields.Keys == {"expected_type"} && fields["expected_type"].Text? then
        match ParseTypeName(fields["expected_type"].text)
        case None => None
        case Some(expectedType) => Some(TypeSettings(expectedType))
      else None
    else if ruleType == "range" then
      if fields.Keys <= {"minimum", "maximum"} then
        match (ParseBoundary(w, fields, "minimum"), ParseBoundary(w, fields, "maximum"))
        case (Ok(minimum), Ok(maximum)) =>
          if AcceptedBounds(minimum, maximum) then Some(RangeSettings(minimum, maximum)) else None
        case (_, _) => None
      else None
    else if ruleType == "regex" then
      if fields.Keys == {"pattern"} && fields["pattern"].Text? && AcceptedPattern(w, fields["pattern"].text) then
        Some(RegexSettings(fields["pattern"].text))
      else None
    else None
  }

  function DumpBoundary(boundary: Option<Float>): Json {
    match boundary
    case None => Null
    case Some(f) => Real(f)
  }

  /** The JSON form that is stored. */
  function Dump(settings: Settings): Fields {
    match settings
    case NoSettings => map[]
    case TypeSettings(expectedType) => map["expected_type" := Text(TypeName(expectedType))]
    case RangeSettings(minimum, maximum) =>
      map["minimum" := DumpBoundary(minimum), "maximum" := DumpBoundary(maximum)]
    case RegexSettings(pattern) => map["pattern" := Text(pattern)]
  }

  /** JSONB has no U+0000: the database refuses an object with a text that contains one. */
  predicate StorableFields(fields: Fields) {
    forall key :: key in fields && fields[key].Text? ==> '\0' !in fields[key].text
  }

  predicate ValidTargetColumn(w: World, column: string) {
    && column == Strip(w, column)
    && 1 <= |column| <= MAX_COLUMN_NAME_LENGTH
    && forall i :: 0 <= i < |column| ==> !w.isControl(column[i])
  }

  /** The definition a request would store, if the schema and the column policy accept it. */
  function Admit(w: World, request: RuleRequest): Option<Definition> {
    match ParseSettings(w, request.ruleType, request.configuration)
    case None => None
    case Some(settings) =>
      if ValidTargetColumn(w, request.targetColumn) then
        Some(Definition(request.ruleType, request.targetColumn, Dump(settings)))
      else None
  }

  // ---------------------------------------------------------------- what the schema accepts

  /** A target column has 1 to 128 characters, no control character, and no white space at its ends. */
  lemma TargetColumnIff(w: World, column: string)
    ensures ValidTargetColumn(w, column) <==>
      && 1 <= |column| <= 128
      && !w.isSpace(column[0]) && !w.isSpace(column[|column| - 1])
      && forall i :: 0 <= i < |column| ==> !w.isControl(column[i])
  {
    TrimmedIff(w, column);
  }

  /** Required and unique rules have no configuration, and no rule has another type. */
  lemma PlainRuleIff(w: World, request: RuleRequest)
    requires request.ruleType !in {"type", "range", "regex"}
    ensures Admit(w, request).Some? <==>
      && request.ruleType in {"required", "unique"} && request.configuration == map[]
      && ValidTargetColumn(w, request.targetColumn)
    ensures Admit(w, request).Some? ==>
      Admit(w, request) == Some(Definition(request.ruleType, request.targetColumn, map[]))
  {
  }

  /** A type rule names one of six types and nothing else. */
  lemma TypeRuleIff(w: World, column: string, fields: Fields)
    ensures Admit(w, RuleRequest("type", column, fields)).Some? <==>
      && ValidTargetColumn(w, column)
      && exists name :: name in {"string", "integer", "number", "boolean", "date", "datetime"}
                        && fields == map["expected_type" := Text(name)]
    ensures Admit(w, RuleRequest("type", column, fields)).Some? ==>
      Admit(w, RuleRequest("type", column, fields)) == Some(Definition("type", column, fields))
  {
    if fields.Keys == {"expected_type"} && fields["expected_type"].Text? {
      assert fields == map["expected_type" := Text(fields["expected_type"].text)];
    }
  }

  lemma PatternIs(w: World, fields: Fields, pattern: string)
    requires fields.Keys == {"pattern"} && fields["pattern"] == Text(pattern)
    ensures fields == map["pattern" := Text(pattern)] == Dump(RegexSettings(pattern))
    ensures ParseSettings(w, "regex", fields).Some? <==>
      1 <= |pattern| <= 256 && w.compiles(pattern) && forall i :: 0 <= i < |pattern| ==> !w.isControl(pattern[i])
    ensures ParseSettings(w, "regex", fields).Some? ==>
      ParseSettings(w, "regex", fields) == Some(RegexSettings(pattern))
  {
  }

  /** A regex rule has a pattern of 1 to 256 characters without control characters that compiles. */
  lemma RegexRuleIff(w: World, column: string, fields: Fields)
    ensures Admit(w, RuleRequest("regex", column, fields)).Some? <==>
      && ValidTargetColumn(w, column)
      && exists pattern :: fields == map["pattern" := Text(pattern)] && 1 <= |pattern| <= 256 && w.compiles(pattern)
                           && forall i :: 0 <= i < |pattern| ==> !w.isControl(pattern[i])
    ensures Admit(w, RuleRequest("regex", column, fields)).Some? ==>
      Admit(w, RuleRequest("regex", column, fields)) == Some(Definition("regex", column, fields))
  {
    if fields.Keys == {"pattern"} && fields["pattern"].Text? {
      PatternIs(w, fields, fields["pattern"].text);
    }
  }

  /** The JSON number denotes the finite binary64 value `x`. */
  predicate Denotes(w: World, number: Json, x: real) {
    number == Real(Finite(x)) || (number.Int? && w.toFloat(number.integer) == Finite(x))
  }

  /** The request leaves the boundary open, and null is stored. */
  predicate Open(fields: Fields, stored: Fields, key: string) {
    (key !in fields || fields[key] == Null) && key in stored && stored[key] == Null
  }

  /** The request sets the boundary to `x`, and `x` is stored. */
  predicate Bounded(w: World, fields: Fields, stored: Fields, key: string, x: real) {
    key in fields && Denotes(w, fields[key], x) && key in stored && stored[key] == Real(Finite(x))
  }

  lemma BoundaryIff(w: World, fields: Fields, key: string)
    ensures ParseBoundary(w, fields, key) == Ok(None) <==> key !in fields || fields[key] == Null
    ensures forall x :: ParseBoundary(w, fields, key) == Ok(Some(Finite(x))) <==>
      key in fields && Denotes(w, fields[key], x)
    ensures ParseBoundary(w, fields, key).Ok? && ParseBoundary(w, fields, key).value.Some? ==>
      ParseBoundary(w, fields, key).value.value.Finite?
  {
  }

  lemma StoredBoundaryIff(w: World, fields: Fields, stored: Fields, key: string)
    requires ParseBoundary(w, fields, key).Ok? && key in stored
    ensures var boundary := ParseBoundary(w, fields, key).value;
      && (stored[key] == DumpBoundary(boundary) && boundary.None? <==> Open(fields, stored, key))
      && forall x :: stored[key] == DumpBoundary(boundary) && boundary == Some(Finite(x))
                     <==> Bounded(w, fields, stored, key, x)
  {
    BoundaryIff(w, fields, key);
  }

  lemma StoredRangeIff(stored: Fields, minimum: Option<Float>, maximum: Option<Float>)
    ensures stored == Dump(RangeSettings(minimum, maximum)) <==>
      && stored.Keys == {"minimum", "maximum"}
      && stored["minimum"] == DumpBoundary(minimum) && stored["maximum"] == DumpBoundary(maximum)
  {
    var dumped := Dump(RangeSettings(minimum, maximum));
    assert dumped.Keys == {"minimum", "maximum"};
    assert dumped["minimum"] == DumpBoundary(minimum) && dumped["maximum"] == DumpBoundary(maximum);
  }

  /** A range rule has a finite minimum, a finite maximum or both in order; what is open is stored as null. */
  lemma RangeRuleIff(w: World, column: string, fields: Fields, stored: Fields)
    ensures Admit(w, RuleRequest("range", column, fields)) == Some(Definition("range", column, stored)) <==>
      && ValidTargetColumn(w, column)
      && fields.Keys <= {"minimum", "maximum"} == stored.Keys
      && (|| (exists x :: Bounded(w, fields, stored, "minimum", x) && Open(fields, stored, "maximum"))
          || (exists y :: Open(fields, stored, "minimum") && Bounded(w, fields, stored, "maximum", y))
          || (exists x, y :: Bounded(w, fields, stored, "minimum", x) && Bounded(w, fields, stored, "maximum", y)
                             && x <= y))
  {
    BoundaryIff(w, fields, "minimum");
    BoundaryIff(w, fields, "maximum");
    var low, high := ParseBoundary(w, fields, "minimum"), ParseBoundary(w, fields, "maximum");
    if low.Ok? && high.Ok? {
      StoredRangeIff(stored, low.value, high.value);
      if stored.Keys == {"minimum", "maximum"} {
        StoredBoundaryIff(w, fields, stored, "minimum");
        StoredBoundaryIff(w, fields, stored, "maximum");
      }
    }
  }

  lemma OtherSettingsAreStorable(settings: Settings)
    requires !settings.RegexSettings?
    ensures StorableFields(Dump(settings))
  {
  }

  /** No rule the schema admits is refused by JSONB, because patterns contain no control character. */
  lemma AdmittedIsStorable(w: World, request: RuleRequest)
    requires Admit(w, request).Some? && w.isControl('\0')
    ensures StorableFields(Admit(w, request).value.configuration)
  {
    var settings := ParseSettings(w, request.ruleType, request.configuration).value;
    if !settings.RegexSettings? {
      OtherSettingsAreStorable(settings);
    }
  }

  // ---------------------------------------------------------------- adapter

  function SpecOf(ruleId: nat, definition: Definition, settings: Settings): RuleSpec
  {
    match settings
    case NoSettings =>
      if definition.ruleType == "required" then Required(ruleId, definition.targetColumn)
      else Unique(ruleId, definition.targetColumn)
    case TypeSettings(expectedType) => TypeOf(ruleId, definition.targetColumn, expectedType)
    case RangeSettings(minimum, maximum) => Range(ruleId, definition.targetColumn, minimum, maximum)
    case RegexSettings(pattern) => Regex(ruleId, definition.targetColumn, pattern)
  }

  function AdaptRule(w: World, rule: RuleSnapshot): Option<AdaptedRule> {
    match ParseSettings(w, rule.definition.ruleType, rule.definition.configuration)
    case None => None
    case Some(settings) =>
      Some(AdaptedRule(rule.ruleId,
                       rule.definition.(configuration := Dump(settings)),
                       SpecOf(rule.ruleId, rule.definition, settings)))
  }

  /** All rules in order, or nothing as soon as one stored rule is invalid. */
  function AdaptRules(w: World, rules: seq<RuleSnapshot>): (r: Option<seq<AdaptedRule>>)
    ensures r.Some? <==> forall i :: 0 <= i < |rules| ==> AdaptRule(w, rules[i]).Some?
    ensures r.Some? ==> |r.value| == |rules|
    ensures r.Some? ==> forall i :: 0 <= i < |rules| ==> Some(r.value[i]) == AdaptRule(w, rules[i])
  {
    if rules == [] then Some([])
    else
      match (AdaptRules(w, rules[..|rules| - 1]), AdaptRule(w, rules[|rules| - 1]))
      case (Some(adapted), Some(last)) => Some(adapted + [last])
      case (_, _) =>
        assert forall i :: 0 <= i < |rules| - 1 ==> rules[..|rules| - 1][i] == rules[i];
        None
  }

  // ---------------------------------------------------------------- layers agree

  lemma TypeNamesRoundTrip(expectedType: ExpectedType)
    ensures ParseTypeName(TypeName(expectedType)) == Some(expectedType)
  {
  }

  /** Dumping an accepted configuration and validating it again gives it back unchanged. */
  lemma SettingsRoundTrip(w: World, ruleType: string, fields: Fields)
    requires ParseSettings(w, ruleType, fields).Some?
    ensures ParseSettings(w, ruleType, Dump(ParseSettings(w, ruleType, fields).value))
         == ParseSettings(w, ruleType, fields)
  {
    var settings := ParseSettings(w, ruleType, fields).value;
    match settings
    case NoSettings =>
    case TypeSettings(expectedType) =>
      TypeNamesRoundTrip(expectedType);
      assert Dump(settings).Keys == {"expected_type"};
    case RangeSettings(minimum, maximum) =>
      assert Dump(settings).Keys == {"minimum", "maximum"};
      assert Dump(settings)["minimum"] == DumpBoundary(minimum);
      assert Dump(settings)["maximum"] == DumpBoundary(maximum);
    case RegexSettings(pattern) =>
      assert Dump(settings).Keys == {"pattern"};
  }

  /** A definition only the request schema can have produced. */
  ghost predicate Admitted(w: World, definition: Definition) {
    exists request :: Admit(w, request) == Some(definition)
  }

  /** Every admitted rule is read back with the same definition, whatever its type. */
  lemma AdmittedRuleAdapts(w: World, rule: RuleSnapshot)
    requires Admitted(w, rule.definition)
    ensures AdaptRule(w, rule).Some?
    ensures AdaptRule(w, rule).value.definition == rule.definition
    ensures AdaptRule(w, rule).value.ruleId == rule.ruleId == AdaptRule(w, rule).value.spec.ruleId
    ensures AdaptRule(w, rule).value.spec.targetColumn == rule.definition.targetColumn != ""
  {
    var request :| Admit(w, request) == Some(rule.definition);
    SettingsRoundTrip(w, request.ruleType, request.configuration);
  }

  lemma AdmittedRulesAdapt(w: World, rules: seq<RuleSnapshot>)
    requires forall i :: 0 <= i < |rules| ==> Admitted(w, rules[i].definition)
    ensures AdaptRules(w, rules).Some?
    ensures |AdaptRules(w, rules).value| == |rules|
    ensures forall i :: 0 <= i < |rules| ==>
      && AdaptRules(w, rules).value[i].ruleId == rules[i].ruleId
      && AdaptRules(w, rules).value[i].definition == rules[i].definition
  {
    forall i | 0 <= i < |rules| ensures AdaptRule(w, rules[i]).Some?
      && AdaptRule(w, rules[i]).value.ruleId == rules[i].ruleId
      && AdaptRule(w, rules[i]).value.definition == rules[i].definition
    {
      AdmittedRuleAdapts(w, rules[i]);
    }
  }

  /**
   Two requests of one type on one column store equal definitions exactly when they mean the
   same: the unique constraint on stored JSON compares meanings, not spellings.
   */
  lemma EqualDefinitionsMeanTheSame(w: World, a: RuleRequest, b: RuleRequest)
    requires Admit(w, a).Some? && Admit(w, b).Some?
    ensures Admit(w, a) == Admit(w, b) <==>
      && a.ruleType == b.ruleType
      && a.targetColumn == b.targetColumn
      && ParseSettings(w, a.ruleType, a.configuration) == ParseSettings(w, b.ruleType, b.configuration)
  {
    SettingsRoundTrip(w, a.ruleType, a.configuration);
    SettingsRoundTrip(w, b.ruleType, b.configuration);
  }
}
