/** `AnalysisService` as one request runs it; `Protocol` models the interleavings. */
module AnalysisService {
  import opened Wrappers
  import opened External
  import opened Csv
  import opened Configuration
  import opened Engine
  import opened Score
  import opened History
  import opened Meanings
  import opened Protocol
  import opened Storage
  import Datasets = DatasetService

  datatype AnalysisError =
    | NotFound
    | NotReady
    | RequiresRules
    | Conflict
    | Refused          // the database does not accept a sample
    | DataIntegrity(error: IntegrityError)

  /** The checks of `_read_verified_content`, in the order in which they fire. */
  function Verified(w: World, file: Option<Bytes>, source: Source): Result<Bytes, IntegrityError> {
    if file.None? then Err(Unavailable)
    else if |file.value| > MAX_CSV_BYTES then Err(TooLarge)
    else if |file.value| != source.size then Err(SizeMismatch)
    else if w.digest(file.value) != source.digest then Err(HashMismatch)
    else Ok(file.value)
  }

  /** The rows of an analysis as the caller of `create_analysis` sees them. */
  function Created(analysisId: nat, row: AnalysisRow, computation: Computation): Option<Detail> {
    DetailOf(analysisId, row, Enumerated(computation.results))
  }

  /** The rows to insert, unless the engine's output contradicts the snapshot. */
  function RowsToPersist(source: Source, adapted: seq<AdaptedRule>, engineResult: EngineResult)
    : Option<seq<ResultRow>>
  {
    if |adapted| != |engineResult.ruleResults| || engineResult.totalRows != source.rowCount then None
    else ResultRows(source.rowCount, adapted, engineResult.ruleResults)
  }

  function RecordOf(datasetId: nat, source: Source, engineResult: EngineResult, createdAt: int): AnalysisRow {
    AnalysisRow(datasetId, source, TotalViolations(engineResult.ruleResults),
                CalculateQualityScore(engineResult.ruleResults), createdAt)
  }

  /** `Compute` is the pipeline of `create_analysis`. */
  lemma ComputationSteps(w: World, source: Source, rules: seq<RuleSnapshot>, content: Bytes,
                         frame: Frame, adapted: seq<AdaptedRule>)
    requires LoadTable(w, content, source.columns, source.rowCount) == Ok(frame)
    requires AdaptRules(w, rules) == Some(adapted) && ValidInputs(w, frame, SpecsOf(adapted))
    ensures forall i :: 0 <= i < |adapted| ==> ValidRule(w, frame, SpecsOf(adapted)[i])
    ensures
      var engineResult := EngineResult(|frame.rows|, Results(w, frame, SpecsOf(adapted)));
      var rows := RowsToPersist(source, adapted, engineResult);
      if rows.None? then Compute(w, source, rules, content).Err?
      else Compute(w, source, rules, content) ==
           Ok(Computation(CalculateQualityScore(engineResult.ruleResults),
                          TotalViolations(engineResult.ruleResults), rows.value))
  {
  }

  /** The persistence side never refuses the samples the engine produced. */
  lemma ComputedRowsReadBack(w: World, source: Source, rules: seq<RuleSnapshot>, content: Bytes,
                             analysisId: nat, row: AnalysisRow)
    ensures Compute(w, source, rules, content).Ok? ==>
      Created(analysisId, row, Compute(w, source, rules, content).value).Some?
  {
    if Compute(w, source, rules, content).Ok? {
      var rows := Compute(w, source, rules, content).value.results;
      var frame := LoadTable(w, content, source.columns, source.rowCount).value;
      var adapted := AdaptRules(w, rules).value;
      forall i | 0 <= i < |rows| ensures ReferenceOf(Enumerated(rows)[i].0, Enumerated(rows)[i].1).Some? {
        SamplesRoundTrip(w, adapted[i].spec, ColumnOf(frame, adapted[i].spec.targetColumn), adapted[i]);
      }
      assert ReferencesOf(Enumerated(rows)).Some?;
    }
  }

  /** What is read back after an insertion is what the inserting call returned. */
  lemma GetReturnsWhatCreateReturned(table: ResultTable, analysisId: nat, row: AnalysisRow, computation: Computation,
                                     listing: seq<(nat, ResultRow)>)
    requires forall p: nat :: (analysisId, p) !in table
    requires IsListing(InsertResults(table, analysisId, computation.results), analysisId, listing)
    ensures DetailOf(analysisId, row, listing) == Created(analysisId, row, computation)
  {
    var after := InsertResults(table, analysisId, computation.results);
    ListingIsEnumeration(after, analysisId, computation.results, listing);
  }

  /**
   Result by result, the detail shows a row that reports on one rule and on the column of the
   content that the rule names; its totals sum the rows up.
   */
  ghost predicate IsTrue(w: World, detail: Detail, listing: seq<RuleSnapshot>, content: Bytes) {
    exists rows: seq<ResultRow> ::
      && |rows| == |detail.ruleResults|
      && (forall p :: 0 <= p < |rows| ==> Shows(detail.ruleResults[p], p, rows[p]))
      && AllReport(w, listing, content, rows)
      && SumsUp(rows, detail.totalViolations, detail.score)
  }

  lemma DetailIsTrue(w: World, rows: seq<ResultRow>, listing: seq<RuleSnapshot>, content: Bytes, analysisId: nat,
                     row: AnalysisRow)
    requires DetailOf(analysisId, row, Enumerated(rows)).Some?
    requires AllReport(w, listing, content, rows) && SumsUp(rows, row.totalViolations, row.score)
    ensures IsTrue(w, DetailOf(analysisId, row, Enumerated(rows)).value, listing, content)
  {
    DetailShows(analysisId, row, Enumerated(rows));
    assert forall p :: 0 <= p < |rows| ==> Enumerated(rows)[p] == (p, rows[p]);
  }

  lemma CreatedIsTrue(w: World, source: Source, listing: seq<RuleSnapshot>, content: Bytes, analysisId: nat,
                      row: AnalysisRow)
    requires Compute(w, source, listing, content).Ok?
    requires var computation := Compute(w, source, listing, content).value;
      && row.totalViolations == computation.totalViolations && row.score == computation.score
      && Created(analysisId, row, computation).Some?
    ensures IsTrue(w, Created(analysisId, row, Compute(w, source, listing, content).value).value, listing, content)
  {
    ComputationsReport(w, source, listing, content);
    ComputationSumsUp(w, source, listing, content);
    DetailIsTrue(w, Compute(w, source, listing, content).value.results, listing, content, analysisId, row);
  }

  /** So does every answer of the result query. */
  lemma AnswersReadAlike(table: ResultTable, analysisId: nat, row: AnalysisRow, computation: Computation)
    requires forall p: nat :: (analysisId, p) !in table
    ensures forall answer :: IsListing(InsertResults(table, analysisId, computation.results), analysisId, answer) ==>
      DetailOf(analysisId, row, answer) == Created(analysisId, row, computation)
  {
    forall answer | IsListing(InsertResults(table, analysisId, computation.results), analysisId, answer)
      ensures DetailOf(analysisId, row, answer) == Created(analysisId, row, computation)
    {
      GetReturnsWhatCreateReturned(table, analysisId, row, computation, answer);
    }
  }

  /** The active file of a complete row. */
  function ActiveFile(files: map<FileName, Bytes>, row: DatasetRow): Option<Bytes>
    requires Complete(row)
  {
    var name := Stored(row.storageKey.value);
    if name in files then Some(files[name]) else None
  }

  /** Snapshot, computation and insertion all succeed on these tables and files. */
  predicate CanRecord(w: World, datasets: map<nat, DatasetRow>, files: map<FileName, Bytes>, ownerId: nat,
                      datasetId: nat, listing: seq<RuleSnapshot>)
  {
    && datasetId in datasets && datasets[datasetId].ownerId == ownerId
    && Complete(datasets[datasetId]) && listing != []
    && var source := SourceOf(datasets[datasetId]);
       var content := Verified(w, ActiveFile(files, datasets[datasetId]), source);
    && content.Ok?
    && Compute(w, source, listing, content.value).Ok?
    && Storable(Compute(w, source, listing, content.value).value.results)
  }

  class Service {
    const w: World
    const datasets: Datasets.Service
    const storage: LocalDatasetStorage
    var analyses: map<nat, AnalysisRow>
    var results: ResultTable

    /** Results belong to an analysis: the foreign key. */
    ghost predicate Valid()
      reads this
    {
      forall x: nat, p: nat :: (x, p) in results ==> x in analyses
    }

    constructor (w: World, datasets: Datasets.Service, storage: LocalDatasetStorage)
      ensures this.w == w && this.datasets == datasets && this.storage == storage
      ensures Valid() && analyses == map[] && results == map[]
    {
      this.w := w;
      this.datasets := datasets;
      this.storage := storage;
      analyses := map[];
      results := map[];
    }

    /** Reads the active file in chunks, hashing as it goes, then checks size and digest. */
    method ReadVerifiedContent(key: nat, source: Source) returns (r: Result<Bytes, IntegrityError>)
      ensures r == Verified(w, if Stored(key) in storage.files then Some(storage.files[Stored(key)]) else None, source)
    {
      var handle := storage.OpenBinary(key);
      if handle.Err? {
        return Err(Unavailable);
      }
      var file := handle.value;
      var content: Bytes, digested: Bytes := [], [];
      while |content| < |file|
        invariant content <= file && |content| <= MAX_CSV_BYTES && digested == content
        decreases |file| - |content|
      {
        var chunk := file[|content|..|content| + Min(READ_CHUNK_BYTES, |file| - |content|)];
        assert content + chunk == file[..|content| + |chunk|];
        content := content + chunk;
        if |content| > MAX_CSV_BYTES {
          return Err(TooLarge);
        }
        digested := digested + chunk;
      }
      assert content == file;
      if |content| != source.size {
        return Err(SizeMismatch);
      }
      if w.digest(digested) != source.digest {
        return Err(HashMismatch);
      }
      return Ok(content);
    }

    /** Copies the row, the rules and the file; `listing` is the answer of the ordered rule query. */
    method CaptureSnapshot(ownerId: nat, datasetId: nat, listing: seq<RuleSnapshot>)
      returns (r: Result<(Source, Bytes), AnalysisError>)
      requires IsRuleListing(datasets.rules, datasetId, listing)
      ensures r.Ok? <==>
        && datasetId in datasets.datasets && datasets.datasets[datasetId].ownerId == ownerId
        && Complete(datasets.datasets[datasetId])
        && listing != []
        && VerifiedOf(datasets.datasets[datasetId]).Ok?
      ensures r.Ok? ==>
        && r.value.0 == SourceOf(datasets.datasets[datasetId])
        && VerifiedOf(datasets.datasets[datasetId]) == Ok(r.value.1)
      ensures r.Ok? ==>
        var name := Stored(datasets.datasets[datasetId].storageKey.value);
        name in storage.files && storage.files[name] == r.value.1
    {
      if !Owned(datasets.datasets, datasetId, ownerId) {
        return Err(NotFound);
      }
      var row := datasets.datasets[datasetId];
      if !Complete(row) {
        return Err(NotReady);
      }
      if listing == [] {
        return Err(RequiresRules);
      }
      var read := ReadVerifiedContent(row.storageKey.value, SourceOf(row));
      if read.Err? {
        return Err(DataIntegrity(read.error));
      }
      return Ok((SourceOf(row), read.value));
    }

    /** What reading the row's active file yields now. */
    function VerifiedOf(row: DatasetRow): Result<Bytes, IntegrityError>
      requires Complete(row)
      reads storage
    {
      Verified(w, ActiveFile(storage.files, row), SourceOf(row))
    }

    /** Builds all rows before anything is written, then inserts the analysis and its results at once. */
    method PersistAnalysis(datasetId: nat, source: Source, adapted: seq<AdaptedRule>, engineResult: EngineResult,
                           analysisId: nat, createdAt: int)
      returns (r: Result<Detail, AnalysisError>)
      requires Valid()
      modifies this`analyses, this`results
      ensures Valid()
      ensures
        var rows := RowsToPersist(source, adapted, engineResult);
        if rows.None? || analysisId in old(analyses) || !Storable(rows.value) then
          r.Err? && analyses == old(analyses) && results == old(results)
        else
          var row := RecordOf(datasetId, source, engineResult, createdAt);
          var detail := DetailOf(analysisId, row, Enumerated(rows.value));
          && analyses == old(analyses)[analysisId := row]
          && results == InsertResults(old(results), analysisId, rows.value)
          && (r.Ok? <==> detail.Some?) && (r.Ok? ==> r.value == detail.value)
    {
      if |adapted| != |engineResult.ruleResults| {
        return Err(DataIntegrity(ResultCountMismatch));
      }
      if engineResult.totalRows != source.rowCount {
        return Err(DataIntegrity(EngineRowCountMismatch));
      }
      var row := RecordOf(datasetId, source, engineResult, createdAt);
      var models := ResultModels(source.rowCount, adapted, engineResult.ruleResults);
      if models.Err? {
        return Err(DataIntegrity(models.error));
      }
      if analysisId in analyses {
        return Err(Conflict);
      }
      if !Storable(models.value) {
        return Err(Refused);
      }
      analyses := analyses[analysisId := row];
      results := InsertResults(results, analysisId, models.value);
      var detail := DetailOf(analysisId, row, Enumerated(models.value));
      return if detail.Some? then Ok(detail.value) else Err(DataIntegrity(InvalidSample));
    }

    /**
     `create_analysis`. It succeeds exactly when a snapshot can be captured and computed and
     its samples are accepted; the caller then gets what the computation on that snapshot says,
     exactly that is stored, and every answer of the result query is read back as it.
     */
    method CreateAnalysis(ownerId: nat, datasetId: nat, listing: seq<RuleSnapshot>, analysisId: nat, createdAt: int)
      returns (r: Result<Detail, AnalysisError>)
      requires Valid() && IsRuleListing(datasets.rules, datasetId, listing)
      modifies this`analyses, this`results
      ensures Valid()
      ensures r.Ok? <==> Recordable(ownerId, datasetId, listing) && analysisId !in old(analyses)
      ensures r.Ok? ==>
        var source := SourceOf(datasets.datasets[datasetId]);
        var content := VerifiedOf(datasets.datasets[datasetId]).value;
        var computation := Compute(w, source, listing, content).value;
        var row := AnalysisRow(datasetId, source, computation.totalViolations, computation.score, createdAt);
        && analyses == old(analyses)[analysisId := row]
        && results == InsertResults(old(results), analysisId, computation.results)
        && Created(analysisId, row, computation) == Some(r.value)
      ensures r.Ok? ==> forall answer :: IsListing(results, analysisId, answer) ==>
        DetailOf(analysisId, analyses[analysisId], answer) == Some(r.value)
      ensures r.Ok? ==>
        && datasetId in datasets.datasets && datasets.datasets[datasetId].ownerId == ownerId
        && datasets.datasets[datasetId].storageKey.Some?
        && Stored(datasets.datasets[datasetId].storageKey.value) in storage.files
        && var content := storage.files[Stored(datasets.datasets[datasetId].storageKey.value)];
           IsSourceOf(w, r.value.source, datasets.datasets[datasetId], content) && IsTrue(w, r.value, listing, content)
      ensures r.Err? ==> analyses == old(analyses) && results == old(results)
    {
      var captured := CaptureSnapshot(ownerId, datasetId, listing);
      if captured.Err? {
        return Err(captured.error);
      }
      ghost var row := datasets.datasets[datasetId];
      assert storage.files[Stored(row.storageKey.value)] == captured.value.1;
      r := ComputeAndPersist(datasetId, captured.value.0, listing, captured.value.1, analysisId, createdAt);
      if r.Ok? {
        SourceIs(w, row, listing, captured.value.1);
        CreatedIsTrue(w, captured.value.0, listing, captured.value.1, analysisId, analyses[analysisId]);
        AnswersReadAlike(old(results), analysisId, analyses[analysisId],
                         Compute(w, captured.value.0, listing, captured.value.1).value);
      }
    }

    /** Materialise, adapt, validate, persist: the second half of `create_analysis`, outside the lock. */
    method ComputeAndPersist(datasetId: nat, source: Source, listing: seq<RuleSnapshot>, content: Bytes,
                             analysisId: nat, createdAt: int)
      returns (r: Result<Detail, AnalysisError>)
      requires Valid()
      modifies this`analyses, this`results
      ensures Valid()
      ensures
        var computed := Compute(w, source, listing, content);
        if computed.Err? || analysisId in old(analyses) || !Storable(computed.value.results) then
          r.Err? && analyses == old(analyses) && results == old(results)
        else
          var row := AnalysisRow(datasetId, source, computed.value.totalViolations, computed.value.score, createdAt);
          && analyses == old(analyses)[analysisId := row]
          && results == InsertResults(old(results), analysisId, computed.value.results)
          && r.Ok? && Created(analysisId, row, computed.value) == Some(r.value)
    {
      var loaded := LoadTable(w, content, source.columns, source.rowCount);
      if loaded.Err? {
        assert Compute(w, source, listing, content).Err?;
        return Err(DataIntegrity(loaded.error));
      }
      var adapted := AdaptRules(w, listing);
      if adapted.None? {
        assert Compute(w, source, listing, content).Err?;
        return Err(DataIntegrity(InvalidStoredRule));
      }
      var validated := Validate(w, loaded.value, SpecsOf(adapted.value));
      if validated.Err? {
        assert Compute(w, source, listing, content).Err?;
        return Err(DataIntegrity(EngineRejectedState));
      }
      ComputationSteps(w, source, listing, content, loaded.value, adapted.value);
      ComputedRowsReadBack(w, source, listing, content, analysisId,
                           RecordOf(datasetId, source, validated.value, createdAt));
      r := PersistAnalysis(datasetId, source, adapted.value, validated.value, analysisId, createdAt);
    }

    /** Snapshot, computation and insertion all succeed in this state. */
    predicate Recordable(ownerId: nat, datasetId: nat, listing: seq<RuleSnapshot>)
      reads datasets, storage
    {
      CanRecord(w, datasets.datasets, storage.files, ownerId, datasetId, listing)
    }

    /** `get_analysis`; `listing` is the answer of the ordered result query. */
    method GetAnalysis(ownerId: nat, datasetId: nat, analysisId: nat, listing: seq<(nat, ResultRow)>)
      returns (r: Result<Detail, AnalysisError>)
      requires IsListing(results, analysisId, listing)
      ensures r.Ok? ==>
        && analysisId in analyses && DetailOf(analysisId, analyses[analysisId], listing) == Some(r.value)
      ensures r == Err(NotFound) <==>
        !(&& datasetId in datasets.datasets && datasets.datasets[datasetId].ownerId == ownerId
          && analysisId in analyses && analyses[analysisId].datasetId == datasetId)
      ensures r.Ok? ==>
        var row := analyses[analysisId];
        && r.value.analysisId == analysisId && r.value.datasetId == datasetId && r.value.source == row.source
        && r.value.score == row.score && r.value.totalViolations == row.totalViolations
        && r.value.createdAt == row.createdAt && r.value.sourceRowCount == row.source.rowCount
        && |r.value.ruleResults| == |listing|
        && forall i :: 0 <= i < |listing| ==>
             Shows(r.value.ruleResults[i], listing[i].0, results[(analysisId, listing[i].0)])
      ensures r.Err? && r.error != NotFound ==> DetailOf(analysisId, analyses[analysisId], listing).None?
    {
      if !Owned(datasets.datasets, datasetId, ownerId) || analysisId !in analyses
         || analyses[analysisId].datasetId != datasetId
      {
        return Err(NotFound);
      }
      var detail := DetailOf(analysisId, analyses[analysisId], listing);
      if detail.Some? {
        DetailShows(analysisId, analyses[analysisId], listing);
      }
      return if detail.Some? then Ok(detail.value) else Err(DataIntegrity(InvalidSample));
    }
  }
}
