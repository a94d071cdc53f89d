# DataCheck: a verified model of the backend

DataCheck stores one CSV file per dataset, lets its owner attach validation rules, and
records analyses of the file against the rules. This project models the four parts of its
backend whose guarantees hold over whole runs, and proves those guarantees in Dafny 4.11.
`dafny verify dfyconfig.toml` checks everything.

**The dataset protocol.** `Protocol` is a transition system. Uploads, rule creations, rule
deletions and analyses interleave step by step; one step is one statement that becomes
visible at once (a file-system call, a query under a row lock, a commit). At every step an
operation may instead raise, which takes it to the enclosing handler, or die with its
process. The state holds the committed rows, the files below the storage root, the row
locks and each operation's program point and local variables. `holders` is history that no
step reads: it says who answers for a file name. `Invariant` states what every event keeps;
`UploadSteps` and `OtherSteps` prove it step by step with one rely/guarantee argument;
`Safety` draws the conclusions about rows, rules, locks and files, and names the two cases
in which a guarantee stops. `Snapshots` proves that analyses are linearizable and that
history never changes. `Completion` shows that each operation can run to success, with the
effect its service method promises. `Liveness` proves deadlock freedom: from every reachable
state all operations can end without leaving anything behind. `Ownership` proves that only the
owner of a dataset ever changes anything of it. `Witness` is a run that leaves
a file behind although nothing crashed. All of these hold
for arbitrary digest, scan, schema and analysis functions; `Deployment` plugs in DataCheck's
own and removes the last hypothesis.

**The services.** `Storage`, `DatasetService`, `AnalysisService`, `Sessions` and
`IdentityService` are classes in the shape of the source: their methods update fields and
files in place, return errors where the source raises, and promise the exact new state.
A method that runs a query receives the answer as an argument and requires that it is one;
`Draining.BatchExists`, `Liveness.ListingExists` and `Snapshots.RuleListingIsUnique` say that
the answers exist or are unique. `Requests` proves that each request on its own has the same outcome in
the protocol as in its method: for `UploadCsv` rows, files and success for every combination of statements
that raise, for `CreateRule`, `DeleteRule` and `CreateAnalysis` the tables and success.

**The engine and the score.** `Rules` and `Engine` prove the evaluation loops against a
declarative meaning of a rule on a column. `Meanings` reads a stored rule off its type name and its JSON
configuration, and the cells off the records of the CSV file, and proves that every recorded count, sample
and score is what they say. `Score` models the decimal arithmetic digit by
digit, for every precision, and proves that rounding twice is rounding once. `Configuration` and `History` prove
that the layers from request schema to stored result agree.

**Sessions, logins, tokens.** `SessionRuns` proves what holds of the session table under
every clock, and that cleanup cannot be observed. `Draining` counts batches. `Login` is the
optimistic password check as a protocol. `Tokens` is the codec as a bijection.

`External.World` gathers what the code calls but does not define: SHA-256, the CSV reader,
character classes, the regular-expression engine, the number and date grammars. Every
theorem holds for all possible values of it. Scores are counted in hundredths; instants are
integers; identifiers are natural numbers.

## Assumptions

- Generated identifiers, tokens and salted hashes are new. A step that is offered a used one does not happen.
- A rename, a commit and a rollback each happen at once. A row lock is released with its transaction.
- Postgres runs at READ COMMITTED: a statement that waited for a row lock sees the newest row.
- Between the database's commit and the assignment `committed = True` nothing raises, and between `write_candidate`
  returning and the `try` that follows it nothing raises.
  `Safety.LostAcknowledgementBreaksIntegrity` shows that the first of these is needed.
- One function stands for both CSV readers: what the upload's scan reads as records, the analysis reads as well.
- Nothing but the modelled operations touches the tables and the storage root.
- Fewer than 10^35 cells pass, or at most 10^35 are evaluated, as in every file of at most 10485760 bytes with a
  realistic number of rules. `Score.ScoreBoundIsNeeded` gives totals beyond the bound for which rounding twice
  and rounding once differ.
- The database refuses rows that break a check or unique constraint, and violation samples with U+0000, which JSONB
  does not have. It refuses nothing else that the modelled operations write; in particular no rule configuration
  contains U+0000 (`Configuration.AdmittedIsStorable`).

## Where the code and its promises differ

- Closing the database session may raise after the commit. The handler then runs, and the code after the
  `try` that removes the superseded file does not (`backend/datacheck/datasets/service.py:174-186`). The row
  stays correct, as the comment there promises, but the old file is left behind although nothing crashed and no
  removal failed. `Safety.CloseErrorOrphansOldFile` proves it for every run and
  `Witness.CloseErrorLeavesAFile` gives one. `Safety.OnlyActiveFilesRemain` says exactly when the storage root
  holds the active files and nothing else.
- An analysis can fail although nothing raises around it: a violating cell with U+0000 among its first 128 characters
  becomes a sample that the database refuses, and every further analysis of that file with that rule fails alike.
  `Deployment.AnalysisIsRecordedIff` says exactly when an undisturbed analysis is recorded.
- A cleanup can log an active user out: if a request uses a clock behind that of an earlier cleanup, the cleanup
  may have removed a session that was still live at the request's time. `SessionRuns.ClockAheadIsNoticed` gives a
  run that shows it. `SessionRuns.CleanupIsUnobservableIff` says exactly which runs are unaffected: those in which
  no request names a removed session at a time at which the removed row was still live. Clocks in order are enough
  for that (`SessionRuns.CleanupSimulates`), but not necessary (`SessionRuns.ClockAheadMayGoUnnoticed`).

## Model

| member | source | states |
|---|---|---|
| `Safety.RunKeeps` | backend/datacheck/datasets/service.py:121-276 | Every state reachable by any interleaving of uploads, rule changes and analyses, with exceptions and crashes at any step, satisfies the whole invariant of rows, rules, names, locks and local variables. |
| `Safety.EventKeeps` | backend/datacheck/datasets/service.py:121-276 | One event of any kind, fault and crash included, keeps that invariant. |
| `Invariant.StepKeeps` | backend/datacheck/datasets/service.py:139-196 | A step that establishes its own operation's facts and disturbs nothing others rely on keeps the invariant for all operations. |
| `Invariant.UploadDependsOn` | backend/datacheck/datasets/service.py:139-196 | What an upload knows at any point depends on nothing but its three file names, its locked row and the rules below that row. |
| `Safety.CommittedRowsAreIntact` | backend/datacheck/datasets/service.py:139-196 | In every reachable state a committed row has no upload at all, or its storage key names an existing file whose size, digest, columns and row count are the row's. |
| `Safety.CommittedRowsAreWithinLimits` | backend/datacheck/datasets/models.py:38-75 | In every reachable state an uploaded file has 1 to 10485760 bytes and 1 to 256 columns, and the row's times are in order. |
| `Safety.CommittedRulesMatchHeader` | backend/datacheck/datasets/service.py:157-158 | In every reachable state each committed rule targets a column of its dataset's active header, and no two rules of a dataset have one definition. |
| `Safety.LocksExclude` | backend/datacheck/datasets/repositories.py:35-43 | No two operations ever hold the row lock of one dataset. |
| `Safety.AnalysesNeverFailIntegrity` | backend/datacheck/analysis/service.py:213-229 | No analysis of any run fails an availability, limit, size, digest or persistence check, and a computed one has one result per captured rule. |
| `Safety.FilesAccounted` | backend/datacheck/datasets/storage.py:25-79 | In every reachable state the storage root holds exactly the active files, one per uploaded dataset, the files an unfinished upload answers for, and orphans; the three sets are disjoint. |
| `Safety.QuiescentFiles` | backend/datacheck/datasets/service.py:177-195 | With no operation in flight every file is active or an orphan. |
| `Safety.OrphansAreTheAbandonedFiles` | backend/datacheck/datasets/service.py:177-195 | The orphans are exactly the files that crashes and exceptions without a later removal left behind. |
| `Safety.OrphansGrowByLeftBehind` | backend/datacheck/datasets/service.py:177-195 | One event orphans exactly the files its operation gives up, and no event adopts an orphan. |
| `Safety.OnlyActiveFilesRemain` | backend/datacheck/datasets/service.py:177-195 | With nothing in flight, the root holds the active files and nothing else if and only if no event of the run was a crash, or an exception at a point that gives up, of an upload that owned an existing file by its program point and locals. |
| `Safety.HeldFilesAreOwned` | backend/datacheck/datasets/service.py:139-195 | In every reachable state the files an upload is responsible for are those its program point and local variables name: the candidate up to the rename, the new file up to the commit, the superseded file after it. |
| `Safety.UndisturbedRunsLeaveActiveFiles` | backend/datacheck/datasets/service.py:177-195 | Without crashes and abandoning exceptions, whatever else failed, only the active files are left. |
| `Safety.FailedUploadLeavesNothing` | backend/datacheck/datasets/service.py:177-184 | An upload that failed without committing leaves no row with its key and no file of its own, except one it had to abandon. |
| `Safety.FailedUploadChangesNoRow` | backend/datacheck/datasets/service.py:148-184 | No step of an upload that fails without committing changes any committed row. |
| `Safety.RowsChangeOnlyByCommits` | backend/datacheck/datasets/service.py:163-176 | A row changes only in the commit of an upload to it, and that upload then knows that it has committed. |
| `Safety.SettledForever` | backend/datacheck/datasets/service.py:174-180 | An upload that has committed never forgets it, whatever is raised later. |
| `Ownership.OnlyOwnersChangeRows` | backend/datacheck/datasets/service.py:130-156 | In every run, a step that changes the row of a dataset belongs to an upload whose owner is the owner in that row. |
| `Ownership.OnlyOwnersCreateRules` | backend/datacheck/datasets/service.py:219-227 | In every run, a new rule is the one a creation was called with, on a dataset whose owner called it. |
| `Ownership.OnlyOwnersDeleteRules` | backend/datacheck/datasets/service.py:257-276 | In every run, no rule ever changes, and one disappears only in a deletion that names it, called by the owner of its dataset. |
| `Ownership.OnlyOwnersRecordAnalyses` | backend/datacheck/analysis/service.py:173-184 | In every run, an analysis is recorded only for a dataset whose owner called it. |
| `Ownership.StrangersFail` | backend/datacheck/datasets/service.py:130-137 | In every run, an operation on a dataset that does not exist or has another owner never succeeds. |
| `Ownership.OperationsWereRequested` | backend/datacheck/datasets/service.py:121-129 | Every operation of a run works with the owner, dataset, file or rule of the request that began it. |
| `Ownership.OwnersAreCreators` | backend/datacheck/datasets/repositories.py:17-43 | A dataset belongs for ever to the user who created it. |
| `Safety.CloseErrorOrphansOldFile` | backend/datacheck/datasets/service.py:174-186 | In every run, an exception while the session is closed after the commit leaves the superseded file in the storage root, as an orphan that no row names, and orphans nothing else. |
| `Witness.CloseErrorLeavesAFile` | backend/datacheck/datasets/service.py:174-186 | For every acceptable file there is a run with that exception and no other, and no crash, that ends with a file in the root that no row names. |
| `Safety.LostAcknowledgementBreaksIntegrity` | backend/datacheck/datasets/service.py:174-184 | If the commit took effect but an exception came before the flag was set, the handler removes the file of the committed row. |
| `Safety.LostAcknowledgementBreaksIntegrityIff` | backend/datacheck/datasets/service.py:174-184 | At any point of any run, after such a commit every row is still intact, and stays so through the handler if and only if one of the handler's two removals raises. |
| `UploadSteps.CheckUploadOwnerKeeps` | backend/datacheck/datasets/service.py:130-137 | The unlocked owner check keeps the invariant, accepting or refusing. |
| `UploadSteps.OpenCandidateKeeps` | backend/datacheck/datasets/storage.py:38-41 | Creating the candidate keeps the invariant, and the upload answers for the new file. |
| `UploadSteps.WriteChunkKeeps` | backend/datacheck/datasets/storage.py:44-49 | One turn of the chunk loop keeps the candidate a prefix of the upload within the byte limit, complete at the end. |
| `UploadSteps.CleanUpWriteKeeps` | backend/datacheck/datasets/storage.py:50-52 | Unlinking a partial candidate keeps the invariant and leaves the failed upload without files. |
| `UploadSteps.ScanCandidateKeeps` | backend/datacheck/datasets/service.py:143-145 | Scanning the complete candidate and reserving a storage key keeps the invariant. |
| `UploadSteps.LockForUploadKeeps` | backend/datacheck/datasets/service.py:152-156 | Taking the row lock freezes the row for the upload; a missing row leads to the handler. |
| `UploadSteps.CheckCompatibleKeeps` | backend/datacheck/datasets/service.py:157-161 | Past the check every rule of the dataset keeps its column, although rules may still be deleted without the lock. |
| `UploadSteps.InstallKeeps` | backend/datacheck/datasets/storage.py:62-65 | The rename moves the complete content to the marked key and consumes the candidate. |
| `UploadSteps.FlushRowKeeps` | backend/datacheck/datasets/service.py:163-171 | Only a row that satisfies the check constraints goes on to the commit; otherwise the transaction rolls back. |
| `UploadSteps.CommitUploadKeeps` | backend/datacheck/datasets/service.py:149-176 | The commit makes row, rules and files agree again at once, handing the new file to the row and the old one to the upload. |
| `UploadSteps.CloseSessionKeeps` | backend/datacheck/datasets/service.py:186 | After the commit the upload goes on to remove the old file if there is one. |
| `UploadSteps.RemoveOldKeeps` | backend/datacheck/datasets/service.py:186-195 | Removing the superseded file harms no row and no analysis. |
| `UploadSteps.DiscardCandidateKeeps` | backend/datacheck/datasets/service.py:177-179 | Discarding the candidate keeps the invariant; the installed file is next only if its key is marked and not committed. |
| `UploadSteps.RemoveInstalledKeeps` | backend/datacheck/datasets/service.py:179-183 | Removing the installed file harms no row. |
| `UploadSteps.FaultUploadKeeps` | backend/datacheck/datasets/service.py:139-196 | An exception at any step of an upload keeps the invariant. |
| `OtherSteps.StoreRuleKeeps` | backend/datacheck/datasets/service.py:228-233 | Inserting the rule under the row lock keeps targets within the header and definitions unique. |
| `OtherSteps.LockForRuleKeeps` | backend/datacheck/datasets/service.py:219-227 | The locked checks of rule creation keep the invariant, whichever way they decide. |
| `OtherSteps.DeletionKeeps` | backend/datacheck/datasets/service.py:264-276 | Deleting a rule without any lock keeps the invariant of every other operation. |
| `OtherSteps.LockForAnalysisKeeps` | backend/datacheck/analysis/service.py:173-188 | An analysis past the readiness check holds the lock of a complete row. |
| `OtherSteps.ListingSound` | backend/datacheck/datasets/repositories.py:77-84 | The rules an analysis copies were all admitted, are distinct and target columns of the locked header. |
| `OtherSteps.OpenActiveKeeps` | backend/datacheck/analysis/service.py:216-217 | The active file of the locked row is there when it is opened. |
| `OtherSteps.ReadChunkKeeps` | backend/datacheck/analysis/service.py:218-229 | The chunks read are a prefix of the described file, so limit, size and digest checks pass. |
| `OtherSteps.RecordAnalysisKeeps` | backend/datacheck/analysis/service.py:262-265 | Inserting an analysis touches no row, rule, file or lock. |
| `OtherSteps.DieKeeps` | backend/datacheck/datasets/service.py:139-196 | A process dying at any point, rolled back by the database, keeps the invariant. |
| `Snapshots.SnapshotsAreInstants` | backend/datacheck/analysis/service.py:170-229 | The row, rules and bytes an analysis captured are the committed state of its dataset at one instant while it ran. |
| `Snapshots.RecordsComeFromInstants` | backend/datacheck/analysis/service.py:96-126 | Every recorded analysis, with exactly one result per captured rule at positions 0 to n-1, is the computation on the committed state of one instant. |
| `Snapshots.HistoryIsPermanent` | backend/datacheck/analysis/service.py:262-265 | No later event changes a recorded analysis or its results, or adds or removes one of its results. |
| `Snapshots.EventHistory` | backend/datacheck/analysis/service.py:262-265 | Every event but the recording transaction leaves the history as it is, that one only adds to it, and results always belong to an analysis. |
| `Snapshots.RecordAnalysisTraced` | backend/datacheck/analysis/service.py:231-266 | What the recording transaction inserts is exactly the computation on the snapshot. |
| `Snapshots.RuleListingIsUnique` | backend/datacheck/datasets/repositories.py:77-84 | The ordered rule query has one possible answer. |
| `Snapshots.ListingIsOldestFirst` | backend/datacheck/datasets/repositories.py:77-84 | The answer of the rule query is exactly the rules of the dataset, the oldest first and ties by identifier. |
| `Deployment.ServicesAreLawful` | backend/datacheck/analysis/service.py:96-126 | For DataCheck's own scan, schema and engine, no check between snapshot and persistence fires on a snapshot whose parts agree. |
| `Deployment.RecordedAnalysesAreTrue` | backend/datacheck/analysis/service.py:96-126 | In every run, the rules committed at one instant and the file committed at that instant explain a recorded analysis completely: each result counts the cells of the column the rule names that break it or are ignored by it, shows the first 20 breaking rows, the totals and the score sum the results up, and the recorded source is the file's. |
| `Meanings.VerdictMeans` | backend/datacheck/validation/rules.py:34-163 | A cell breaks a required rule exactly if it is blank, and another rule exactly if it is not blank and is a repeat, fails the grammar named in the JSON, lies outside the finite boundaries in the JSON, or does not contain the pattern in the JSON. |
| `Meanings.ComputationReports` | backend/datacheck/analysis/service.py:231-306 | Counts and samples of every computed result are what the stored rule says about the fields of the CSV records below the header field it names. |
| `Meanings.ComputationSumsUp` | backend/datacheck/analysis/service.py:246-261 | The totals of an analysis are the sums over its results, and the score is null exactly if nothing was evaluated and otherwise the rounded percentage of passed among evaluated cells. |
| `Deployment.AnalysesReadBackForever` | backend/datacheck/analysis/service.py:152-168 | In every later state the result query of a recorded analysis has an answer, and whatever the answer is it reads as one and the same detail, positions 0 to n-1. |
| `Deployment.GetReturnsWhatCreateReturned` | backend/datacheck/analysis/service.py:152-168 | What `create_analysis` returned is what `get_analysis` returns in that state and in every later state of the run: the query has an answer there, and every answer reads so. |
| `Deployment.AnalysisIsRecordedIff` | backend/datacheck/analysis/service.py:262-265 | An undisturbed analysis of a complete dataset with rules ends, and it is recorded if and only if no preview it samples contains U+0000. |
| `Deployment.StorableIff` | backend/datacheck/analysis/service.py:284-291 | A coherent snapshot always computes, and the database accepts the rows exactly if no preview of a sampled cell contains U+0000. |
| `Completion.UploadCanSucceed` | backend/datacheck/datasets/service.py:121-196 | From any state in which the row is free, an acceptable upload can run to success alone, with exactly the row and the files promised. |
| `Completion.HandlerCanFinish` | backend/datacheck/datasets/service.py:177-184 | From the start of the exception handler, an upload that nothing disturbs ends, having removed exactly its candidate and its uncommitted installed file. |
| `Completion.RuleCanBeCreated` | backend/datacheck/datasets/service.py:217-234 | A rule that owner, header and uniqueness allow can be created, and nothing else changes. |
| `Completion.RuleCanBeDeleted` | backend/datacheck/datasets/service.py:264-276 | An existing rule can be deleted, whoever holds the row lock. |
| `Completion.AnalysisCanSucceed` | backend/datacheck/analysis/service.py:96-126 | From any state the invariant describes in which the row is free, an analysis of a complete dataset with rules can run to its end alone; it records the computation on that state if the database accepts the samples, and nothing otherwise. |
| `Completion.ReadPhase` | backend/datacheck/analysis/service.py:213-229 | The read loop reaches the end of a file of the recorded size and digest and captures all of it. |
| `Completion.WritePhase` | backend/datacheck/datasets/storage.py:44-49 | The chunk loop copies the whole upload if it is within the byte limit. |
| `Liveness.EverythingCanEnd` | backend/datacheck/datasets/service.py:121-276 | From every reachable state some continuation without faults and crashes ends every operation in flight and orphans nothing. |
| `Liveness.OperationCanEnd` | backend/datacheck/datasets/service.py:121-276 | An operation whose row nobody else holds can end by its own steps, changing no other operation and orphaning nothing. |
| `Liveness.RunLocks` | backend/datacheck/datasets/repositories.py:35-43 | In every reachable state each row lock is held by one unfinished operation on that row, at a point at which it holds it. |
| `Liveness.ListingExists` | backend/datacheck/datasets/repositories.py:77-84 | The ordered rule query always has an answer. |
| `Requests.UploadCsvIsARequest` | backend/datacheck/datasets/service.py:121-196 | For every combination of statements that raise, the protocol with faults at exactly these points ends in exactly the rows and files of the service method, and in success exactly when the method returns a row. |
| `Requests.CreateRuleIsARequest` | backend/datacheck/datasets/service.py:198-234 | The protocol stores the rule exactly when the method accepts it, with the same table, and otherwise changes nothing. |
| `Requests.DeleteRuleIsARequest` | backend/datacheck/datasets/service.py:257-276 | The protocol deletes exactly what the method deletes, and reports it alike. |
| `Requests.CreateAnalysisIsARequest` | backend/datacheck/analysis/service.py:96-126 | The protocol records an analysis exactly when the method does, and then the same rows. |
| `Storage.LocalDatasetStorage.WriteCandidate` | backend/datacheck/datasets/storage.py:37-57 | Success exactly for a new name, at most 10485760 bytes and no exception, with the complete content and its digest; otherwise the files are as before, or hold a partial candidate when its removal failed. |
| `Storage.LocalDatasetStorage.Install` | backend/datacheck/datasets/storage.py:62-65 | The candidate's content moves to the key at once; an exception of the rename changes nothing, one of the mode change comes after it. |
| `Storage.LocalDatasetStorage.DiscardCandidate` | backend/datacheck/datasets/storage.py:67-68 | Exactly the candidate disappears; a missing one is no error. |
| `Storage.LocalDatasetStorage.Remove` | backend/datacheck/datasets/storage.py:70-71 | Exactly the named file disappears; a missing one is no error. |
| `Storage.LocalDatasetStorage.OpenBinary` | backend/datacheck/datasets/storage.py:73-74 | The content of an existing file, or an error. |
| `DatasetService.Service.UploadCsv` | backend/datacheck/datasets/service.py:121-196 | The rows and files after every combination of statements that raise. Success exactly when the caller is the owner in the row, the file is acceptable and nothing raises, except an `OSError` at removing the superseded file; the new row keeps owner and creation and describes the file. Not found exactly for a missing or foreign dataset, with nothing changed; a failure before the commit restores rows and files; any failure after it keeps the new row and file. |
| `DatasetService.OutcomeMeans` | backend/datacheck/datasets/service.py:139-196 | Rows, files and success of an upload in two cases: with a commit exactly the new row and file, without one both as before unless a removal raised. |
| `DatasetService.Service.ReplaceActiveFile` | backend/datacheck/datasets/service.py:148-176 | The transaction commits exactly when owner, rules, check constraints and environment allow it, and reports how far it came. |
| `DatasetService.Service.ReplaceOrCompensate` | backend/datacheck/datasets/service.py:142-184 | The `try` of an upload: it commits exactly under the stated conditions, and any exception leads through the handler. |
| `DatasetService.Service.Compensate` | backend/datacheck/datasets/service.py:177-184 | Which files the exception handler removes, in every combination of its own failures. |
| `DatasetService.CompensationRestores` | backend/datacheck/datasets/service.py:177-184 | Undoing a written candidate, and an installed one, gives back the original files. |
| `DatasetService.Service.CreateRule` | backend/datacheck/datasets/service.py:198-234 | A rule is inserted exactly when the schema admits it, the caller is the owner in the row, the column is in the row and no rule of the dataset has the same type, column and configuration; otherwise nothing changes. |
| `DatasetService.Service.DeleteRule` | backend/datacheck/datasets/service.py:257-276 | Exactly an existing rule of a dataset whose row names the caller as owner is deleted. |
| `AnalysisService.Service.ReadVerifiedContent` | backend/datacheck/analysis/service.py:213-229 | The loop returns the whole file exactly when it exists, is within the limit and has the recorded size and digest, and otherwise the first check that fails. |
| `AnalysisService.Service.CaptureSnapshot` | backend/datacheck/analysis/service.py:170-211 | A snapshot is captured exactly for an owned, complete dataset with rules and a verified file. |
| `AnalysisService.Service.PersistAnalysis` | backend/datacheck/analysis/service.py:231-266 | Consistent results are inserted with their analysis and returned, unless a stored sample cannot be read back, which is reported after the insertion; inconsistent ones insert nothing. |
| `AnalysisService.Service.CreateAnalysis` | backend/datacheck/analysis/service.py:96-126 | Success exactly when the caller is the owner in the row, the snapshot can be captured and computed and the database accepts its samples; what is stored and returned is that computation, every answer of the result query reads as it, and each result is true of the active file cell by cell. |
| `AnalysisService.Service.GetAnalysis` | backend/datacheck/analysis/service.py:152-168 | Not found exactly for a missing analysis or one of a dataset whose row names another owner; otherwise every field of the stored analysis and of its stored results, sample by sample. |
| `AnalysisService.GetReturnsWhatCreateReturned` | backend/datacheck/analysis/service.py:325-382 | Whatever the ordered query answers right after the insertion, `get_analysis` returns what `create_analysis` returned. |
| `AnalysisService.ComputedRowsReadBack` | backend/datacheck/analysis/service.py:365-382 | `_sample_reference` never rejects a sample the engine produced. |
| `History.ResultModels` | backend/datacheck/analysis/service.py:268-306 | The loop builds one row per rule in order, or fails exactly when a result is out of order or its counts do not cover the rows. |
| `History.CoherentSnapshotComputes` | backend/datacheck/analysis/service.py:231-306 | No integrity check fires on a coherent snapshot, and every rule gets the row it means. |
| `History.SamplesRoundTrip` | backend/datacheck/analysis/service.py:365-382 | Stored samples of the engine are read back unchanged. |
| `History.DetailShows` | backend/datacheck/analysis/service.py:325-382 | A detail has every field of the analysis row and, in order, every field and sample of the result rows. |
| `History.ListingIsEnumeration` | backend/datacheck/analysis/repositories.py:61-67 | The ordered result query has one possible answer: the inserted rows at positions 0 to n-1. |
| `History.EnumerationIsListing` | backend/datacheck/analysis/repositories.py:61-67 | The ordered result query has an answer whenever the positions are 0 to n-1. |
| `History.ComputedRowsSatisfyChecks` | backend/datacheck/analysis/models.py:79-113 | No check constraint and not the unique source rule per analysis refuses computed rows, and their counts cover every row. |
| `Csv.Scan` | backend/datacheck/datasets/csv.py:29-49 | The scan accepts exactly the rectangular files with a valid header, and reports their height and columns. |
| `Csv.ScanAcceptsIff` | backend/datacheck/datasets/csv.py:29-69 | The accepted files character by character: records as wide as a header of 1 to 256 different names of 1 to 128 characters, without white space at the ends or control characters. |
| `Csv.ValidateHeader` | backend/datacheck/datasets/csv.py:52-69 | A header is accepted exactly when it has 1 to 256 distinct valid names. |
| `Csv.ScannedContentReadsBack` | backend/datacheck/analysis/adapters.py:45-74 | What the scan accepted is loaded by the analysis with the recorded columns and row count. |
| `Csv.CellsAreFields` | backend/datacheck/analysis/adapters.py:45-74 | The cell in a row and column of the loaded table is the field in that place of the CSV record. |
| `Configuration.SettingsRoundTrip` | backend/datacheck/datasets/schemas.py:46-85 | Dumping an accepted configuration and validating it again gives it back. |
| `Configuration.PlainRuleIff` | backend/datacheck/datasets/schemas.py:46-47 | Required and unique rules are admitted exactly with an empty configuration, and no other type besides the following three. |
| `Configuration.TypeRuleIff` | backend/datacheck/datasets/schemas.py:50-51 | A type rule is admitted exactly if it names one of six types and nothing else. |
| `Configuration.RangeRuleIff` | backend/datacheck/datasets/schemas.py:54-73 | A range rule is admitted exactly with a finite minimum, a finite maximum or both in order; open sides are stored as null. |
| `Configuration.RegexRuleIff` | backend/datacheck/datasets/schemas.py:76-85 | A regex rule is admitted exactly with a pattern of 1 to 256 characters without control characters that compiles. |
| `Configuration.TargetColumnIff` | backend/datacheck/datasets/policies.py:45-53 | A target column has 1 to 128 characters, none of them a control character, and no white space at its ends. |
| `Configuration.AdmittedRulesAdapt` | backend/datacheck/analysis/adapters.py:77-121 | Every list of admitted rules is adapted, in order, with unchanged definitions. |
| `Configuration.AdmittedIsStorable` | backend/datacheck/datasets/policies.py:56-69 | If U+0000 counts as a control character, no configuration the schema admits contains it, so JSONB refuses none. |
| `Configuration.AdaptRules` | backend/datacheck/analysis/adapters.py:77-81 | All rules are adapted in order, or none as soon as one is invalid; what an adapted rule then demands is `Meanings.VerdictMeans`. |
| `Configuration.EqualDefinitionsMeanTheSame` | backend/datacheck/datasets/schemas.py:132-135 | Two requests are stored as equal definitions exactly when they mean the same. |
| `Engine.ValidateRange` | backend/datacheck/validation/engine.py:68-83 | A range is accepted exactly when it has a boundary, all are finite and they are ordered. |
| `Engine.ValidateInputs` | backend/datacheck/validation/engine.py:41-65 | Inputs are accepted exactly when identifiers are distinct and every rule is valid for the table. |
| `Engine.Validate` | backend/datacheck/validation/engine.py:24-38 | Valid inputs yield, in rule order, every rule's meaning on the cells below the name it targets; all others are refused. |
| `Engine.ColumnIs` | backend/datacheck/validation/engine.py:34-36 | A rule looks at the cells below the header name it targets. |
| `Engine.AdmittedRulesAreValidInputs` | backend/datacheck/validation/engine.py:41-83 | Admitted rules with distinct identifiers on existing columns are never refused. |
| `Rules.AppendSample` | backend/datacheck/validation/rules.py:220-231 | A preview of at most 128 characters is appended unless 20 samples are there. |
| `Rules.EvaluateRequired` | backend/datacheck/validation/rules.py:66-82 | The loop computes the meaning of a required rule: exactly the missing cells violate. |
| `Rules.EvaluateUnique` | backend/datacheck/validation/rules.py:85-108 | The loop with its seen-set computes the meaning of a unique rule: a cell violates if and only if it is present and occurs earlier. |
| `Rules.EvaluateNonMissing` | backend/datacheck/validation/rules.py:111-133 | The loop computes the meaning of a type or range rule. |
| `Rules.EvaluateRegex` | backend/datacheck/validation/rules.py:136-163 | The loop over values and matches computes the meaning of a regex rule; a pattern that does not compile is refused. |
| `Rules.EvaluateRule` | backend/datacheck/validation/rules.py:48-63 | Every rule is evaluated to its meaning. |
| `Rules.VerdictsPartition` | backend/datacheck/validation/rules.py:66-163 | Every row passes, violates or is skipped, and is counted once. |
| `Rules.CountsCoverRows` | backend/datacheck/validation/rules.py:234-249 | Evaluated is passed plus violations, and evaluated plus skipped is the number of rows. |
| `Rules.BlankCellsDecide` | backend/datacheck/validation/rules.py:34-36 | Null and all-white-space cells are exactly what a required rule counts as violations and what every other rule skips. |
| `Rules.SamplesAreFirstViolations` | backend/datacheck/validation/rules.py:220-231 | The samples are exactly the first min(20, violations) violating rows in row order, with correct previews. |
| `Rules.UniquePassesOncePerValue` | backend/datacheck/validation/rules.py:85-108 | A unique rule passes one row per distinct present value. |
| `Rules.CountsIgnoreRowOrder` | backend/datacheck/validation/rules.py:85-108 | All counts are the same for every permutation of the rows. |
| `Score.ScoreIsExact` | backend/datacheck/analysis/score.py:9-17 | Dividing at 40 digits and quantizing half-up is rounding the exact percentage half-up once: `Score.RoundsOnceWithin` at the code's precision. |
| `Score.RoundsOnceWithin` | backend/datacheck/analysis/score.py:9-17 | At every precision p from 5 digits on, the two roundings are one half-up rounding of the exact percentage for totals up to 10^(p-5). |
| `Score.RoundingTwice` | backend/datacheck/analysis/score.py:14-17 | The reason: the first rounding error is below the distance to the nearest tie. |
| `Score.RoundingIs` | backend/datacheck/analysis/score.py:14-16 | Each arithmetic step of the decimal context yields the nearest integer, and the even one of two nearest. |
| `Score.RoundsTwiceBeyond` | backend/datacheck/analysis/score.py:14-17 | At every precision p from 5 digits on there are totals around 10^(p-4) and 2 * 10^p for which the two roundings give 0.01 and the rounded percentage is 0.00. |
| `Score.ScoreBoundIsNeeded` | backend/datacheck/analysis/score.py:14-17 | Totals beyond the bound for which the two roundings give another hundredth. |
| `Score.ScoreIsRoundedPercentage` | backend/datacheck/analysis/score.py:9-17 | The score is null exactly when nothing was evaluated, otherwise at most 100.00 and the rounded percentage. |
| `Score.PerfectScore` | backend/datacheck/analysis/score.py:9-17 | The score is 100.00 exactly when at most one evaluated cell in 20000 violates. |
| `Score.ScoreBetweenRuleScores` | backend/datacheck/analysis/score.py:9-17 | The score lies between the least and the greatest score of a rule. |
| `Score.ScoreIgnoresRuleOrder` | backend/datacheck/analysis/score.py:9-17 | The order of the rules does not matter. |
| `Sessions.PredicatesAgree` | backend/datacheck/identity/service.py:312-319 | The touching update, the cleanup query and the classification decide alike. |
| `Sessions.UsableIff` | backend/datacheck/identity/service.py:312-319 | Classification and cleanup query call a session ended exactly if it is revoked, past its expiry or unused for 2 hours. |
| `Sessions.SessionRepository.Add` | backend/datacheck/identity/repositories.py:76-77 | A row is inserted unless its token hash is taken. |
| `Sessions.SessionRepository.AuthenticateAndTouch` | backend/datacheck/identity/repositories.py:79-113 | Exactly a session that is not revoked, not past its expiry and was used less than 2 hours ago is touched: its last use becomes the request's time, or stays if that is later. |
| `Sessions.SessionRepository.DeleteInactiveBatch` | backend/datacheck/identity/repositories.py:121-149 | Only ended, unlocked sessions are deleted, at most `limit`, the earliest expiry first; fewer than `limit` means that no unlocked ended session is left. |
| `SessionRuns.TablesAreSound` | backend/datacheck/identity/models.py:78-93 | Under all clocks every stored session satisfies its check constraints: created, last seen and expiry in order, 12 hours apart. |
| `SessionRuns.StepKeepsSound` | backend/datacheck/identity/repositories.py:88-104 | One transaction keeps the constraints, and the database refuses exactly a log-out dated before the session's creation. |
| `SessionRuns.StepNeverRegresses` | backend/datacheck/identity/repositories.py:96 | No transaction lowers a last-seen time, moves an expiry or undoes a revocation. |
| `SessionRuns.AcceptanceHasEvidence` | backend/datacheck/identity/repositories.py:88-96 | Under all clocks an acceptance at t means issued less than 12 hours and used or issued less than 2 hours before t. |
| `SessionRuns.TouchMovesForward` | backend/datacheck/identity/repositories.py:96 | An accepted use sets the last use to its own time, unless a later one is stored. |
| `SessionRuns.SessionInUseIsAccepted` | backend/datacheck/identity/repositories.py:79-113 | The converse of `SessionRuns.AcceptanceHasEvidence` under all clocks: a session issued and last used at known times is accepted for its user less than 12 and 2 hours after them, unless somebody logged it out or a cleanup found it ended in between. |
| `SessionRuns.RecentlyUsedIsAccepted` | backend/datacheck/identity/repositories.py:79-113 | The same from the requests alone: no log-out in between, and no cleanup with a clock that far ahead. |
| `SessionRuns.LogoutIff` | backend/datacheck/identity/service.py:232-261 | A log-out of a live session succeeds exactly with the session's own CSRF token, and otherwise changes nothing. |
| `SessionRuns.StoredTimesWereRecorded` | backend/datacheck/identity/repositories.py:96 | Every stored last-seen time is that of an issue or acceptance of the run. |
| `SessionRuns.InactivityIsAbsorbing` | backend/datacheck/identity/service.py:312-319 | A revoked session is never accepted again under any clock; an expired or idle one by no request at that time or later. |
| `SessionRuns.CleanupIsUnobservableIff` | backend/datacheck/identity/repositories.py:121-149 | Leaving out all cleanups changes no other outcome of a run if and only if no authentication or log-out names a removed session at a time at which the removed row was still live. |
| `SessionRuns.CleanupSimulates` | backend/datacheck/identity/repositories.py:121-149 | If no request is dated before an earlier cleanup, the runs with and without cleanups stay in step: equal outcomes, and tables that differ exactly in the removed rows. |
| `SessionRuns.CleanupIsUnobservable` | backend/datacheck/identity/service.py:263-278 | With clocks that never run backwards, the run with and the run without cleanups are indistinguishable. |
| `SessionRuns.RemovalIsNoticedIff` | backend/datacheck/identity/repositories.py:128-132 | One authentication or log-out notices the absence of a set of rows if and only if it names one of them while that is live: the step the run-level condition is built on. |
| `SessionRuns.ClockAheadIsNoticed` | backend/datacheck/identity/repositories.py:128-132 | A concrete run in which a cleanup with a clock ahead refuses an active user. |
| `SessionRuns.ClockAheadMayGoUnnoticed` | backend/datacheck/identity/repositories.py:128-132 | A concrete run with a request behind an earlier cleanup that nobody notices: ordered clocks are not necessary. |
| `Draining.DrainingEnds` | backend/datacheck/identity/service.py:263-270 | Draining at one instant takes exactly ceil(n/100) non-empty batches and leaves exactly the active sessions. |
| `Draining.DrainingShrinks` | backend/datacheck/identity/repositories.py:121-149 | Each batch removes 100 inactive sessions or all that are left, and no active one. |
| `Draining.BatchExists` | backend/datacheck/identity/repositories.py:133-139 | The cleanup query always has an answer. |
| `Draining.DrainExists` | backend/datacheck/identity/service.py:263-270 | From every table there is such a chain of batches that ends without an inactive session. |
| `IdentityService.Service.Authenticate` | backend/datacheck/identity/service.py:200-230 | A malformed token changes nothing; any other is one touching transaction, rolled back without a user: success exactly for a stored session that has not ended and whose user exists. |
| `IdentityService.Service.Logout` | backend/datacheck/identity/service.py:232-261 | Revoked, already inactive, wrong token or refused by the database: exactly the outcome of the transaction, and revoked only with the stored CSRF token of a session that has not ended. |
| `IdentityService.Service.CleanupInactiveSessions` | backend/datacheck/identity/service.py:263-270 | One cleanup of at most 100 sessions. |
| `IdentityService.Service.IssueSession` | backend/datacheck/identity/service.py:280-297 | A live session for 12 hours whose bearer token leads to the stored hash. |
| `IdentityService.Service.VerifyCredentials` | backend/datacheck/identity/service.py:152-170 | Success exactly for a known address and a matching password; the hash verified and its replacement are remembered. |
| `IdentityService.Service.InsertVerified` | backend/datacheck/identity/service.py:174-182 | The session is inserted, and the hash replaced, exactly if the verified hash is still stored. |
| `Login.RunKeepsInv` | backend/datacheck/identity/service.py:144-198 | In all interleavings stored and pending hashes are distinct and a replaced hash is in use nowhere. |
| `Login.SessionsWereVerified` | backend/datacheck/identity/service.py:174-182 | Every session a login inserted was inserted while the hash that matched the password was the user's current one. |
| `Login.SessionsAreOfTheNamedUser` | backend/datacheck/identity/service.py:152-182 | Every session a login inserted is one of the user who, when it was inserted, had the address the login was called with and a stored hash that matches the password it was called with. |
| `Login.UnknownAddressIsNeverGranted` | backend/datacheck/identity/service.py:152-162 | A login for an address that nobody ever has is never granted. |
| `Login.SnapshotIff` | backend/datacheck/identity/repositories.py:42-50 | The credentials read are those of the user with the address, and a login is refused at this step exactly if nobody has it. |
| `Login.RightPasswordLogsIn` | backend/datacheck/identity/service.py:144-198 | Alone, a login with the address and the password of a user gets a session of that user, and replaces the hash exactly if it is outdated. |
| `Login.AddressesAreUnique` | backend/datacheck/identity/models.py:20-45 | No two users of any reachable state have one address. |
| `Login.OneReplacementPerHash` | backend/datacheck/identity/service.py:168-182 | Of the logins that verified one hash, one that replaces it is the last to insert a session. |
| `Login.FirstToLockIsGranted` | backend/datacheck/identity/service.py:174-182 | One locked write, the step beside `OneReplacementPerHash`: a waiting login gets its session exactly if its hash is still current. |
| `Login.ReplacedHashIsUseless` | backend/datacheck/identity/service.py:175-177 | Once a replacement was stored, every login still waiting with the old hash is refused. |
| `Tokens.DecodeEncode` | backend/datacheck/identity/tokens.py:20-44 | Every 32-byte token encodes, and decodes to itself. |
| `Tokens.EncodingIsBase64` | backend/datacheck/identity/tokens.py:20-26 | The letters of a token are the 43 base-64 digits of four times its number, spelled in the base64url alphabet. |
| `Tokens.AlphabetIs` | backend/datacheck/identity/tokens.py:29-35 | Exactly the 64 letters of the base64url alphabet are accepted, each with its place as its value. |
| `Tokens.EncodeDecode` | backend/datacheck/identity/tokens.py:29-44 | A string is accepted if and only if it has 43 base64url characters and the last one's two low bits are zero; then it is the encoding of its decoding. |
| `Tokens.CodecIsBijective` | backend/datacheck/identity/tokens.py:20-44 | Different tokens have different, well-formed encodings. |
| `Tokens.PackUnpack` | backend/datacheck/identity/tokens.py:37-43 | Packing undoes unpacking exactly for canonical sextets. |
| `Tokens.UnpackPack` | backend/datacheck/identity/tokens.py:23-26 | Unpacking undoes packing for byte strings of every length. |

## Left out

- HTTP routes, cookies, CORS, error envelopes, the request-size middleware and the frontend: plumbing around the services.
- Listing operations (`list_datasets`, `list_rules`, `list_analyses`) and `register`: single statements without an invariant of their own.
- Filename, dataset-name, email and origin policies: they depend on Unicode tables and change nothing below them.
- The float, date and regular-expression grammars: `External.World` leaves them open.
- Argon2, SHA-256 and randomness: nothing is claimed about collisions; hashes, salts and identifiers are assumed fresh where the assumptions say so.
- SQLAlchemy, migrations, foreign-key locks and deletion of datasets and users by cascade: tables are maps that only the modelled operations change.
- Durability: a crash ends an operation and keeps the files as they are; loss of unsynced data and file modes are not modelled.
- Log records, and the order of log-only branches.
- DatasetService.Service.UploadCsv: states one request on its own; `Requests.UploadCsvIsARequest` ties it to `Protocol`, which has the interleavings. Identifiers already in use are refused by the method and assumed away in the protocol.
- AnalysisService.Service.CreateAnalysis: states one request without exceptions of the environment; `Protocol` has them at every step.
- IdentityService.Service.CleanupInactiveSessions: the query's answer is an argument; that rows stay locked between the query and the deletion is part of treating the transaction as one step.
- Login.SessionsWereVerified: the dummy verification that evens out response times has no effect on the state and is not modelled.
- Liveness.EverythingCanEnd: shows that the operations in flight can end; that a scheduler gives them their steps is not modelled.
- Score.ScoreIsExact: totals beyond 10^35 are excluded by `requires`; `Score.ScoreBoundIsNeeded` shows that some bound is needed.
