/** A run in which the storage root ends up with a file that no row names, although nothing crashed. */
module Witness {
  import opened External
  import opened Csv
  import opened Protocol
  import opened OtherSteps
  import opened Safety
  import opened Completion
  import opened Liveness

  const OWNER: nat := 7
  const DATASET: nat := 0

  predicate Benign(events: seq<Event>) {
    forall i :: 0 <= i < |events| ==> !events[i].Fault? && !events[i].Crash?
  }

  predicate Acceptable(v: Services, source: Bytes) {
    && 1 <= |source| <= MAX_CSV_BYTES && v.scan(source).Some?
    && 1 <= |v.scan(source).value.columns| <= MAX_COLUMNS
  }

  /** One upload has succeeded and another one to the same dataset has just begun. */
  ghost predicate SecondBegins(v: Services, s: State, filename: string, source: Bytes) {
    && s.operations.Keys == {0, 1} && Ended(s.operations[0])
    && s.operations[1] == Uploading(NewUpload(OWNER, DATASET, filename, source))
    && Owned(s.datasets, DATASET, OWNER) && s.rules == map[]
    && s.datasets[DATASET].createdAt == 0 && s.datasets[DATASET].storageKey.Some?
  }

  lemma FirstBegins(v: Services, filename: string, source: Bytes) returns (events: seq<Event>)
    ensures Benign(events)
    ensures Run(v, events)
         == Put(INITIAL.(issued := {DATASET}, datasets := map[DATASET := EMPTY_ROW.(ownerId := OWNER)]), 0,
                Uploading(NewUpload(OWNER, DATASET, filename, source)))
  {
    var created := [CreateDataset(DATASET, OWNER, 0)];
    events := created + [Begin(0, UploadCsv(OWNER, DATASET, filename, source))];
    assert created[..0] == [] && events[..1] == created;
    assert Run(v, []) == INITIAL;
    assert Run(v, created) == INITIAL.(issued := {DATASET}, datasets := map[DATASET := EMPTY_ROW.(ownerId := OWNER)]);
  }

  lemma FirstCanSucceed(v: Services, s: State, filename: string, source: Bytes) returns (t: State)
    requires Acceptable(v, source)
    requires s == Put(INITIAL.(issued := {DATASET}, datasets := map[DATASET := EMPTY_ROW.(ownerId := OWNER)]), 0,
                      Uploading(NewUpload(OWNER, DATASET, filename, source)))
    ensures Leads(v, s, 0, t) && 0 in t.operations && Ended(t.operations[0])
    ensures Owned(t.datasets, DATASET, OWNER) && t.rules == map[]
    ensures t.datasets[DATASET].createdAt == 0 && t.datasets[DATASET].storageKey.Some?
  {
    t := UploadCanSucceed(v, s, 0, OWNER, DATASET, filename, source, 1, Choice(2, 0, []));
  }

  lemma SecondCanBegin(v: Services, events: seq<Event>, filename: string, source: Bytes)
    requires var s := Run(v, events);
      && s.operations.Keys == {0} && Ended(s.operations[0])
      && Owned(s.datasets, DATASET, OWNER) && s.rules == map[]
      && s.datasets[DATASET].createdAt == 0 && s.datasets[DATASET].storageKey.Some?
    ensures SecondBegins(v, Run(v, events + [Begin(1, UploadCsv(OWNER, DATASET, filename, source))]), filename, source)
  {
    var after := events + [Begin(1, UploadCsv(OWNER, DATASET, filename, source))];
    assert after[..|events|] == events;
    assert 1 !in Run(v, events).operations.Keys;
  }

  lemma FirstUpload(v: Services, filename: string, source: Bytes) returns (events: seq<Event>)
    requires Acceptable(v, source)
    ensures Benign(events) && SecondBegins(v, Run(v, events), filename, source)
  {
    var begun := FirstBegins(v, filename, source);
    var t := FirstCanSucceed(v, Run(v, begun), filename, source);
    var more := LeadsIsARun(v, begun, 0, t);
    events := begun + more + [Begin(1, UploadCsv(OWNER, DATASET, filename, source))];
    assert t.operations.Keys == {0};
    SecondCanBegin(v, begun + more, filename, source);
  }

  /** No operation of the two holds the row, so nobody does. */
  lemma RowIsFree(s: State)
    requires LocksSound(s) && s.operations.Keys == {0, 1} && !HoldsLock(s.operations[0]) && !HoldsLock(s.operations[1])
    ensures s.locks == map[]
  {
    assert forall o :: o in s.operations ==> o in s.operations.Keys;
    assert forall d :: d !in s.locks;
  }

  /** The second upload has committed, and has the first one's file to remove. */
  ghost predicate SecondCommitted(s: State) {
    && s.operations.Keys == {0, 1} && Ended(s.operations[0]) && s.operations[1].Uploading?
    && s.operations[1].upload.at.Committed? && s.operations[1].upload.oldKey.Some?
    && s.operations[1].upload.candidate.Some? && s.operations[1].upload.committed
  }

  lemma SecondCanCommit(v: Services, s: State, filename: string, source: Bytes, n: nat) returns (t: State)
    requires Acceptable(v, source) && SecondBegins(v, s, filename, source) && s.locks == map[]
    requires n !in s.issued && n + 1 !in s.issued
    ensures Leads(v, s, 1, t) && 1 in t.operations && t.operations[1].Uploading?
    ensures var u := t.operations[1].upload;
      u.at.Committed? && u.oldKey.Some? && u.candidate.Some? && u.committed
  {
    var s1, u1 := ReceivePhase(v, s, 1, NewUpload(OWNER, DATASET, filename, source), n, Choice(n + 1, 0, []));
    var s2, u2 := InstallPhase(v, s1, 1, u1);
    var s3, u3 := CommitPhase(v, s2, 1, u2);
    LeadsOn(v, s, 1, s1, s2);
    LeadsOn(v, s, 1, s2, s3);
    t := s3;
  }

  lemma SecondUpload(v: Services, events: seq<Event>, filename: string, source: Bytes) returns (more: seq<Event>)
    requires Lawful(v) && Acceptable(v, source) && SecondBegins(v, Run(v, events), filename, source)
    ensures OnlyAdvances(more) && SecondCommitted(Run(v, events + more))
  {
    var s := Run(v, events);
    RunLocks(v, events);
    RowIsFree(s);
    var n := BoundExists(s.issued);
    var t := SecondCanCommit(v, s, filename, source, n);
    more := LeadsIsARun(v, events, 1, t);
  }

  lemma FaultKeepsOthers(v: Services, events: seq<Event>)
    requires 1 in Run(v, events).operations
    ensures var t := Run(v, events + [Fault(1, UnexpectedError)]);
      1 in t.operations && t.operations == Run(v, events).operations[1 := t.operations[1]]
  {
    assert (events + [Fault(1, UnexpectedError)])[..|events|] == events;
    assert LockFollows(Run(v, events), Run(v, events + [Fault(1, UnexpectedError)]), 1, Run(v, events).operations[1]);
  }

  /** An exception while the session is closed, and the handler that then runs. */
  lemma CloseFails(v: Services, events: seq<Event>) returns (more: seq<Event>)
    requires Lawful(v) && SecondCommitted(Run(v, events))
    ensures OnlyAdvances(more)
    ensures var t := Run(v, events + [Fault(1, UnexpectedError)] + more);
      Quiescent(t) && exists f :: f in t.files && f !in ActiveNames(t)
  {
    var s, u := Run(v, events), Run(v, events).operations[1].upload;
    CloseErrorOrphansOldFile(v, events, 1, UnexpectedError);
    var failed := events + [Fault(1, UnexpectedError)];
    var f := Stored(u.oldKey.value);
    FaultKeepsOthers(v, events);
    var t := HandlerCanFinish(v, Run(v, failed), 1, u.(at := Discarding));
    more := LeadsIsARun(v, failed, 1, t);
    assert f in t.files && ActiveNames(t) == ActiveNames(Run(v, failed));
    assert t.operations.Keys == {0, 1};
  }

  /**
   The storage root need not be clean although nothing crashed and no removal failed: in this
   run the only exception is one while the session is closed after a successful commit.
   */
  lemma CloseErrorLeavesAFile(v: Services, filename: string, source: Bytes) returns (events: seq<Event>, j: nat)
    requires Lawful(v) && Acceptable(v, source)
    ensures j < |events| && events[j] == Fault(1, UnexpectedError)
    ensures forall i :: 0 <= i < |events| && i != j ==> !events[i].Fault? && !events[i].Crash?
    ensures var s := Run(v, events[..j]);
      1 in s.operations && s.operations[1].Uploading? && s.operations[1].upload.at.Committed?
    ensures Quiescent(Run(v, events)) && Run(v, events).files.Keys != ActiveNames(Run(v, events))
  {
    var first := FirstUpload(v, filename, source);
    var second := SecondUpload(v, first, filename, source);
    var third := CloseFails(v, first + second);
    events, j := first + second + [Fault(1, UnexpectedError)] + third, |first + second|;
    assert events[..j] == first + second;
  }
}
