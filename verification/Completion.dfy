/**
 The protocol can make progress. An operation that nothing disturbs runs to success, and has
 exactly the effect that the corresponding service method promises.
 */
module Completion {
  import opened Wrappers
  import opened External
  import opened Csv
  import opened Configuration
  import opened History
  import opened Protocol
  import opened Invariant
  import opened OtherSteps

  /** The state after `o` has taken one step per choice. */
  ghost function Drive(v: Services, s: State, o: nat, choices: seq<Choice>): State
    decreases |choices|
  {
    if choices == [] then s
    else Drive(v, Next(v, s, Advance(o, choices[0])), o, choices[1..])
  }

  /** `o` alone can take `s` to `t`. */
  ghost predicate Leads(v: Services, s: State, o: nat, t: State) {
    exists choices :: Drive(v, s, o, choices) == t
  }

  lemma LeadsToItself(v: Services, s: State, o: nat)
    ensures Leads(v, s, o, s)
  {
    assert Drive(v, s, o, []) == s;
  }

  lemma StepLeads(v: Services, s: State, o: nat, c: Choice, next: State, t: State)
    requires Next(v, s, Advance(o, c)) == next && Leads(v, next, o, t)
    ensures Leads(v, s, o, t)
  {
    var choices :| Drive(v, next, o, choices) == t;
    assert ([c] + choices)[1..] == choices;
    assert Drive(v, s, o, [c] + choices) == t;
  }

  lemma {:induction false} DriveAppends(v: Services, s: State, o: nat, first: seq<Choice>, second: seq<Choice>)
    ensures Drive(v, s, o, first + second) == Drive(v, Drive(v, s, o, first), o, second)
    decreases |first|
  {
    if first == [] {
      assert first + second == second;
    } else {
      DriveAppends(v, Next(v, s, Advance(o, first[0])), o, first[1..], second);
      assert (first + second)[1..] == first[1..] + second;
    }
  }

  lemma LeadsOn(v: Services, s: State, o: nat, t: State, r: State)
    requires Leads(v, s, o, t) && Leads(v, t, o, r)
    ensures Leads(v, s, o, r)
  {
    var first :| Drive(v, s, o, first) == t;
    var second :| Drive(v, t, o, second) == r;
    DriveAppends(v, s, o, first, second);
  }

  /** Events that let operations take a step, and nothing else. */
  predicate OnlyAdvances(events: seq<Event>) {
    forall i :: 0 <= i < |events| ==> events[i].Advance?
  }

  lemma {:induction false} DriveIsARun(v: Services, before: seq<Event>, o: nat, choices: seq<Choice>)
    returns (more: seq<Event>)
    ensures OnlyAdvances(more) && Run(v, before + more) == Drive(v, Run(v, before), o, choices)
    decreases |choices|
  {
    if choices == [] {
      more := [];
      assert before + more == before;
      return;
    }
    var first := [Advance(o, choices[0])];
    assert (before + first)[..|before|] == before;
    var rest := DriveIsARun(v, before + first, o, choices[1..]);
    more := first + rest;
    assert before + more == before + first + rest;
  }

  lemma {:induction false} DriveKeepsOthers(v: Services, s: State, o: nat, choices: seq<Choice>)
    requires o in s.operations
    ensures var t := Drive(v, s, o, choices);
      o in t.operations && t.operations == s.operations[o := t.operations[o]]
    decreases |choices|
  {
    if choices != [] {
      var next := Next(v, s, Advance(o, choices[0]));
      assert LockFollows(s, next, o, s.operations[o]);
      DriveKeepsOthers(v, next, o, choices[1..]);
    }
  }

  /** What `o` alone can do to a reachable state is the end of a run without faults. */
  lemma LeadsIsARun(v: Services, events: seq<Event>, o: nat, t: State) returns (more: seq<Event>)
    requires o in Run(v, events).operations && Leads(v, Run(v, events), o, t)
    ensures OnlyAdvances(more) && Run(v, events + more) == t
    ensures o in t.operations && t.operations == Run(v, events).operations[o := t.operations[o]]
  {
    var choices :| Drive(v, Run(v, events), o, choices) == t;
    more := DriveIsARun(v, events, o, choices);
    DriveKeepsOthers(v, Run(v, events), o, choices);
  }

  const NOTHING := Choice(0, 0, [])

  predicate UploadIs(s: State, o: nat, u: Upload) {
    o in s.operations && s.operations[o] == Uploading(u)
  }

  lemma WriteEnds(v: Services, s: State, o: nat, u: Upload)
    requires UploadIs(s, o, u) && u.at.Writing? && u.candidate.Some? && u.written == |u.source|
    requires Candidate(u.candidate.value) in s.files && s.files[Candidate(u.candidate.value)] == u.source[..u.written]
    ensures Next(v, s, Advance(o, NOTHING)) == Put(s, o, At(u, Written))
    ensures s.files == s.files[Candidate(u.candidate.value) := u.source]
  {
    assert u.source[..u.written] == u.source;
    assert Next(v, s, Advance(o, NOTHING)) == WriteChunk(s, o, u);
  }

  lemma WriteContinues(v: Services, s: State, o: nat, u: Upload, next: Upload)
    requires UploadIs(s, o, u) && u.at.Writing? && u.candidate.Some? && u.written < |u.source| <= MAX_CSV_BYTES
    requires next == u.(written := u.written + Min(READ_CHUNK_BYTES, |u.source| - u.written))
    ensures Next(v, s, Advance(o, NOTHING))
         == Put(Write(s, Candidate(u.candidate.value), u.source[..next.written]), o, Uploading(next))
  {
    assert Next(v, s, Advance(o, NOTHING)) == WriteChunk(s, o, u) == Append(s, o, u, next.written);
  }

  lemma LastWritePhase(v: Services, s: State, o: nat, u: Upload) returns (t: State, w: Upload)
    requires UploadIs(s, o, u) && u.at.Writing? && u.candidate.Some? && u.written == |u.source|
    requires Candidate(u.candidate.value) in s.files && s.files[Candidate(u.candidate.value)] == u.source[..u.written]
    ensures w == u.(at := Written) && t == Put(s, o, Uploading(w))
    ensures t.files == s.files[Candidate(u.candidate.value) := u.source] && Leads(v, s, o, t)
  {
    w := u.(at := Written);
    t := Put(s, o, Uploading(w));
    WriteEnds(v, s, o, u);
    LeadsToItself(v, t, o);
    StepLeads(v, s, o, NOTHING, t, t);
  }

  /** The chunk loop copies the whole upload. */
  lemma {:induction false} WritePhase(v: Services, s: State, o: nat, u: Upload) returns (t: State, w: Upload)
    requires UploadIs(s, o, u) && u.at.Writing? && u.candidate.Some?
    requires u.written <= |u.source| <= MAX_CSV_BYTES
    requires Candidate(u.candidate.value) in s.files && s.files[Candidate(u.candidate.value)] == u.source[..u.written]
    ensures w == u.(written := |u.source|, at := Written)
    ensures UploadIs(t, o, w) && t.files == s.files[Candidate(u.candidate.value) := u.source]
    ensures t.datasets == s.datasets && t.rules == s.rules && t.locks == s.locks && t.issued == s.issued
    ensures Leads(v, s, o, t)
    decreases |u.source| - u.written
  {
    if u.written == |u.source| {
      t, w := LastWritePhase(v, s, o, u);
      return;
    }
    var next := u.(written := u.written + Min(READ_CHUNK_BYTES, |u.source| - u.written));
    var s1 := Put(Write(s, Candidate(u.candidate.value), u.source[..next.written]), o, Uploading(next));
    WriteContinues(v, s, o, u, next);
    assert s1.files[Candidate(u.candidate.value) := u.source] == s.files[Candidate(u.candidate.value) := u.source];
    t, w := WritePhase(v, s1, o, next);
    StepLeads(v, s, o, NOTHING, s1, t);
  }

  /** Lock, then check. */
  lemma LockPhase(v: Services, s: State, o: nat, u: Upload) returns (t: State, w: Upload)
    requires UploadIs(s, o, u) && u.at.Scanned?
    requires Owned(s.datasets, u.datasetId, u.ownerId) && u.datasetId !in s.locks
    requires TargetsWithin(s.rules, u.datasetId, u.structure.columns)
    ensures w == u.(row := s.datasets[u.datasetId], oldKey := s.datasets[u.datasetId].storageKey,
                    installedKey := u.newKey, at := Marked)
    ensures UploadIs(t, o, w) && t.datasets == s.datasets && t.rules == s.rules && t.files == s.files
    ensures Leads(v, s, o, t)
  {
    var locked := u.(row := s.datasets[u.datasetId], at := Locked);
    var s1 := Put(Lock(s, u.datasetId, o), o, Uploading(locked));
    assert Next(v, s, Advance(o, NOTHING)) == LockForUpload(s, o, u) == s1;
    w := locked.(oldKey := locked.row.storageKey, installedKey := u.newKey, at := Marked);
    t := Put(s1, o, Uploading(w));
    assert Next(v, s1, Advance(o, NOTHING)) == CheckCompatible(s1, o, locked) == t;
    LeadsToItself(v, t, o);
    StepLeads(v, s1, o, NOTHING, t, t);
    StepLeads(v, s, o, NOTHING, s1, t);
  }

  lemma RenamePhase(v: Services, s: State, o: nat, u: Upload) returns (t: State, w: Upload)
    requires UploadIs(s, o, u) && u.at.Marked? && u.candidate.Some? && u.installedKey.Some?
    requires Candidate(u.candidate.value) in s.files && s.files[Candidate(u.candidate.value)] == u.source
    ensures w == u.(at := Installed)
    ensures UploadIs(t, o, w) && t.datasets == s.datasets && t.rules == s.rules
    ensures t.files == Without(s.files, Candidate(u.candidate.value))[Stored(u.installedKey.value) := u.source]
    ensures Leads(v, s, o, t)
  {
    w := u.(at := Installed);
    t := Put(Rename(s, Candidate(u.candidate.value), Stored(u.installedKey.value)), o, Uploading(w));
    assert Next(v, s, Advance(o, NOTHING)) == Install(s, o, u) == t;
    LeadsToItself(v, t, o);
    StepLeads(v, s, o, NOTHING, t, t);
  }

  /** Lock, check, rename. */
  lemma InstallPhase(v: Services, s: State, o: nat, u: Upload) returns (t: State, w: Upload)
    requires UploadIs(s, o, u) && u.at.Scanned? && u.candidate.Some? && u.newKey.Some?
    requires Owned(s.datasets, u.datasetId, u.ownerId) && u.datasetId !in s.locks
    requires TargetsWithin(s.rules, u.datasetId, u.structure.columns)
    requires Candidate(u.candidate.value) in s.files && s.files[Candidate(u.candidate.value)] == u.source
    ensures w == u.(row := s.datasets[u.datasetId], oldKey := s.datasets[u.datasetId].storageKey,
                    installedKey := u.newKey, at := Installed)
    ensures UploadIs(t, o, w) && t.datasets == s.datasets && t.rules == s.rules
    ensures t.files == Without(s.files, Candidate(u.candidate.value))[Stored(u.newKey.value) := u.source]
    ensures Leads(v, s, o, t)
  {
    var s1, marked := LockPhase(v, s, o, u);
    t, w := RenamePhase(v, s1, o, marked);
    LeadsOn(v, s, o, s1, t);
  }

  /** Flush, commit, close. */
  lemma CommitPhase(v: Services, s: State, o: nat, u: Upload) returns (t: State, w: Upload)
    requires UploadIs(s, o, u) && u.at.Installed? && u.newKey.Some?
    requires SatisfiesChecks(UpdatedRow(v, u))
    ensures w == u.(committed := true, at := Committed)
    ensures UploadIs(t, o, w) && t.rules == s.rules && t.files == s.files
    ensures t.datasets == s.datasets[u.datasetId := UpdatedRow(v, u)]
    ensures Leads(v, s, o, t)
  {
    var s1 := Put(s, o, At(u, Flushed));
    assert Next(v, s, Advance(o, NOTHING)) == FlushRow(v, s, o, u) == s1;
    w := u.(committed := true, at := Committed);
    t := CommitUpload(v, s1, o, u.(at := Flushed));
    assert Next(v, s1, Advance(o, NOTHING)) == t;
    assert t.operations == s1.operations[o := Uploading(w)];
    LeadsToItself(v, t, o);
    StepLeads(v, s1, o, NOTHING, t, t);
    StepLeads(v, s, o, NOTHING, s1, t);
  }

  /** Close, then remove the superseded file. */
  lemma SupersedePhase(v: Services, s: State, o: nat, u: Upload) returns (t: State)
    requires UploadIs(s, o, u) && u.at.Committed? && u.newKey.Some? && u.oldKey != u.newKey
    ensures UploadIs(t, o, u.(at := Succeeded)) && t.rules == s.rules && t.datasets == s.datasets
    ensures t.files == if u.oldKey.Some? then Without(s.files, Stored(u.oldKey.value)) else s.files
    ensures Leads(v, s, o, t)
  {
    if u.oldKey.None? {
      t := Put(s, o, At(u, Succeeded));
      assert Next(v, s, Advance(o, NOTHING)) == CloseSession(s, o, u) == t;
      LeadsToItself(v, t, o);
      StepLeads(v, s, o, NOTHING, t, t);
      return;
    }
    var s1 := Put(s, o, At(u, Superseding));
    assert Next(v, s, Advance(o, NOTHING)) == CloseSession(s, o, u) == s1;
    t := Put(Unlink(s1, Stored(u.oldKey.value)), o, At(u, Succeeded));
    assert Next(v, s1, Advance(o, NOTHING)) == RemoveOld(s1, o, u.(at := Superseding)) == t;
    LeadsToItself(v, t, o);
    StepLeads(v, s1, o, NOTHING, t, t);
    StepLeads(v, s, o, NOTHING, s1, t);
  }

  /** The unlocked owner check and the new candidate. */
  lemma OpenPhase(v: Services, s: State, o: nat, u: Upload, uuid: nat) returns (t: State, w: Upload)
    requires UploadIs(s, o, u) && u.at.Requested? && Owned(s.datasets, u.datasetId, u.ownerId)
    requires uuid !in s.issued
    ensures w == u.(candidate := Some(uuid), written := 0, at := Writing)
    ensures UploadIs(t, o, w) && t.datasets == s.datasets && t.rules == s.rules && t.locks == s.locks
    ensures t.files == s.files[Candidate(uuid) := []] && t.issued == s.issued + {uuid}
    ensures Leads(v, s, o, t)
  {
    var c := NOTHING.(uuid := uuid);
    var s1 := Put(s, o, At(u, Accepted));
    assert Next(v, s, Advance(o, NOTHING)) == CheckUploadOwner(s, o, u) == s1;
    w := u.(candidate := Some(uuid), written := 0, at := Writing);
    t := Put(Write(Reserve(s1, uuid, Candidate(uuid), o), Candidate(uuid), []), o, Uploading(w));
    assert Next(v, s1, Advance(o, c)) == OpenCandidate(s1, o, u.(at := Accepted), uuid) == t;
    LeadsToItself(v, t, o);
    StepLeads(v, s1, o, c, t, t);
    StepLeads(v, s, o, NOTHING, s1, t);
  }

  lemma ScanPhase(v: Services, s: State, o: nat, u: Upload, c: Choice) returns (t: State, w: Upload)
    requires UploadIs(s, o, u) && u.at.Written? && u.candidate.Some? && c.uuid !in s.issued
    requires Candidate(u.candidate.value) in s.files && s.files[Candidate(u.candidate.value)] == u.source
    requires v.scan(u.source).Some?
    ensures w == u.(structure := v.scan(u.source).value, now := c.now, newKey := Some(c.uuid), at := Scanned)
    ensures UploadIs(t, o, w) && t.files == s.files
    ensures t.datasets == s.datasets && t.rules == s.rules && t.locks == s.locks
    ensures Leads(v, s, o, t)
  {
    w := u.(structure := v.scan(u.source).value, now := c.now, newKey := Some(c.uuid), at := Scanned);
    t := Put(Reserve(s, c.uuid, Stored(c.uuid), o), o, Uploading(w));
    assert Next(v, s, Advance(o, c)) == ScanCandidate(v, s, o, u, c) == t;
    LeadsToItself(v, t, o);
    StepLeads(v, s, o, c, t, t);
  }

  function CompletedRow(v: Services, row: DatasetRow, filename: string, source: Bytes, c: Choice): DatasetRow
    requires v.scan(source).Some?
  {
    UploadedRow(row, filename, v.digest(source), |source|, v.scan(source).value, c.uuid, c.now)
  }

  /** Everything from the lock on. */
  lemma ReplacePhase(v: Services, s: State, o: nat, u: Upload) returns (t: State)
    requires UploadIs(s, o, u) && u.at.Scanned? && u.candidate.Some? && u.newKey.Some?
    requires Owned(s.datasets, u.datasetId, u.ownerId) && u.datasetId !in s.locks
    requires TargetsWithin(s.rules, u.datasetId, u.structure.columns)
    requires Candidate(u.candidate.value) in s.files && s.files[Candidate(u.candidate.value)] == u.source
    requires s.datasets[u.datasetId].storageKey != u.newKey
    requires SatisfiesChecks(UpdatedRow(v, u.(row := s.datasets[u.datasetId])))
    ensures o in t.operations && t.operations[o].Uploading? && t.operations[o].upload.at.Succeeded?
    ensures t.rules == s.rules
    ensures t.datasets == s.datasets[u.datasetId := UpdatedRow(v, u.(row := s.datasets[u.datasetId]))]
    ensures t.files == Replaced(Without(s.files, Candidate(u.candidate.value)), u.newKey.value, u.source,
                                s.datasets[u.datasetId].storageKey)
    ensures Leads(v, s, o, t)
  {
    var s1, u1 := InstallPhase(v, s, o, u);
    var s2, u2 := CommitPhase(v, s1, o, u1);
    t := SupersedePhase(v, s2, o, u2);
    LeadsOn(v, s, o, s1, s2);
    LeadsOn(v, s, o, s2, t);
  }

  /** The owner check and the whole candidate. */
  lemma CandidatePhase(v: Services, s: State, o: nat, u: Upload, candidate: nat) returns (t: State, w: Upload)
    requires UploadIs(s, o, u) && u.at.Requested? && Owned(s.datasets, u.datasetId, u.ownerId)
    requires candidate !in s.issued && |u.source| <= MAX_CSV_BYTES
    ensures w == u.(candidate := Some(candidate), written := |u.source|, at := Written)
    ensures UploadIs(t, o, w) && t.datasets == s.datasets && t.rules == s.rules && t.locks == s.locks
    ensures t.files == s.files[Candidate(candidate) := u.source] && t.issued == s.issued + {candidate}
    ensures Leads(v, s, o, t)
  {
    var s1, u1 := OpenPhase(v, s, o, u, candidate);
    assert s1.files[Candidate(candidate)] == [] == u.source[..0];
    t, w := WritePhase(v, s1, o, u1);
    assert s1.files[Candidate(candidate) := u.source] == s.files[Candidate(candidate) := u.source];
    LeadsOn(v, s, o, s1, t);
  }

  /** Everything before the lock. */
  lemma ReceivePhase(v: Services, s: State, o: nat, u: Upload, candidate: nat, c: Choice) returns (t: State, w: Upload)
    requires UploadIs(s, o, u) && u.at.Requested? && Owned(s.datasets, u.datasetId, u.ownerId)
    requires candidate !in s.issued && c.uuid !in s.issued && candidate != c.uuid
    requires |u.source| <= MAX_CSV_BYTES && v.scan(u.source).Some?
    ensures w == u.(candidate := Some(candidate), written := |u.source|, structure := v.scan(u.source).value,
                    now := c.now, newKey := Some(c.uuid), at := Scanned)
    ensures UploadIs(t, o, w) && t.datasets == s.datasets && t.rules == s.rules && t.locks == s.locks
    ensures t.files == s.files[Candidate(candidate) := u.source]
    ensures Leads(v, s, o, t)
  {
    var s1, u1 := CandidatePhase(v, s, o, u, candidate);
    t, w := ScanPhase(v, s1, o, u1, c);
    LeadsOn(v, s, o, s1, t);
  }

  /**
   From any state in which the row is free, an acceptable upload can run to success on its
   own: the row describes the upload, and exactly one file is added and one removed.
   */
  lemma UploadCanSucceed(v: Services, s: State, o: nat, ownerId: nat, d: nat, filename: string, source: Bytes,
                         candidate: nat, c: Choice) returns (t: State)
    requires UploadIs(s, o, NewUpload(ownerId, d, filename, source))
    requires d in s.datasets && s.datasets[d].ownerId == ownerId && d !in s.locks
    requires candidate !in s.issued && c.uuid !in s.issued && candidate != c.uuid
    requires Candidate(candidate) !in s.files && s.datasets[d].storageKey != Some(c.uuid)
    requires 1 <= |source| <= 10_485_760 && v.scan(source).Some? && 1 <= |v.scan(source).value.columns| <= 256
    requires forall r :: r in s.rules && s.rules[r].datasetId == d ==>
      s.rules[r].definition.targetColumn in v.scan(source).value.columns
    requires s.datasets[d].createdAt <= c.now
    ensures Leads(v, s, o, t)
    ensures o in t.operations && t.operations[o].Uploading? && t.operations[o].upload.at.Succeeded?
    ensures t.rules == s.rules
    ensures t.datasets == s.datasets[d := CompletedRow(v, s.datasets[d], filename, source, c)]
    ensures t.files == Replaced(s.files, c.uuid, source, s.datasets[d].storageKey)
  {
    assert SatisfiesChecks(CompletedRow(v, s.datasets[d], filename, source, c));
    assert TargetsWithin(s.rules, d, v.scan(source).value.columns);
    var s3, u3 := ReceivePhase(v, s, o, NewUpload(ownerId, d, filename, source), candidate, c);
    t := ReplacePhase(v, s3, o, u3);
    assert Without(s3.files, Candidate(candidate)) == s.files;
    LeadsOn(v, s, o, s3, t);
  }

  lemma RemovePhase(v: Services, s: State, o: nat, u: Upload) returns (t: State)
    requires UploadIs(s, o, u) && u.at.Discarding? && u.candidate.Some? && u.installedKey.Some? && !u.committed
    ensures Leads(v, s, o, t)
    ensures o in t.operations && t.operations[o] == At(u, Failed)
    ensures t.datasets == s.datasets && t.rules == s.rules
    ensures t.files == Without(Without(s.files, Candidate(u.candidate.value)), Stored(u.installedKey.value))
  {
    var s1 := Put(Unlink(s, Candidate(u.candidate.value)), o, At(u, Removing));
    assert Next(v, s, Advance(o, NOTHING)) == DiscardCandidate(s, o, u) == s1;
    t := Put(Unlink(s1, Stored(u.installedKey.value)), o, At(u, Failed));
    assert Next(v, s1, Advance(o, NOTHING)) == RemoveInstalled(s1, o, u.(at := Removing)) == t;
    LeadsToItself(v, t, o);
    StepLeads(v, s1, o, NOTHING, t, t);
    StepLeads(v, s, o, NOTHING, s1, t);
  }

  /** An undisturbed handler ends the upload and removes exactly what the exception left behind. */
  lemma HandlerCanFinish(v: Services, s: State, o: nat, u: Upload) returns (t: State)
    requires UploadIs(s, o, u) && u.at.Discarding? && u.candidate.Some?
    ensures Leads(v, s, o, t)
    ensures o in t.operations && t.operations[o] == At(u, Failed)
    ensures t.datasets == s.datasets && t.rules == s.rules
    ensures t.files == if u.installedKey.Some? && !u.committed
                       then Without(Without(s.files, Candidate(u.candidate.value)), Stored(u.installedKey.value))
                       else Without(s.files, Candidate(u.candidate.value))
  {
    if u.installedKey.Some? && !u.committed {
      t := RemovePhase(v, s, o, u);
      return;
    }
    t := Put(Abandon(Unlink(s, Candidate(u.candidate.value)), o), o, At(u, Failed));
    assert Next(v, s, Advance(o, NOTHING)) == DiscardCandidate(s, o, u) == t;
    LeadsToItself(v, t, o);
    StepLeads(v, s, o, NOTHING, t, t);
  }

  // ---------------------------------------------------------------- rules

  predicate CreationIs(s: State, o: nat, k: Creation) {
    o in s.operations && s.operations[o] == Creating(k)
  }

  /** A rule that owner, header and uniqueness allow can be created, and nothing else changes. */
  lemma RuleCanBeCreated(v: Services, s: State, o: nat, k: Creation, c: Choice) returns (t: State)
    requires CreationIs(s, o, k) && k.at.Admission?
    requires k.datasetId in s.datasets && s.datasets[k.datasetId].ownerId == k.ownerId
    requires k.datasetId !in s.locks && c.uuid !in s.issued && c.uuid !in s.rules
    requires s.datasets[k.datasetId].columns.Some?
    requires k.definition.targetColumn in s.datasets[k.datasetId].columns.value
    requires forall r :: r in s.rules && s.rules[r].datasetId == k.datasetId ==> s.rules[r].definition != k.definition
    ensures Leads(v, s, o, t)
    ensures o in t.operations && t.operations[o].Creating? && t.operations[o].creation.at.RuleStored?
    ensures t.rules == s.rules[c.uuid := RuleRow(k.datasetId, k.definition, c.now)]
    ensures t.datasets == s.datasets && t.files == s.files
  {
    var next := k.(row := s.datasets[k.datasetId], at := Checked);
    var s1 := Put(Lock(s, k.datasetId, o), o, Creating(next));
    assert Next(v, s, Advance(o, c)) == LockForRule(s, o, k) == s1;
    t := StoreRule(s1, o, next, c);
    assert Next(v, s1, Advance(o, c)) == t;
    assert t.operations == s1.operations[o := Creating(next.(at := RuleStored))];
    LeadsToItself(v, t, o);
    StepLeads(v, s1, o, c, t, t);
    StepLeads(v, s, o, c, s1, t);
  }

  /** An existing rule of the owner's dataset can be deleted, whoever holds the row lock. */
  lemma RuleCanBeDeleted(v: Services, s: State, o: nat, x: Deletion) returns (t: State)
    requires o in s.operations && s.operations[o] == Deleting(x) && x.at.DeletionRequested?
    requires x.datasetId in s.datasets && s.datasets[x.datasetId].ownerId == x.ownerId
    requires x.ruleId in s.rules && s.rules[x.ruleId].datasetId == x.datasetId
    ensures Leads(v, s, o, t)
    ensures o in t.operations && t.operations[o] == Deleting(x.(at := RuleDeleted))
    ensures t.rules == Without(s.rules, x.ruleId) && t.datasets == s.datasets && t.files == s.files
  {
    var s1 := Put(s, o, Deleting(x.(at := OwnerChecked)));
    assert Next(v, s, Advance(o, NOTHING)) == AdvanceDeletion(s, o, x) == s1;
    var s2 := Put(s1, o, Deleting(x.(at := RuleFound)));
    assert Next(v, s1, Advance(o, NOTHING)) == AdvanceDeletion(s1, o, x.(at := OwnerChecked)) == s2;
    t := Put(s2.(rules := Without(s2.rules, x.ruleId)), o, Deleting(x.(at := RuleDeleted)));
    assert Next(v, s2, Advance(o, NOTHING)) == AdvanceDeletion(s2, o, x.(at := RuleFound)) == t;
    LeadsToItself(v, t, o);
    StepLeads(v, s2, o, NOTHING, t, t);
    StepLeads(v, s1, o, NOTHING, s2, t);
    StepLeads(v, s, o, NOTHING, s1, t);
  }

  // ---------------------------------------------------------------- analyses

  predicate AnalysisIs(s: State, o: nat, a: Analysis) {
    o in s.operations && s.operations[o] == Analyzing(a)
  }

  /** Lock, copy the row, copy the rules. */
  lemma CopyPhase(v: Services, s: State, o: nat, a: Analysis, c: Choice) returns (t: State, b: Analysis)
    requires AnalysisIs(s, o, a) && a.at.AnalysisRequested?
    requires Owned(s.datasets, a.datasetId, a.ownerId) && a.datasetId !in s.locks
    requires Complete(s.datasets[a.datasetId])
    requires IsRuleListing(s.rules, a.datasetId, c.listing) && c.listing != []
    ensures b == a.(row := s.datasets[a.datasetId], rules := c.listing, at := RulesRead)
    ensures AnalysisIs(t, o, b) && FilesKept(s, t) && HistoryKept(s, t)
    ensures t.datasets == s.datasets && t.issued == s.issued && t.rules == s.rules
    ensures Leads(v, s, o, t)
  {
    var locked := a.(row := s.datasets[a.datasetId], at := RowRead);
    var s1 := Put(Lock(s, a.datasetId, o), o, Analyzing(locked));
    assert Next(v, s, Advance(o, c)) == LockForAnalysis(s, o, a) == s1;
    b := locked.(rules := c.listing, at := RulesRead);
    t := Put(s1, o, Analyzing(b));
    assert Next(v, s1, Advance(o, c)) == ReadRules(s1, o, locked, c) == t;
    LeadsToItself(v, t, o);
    StepLeads(v, s1, o, c, t, t);
    StepLeads(v, s, o, c, s1, t);
  }

  /** The read loop reaches the end of the file, where size and digest match. */
  lemma {:induction false} ReadPhase(v: Services, s: State, o: nat, a: Analysis) returns (t: State, b: Analysis)
    requires AnalysisIs(s, o, a) && a.at.Reading? && a.content <= a.handle
    requires |a.handle| <= MAX_CSV_BYTES
    requires a.row.size == Some(|a.handle|) && a.row.digest == Some(v.digest(a.handle))
    ensures b == a.(content := a.handle, at := Captured)
    ensures AnalysisIs(t, o, b) && FilesKept(s, t) && HistoryKept(s, t)
    ensures t.datasets == s.datasets && t.issued == s.issued && t.rules == s.rules
    ensures Leads(v, s, o, t)
    decreases |a.handle| - |a.content|
  {
    if |a.content| == |a.handle| {
      assert a.content == a.handle;
      b := a.(at := Captured);
      t := Put(Unlock(s, a.datasetId), o, Analyzing(b));
      assert Next(v, s, Advance(o, NOTHING)) == ReadChunk(v, s, o, a) == t;
      LeadsToItself(v, t, o);
      StepLeads(v, s, o, NOTHING, t, t);
      return;
    }
    var next := a.(content := a.handle[..|a.content| + Min(READ_CHUNK_BYTES, |a.handle| - |a.content|)]);
    var s1 := Put(s, o, Analyzing(next));
    assert Next(v, s, Advance(o, NOTHING)) == ReadChunk(v, s, o, a) == s1;
    t, b := ReadPhase(v, s1, o, next);
    StepLeads(v, s, o, NOTHING, s1, t);
  }

  /** The end of an analysis: recorded exactly if the database accepts its samples. */
  predicate Recording(s: State, t: State, o: nat, a: Analysis, computed: Computation, c: Choice)
    requires Complete(a.row)
  {
    && t.datasets == s.datasets && t.files == s.files && t.rules == s.rules
    && o in t.operations && t.operations[o].Analyzing?
    && if Storable(computed.results) then
         && t.operations[o].analysis.at.Recorded?
         && t.analyses == s.analyses[c.uuid := AnalysisRow(a.datasetId, SourceOf(a.row), computed.totalViolations,
                                                           computed.score, c.now)]
         && t.results == InsertResults(s.results, c.uuid, computed.results)
       else t.operations[o].analysis.at.AnalysisFailed? && HistoryKept(s, t)
  }

  lemma RecordEnds(s: State, o: nat, a: Analysis, c: Choice)
    requires AnalysisIs(s, o, a) && a.at.Computed? && Complete(a.row)
    requires c.uuid !in s.issued && c.uuid !in s.analyses
    ensures Recording(s, RecordAnalysis(s, o, a, c), o, a, a.computation, c)
  {
    if Storable(a.computation.results) {
      assert RecordAnalysis(s, o, a, c) == InsertAnalysis(s, o, a, c);
      assert InsertAnalysis(s, o, a, c).operations
          == s.operations[o := Analyzing(a.(analysisId := c.uuid, at := Recorded))];
      return;
    }
    assert RecordAnalysis(s, o, a, c) == Put(s, o, Analyzing(a.(at := AnalysisFailed)));
  }

  /** Compute, then record everything at once, or nothing if the database refuses a sample. */
  lemma RecordPhase(v: Services, s: State, o: nat, a: Analysis, c: Choice) returns (t: State)
    requires AnalysisIs(s, o, a) && a.at.Captured? && Complete(a.row)
    requires v.compute(SourceOf(a.row), a.rules, a.content).Ok?
    requires c.uuid !in s.issued && c.uuid !in s.analyses
    ensures Recording(s, t, o, a, v.compute(SourceOf(a.row), a.rules, a.content).value, c)
    ensures Leads(v, s, o, t)
  {
    var next := a.(computation := v.compute(SourceOf(a.row), a.rules, a.content).value, at := Computed);
    var s1 := Put(s, o, Analyzing(next));
    assert Next(v, s, Advance(o, c)) == ComputeRows(v, s, o, a) == s1;
    t := RecordAnalysis(s1, o, next, c);
    assert Next(v, s1, Advance(o, c)) == t;
    RecordEnds(s1, o, next, c);
    LeadsToItself(v, t, o);
    StepLeads(v, s1, o, c, t, t);
    StepLeads(v, s, o, c, s1, t);
  }

  /** Open the active file and read it to its end. */
  lemma CapturePhase(v: Services, s: State, o: nat, a: Analysis) returns (t: State, b: Analysis)
    requires AnalysisIs(s, o, a) && a.at.RulesRead? && Complete(a.row)
    requires Stored(a.row.storageKey.value) in s.files
    requires Describes(v, a.row, s.files[Stored(a.row.storageKey.value)])
    ensures b == a.(handle := s.files[Stored(a.row.storageKey.value)], content := b.handle, at := Captured)
    ensures AnalysisIs(t, o, b) && FilesKept(s, t) && HistoryKept(s, t)
    ensures t.datasets == s.datasets && t.issued == s.issued && t.rules == s.rules
    ensures Leads(v, s, o, t)
  {
    var reading := a.(handle := s.files[Stored(a.row.storageKey.value)], content := [], at := Reading);
    var s1 := Put(s, o, Analyzing(reading));
    assert Next(v, s, Advance(o, NOTHING)) == OpenActive(s, o, a) == s1;
    t, b := ReadPhase(v, s1, o, reading);
    StepLeads(v, s, o, NOTHING, s1, t);
  }

  /** What is committed of a complete dataset can be computed. */
  lemma SnapshotComputes(v: Services, s: State, d: nat, listing: seq<RuleSnapshot>)
    requires Lawful(v) && Shared(v, s) && d in s.datasets && Complete(s.datasets[d])
    requires IsRuleListing(s.rules, d, listing)
    ensures var row := s.datasets[d];
      && Stored(row.storageKey.value) in s.files
      && Describes(v, row, s.files[Stored(row.storageKey.value)])
      && v.compute(SourceOf(row), listing, s.files[Stored(row.storageKey.value)]).Ok?
  {
    assert RowBacked(v, s, d);
    ListingSound(v, s, d, listing);
  }

  /**
   From any reachable state in which the row is free, an analysis of a complete dataset with
   rules can run to its end on its own. It records the computation on that state if and only
   if the database accepts the samples, and otherwise nothing.
   */
  lemma AnalysisCanSucceed(v: Services, s: State, o: nat, a: Analysis, c: Choice) returns (t: State)
    requires Lawful(v) && Shared(v, s)
    requires AnalysisIs(s, o, a) && a.at.AnalysisRequested?
    requires a.datasetId in s.datasets && s.datasets[a.datasetId].ownerId == a.ownerId && a.datasetId !in s.locks
    requires Complete(s.datasets[a.datasetId])
    requires IsRuleListing(s.rules, a.datasetId, c.listing) && c.listing != []
    requires c.uuid !in s.issued && c.uuid !in s.analyses
    ensures Leads(v, s, o, t)
    ensures var row := s.datasets[a.datasetId];
      && Stored(row.storageKey.value) in s.files
      && var computed := v.compute(SourceOf(row), c.listing, s.files[Stored(row.storageKey.value)]);
      && computed.Ok? && Recording(s, t, o, a.(row := row), computed.value, c)
  {
    SnapshotComputes(v, s, a.datasetId, c.listing);
    var s1, a1 := CopyPhase(v, s, o, a, c);
    var s2, a2 := CapturePhase(v, s1, o, a1);
    t := RecordPhase(v, s2, o, a2, c);
    LeadsOn(v, s, o, s1, s2);
    LeadsOn(v, s, o, s2, t);
  }
}
