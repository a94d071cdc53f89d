/**
 Deadlock freedom: from every reachable state the operations in flight can all end, without a
 fault or a crash and without leaving anything behind.
 */
module Liveness {
  import opened Configuration
  import opened Protocol
  import opened Invariant
  import opened OtherSteps
  import opened Safety
  import opened Completion

  // ---------------------------------------------------------------- every lock has a holder that needs no other

  /** A lock belongs to an operation that is at a point at which it holds it. */
  predicate LocksSound(s: State) {
    forall d :: d in s.locks ==>
      && s.locks[d] in s.operations
      && HoldsLock(s.operations[s.locks[d]])
      && DatasetOf(s.operations[s.locks[d]]) == d
  }

  lemma LocksStaySound(s: State, t: State, o: nat)
    requires LocksSound(s) && o in s.operations && LockFollows(s, t, o, s.operations[o])
    ensures LocksSound(t)
  {
  }

  lemma EventLocks(v: Services, s: State, e: Event)
    requires LocksSound(s)
    ensures LocksSound(Next(v, s, e))
  {
    match e
    case CreateDataset(_, _, _) =>
    case Begin(_, _) =>
    case Advance(o, _) => if o in s.operations { LocksStaySound(s, Next(v, s, e), o); }
    case Fault(o, _) => if o in s.operations { LocksStaySound(s, Next(v, s, e), o); }
    case Crash(o) => if o in s.operations { LocksStaySound(s, Next(v, s, e), o); }
  }

  /** In every reachable state each row lock is held by exactly one unfinished operation on that row. */
  lemma {:induction false} RunLocks(v: Services, events: seq<Event>)
    ensures LocksSound(Run(v, events))
  {
    if events != [] {
      RunLocks(v, events[..|events| - 1]);
      EventLocks(v, Run(v, events[..|events| - 1]), events[|events| - 1]);
    }
  }

  // ---------------------------------------------------------------- what remains to be done

  /** Identifiers that were never generated and a complete answer of the rule query. */
  ghost predicate Suitable(s: State, operation: Operation, c: Choice) {
    && c.uuid !in s.issued && c.uuid !in s.rules && c.uuid !in s.analyses
    && (operation.Analyzing? && operation.analysis.at.RowRead? ==>
          IsRuleListing(s.rules, operation.analysis.datasetId, c.listing))
  }

  /** Nobody else holds the row the operation still needs. */
  predicate Unhindered(s: State, o: nat, operation: Operation) {
    !Ended(operation) && DatasetOf(operation) in s.locks ==> s.locks[DatasetOf(operation)] == o
  }

  lemma UploadGetsNearer(v: Services, s: State, o: nat, u: Upload, c: Choice)
    requires UploadSound(v, s, o, u) && !Ended(Uploading(u)) && c.uuid !in s.issued
    requires u.at.Scanned? ==> u.datasetId !in s.locks
    ensures Nearer(AdvanceUpload(v, s, o, u, c), o, Uploading(u))
  {
  }

  lemma OperationGetsNearer(v: Services, s: State, o: nat, operation: Operation, c: Choice)
    requires LocksSound(s) && o in s.operations && s.operations[o] == operation
    requires OperationSound(v, s, o, operation) && !Ended(operation)
    requires Suitable(s, operation, c) && Unhindered(s, o, operation)
    ensures Nearer(AdvanceOperation(v, s, o, operation, c), o, operation)
  {
    if operation.Uploading? {
      UploadGetsNearer(v, s, o, operation.upload, c);
    }
  }

  // ---------------------------------------------------------------- a suitable choice exists

  lemma {:induction false} BoundExists(used: set<nat>) returns (bound: nat)
    ensures forall n :: n in used ==> n < bound
    decreases |used|
  {
    if used == {} {
      return 0;
    }
    var n :| n in used;
    var rest := BoundExists(used - {n});
    bound := if rest <= n then n + 1 else rest;
    assert forall m :: m in used ==> m == n || m in used - {n};
  }

  /** The last rule of a dataset in the query's order. */
  lemma {:induction false} LastRuleExists(rules: map<nat, RuleRow>, ids: set<nat>) returns (last: nat)
    requires ids <= rules.Keys && ids != {}
    ensures last in ids && forall r :: r in ids && r != last ==> Precedes(rules[r], r, rules[last], last)
    decreases |ids|
  {
    var first :| first in ids;
    var rest := ids - {first};
    assert forall r :: r in ids ==> r == first || r in rest;
    if rest == {} {
      return first;
    }
    var other := LastRuleExists(rules, rest);
    last := if Precedes(rules[first], first, rules[other], other) then other else first;
  }

  lemma ListingExtends(rules: map<nat, RuleRow>, d: nat, last: nat, shorter: seq<RuleSnapshot>,
                       listing: seq<RuleSnapshot>)
    requires last in rules && rules[last].datasetId == d && IsRuleListing(rules - {last}, d, shorter)
    requires forall r :: r in rules && rules[r].datasetId == d && r != last ==>
      Precedes(rules[r], r, rules[last], last)
    requires listing == shorter + [RuleSnapshot(last, rules[last].definition)]
    ensures IsRuleListing(rules, d, listing)
  {
    var others := rules - {last};
    forall r | r in rules && rules[r].datasetId == d
      ensures exists i :: 0 <= i < |listing| && listing[i].ruleId == r
    {
      if r == last {
        assert listing[|shorter|].ruleId == r;
      } else {
        assert r in others && others[r].datasetId == d;
        var i :| 0 <= i < |shorter| && shorter[i].ruleId == r;
        assert listing[i].ruleId == r;
      }
    }
  }

  /** The ordered rule query always has an answer. */
  lemma {:induction false} ListingExists(rules: map<nat, RuleRow>, d: nat) returns (listing: seq<RuleSnapshot>)
    ensures IsRuleListing(rules, d, listing)
    decreases |rules|
  {
    var ids := set r | r in rules && rules[r].datasetId == d;
    assert forall r :: r in rules && rules[r].datasetId == d ==> r in ids;
    if ids == {} {
      return [];
    }
    var last := LastRuleExists(rules, ids);
    var others := rules - {last};
    assert |others| < |rules|;
    var shorter := ListingExists(others, d);
    listing := shorter + [RuleSnapshot(last, rules[last].definition)];
    ListingExtends(rules, d, last, shorter, listing);
  }

  lemma ChoiceExists(s: State, operation: Operation) returns (c: Choice)
    ensures Suitable(s, operation, c)
  {
    var uuid := BoundExists(s.issued + s.rules.Keys + s.analyses.Keys);
    var listing := ListingExists(s.rules, DatasetOf(operation));
    c := Choice(uuid, 0, listing);
  }

  // ---------------------------------------------------------------- one operation ends

  /** What the steps of `o` alone keep. */
  ghost predicate Alone(v: Services, s: State, t: State, o: nat) {
    && Inv(v, t) && LocksSound(t) && OrphanNames(t) == OrphanNames(s)
    && o in t.operations && t.operations == s.operations[o := t.operations[o]]
  }

  lemma AloneAgain(v: Services, s: State, t: State, r: State, o: nat)
    requires Alone(v, s, t, o) && Alone(v, t, r, o)
    ensures Alone(v, s, r, o)
  {
  }

  lemma OneStepAlone(v: Services, s: State, o: nat, c: Choice)
    requires Lawful(v) && Inv(v, s) && LocksSound(s) && o in s.operations
    requires !Ended(s.operations[o]) && Unhindered(s, o, s.operations[o])
    ensures var t := Next(v, s, Advance(o, c));
      Alone(v, s, t, o) && Unhindered(t, o, t.operations[o])
  {
    EventKeeps(v, s, Advance(o, c));
    EventLocks(v, s, Advance(o, c));
    OrphansGrowByLeftBehind(v, s, Advance(o, c));
    assert LockFollows(s, Next(v, s, Advance(o, c)), o, s.operations[o]);
  }

  /** Some step of an unhindered operation brings it nearer to its end. */
  lemma StepNearer(v: Services, s: State, o: nat) returns (t: State, c: Choice)
    requires Lawful(v) && Inv(v, s) && LocksSound(s) && o in s.operations
    requires !Ended(s.operations[o]) && Unhindered(s, o, s.operations[o])
    ensures Next(v, s, Advance(o, c)) == t && Alone(v, s, t, o)
    ensures Unhindered(t, o, t.operations[o]) && Nearer(t, o, s.operations[o])
  {
    c := ChoiceExists(s, s.operations[o]);
    assert OperationSound(v, s, o, s.operations[o]);
    OperationGetsNearer(v, s, o, s.operations[o], c);
    OneStepAlone(v, s, o, c);
    t := Next(v, s, Advance(o, c));
    assert t == AdvanceOperation(v, s, o, s.operations[o], c);
  }

  /** An operation whose row nobody else holds can end by its own steps. */
  lemma {:induction false} OperationCanEnd(v: Services, s: State, o: nat) returns (t: State)
    requires Lawful(v) && Inv(v, s) && LocksSound(s) && o in s.operations
    requires Unhindered(s, o, s.operations[o])
    ensures Leads(v, s, o, t) && Alone(v, s, t, o) && Ended(t.operations[o])
    decreases Rank(s.operations[o]), Remaining(s.operations[o])
  {
    if Ended(s.operations[o]) {
      t := s;
      LeadsToItself(v, s, o);
      return;
    }
    var next, c := StepNearer(v, s, o);
    t := OperationCanEnd(v, next, o);
    AloneAgain(v, s, next, t, o);
    StepLeads(v, s, o, c, next, t);
  }

  // ---------------------------------------------------------------- all operations end

  function Unfinished(s: State): set<nat> {
    set o | o in s.operations && !Ended(s.operations[o])
  }

  lemma NothingUnfinished(s: State)
    requires Unfinished(s) == {}
    ensures Quiescent(s)
  {
    assert forall o :: o in s.operations ==> o !in Unfinished(s);
  }

  /** Some unfinished operation needs no lock that another one holds. */
  lemma SomeoneIsUnhindered(s: State) returns (o: nat)
    requires LocksSound(s) && Unfinished(s) != {}
    ensures o in Unfinished(s) && Unhindered(s, o, s.operations[o])
  {
    if s.locks == map[] {
      o :| o in Unfinished(s);
    } else {
      var d :| d in s.locks;
      o := s.locks[d];
    }
  }

  /** One more operation ends, and no other is touched. */
  lemma OneMoreEnds(v: Services, events: seq<Event>) returns (steps: seq<Event>)
    requires Lawful(v) && Unfinished(Run(v, events)) != {}
    ensures OnlyAdvances(steps)
    ensures |Unfinished(Run(v, events + steps))| < |Unfinished(Run(v, events))|
    ensures OrphanNames(Run(v, events + steps)) == OrphanNames(Run(v, events))
  {
    var s := Run(v, events);
    RunKeeps(v, events);
    RunLocks(v, events);
    var o := SomeoneIsUnhindered(s);
    var t := OperationCanEnd(v, s, o);
    steps := LeadsIsARun(v, events, o, t);
    assert Unfinished(t) == Unfinished(s) - {o};
  }

  /**
   Deadlock freedom: however far a run has come, and whatever failed in it, its operations can
   all take their remaining steps to an end, without a fault or a crash, and no file is
   orphaned on the way.
   */
  lemma {:induction false} EverythingCanEnd(v: Services, events: seq<Event>) returns (more: seq<Event>)
    requires Lawful(v)
    ensures OnlyAdvances(more)
    ensures Quiescent(Run(v, events + more))
    ensures OrphanNames(Run(v, events + more)) == OrphanNames(Run(v, events))
    decreases |Unfinished(Run(v, events))|
  {
    if Unfinished(Run(v, events)) == {} {
      more := [];
      assert events + more == events;
      NothingUnfinished(Run(v, events));
      return;
    }
    var steps := OneMoreEnds(v, events);
    var rest := EverythingCanEnd(v, events + steps);
    more := steps + rest;
    assert events + (steps + rest) == (events + steps) + rest;
  }
}
