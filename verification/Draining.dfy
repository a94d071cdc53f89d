/** Repeated bounded cleanup at one instant, with nobody else holding a row lock. */
module Draining {
  import opened External
  import opened Sessions

  /** One non-empty batch was deleted. */
  ghost predicate BatchDeleted(t: Table, next: Table, now: int) {
    exists batch :: IsOldestBatch(t, now, CLEANUP_BATCH_SIZE, {}, batch) && batch != {} && next == t - batch
  }

  /** The tables between consecutive non-empty batches. */
  ghost predicate Drains(tables: seq<Table>, now: int) {
    |tables| > 0 && forall i :: 0 < i < |tables| ==> BatchDeleted(tables[i - 1], tables[i], now)
  }

  /** The inactive sessions shrink by a full batch at a time, and no active session is touched. */
  lemma {:induction false} DrainingShrinks(tables: seq<Table>, now: int)
    requires Drains(tables, now)
    ensures var n, k := |Inactive(tables[0], now)|, |tables| - 1;
      |Inactive(tables[k], now)| == if n <= k * CLEANUP_BATCH_SIZE then 0 else n - k * CLEANUP_BATCH_SIZE
    ensures (|tables| - 2) * CLEANUP_BATCH_SIZE < |Inactive(tables[0], now)| || |tables| == 1
    ensures forall h :: h in tables[0] && Touchable(tables[0][h], now) ==>
      h in tables[|tables| - 1] && tables[|tables| - 1][h] == tables[0][h]
    ensures forall h :: h in tables[|tables| - 1] ==> h in tables[0] && tables[|tables| - 1][h] == tables[0][h]
    decreases |tables|
  {
    if |tables| > 1 {
      var k := |tables| - 1;
      DrainingShrinks(tables[..k], now);
      assert BatchDeleted(tables[k - 1], tables[k], now);
      var batch :| IsOldestBatch(tables[k - 1], now, CLEANUP_BATCH_SIZE, {}, batch) && batch != {}
                   && tables[k] == tables[k - 1] - batch;
      BatchShrinksInactive(tables[k - 1], now, CLEANUP_BATCH_SIZE, {}, batch);
      assert |batch| > 0;
    }
  }

  /**
   Draining needs exactly ceil(n / 100) non-empty batches, after which every session left is
   active and every active session is left.
   */
  lemma DrainingEnds(tables: seq<Table>, now: int)
    requires Drains(tables, now)
    ensures var n, batches := |Inactive(tables[0], now)|, |tables| - 1;
      && batches <= (n + CLEANUP_BATCH_SIZE - 1) / CLEANUP_BATCH_SIZE
      && (Inactive(tables[batches], now) == {} <==>
            batches == (n + CLEANUP_BATCH_SIZE - 1) / CLEANUP_BATCH_SIZE)
    ensures Inactive(tables[|tables| - 1], now) == {} ==>
      forall h :: h in tables[|tables| - 1] <==> h in tables[0] && Touchable(tables[0][h], now)
  {
    DrainingShrinks(tables, now);
    var last := tables[|tables| - 1];
    assert |Inactive(last, now)| == 0 <==> Inactive(last, now) == {};
    if Inactive(last, now) == {} {
      forall h | h in last ensures h in tables[0] && Touchable(tables[0][h], now) {
        assert h !in Inactive(last, now);
      }
    }
  }

  // ---------------------------------------------------------------- the query always has an answer

  lemma {:induction false} OldestExists(t: Table, rows: set<Bytes>) returns (oldest: Bytes)
    requires rows <= t.Keys && rows != {}
    ensures oldest in rows && forall g :: g in rows ==> !Older(t[g], t[oldest])
    decreases |rows|
  {
    oldest :| oldest in rows;
    var rest := rows - {oldest};
    if rest != {} {
      var other := OldestExists(t, rest);
      if Older(t[other], t[oldest]) {
        oldest := other;
      }
    }
  }

  /** While an inactive session is left, another batch can be deleted: draining never gets stuck. */
  lemma {:induction false} BatchExists(t: Table, now: int, limit: nat, locked: set<Bytes>) returns (batch: set<Bytes>)
    ensures IsOldestBatch(t, now, limit, locked, batch)
  {
    var eligible := Inactive(t, now) - locked;
    if limit == 0 || eligible == {} {
      batch := {};
      return;
    }
    var shorter := BatchExists(t, now, limit - 1, locked);
    if shorter == eligible {
      batch := shorter;
      return;
    }
    assert |eligible - shorter| == |eligible| - |shorter| && eligible - shorter != {};
    var next := OldestExists(t, eligible - shorter);
    batch := shorter + {next};
  }

  /** From every table, draining can go on until no inactive session is left. */
  lemma {:induction false} DrainExists(t: Table, now: int) returns (tables: seq<Table>)
    ensures Drains(tables, now) && tables[0] == t && Inactive(tables[|tables| - 1], now) == {}
    decreases |Inactive(t, now)|
  {
    if Inactive(t, now) == {} {
      return [t];
    }
    var batch := BatchExists(t, now, CLEANUP_BATCH_SIZE, {});
    BatchShrinksInactive(t, now, CLEANUP_BATCH_SIZE, {}, batch);
    assert |Inactive(t, now) - {}| == |Inactive(t, now)| > 0 && |batch| > 0;
    var rest := DrainExists(t - batch, now);
    tables := [t] + rest;
    assert BatchDeleted(t, t - batch, now);
    forall i | 0 < i < |tables| ensures BatchDeleted(tables[i - 1], tables[i], now) {
      if i > 1 {
        assert BatchDeleted(rest[i - 2], rest[i - 1], now);
      }
    }
  }
}
