/**
  The bulk insert of discovered tasks: batches of at most 2000 rows, each one statement with numbered
  placeholders and its own look at the discovery claim, all in one transaction.
 */
module BulkInsert {

  type Value = string

  /** resource_type, file_path, file_size, source_hash, status, metadata. */
  datatype Row = Row(resource: Value, path: Value, size: Value, hash: Value, status: Value, metadata: Value)

  const BATCH_SIZE := 2000
  const PARAMS_PER_ROW := 6

  /** The largest placeholder number of the PostgreSQL wire protocol. */
  const MAX_PARAMS := 65535

  datatype Outcome = Stored | ClaimLost

  function Columns(row: Row): seq<Value> {
    [row.resource, row.path, row.size, row.hash, row.status, row.metadata]
  }

  function Flatten(rows: seq<Row>): seq<Value> {
    if rows == [] then [] else Flatten(rows[..|rows| - 1]) + Columns(rows[|rows| - 1])
  }

  /** Arguments are numbered from 1. */
  function Argument(args: seq<Value>, n: nat): Value
    requires 1 <= n <= |args|
  {
    args[n - 1]
  }

  /** The row the database builds from six consecutive placeholders. */
  function RowAt(args: seq<Value>, base: nat): Row
    requires 1 <= base && base + 5 <= |args|
  {
    Row(Argument(args, base), Argument(args, base + 1), Argument(args, base + 2),
        Argument(args, base + 3), Argument(args, base + 4), Argument(args, base + 5))
  }

  lemma {:induction false} FlattenedRow(rows: seq<Row>, i: nat)
    requires i < |rows|
    ensures |Flatten(rows)| == PARAMS_PER_ROW * |rows|
    ensures Flatten(rows)[PARAMS_PER_ROW * i..PARAMS_PER_ROW * i + PARAMS_PER_ROW] == Columns(rows[i])
  {
    FlattenLength(rows);
    var last := |rows| - 1;
    var before := Flatten(rows[..last]);
    FlattenLength(rows[..last]);
    if i < last {
      FlattenedRow(rows[..last], i);
      assert Flatten(rows)[PARAMS_PER_ROW * i..PARAMS_PER_ROW * i + PARAMS_PER_ROW]
          == before[PARAMS_PER_ROW * i..PARAMS_PER_ROW * i + PARAMS_PER_ROW];
    } else {
      assert Flatten(rows)[PARAMS_PER_ROW * i..] == Columns(rows[i]);
    }
  }

  lemma {:induction false} FlattenLength(rows: seq<Row>)
    ensures |Flatten(rows)| == PARAMS_PER_ROW * |rows|
  {
    if rows != [] {
      FlattenLength(rows[..|rows| - 1]);
    }
  }

  /** The row read back through the placeholders of row i is row i of the batch. */
  lemma PlaceholdersReadBack(head: seq<Value>, rows: seq<Row>, i: nat)
    requires i < |rows|
    ensures var args := head + Flatten(rows); var base := |head| + 1 + i * PARAMS_PER_ROW;
            base + 5 <= |args| && RowAt(args, base) == rows[i]
  {
    FlattenedRow(rows, i);
    var flat := Flatten(rows);
    var args := head + flat;
    var slice := flat[PARAMS_PER_ROW * i..PARAMS_PER_ROW * i + PARAMS_PER_ROW];
    assert forall k :: 0 <= k < PARAMS_PER_ROW ==> args[|head| + PARAMS_PER_ROW * i + k] == slice[k];
    assert slice == Columns(rows[i]);
  }

  lemma AppendRow(head: seq<Value>, rows: seq<Row>, i: nat)
    requires i < |rows|
    ensures head + Flatten(rows[..i]) + Columns(rows[i]) == head + Flatten(rows[..i + 1])
  {
    assert rows[..i + 1][..i] == rows[..i];
  }

  lemma AllReadBack(head: seq<Value>, rows: seq<Row>, bases: seq<nat>)
    requires |bases| == |rows| && Spaced(bases, |head|)
    ensures var args := head + Flatten(rows);
            && |args| == |head| + PARAMS_PER_ROW * |rows|
            && forall i :: 0 <= i < |rows| ==>
                 1 <= bases[i] && bases[i] + 5 <= |args| && RowAt(args, bases[i]) == rows[i]
  {
    FlattenLength(rows);
    forall i | 0 <= i < |rows|
      ensures bases[i] + 5 <= |head + Flatten(rows)| && RowAt(head + Flatten(rows), bases[i]) == rows[i]
    {
      PlaceholdersReadBack(head, rows, i);
    }
  }

  /** Six placeholders for each row, behind those of the statement itself. */
  predicate Spaced(bases: seq<nat>, leading: nat) {
    forall k :: 0 <= k < |bases| ==> bases[k] == leading + 1 + k * PARAMS_PER_ROW
  }

  /** The loop over the rows of the batch. */
  method AppendRows(head: seq<Value>, fenced: bool, batch: seq<Row>) returns (args: seq<Value>, bases: seq<nat>)
    requires |head| == if fenced then 2 else 1
    ensures args == head + Flatten(batch) && |bases| == |batch| && Spaced(bases, |head|)
  {
    args, bases := head, [];
    var i := 0;
    while i < |batch|
      invariant i <= |batch| && |bases| == i && args == head + Flatten(batch[..i]) && Spaced(bases, |head|)
    {
      var base := 2 + i * PARAMS_PER_ROW;
      if fenced {
        base := base + 1;
      }
      AppendRow(head, batch, i);
      args := args + Columns(batch[i]);
      bases := bases + [base];
      i := i + 1;
    }
    assert batch[..i] == batch;
  }

  /** The argument list and the first placeholder of each row of one statement. */
  method BuildStatement(migration: Value, generation: Value, fenced: bool, batch: seq<Row>)
    returns (args: seq<Value>, bases: seq<nat>)
    ensures |bases| == |batch| && |args| == (if fenced then 2 else 1) + PARAMS_PER_ROW * |batch|
    ensures |batch| <= BATCH_SIZE ==> |args| <= MAX_PARAMS
    ensures args[0] == migration && (fenced ==> args[1] == generation)
    ensures forall i :: 0 <= i < |batch| ==>
      1 <= bases[i] && bases[i] + 5 <= |args| && RowAt(args, bases[i]) == batch[i]
  {
    var head := if fenced then [migration, generation] else [migration];
    args, bases := AppendRows(head, fenced, batch);
    AllReadBack(head, batch, bases);
  }

  /** INSERT ... SELECT ... FROM (VALUES ...) WHERE EXISTS (claim): all rows of the statement, or none. */
  method ExecuteInsert(args: seq<Value>, bases: seq<nat>, claimHeld: bool) returns (inserted: seq<Row>)
    requires forall i :: 0 <= i < |bases| ==> 1 <= bases[i] && bases[i] + 5 <= |args|
    ensures claimHeld ==> |inserted| == |bases| && forall i :: 0 <= i < |bases| ==> inserted[i] == RowAt(args, bases[i])
    ensures !claimHeld ==> inserted == []
  {
    inserted := [];
    if claimHeld {
      var i := 0;
      while i < |bases|
        invariant i <= |bases| && |inserted| == i && forall k :: 0 <= k < i ==> inserted[k] == RowAt(args, bases[k])
      {
        inserted := inserted + [RowAt(args, bases[i])];
        i := i + 1;
      }
    }
  }

  function Batches(n: nat): nat {
    (n + BATCH_SIZE - 1) / BATCH_SIZE
  }

  /**
    bulkCreateMigrationTasksWhileIndexing. `claimHeld[k]` is what the claim test of batch k sees: other
    transactions may take the claim away between two batches. All rows are stored, in order, if the claim held
    for every batch; otherwise none is.
   */
  method BulkCreate(migration: Value, generation: Value, fenced: bool, tasks: seq<Row>, claimHeld: seq<bool>)
    returns (outcome: Outcome, stored: seq<Row>)
    requires |claimHeld| == Batches(|tasks|)
    ensures outcome == Stored <==> forall k :: 0 <= k < |claimHeld| ==> claimHeld[k]
    ensures stored == if outcome == Stored then tasks else []
  {
    if |tasks| == 0 {
      return Stored, [];
    }
    var tx: seq<Row> := [];
    var start, k := 0, 0;
    while start < |tasks|
      invariant start == k * BATCH_SIZE || start >= |tasks|
      invariant k <= |claimHeld| && (start >= |tasks| ==> k == |claimHeld|)
      invariant tx == tasks[..if start < |tasks| then start else |tasks|]
      invariant forall j :: 0 <= j < k ==> claimHeld[j]
      decreases |tasks| - start
    {
      var end := start + BATCH_SIZE;
      if end > |tasks| {
        end := |tasks|;
      }
      var batch := tasks[start..end];
      var args, bases := BuildStatement(migration, generation, fenced, batch);
      var inserted := ExecuteInsert(args, bases, claimHeld[k]);
      if |inserted| != |batch| {
        return ClaimLost, [];
      }
      assert inserted == batch;
      assert tasks[..start] + batch == tasks[..end];
      tx := tx + inserted;
      start := start + BATCH_SIZE;
      k := k + 1;
    }
    return Stored, tx;
  }
}
