/** The repository that keeps rows in maps by key (src/repository/memory.rs:35-209). It has no `save_bundle`
    of its own and inherits the call-by-call one of the contract. */
module MemoryRepository {
  import opened Wrappers
  import opened Sorting
  import opened Lists
  import opened Tables
  import opened Rows
  import opened RepositoryContract

  /** The table's keys are its rows' keys. */
  ghost predicate Keyed<R>(kind: Kind<R>, table: map<Key, R>) {
    forall k :: k in table ==> KeyOf(kind, table[k]) == k
  }

  lemma SameIsKeyed<R(!new)>(kind: Kind<R>, rows: seq<R>, table: map<Key, R>)
    requires KindOk(kind) && Same(kind, rows, table)
    ensures Keyed(kind, table)
  {
    forall k | k in table
      ensures KeyOf(kind, table[k]) == k
    {
      var i := TaskOfKey(kind, rows, table, k);
    }
  }

  /** `rows` are the values of the table, in whatever order the map yields them. */
  ghost predicate AreValues<R>(table: map<Key, R>, keys: seq<Key>, rows: seq<R>) {
    && |keys| == |rows|
    && (forall i, j :: 0 <= i < j < |keys| ==> keys[i] != keys[j])
    && (forall i :: 0 <= i < |keys| ==> keys[i] in table && table[keys[i]] == rows[i])
  }

  method Values<R>(table: map<Key, R>) returns (rows: seq<R>, ghost keys: seq<Key>)
    ensures |rows| == |table| && forall k :: k in table ==> table[k] in rows
    ensures AreValues(table, keys, rows)
    ensures forall k :: k in table ==> k in keys
  {
    rows, keys := [], [];
    var left := table.Keys;
    while left != {}
      invariant AreValues(table, keys, rows)
      invariant left <= table.Keys && (forall k :: k in left ==> k !in keys)
      invariant forall k :: k in table ==> k in left || k in keys
      invariant |rows| + |left| == |table| && forall k :: k in table ==> k in left || table[k] in rows
      decreases |left|
    {
      var k :| k in left;
      rows, keys := rows + [table[k]], keys + [k];
      left := left - {k};
    }
  }

  lemma ValuesDistinct<R>(kind: Kind<R>, table: map<Key, R>, keys: seq<Key>, rows: seq<R>)
    requires Keyed(kind, table) && AreValues(table, keys, rows)
    ensures KeysDistinct(rows, FullKey(kind))
  {
    forall i, j | 0 <= i < j < |rows|
      ensures FullKey(kind)(rows[i]) != FullKey(kind)(rows[j])
    {
      assert keys[i] != keys[j];
      assert KeyOf(kind, table[keys[i]]) == keys[i] && KeyOf(kind, table[keys[j]]) == keys[j];
    }
  }

  lemma ValuesAreTable<R(!new)>(table: map<Key, R>, keys: seq<Key>, rows: seq<R>)
    requires AreValues(table, keys, rows) && forall k :: k in table ==> k in keys
    ensures forall r :: r in rows <==> InTable(table, r)
  {
    forall r
      ensures r in rows <==> InTable(table, r)
    {
      if r in rows {
        var i :| 0 <= i < |rows| && rows[i] == r;
        assert table[keys[i]] == r;
      }
      if InTable(table, r) {
        var k :| k in table && table[k] == r;
        assert k in keys;
        var i :| 0 <= i < |keys| && keys[i] == k;
        assert rows[i] == r;
      }
    }
  }

  /** Values filtered by task and sorted are a load. */
  lemma SortedIsLoad<R(!new)>(kind: Kind<R>, table: map<Key, R>, keys: seq<Key>, rows: seq<R>, task: nat)
    requires Keyed(kind, table) && AreValues(table, keys, rows) && forall k :: k in table ==> k in keys
    ensures IsLoad(kind, table, task, Load(kind, rows, task))
  {
    var kept := Filter(rows, r => kind.task(r) == task);
    ValuesDistinct(kind, table, keys, rows);
    SubKeysDistinct(kind, rows, task);
    ValuesAreTable(table, keys, rows);
    SortPermutes(kept, kind.sub);
    SortSorts(kept, kind.sub);
    SortKeepsDistinct(kept, kind.sub);
  }

  lemma SortedIsLoadAll<R(!new)>(kind: Kind<R>, table: map<Key, R>, keys: seq<Key>, rows: seq<R>)
    requires Keyed(kind, table) && AreValues(table, keys, rows) && forall k :: k in table ==> k in keys
    ensures IsLoadAll(kind, table, LoadAll(kind, rows))
  {
    ValuesDistinct(kind, table, keys, rows);
    ValuesAreTable(table, keys, rows);
    SortPermutes(rows, FullKey(kind));
    SortSorts(rows, FullKey(kind));
    SortKeepsDistinct(rows, FullKey(kind));
  }

  method LoadSorted<R(!new)>(kind: Kind<R>, table: map<Key, R>, task: nat) returns (r: seq<R>)
    ensures Keyed(kind, table) ==> IsLoad(kind, table, task, r)
  {
    ghost var keys;
    var rows;
    rows, keys := Values(table);
    r := SortByKey(Filter(rows, (row: R) => kind.task(row) == task), kind.sub);
    if Keyed(kind, table) { SortedIsLoad(kind, table, keys, rows, task); }
  }

  lemma {:induction false} InsertOneMore<R>(kind: Kind<R>, table: map<Key, R>, task: nat, more: seq<R>, n: nat)
    requires n < |more|
    ensures InsertAllUnder(kind, table, task, more[..n + 1])
         == InsertAllUnder(kind, table, task, more[..n])[[task] + kind.sub(more[n]) := kind.stored(more[n])]
    decreases n
  {
    if n == 0 {
      assert more[..1][1..] == [];
    } else {
      var next := table[[task] + kind.sub(more[0]) := kind.stored(more[0])];
      InsertOneMore(kind, next, task, more[1..], n - 1);
      assert more[..n + 1][1..] == more[1..][..n] && more[..n][1..] == more[1..][..n - 1];
    }
  }

  method InsertRows<R>(kind: Kind<R>, table: map<Key, R>, task: nat, more: seq<R>) returns (r: map<Key, R>)
    ensures r == InsertAllUnder(kind, table, task, more)
  {
    r := table;
    for i := 0 to |more|
      invariant r == InsertAllUnder(kind, table, task, more[..i])
    {
      InsertOneMore(kind, table, task, more, i);
      r := r[[task] + kind.sub(more[i]) := kind.stored(more[i])];
    }
    assert more[..|more|] == more;
  }

  class MemoryRepository {
    var tasks: map<Key, TaskRow>
    var workers: map<Key, WorkerRow>
    var pieces: map<Key, PieceRow>
    var blocks: map<Key, BlockRow>
    var checksums: map<Key, ChecksumRow>

    ghost function State(): RowMaps
      reads this
    {
      RowMaps(tasks, workers, pieces, blocks, checksums)
    }

    constructor ()
      ensures State() == RowMaps(map[], map[], map[], map[], map[])
    {
      tasks, workers, pieces, blocks, checksums := map[], map[], map[], map[], map[];
    }

    method LoadTasks() returns (r: seq<TaskRow>)
      ensures Keyed(Tasks(), tasks) ==> IsLoadAll(Tasks(), tasks, r)
    {
      ghost var keys;
      var rows;
      rows, keys := Values(tasks);
      r := SortByKey(rows, FullKey(Tasks()));
      if Keyed(Tasks(), tasks) { SortedIsLoadAll(Tasks(), tasks, keys, rows); }
    }

    method LoadTask(taskId: nat) returns (r: Option<TaskRow>)
      ensures r == if [taskId] in tasks then Some(tasks[[taskId]]) else None
    {
      r := if [taskId] in tasks then Some(tasks[[taskId]]) else None;
    }

    method SaveTask(task: TaskRow)
      modifies this
      ensures State() == MapStep(old(State()), Op.SaveTask(task))
    {
      tasks := tasks[[task.id] := task];
      assert KeyOf(Tasks(), task) == [task.id];
    }

    method DeleteTask(taskId: nat)
      modifies this
      ensures State() == MapStep(old(State()), Op.DeleteTask(taskId))
    {
      tasks := RemoveUnder(tasks, taskId);
      workers := RemoveTask(Workers(), workers, taskId);
      pieces := RemoveTask(Pieces(), pieces, taskId);
      blocks := RemoveTask(Blocks(), blocks, taskId);
      checksums := RemoveTask(Checksums(), checksums, taskId);
    }

    method LoadWorkers(taskId: nat) returns (r: seq<WorkerRow>)
      ensures Keyed(Workers(), workers) ==> IsLoad(Workers(), workers, taskId, r)
    {
      r := LoadSorted(Workers(), workers, taskId);
    }

    method SaveWorker(worker: WorkerRow)
      modifies this
      ensures State() == MapStep(old(State()), Op.SaveWorker(worker))
    {
      var stored := worker.(id := WorkerStorageId(worker.taskId, worker.index));
      assert KeyOf(Workers(), worker) == [worker.taskId, worker.index];
      workers := workers[[worker.taskId, worker.index] := stored];
    }

    method DeleteWorkers(taskId: nat)
      modifies this
      ensures State() == MapStep(old(State()), Op.DeleteWorkers(taskId))
    {
      workers := RemoveTask(Workers(), workers, taskId);
    }

    method LoadPieces(taskId: nat) returns (r: seq<PieceRow>)
      ensures Keyed(Pieces(), pieces) ==> IsLoad(Pieces(), pieces, taskId, r)
    {
      r := LoadSorted(Pieces(), pieces, taskId);
    }

    method SavePieces(taskId: nat, rows: seq<PieceRow>)
      modifies this
      ensures State() == MapStep(old(State()), Op.SavePieces(taskId, rows))
    {
      var kept := RemoveUnder(pieces, taskId);
      pieces := InsertRows(Pieces(), kept, taskId, rows);
    }

    method DeletePieces(taskId: nat)
      modifies this
      ensures State() == MapStep(old(State()), Op.DeletePieces(taskId))
    {
      pieces := RemoveTask(Pieces(), pieces, taskId);
    }

    method LoadBlocks(taskId: nat) returns (r: seq<BlockRow>)
      ensures Keyed(Blocks(), blocks) ==> IsLoad(Blocks(), blocks, taskId, r)
    {
      r := LoadSorted(Blocks(), blocks, taskId);
    }

    method SaveBlocks(taskId: nat, rows: seq<BlockRow>)
      modifies this
      ensures State() == MapStep(old(State()), Op.SaveBlocks(taskId, rows))
    {
      var kept := RemoveUnder(blocks, taskId);
      blocks := InsertRows(Blocks(), kept, taskId, rows);
    }

    method DeleteBlocks(taskId: nat)
      modifies this
      ensures State() == MapStep(old(State()), Op.DeleteBlocks(taskId))
    {
      blocks := RemoveTask(Blocks(), blocks, taskId);
    }

    method LoadChecksums(taskId: nat) returns (r: seq<ChecksumRow>)
      ensures Keyed(Checksums(), checksums) ==> IsLoad(Checksums(), checksums, taskId, r)
    {
      r := LoadSorted(Checksums(), checksums, taskId);
    }

    method SaveChecksum(checksum: ChecksumRow)
      modifies this
      ensures State() == MapStep(old(State()), Op.SaveChecksum(checksum))
    {
      var stored := checksum.(id := ChecksumStorageId(checksum.taskId, checksum.algorithm));
      checksums := checksums[[checksum.taskId] + Codes(checksum.algorithm) := stored];
    }

    method DeleteChecksums(taskId: nat)
      modifies this
      ensures State() == MapStep(old(State()), Op.DeleteChecksums(taskId))
    {
      checksums := RemoveTask(Checksums(), checksums, taskId);
    }

    /** The inherited `save_bundle`. */
    method SaveBundle(b: Bundle)
      modifies this
      ensures State() == MapRun(old(State()), BundleOps(b))
    {
      var id := b.task.id;
      ghost var start := State();
      ghost var saveWorkers, saveChecksums := SaveWorkers(b.workers), SaveChecksums(b.checksums);
      SaveTask(b.task);
      DeleteWorkers(id);
      ghost var first := [Op.SaveTask(b.task), Op.DeleteWorkers(id)];
      MapRunTwo(start, first[0], first[1]);
      for i := 0 to |b.workers|
        invariant State() == MapRun(start, first + saveWorkers[..i])
      {
        SaveWorker(b.workers[i]);
        MapRunOneMore(start, first, saveWorkers, i);
      }
      assert saveWorkers[..|b.workers|] == saveWorkers;
      ghost var second := first + saveWorkers;
      SavePieces(id, b.pieces);
      SaveBlocks(id, b.blocks);
      DeleteChecksums(id);
      ghost var middle := [Op.SavePieces(id, b.pieces), Op.SaveBlocks(id, b.blocks), Op.DeleteChecksums(id)];
      MapRunThree(start, second, middle[0], middle[1], middle[2]);
      ghost var third := second + middle;
      for i := 0 to |b.checksums|
        invariant State() == MapRun(start, third + saveChecksums[..i])
      {
        SaveChecksum(b.checksums[i]);
        MapRunOneMore(start, third, saveChecksums, i);
      }
      assert saveChecksums[..|b.checksums|] == saveChecksums;
    }
  }

  lemma {:induction false} MapRunConcat(s: RowMaps, a: seq<Op>, b: seq<Op>)
    ensures MapRun(s, a + b) == MapRun(MapRun(s, a), b)
    decreases |a|
  {
    if a == [] {
      assert a + b == b;
    } else {
      assert (a + b)[0] == a[0] && (a + b)[1..] == a[1..] + b;
      MapRunConcat(MapStep(s, a[0]), a[1..], b);
    }
  }

  lemma MapRunOne(s: RowMaps, a: Op)
    ensures MapRun(s, [a]) == MapStep(s, a)
  {
    assert [a][1..] == [];
  }

  lemma MapRunTwo(s: RowMaps, a: Op, b: Op)
    ensures MapRun(s, [a, b]) == MapStep(MapStep(s, a), b)
    ensures MapRun(s, [a, b] + []) == MapStep(MapStep(s, a), b)
  {
    assert [a, b][1..] == [b] && [a, b] + [] == [a, b];
    MapRunOne(MapStep(s, a), b);
  }

  lemma MapRunThree(s: RowMaps, before: seq<Op>, a: Op, b: Op, c: Op)
    ensures MapRun(s, before + [a, b, c]) == MapStep(MapStep(MapStep(MapRun(s, before), a), b), c)
    ensures MapRun(s, before + [a, b, c] + []) == MapRun(s, before + [a, b, c])
  {
    MapRunConcat(s, before, [a, b, c]);
    assert [a, b, c][1..] == [b, c] && before + [a, b, c] + [] == before + [a, b, c];
    MapRunTwo(MapStep(MapRun(s, before), a), b, c);
  }

  lemma MapRunOneMore(s: RowMaps, before: seq<Op>, ops: seq<Op>, i: nat)
    requires i < |ops|
    ensures MapRun(s, before + ops[..i + 1]) == MapStep(MapRun(s, before + ops[..i]), ops[i])
  {
    assert before + ops[..i + 1] == before + ops[..i] + [ops[i]];
    MapRunConcat(s, before + ops[..i], [ops[i]]);
    MapRunOne(MapRun(s, before + ops[..i]), ops[i]);
  }
}
