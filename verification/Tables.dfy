/** One table of rows kept in two ways: as a list that is filtered and appended to, and as a map by key.
    The list form is what src/repository/json_file.rs keeps, the map form what src/repository/memory.rs
    keeps; the lemmas say that they hold the same table. */
module Tables {
  import opened Sorting
  import opened Lists

  /** How rows of a table are told apart: the task they belong to and a key within the task. `stored` is the
      form in which the map keeps a row (it assigns row ids of its own). */
  datatype Kind<!R> = Kind(task: R -> nat, sub: R -> Key, stored: R -> R)

  function KeyOf<R>(kind: Kind<R>, r: R): Key { [kind.task(r)] + kind.sub(r) }

  function FullKey<R>(kind: Kind<R>): R -> Key { r => KeyOf(kind, r) }

  /** Storing keeps a row's key, and storing twice is storing once. */
  ghost predicate KindOk<R(!new)>(kind: Kind<R>) {
    forall r :: kind.task(kind.stored(r)) == kind.task(r) && kind.sub(kind.stored(r)) == kind.sub(r)
                && kind.stored(kind.stored(r)) == kind.stored(r)
  }

  // ---------------------------------------------------------------- the list form

  function Put<R>(kind: Kind<R>, rows: seq<R>, row: R): seq<R> {
    Filter(rows, r => KeyOf(kind, r) != KeyOf(kind, row)) + [row]
  }

  function PutAll<R>(kind: Kind<R>, rows: seq<R>, more: seq<R>): seq<R>
    decreases |more|
  {
    if more == [] then rows else PutAll(kind, Put(kind, rows, more[0]), more[1..])
  }

  function DropTask<R>(kind: Kind<R>, rows: seq<R>, task: nat): seq<R> {
    Filter(rows, r => kind.task(r) != task)
  }

  /** A task's rows in key order. */
  function Load<R>(kind: Kind<R>, rows: seq<R>, task: nat): seq<R> {
    SortByKey(Filter(rows, r => kind.task(r) == task), kind.sub)
  }

  function LoadAll<R>(kind: Kind<R>, rows: seq<R>): seq<R> {
    SortByKey(rows, FullKey(kind))
  }

  // ---------------------------------------------------------------- the map form

  function InsertRow<R>(kind: Kind<R>, table: map<Key, R>, row: R): map<Key, R> {
    table[KeyOf(kind, row) := kind.stored(row)]
  }

  function InsertAll<R>(kind: Kind<R>, table: map<Key, R>, more: seq<R>): map<Key, R>
    decreases |more|
  {
    if more == [] then table else InsertAll(kind, InsertRow(kind, table, more[0]), more[1..])
  }

  function RemoveTask<R>(kind: Kind<R>, table: map<Key, R>, task: nat): map<Key, R> {
    map k | k in table && kind.task(table[k]) != task :: table[k]
  }

  /** `loaded` are the rows of one task, each once, in key order. */
  ghost predicate IsLoad<R(!new)>(kind: Kind<R>, table: map<Key, R>, task: nat, loaded: seq<R>) {
    && Sorted(loaded, kind.sub) && KeysDistinct(loaded, kind.sub)
    && forall r :: r in loaded <==> InTable(table, r) && kind.task(r) == task
  }

  ghost predicate IsLoadAll<R(!new)>(kind: Kind<R>, table: map<Key, R>, loaded: seq<R>) {
    && Sorted(loaded, FullKey(kind)) && KeysDistinct(loaded, FullKey(kind))
    && forall r :: r in loaded <==> InTable(table, r)
  }

  ghost predicate InTable<R>(table: map<Key, R>, r: R) {
    exists k :: k in table && table[k] == r
  }

  // ---------------------------------------------------------------- the same table

  ghost predicate HasKey<R>(kind: Kind<R>, rows: seq<R>, k: Key) {
    exists i :: 0 <= i < |rows| && KeyOf(kind, rows[i]) == k
  }

  /** List and map hold the same rows; the map has its own row ids. */
  ghost predicate Same<R>(kind: Kind<R>, rows: seq<R>, table: map<Key, R>) {
    && KeysDistinct(rows, FullKey(kind))
    && (forall i :: 0 <= i < |rows| ==>
          KeyOf(kind, rows[i]) in table && table[KeyOf(kind, rows[i])] == kind.stored(rows[i]))
    && (forall k :: k in table ==> HasKey(kind, rows, k))
  }

  /** A filtered list has the kept rows, in the same relative order. */
  lemma {:induction false} FilterKeepsDistinct<R>(rows: seq<R>, keep: R -> bool, key: R -> Key)
    requires KeysDistinct(rows, key)
    ensures KeysDistinct(Filter(rows, keep), key)
  {
    if rows != [] {
      FilterKeepsDistinct(rows[1..], keep, key);
      var rest := Filter(rows[1..], keep);
      forall j | 0 <= j < |rest|
        ensures key(rest[j]) != key(rows[0])
      {
        assert rest[j] in rows[1..];
        var i :| 0 <= i < |rows| - 1 && rows[1..][i] == rest[j];
        assert rows[i + 1] == rest[j];
      }
    }
  }

  lemma FilteredRow<R>(rows: seq<R>, keep: R -> bool, i: nat) returns (j: nat)
    requires i < |rows| && keep(rows[i])
    ensures j < |Filter(rows, keep)| && Filter(rows, keep)[j] == rows[i]
  {
    assert rows[i] in Filter(rows, keep);
    j :| 0 <= j < |Filter(rows, keep)| && Filter(rows, keep)[j] == rows[i];
  }

  lemma RowOfFiltered<R>(rows: seq<R>, keep: R -> bool, j: nat) returns (i: nat)
    requires j < |Filter(rows, keep)|
    ensures i < |rows| && rows[i] == Filter(rows, keep)[j] && keep(rows[i])
  {
    var r := Filter(rows, keep)[j];
    assert r in Filter(rows, keep) && r in rows;
    i :| 0 <= i < |rows| && rows[i] == r;
  }

  lemma PutSame<R>(kind: Kind<R>, rows: seq<R>, table: map<Key, R>, row: R)
    requires Same(kind, rows, table)
    ensures Same(kind, Put(kind, rows, row), InsertRow(kind, table, row))
  {
    var keep := (r: R) => KeyOf(kind, r) != KeyOf(kind, row);
    var kept := Filter(rows, keep);
    var after, table' := kept + [row], InsertRow(kind, table, row);
    assert after == Put(kind, rows, row);
    FilterKeepsDistinct(rows, keep, FullKey(kind));
    forall j | 0 <= j < |kept|
      ensures keep(kept[j]) && KeyOf(kind, kept[j]) in table && table[KeyOf(kind, kept[j])] == kind.stored(kept[j])
    {
      var i := RowOfFiltered(rows, keep, j);
    }
    forall k | k in table'
      ensures HasKey(kind, after, k)
    {
      if k == KeyOf(kind, row) {
        assert KeyOf(kind, after[|kept|]) == k;
      } else {
        assert HasKey(kind, rows, k);
        var i :| 0 <= i < |rows| && KeyOf(kind, rows[i]) == k;
        var j := FilteredRow(rows, keep, i);
        assert KeyOf(kind, after[j]) == k;
      }
    }
  }

  lemma {:induction false} PutAllSame<R>(kind: Kind<R>, rows: seq<R>, table: map<Key, R>, more: seq<R>)
    requires Same(kind, rows, table)
    ensures Same(kind, PutAll(kind, rows, more), InsertAll(kind, table, more))
    decreases |more|
  {
    if more != [] {
      PutSame(kind, rows, table, more[0]);
      PutAllSame(kind, Put(kind, rows, more[0]), InsertRow(kind, table, more[0]), more[1..]);
    }
  }

  lemma TaskOfKey<R(!new)>(kind: Kind<R>, rows: seq<R>, table: map<Key, R>, k: Key) returns (i: nat)
    requires KindOk(kind) && Same(kind, rows, table) && k in table
    ensures i < |rows| && KeyOf(kind, rows[i]) == k && table[k] == kind.stored(rows[i])
    ensures kind.task(table[k]) == kind.task(rows[i]) && kind.sub(table[k]) == kind.sub(rows[i])
  {
    assert HasKey(kind, rows, k);
    i :| 0 <= i < |rows| && KeyOf(kind, rows[i]) == k;
  }

  lemma DropSame<R(!new)>(kind: Kind<R>, rows: seq<R>, table: map<Key, R>, task: nat)
    requires KindOk(kind) && Same(kind, rows, table)
    ensures Same(kind, DropTask(kind, rows, task), RemoveTask(kind, table, task))
  {
    var keep := (r: R) => kind.task(r) != task;
    var kept, table' := Filter(rows, keep), RemoveTask(kind, table, task);
    assert kept == DropTask(kind, rows, task);
    FilterKeepsDistinct(rows, keep, FullKey(kind));
    forall j | 0 <= j < |kept|
      ensures KeyOf(kind, kept[j]) in table' && table'[KeyOf(kind, kept[j])] == kind.stored(kept[j])
    {
      var i := RowOfFiltered(rows, keep, j);
      assert table[KeyOf(kind, rows[i])] == kind.stored(rows[i]);
    }
    forall k | k in table'
      ensures HasKey(kind, kept, k)
    {
      var i := TaskOfKey(kind, rows, table, k);
      var j := FilteredRow(rows, keep, i);
      assert KeyOf(kind, kept[j]) == k;
    }
  }

  // ---------------------------------------------------------------- loading

  function Stored<R>(kind: Kind<R>, rows: seq<R>): (r: seq<R>)
    ensures |r| == |rows|
  {
    seq(|rows|, i requires 0 <= i < |rows| => kind.stored(rows[i]))
  }

  lemma KeyParts<R>(kind: Kind<R>, a: R, b: R)
    ensures KeyOf(kind, a) == KeyOf(kind, b) <==> kind.task(a) == kind.task(b) && kind.sub(a) == kind.sub(b)
  {
    assert KeyOf(kind, a)[0] == kind.task(a) && KeyOf(kind, a)[1..] == kind.sub(a);
    assert KeyOf(kind, b)[0] == kind.task(b) && KeyOf(kind, b)[1..] == kind.sub(b);
  }

  /** Whatever the list loads is what any load of the map returns, up to the map's row ids. */
  lemma LoadsAgree<R(!new)>(kind: Kind<R>, rows: seq<R>, table: map<Key, R>, task: nat, loaded: seq<R>)
    requires KindOk(kind) && Same(kind, rows, table) && IsLoad(kind, table, task, loaded)
    ensures loaded == Stored(kind, Load(kind, rows, task))
  {
    var keep := (r: R) => kind.task(r) == task;
    var kept := Filter(rows, keep);
    var listed := Load(kind, rows, task);
    SubKeysDistinct(kind, rows, task);
    SortPermutes(kept, kind.sub);
    SortSorts(kept, kind.sub);
    SortKeepsDistinct(kept, kind.sub);
    StoredKeepsOrder(kind, listed);
    forall r
      ensures r in loaded <==> r in Stored(kind, listed)
    {
      if r in loaded {
        LoadedIsListed(kind, rows, table, task, loaded, r);
      }
      if r in Stored(kind, listed) {
        ListedIsLoaded(kind, rows, table, task, loaded, r);
      }
    }
    StrictUnique(loaded, Stored(kind, listed), kind.sub);
  }

  lemma SubKeysDistinct<R>(kind: Kind<R>, rows: seq<R>, task: nat)
    requires KeysDistinct(rows, FullKey(kind))
    ensures KeysDistinct(Filter(rows, r => kind.task(r) == task), kind.sub)
  {
    var keep := (r: R) => kind.task(r) == task;
    var kept := Filter(rows, keep);
    FilterKeepsDistinct(rows, keep, FullKey(kind));
    forall i, j | 0 <= i < j < |kept|
      ensures kind.sub(kept[i]) != kind.sub(kept[j])
    {
      assert FullKey(kind)(kept[i]) != FullKey(kind)(kept[j]);
      assert kept[i] in kept && kept[j] in kept;
      KeyParts(kind, kept[i], kept[j]);
    }
  }

  lemma StoredKeepsOrder<R(!new)>(kind: Kind<R>, rows: seq<R>)
    requires KindOk(kind) && Sorted(rows, kind.sub) && KeysDistinct(rows, kind.sub)
    ensures Sorted(Stored(kind, rows), kind.sub) && KeysDistinct(Stored(kind, rows), kind.sub)
  {
    var stored := Stored(kind, rows);
    assert forall i :: 0 <= i < |rows| ==> kind.sub(stored[i]) == kind.sub(rows[i]);
  }

  lemma LoadedIsListed<R(!new)>(kind: Kind<R>, rows: seq<R>, table: map<Key, R>, task: nat, loaded: seq<R>, r: R)
    requires KindOk(kind) && Same(kind, rows, table) && IsLoad(kind, table, task, loaded) && r in loaded
    ensures r in Stored(kind, Load(kind, rows, task))
  {
    var keep := (r: R) => kind.task(r) == task;
    var kept := Filter(rows, keep);
    assert InTable(table, r);
    var k :| k in table && table[k] == r;
    var i := TaskOfKey(kind, rows, table, k);
    var j := FilteredRow(rows, keep, i);
    SortPermutes(kept, kind.sub);
    assert kept[j] in kept && kept[j] in Load(kind, rows, task);
    var n :| 0 <= n < |Load(kind, rows, task)| && Load(kind, rows, task)[n] == rows[i];
    assert Stored(kind, Load(kind, rows, task))[n] == r;
  }

  lemma ListedIsLoaded<R(!new)>(kind: Kind<R>, rows: seq<R>, table: map<Key, R>, task: nat, loaded: seq<R>, r: R)
    requires KindOk(kind) && Same(kind, rows, table) && IsLoad(kind, table, task, loaded)
    requires r in Stored(kind, Load(kind, rows, task))
    ensures r in loaded
  {
    var keep := (r: R) => kind.task(r) == task;
    var kept := Filter(rows, keep);
    var listed := Load(kind, rows, task);
    var n :| 0 <= n < |listed| && Stored(kind, listed)[n] == r;
    SortPermutes(kept, kind.sub);
    assert listed[n] in listed && listed[n] in kept && listed[n] in rows;
    var i :| 0 <= i < |rows| && rows[i] == listed[n];
    var k := KeyOf(kind, rows[i]);
    assert k in table && table[k] == r;
    assert InTable(table, r) && kind.task(r) == task;
  }

  lemma LoadAllAgrees<R(!new)>(kind: Kind<R>, rows: seq<R>, table: map<Key, R>, loaded: seq<R>)
    requires KindOk(kind) && Same(kind, rows, table) && IsLoadAll(kind, table, loaded)
    ensures loaded == Stored(kind, LoadAll(kind, rows))
  {
    var key := FullKey(kind);
    var listed := LoadAll(kind, rows);
    SortPermutes(rows, key);
    SortSorts(rows, key);
    SortKeepsDistinct(rows, key);
    var stored := Stored(kind, listed);
    assert forall i :: 0 <= i < |listed| ==> key(stored[i]) == key(listed[i]);
    forall r
      ensures r in loaded <==> r in stored
    {
      if r in loaded { LoadedIsListedAll(kind, rows, table, loaded, r); }
      if r in stored { ListedIsLoadedAll(kind, rows, table, loaded, r); }
    }
    StrictUnique(loaded, stored, key);
  }

  lemma LoadedIsListedAll<R(!new)>(kind: Kind<R>, rows: seq<R>, table: map<Key, R>, loaded: seq<R>, r: R)
    requires KindOk(kind) && Same(kind, rows, table) && IsLoadAll(kind, table, loaded) && r in loaded
    ensures r in Stored(kind, LoadAll(kind, rows))
  {
    var listed := LoadAll(kind, rows);
    assert InTable(table, r);
    var k :| k in table && table[k] == r;
    var i := TaskOfKey(kind, rows, table, k);
    SortPermutes(rows, FullKey(kind));
    assert rows[i] in rows && rows[i] in listed;
    var n :| 0 <= n < |listed| && listed[n] == rows[i];
    assert Stored(kind, listed)[n] == r;
  }

  lemma ListedIsLoadedAll<R(!new)>(kind: Kind<R>, rows: seq<R>, table: map<Key, R>, loaded: seq<R>, r: R)
    requires KindOk(kind) && Same(kind, rows, table) && IsLoadAll(kind, table, loaded)
    requires r in Stored(kind, LoadAll(kind, rows))
    ensures r in loaded
  {
    var listed := LoadAll(kind, rows);
    var n :| 0 <= n < |listed| && Stored(kind, listed)[n] == r;
    SortPermutes(rows, FullKey(kind));
    assert listed[n] in listed && listed[n] in rows;
    var i :| 0 <= i < |rows| && rows[i] == listed[n];
    assert KeyOf(kind, rows[i]) in table && table[KeyOf(kind, rows[i])] == r;
    assert InTable(table, r);
  }

  // ---------------------------------------------------------------- many puts are one replacement

  /** Rows with keys that are new to the list and to each other are appended. */
  lemma {:induction false} PutAllAppends<R>(kind: Kind<R>, rows: seq<R>, more: seq<R>)
    requires KeysDistinct(more, FullKey(kind))
    requires forall i, j :: 0 <= i < |rows| && 0 <= j < |more| ==> KeyOf(kind, rows[i]) != KeyOf(kind, more[j])
    ensures PutAll(kind, rows, more) == rows + more
    decreases |more|
  {
    if more == [] {
      assert rows + more == rows;
    } else {
      var keep := (r: R) => KeyOf(kind, r) != KeyOf(kind, more[0]);
      FilterAll(rows, keep);
      var next := rows + [more[0]];
      assert next == Put(kind, rows, more[0]);
      forall i, j | 0 <= i < |next| && 0 <= j < |more| - 1
        ensures KeyOf(kind, next[i]) != KeyOf(kind, more[1..][j])
      {
        assert FullKey(kind)(more[0]) != FullKey(kind)(more[j + 1]);
      }
      PutAllAppends(kind, next, more[1..]);
      assert next + more[1..] == rows + more;
    }
  }

  /** Dropping a task's rows and putting new ones one by one is replacing them at once. */
  lemma PutAllAfterDrop<R>(kind: Kind<R>, rows: seq<R>, task: nat, more: seq<R>)
    requires KeysDistinct(more, FullKey(kind))
    requires forall j :: 0 <= j < |more| ==> kind.task(more[j]) == task
    ensures PutAll(kind, DropTask(kind, rows, task), more) == DropTask(kind, rows, task) + more
  {
    var kept := DropTask(kind, rows, task);
    forall i, j | 0 <= i < |kept| && 0 <= j < |more|
      ensures KeyOf(kind, kept[i]) != KeyOf(kind, more[j])
    {
      assert kept[i] in kept;
      KeyParts(kind, kept[i], more[j]);
    }
    PutAllAppends(kind, kept, more);
  }

  // ---------------------------------------------------------------- other tasks

  lemma {:induction false} FilterTwice<R>(rows: seq<R>, a: R -> bool, b: R -> bool)
    requires forall r :: r in rows && b(r) ==> a(r)
    ensures Filter(Filter(rows, a), b) == Filter(rows, b)
  {
    if rows != [] {
      assert rows[0] in rows;
      FilterTwice(rows[1..], a, b);
      FilterConcat(if a(rows[0]) then [rows[0]] else [], Filter(rows[1..], a), b);
    }
  }

  /** Dropping or replacing one task's rows leaves every other task's rows alone. */
  lemma OthersKept<R>(kind: Kind<R>, rows: seq<R>, task: nat, more: seq<R>, other: nat)
    requires task != other && forall j :: 0 <= j < |more| ==> kind.task(more[j]) == task
    ensures Load(kind, DropTask(kind, rows, task) + more, other) == Load(kind, rows, other)
  {
    var keep := (r: R) => kind.task(r) == other;
    var apart := (r: R) => kind.task(r) != task;
    var kept := DropTask(kind, rows, task);
    assert kept == Filter(rows, apart);
    FilterConcat(kept, more, keep);
    FilterTwice(rows, apart, keep);
    FilterNone(more, keep);
    assert Filter(kept + more, keep) == Filter(rows, keep);
  }

  lemma PutKeepsOthers<R>(kind: Kind<R>, rows: seq<R>, row: R, other: nat)
    requires kind.task(row) != other
    ensures Load(kind, Put(kind, rows, row), other) == Load(kind, rows, other)
  {
    var keep := (r: R) => kind.task(r) == other;
    var apart := (r: R) => KeyOf(kind, r) != KeyOf(kind, row);
    FilterConcat(Filter(rows, apart), [row], keep);
    forall r | r in rows && keep(r)
      ensures apart(r)
    {
      KeyParts(kind, r, row);
    }
    FilterTwice(rows, apart, keep);
    FilterNone([row], keep);
    assert Put(kind, rows, row) == Filter(rows, apart) + [row];
    assert Filter(Put(kind, rows, row), keep) == Filter(rows, keep);
  }
}
