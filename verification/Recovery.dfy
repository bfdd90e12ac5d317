/** Deciding after a restart what stored state can be trusted (src/recovery.rs). */
module Recovery {
  import opened Widths
  import opened Wrappers
  import opened Sorting
  import opened Pieces
  import opened Sources
  import opened Manifests
  import opened Planner
  import opened Rows
  import opened Mapping

  datatype Status = Pending | Preparing | Running | Paused | Completed | Canceled | Failed | Deleted

  function ParseStatus(s: string): Option<Status> {
    match s
    case "Pending" => Some(Pending)
    case "Running" => Some(Running)
    case "Preparing" => Some(Preparing)
    case "Paused" => Some(Paused)
    case "Completed" => Some(Completed)
    case "Failed" => Some(Failed)
    case "Canceled" => Some(Canceled)
    case "Deleted" => Some(Deleted)
    case _ => None
  }

  function NormalizeRestoredStatus(s: Status): Status {
    if s.Running? || s.Preparing? then Paused else s
  }

  function NormalizeWorkerStatus(status: Option<string>): Option<string> {
    match status
    case None => Some("Pending")
    case Some(s) =>
      if s == "Running" || s == "Preparing" then Some("Paused")
      else if s == "Deleted" then Some("Pending")
      else Some(s)
  }

  // ---------------------------------------------------------------- worker rows

  function IndexKey(w: SegmentRequest): Key { [w.index] }

  function KnownSources(sources: Option<SourceSet>): seq<Source> {
    if sources.Some? then sources.value.sources else []
  }

  /** The only known source id, when there is exactly one. */
  function SingleSource(known: seq<Source>): Option<string> {
    if known != [] && forall i :: 0 <= i < |known| ==> known[i].id == known[0].id
    then Some(known[0].id) else None
  }

  function ResolvedSource(w: SegmentRequest, known: seq<Source>): Option<string> {
    if w.sourceId.Some? then w.sourceId else SingleSource(known)
  }

  function ExpectedLength(w: SegmentRequest): u64 { SatRangeLength(w.start, w.end) }

  function Progress(w: SegmentRequest): u64 { w.downloaded.GetOr(0) }

  predicate KnownTotal(total: Option<u64>) { total.Some? && total.value > 0 }

  function Count(b: bool): nat { if b then 1 else 0 }

  function LaneMetadataCount(w: SegmentRequest): nat {
    Count(w.pieceStart.Some?) + Count(w.pieceEnd.Some?) + Count(w.blockStart.Some?) + Count(w.blockEnd.Some?)
  }

  predicate LaneMetadataOk(w: SegmentRequest) {
    || (w.pieceStart.None? && w.pieceEnd.None? && w.blockStart.None? && w.blockEnd.None?)
    || (w.pieceStart.Some? && w.pieceEnd.Some? && w.blockStart.Some? && w.blockEnd.Some?
        && w.pieceStart.value <= w.pieceEnd.value && w.blockStart.value <= w.blockEnd.value)
  }

  /** What one row must satisfy on its own. */
  predicate RowOk(w: SegmentRequest, taskId: nat, total: Option<u64>, known: seq<Source>) {
    && w.taskId == taskId
    && w.start <= w.end
    && Progress(w) <= ExpectedLength(w)
    && (KnownTotal(total) ==> w.end < total.value)
    && (var source := ResolvedSource(w, known);
        source.Some? && (known != [] ==> Find(known, source.value).Some?))
    && LaneMetadataOk(w)
  }

  /** Where the next row has to start. */
  function NextStart(rows: seq<SegmentRequest>, n: nat): u64
    requires n <= |rows|
  {
    if n == 0 then 0 else SatAdd(rows[n - 1].end, 1)
  }

  /** The indexes of the first `n` rows. */
  function Indexes(rows: seq<SegmentRequest>, n: nat): (s: set<nat>)
    requires n <= |rows|
    ensures forall x :: x in s ==> exists k :: 0 <= k < n && rows[k].index == x
    ensures forall k :: 0 <= k < n ==> rows[k].index in s
  {
    if n == 0 then {} else Indexes(rows, n - 1) + {rows[n - 1].index}
  }

  /** The first `n` rows pass every check of the loop. */
  predicate Trusted(rows: seq<SegmentRequest>, n: nat, taskId: nat, total: Option<u64>, known: seq<Source>)
    requires n <= |rows|
  {
    n > 0 ==>
      && Trusted(rows, n - 1, taskId, total, known)
      && RowOk(rows[n - 1], taskId, total, known)
      && rows[n - 1].start == NextStart(rows, n - 1)
      && rows[n - 1].index !in Indexes(rows, n - 1)
  }

  predicate Accepted(rows: seq<SegmentRequest>, taskId: nat, total: Option<u64>, known: seq<Source>) {
    && Trusted(rows, |rows|, taskId, total, known)
    && (KnownTotal(total) ==> NextStart(rows, |rows|) == total.value)
  }

  /** What the rows, in index order, must satisfy together: each acceptable, unique indexes, and no gap
      or overlap from byte 0 to the known total. */
  ghost predicate LayoutOk(rows: seq<SegmentRequest>, taskId: nat, total: Option<u64>, known: seq<Source>) {
    && (forall i :: 0 <= i < |rows| ==> RowOk(rows[i], taskId, total, known))
    && (forall i, k :: 0 <= i < k < |rows| ==> rows[i].index != rows[k].index)
    && (rows != [] ==> rows[0].start == 0)
    && (forall i, k :: 0 <= i && k == i + 1 && k < |rows| ==> rows[k].start == SatAdd(rows[i].end, 1))
    && (KnownTotal(total) ==> rows != [] && SatAdd(rows[|rows| - 1].end, 1) == total.value)
  }

  lemma {:induction false} TrustedPrefix(rows: seq<SegmentRequest>, n: nat, k: nat,
                                         taskId: nat, total: Option<u64>, known: seq<Source>)
    requires n <= k <= |rows| && Trusted(rows, k, taskId, total, known)
    ensures Trusted(rows, n, taskId, total, known)
    ensures n < k ==> RowOk(rows[n], taskId, total, known) && rows[n].start == NextStart(rows, n)
    ensures n < k ==> rows[n].index !in Indexes(rows, n)
    decreases k - n
  {
    if n + 1 < k {
      TrustedPrefix(rows, n, k - 1, taskId, total, known);
    }
  }

  lemma {:induction false} LayoutTrusted(rows: seq<SegmentRequest>, n: nat,
                                         taskId: nat, total: Option<u64>, known: seq<Source>)
    requires n <= |rows| && LayoutOk(rows, taskId, total, known)
    ensures Trusted(rows, n, taskId, total, known)
  {
    if n > 0 {
      LayoutTrusted(rows, n - 1, taskId, total, known);
    }
  }

  lemma TrustedPair(rows: seq<SegmentRequest>, i: nat, k: nat, taskId: nat, total: Option<u64>, known: seq<Source>)
    requires i < k < |rows| && Trusted(rows, |rows|, taskId, total, known)
    ensures rows[i].index != rows[k].index
    ensures k == i + 1 ==> rows[k].start == SatAdd(rows[i].end, 1)
  {
    TrustedPrefix(rows, k, |rows|, taskId, total, known);
  }

  lemma TrustedRow(rows: seq<SegmentRequest>, i: nat, taskId: nat, total: Option<u64>, known: seq<Source>)
    requires i < |rows| && Trusted(rows, |rows|, taskId, total, known)
    ensures RowOk(rows[i], taskId, total, known) && (i == 0 ==> rows[i].start == 0)
  {
    TrustedPrefix(rows, i, |rows|, taskId, total, known);
  }

  lemma AcceptedLayout(rows: seq<SegmentRequest>, taskId: nat, total: Option<u64>, known: seq<Source>)
    requires Accepted(rows, taskId, total, known)
    ensures LayoutOk(rows, taskId, total, known)
  {
    forall i | 0 <= i < |rows|
      ensures RowOk(rows[i], taskId, total, known) && (i == 0 ==> rows[i].start == 0)
    {
      TrustedRow(rows, i, taskId, total, known);
    }
    forall i, k | 0 <= i < k < |rows|
      ensures rows[i].index != rows[k].index
      ensures k == i + 1 ==> rows[k].start == SatAdd(rows[i].end, 1)
    {
      TrustedPair(rows, i, k, taskId, total, known);
    }
  }

  /** The checks of the loop amount to the layout condition. */
  lemma AcceptedMeaning(rows: seq<SegmentRequest>, taskId: nat, total: Option<u64>, known: seq<Source>)
    ensures Accepted(rows, taskId, total, known) <==> LayoutOk(rows, taskId, total, known)
  {
    if LayoutOk(rows, taskId, total, known) {
      LayoutTrusted(rows, |rows|, taskId, total, known);
    }
    if Accepted(rows, taskId, total, known) {
      AcceptedLayout(rows, taskId, total, known);
    }
  }

  /** The row as it is handed to the restored task: source filled in, status normalised. */
  function Normalized(w: SegmentRequest, known: seq<Source>): SegmentRequest {
    w.(sourceId := ResolvedSource(w, known), status := NormalizeWorkerStatus(w.status))
  }

  /** The first `n` rows as handed to the restored task. */
  function Restored(rows: seq<SegmentRequest>, n: nat, known: seq<Source>): (r: seq<SegmentRequest>)
    requires n <= |rows|
    ensures |r| == n
    ensures forall i :: 0 <= i < n ==> r[i] == Normalized(rows[i], known)
  {
    if n == 0 then [] else Restored(rows, n - 1, known) + [Normalized(rows[n - 1], known)]
  }

  function NormalizedAll(rows: seq<SegmentRequest>, known: seq<Source>): (r: seq<SegmentRequest>)
    ensures |r| == |rows|
    ensures forall i :: 0 <= i < |rows| ==> r[i] == Normalized(rows[i], known)
  {
    Restored(rows, |rows|, known)
  }

  /** All rows, or none. */
  function Sanitized(taskId: nat, total: Option<u64>, sources: Option<SourceSet>, workers: seq<SegmentRequest>)
    : seq<SegmentRequest>
  {
    var rows := SortByKey(workers, IndexKey);
    var known := KnownSources(sources);
    if Accepted(rows, taskId, total, known) then NormalizedAll(rows, known) else []
  }

  method SanitizeWorkerRequests(taskId: nat, total: Option<u64>, sources: Option<SourceSet>, workers: seq<SegmentRequest>)
    returns (sanitized: seq<SegmentRequest>)
    ensures sanitized == Sanitized(taskId, total, sources, workers)
  {
    var rows := SortByKey(workers, IndexKey);
    var known := KnownSources(sources);
    var singleSource := SingleSource(known);
    var seen: set<nat> := {};
    var expectedStart: u64 := 0;
    sanitized := [];
    for i := 0 to |rows|
      invariant Trusted(rows, i, taskId, total, known)
      invariant seen == Indexes(rows, i)
      invariant expectedStart == NextStart(rows, i)
      invariant sanitized == Restored(rows, i, known)
    {
      var worker := rows[i];
      if worker.index in seen {
        RejectedAt(rows, i, taskId, total, known);
        return [];
      }
      seen := seen + {worker.index};
      var accepted := CheckWorkerRequest(taskId, total, known, singleSource, expectedStart, worker);
      if accepted.None? {
        RejectedAt(rows, i, taskId, total, known);
        return [];
      }
      expectedStart := SatAdd(worker.end, 1);
      sanitized := sanitized + [accepted.value];
    }
    if total.Some? && total.value > 0 && expectedStart != total.value {
      return [];
    }
  }

  lemma RejectedAt(rows: seq<SegmentRequest>, i: nat, taskId: nat, total: Option<u64>, known: seq<Source>)
    requires i < |rows| && !Trusted(rows, i + 1, taskId, total, known)
    ensures !Accepted(rows, taskId, total, known)
  {
    if Accepted(rows, taskId, total, known) {
      TrustedPrefix(rows, i + 1, |rows|, taskId, total, known);
    }
  }

  /** One round of the loop: the row as restored, or `None` when it spoils the layout. */
  method CheckWorkerRequest(taskId: nat, total: Option<u64>, known: seq<Source>, singleSource: Option<string>,
                            expectedStart: u64, worker: SegmentRequest)
    returns (accepted: Option<SegmentRequest>)
    requires singleSource == SingleSource(known)
    ensures accepted.Some? <==> RowOk(worker, taskId, total, known) && worker.start == expectedStart
    ensures accepted.Some? ==> accepted.value == Normalized(worker, known)
  {
    if worker.taskId != taskId {
      return None;
    }
    if worker.start > worker.end {
      return None;
    }
    var expectedLength := SatRangeLength(worker.start, worker.end);
    var downloaded := worker.downloaded.GetOr(0);
    if downloaded > expectedLength {
      return None;
    }
    if total.Some? && total.value > 0 && worker.end >= total.value {
      return None;
    }
    if worker.start != expectedStart {
      return None;
    }
    var source := if worker.sourceId.Some? then worker.sourceId else singleSource;
    if source.None? || (known != [] && Find(known, source.value).None?) {
      return None;
    }
    var count := LaneMetadataCount(worker);
    if count != 0 && count != 4 {
      return None;
    }
    if count == 4 && (worker.pieceStart.value > worker.pieceEnd.value || worker.blockStart.value > worker.blockEnd.value) {
      return None;
    }
    return Some(worker.(sourceId := source, status := NormalizeWorkerStatus(worker.status)));
  }

  // ---------------------------------------------------------------- what the sanitiser guarantees

  /** With a known size, rows survive exactly when they are a complete trustworthy layout. */
  lemma SurvivesExactlyWhenTiled(taskId: nat, total: u64, sources: Option<SourceSet>, workers: seq<SegmentRequest>)
    requires total > 0
    ensures var result := Sanitized(taskId, Some(total), sources, workers);
            && (result != [] <==> LayoutOk(SortByKey(workers, IndexKey), taskId, Some(total), KnownSources(sources)))
            && (result != [] ==> |result| == |workers|)
  {
    SortPermutes(workers, IndexKey);
    AcceptedMeaning(SortByKey(workers, IndexKey), taskId, Some(total), KnownSources(sources));
  }

  lemma IndexKeysIdentify(workers: seq<SegmentRequest>)
    requires forall i, k :: 0 <= i < k < |workers| ==> workers[i].index != workers[k].index
    ensures KeysIdentify(workers, IndexKey)
  {
    forall x, y | x in workers && y in workers && IndexKey(x) == IndexKey(y)
      ensures x == y
    {
      assert IndexKey(x)[0] == IndexKey(y)[0];
      var i :| 0 <= i < |workers| && workers[i] == x;
      var k :| 0 <= k < |workers| && workers[k] == y;
    }
  }

  /** The stored order of the rows does not matter. */
  lemma SanitizeForgetsOrder(taskId: nat, total: Option<u64>, sources: Option<SourceSet>,
                             a: seq<SegmentRequest>, b: seq<SegmentRequest>)
    requires multiset(a) == multiset(b)
    ensures Sanitized(taskId, total, sources, a) == Sanitized(taskId, total, sources, b)
  {
    LayoutDecidesOrder(taskId, total, sources, a, b);
    LayoutDecidesOrder(taskId, total, sources, b, a);
  }

  lemma LayoutDecidesOrder(taskId: nat, total: Option<u64>, sources: Option<SourceSet>,
                           a: seq<SegmentRequest>, b: seq<SegmentRequest>)
    requires multiset(a) == multiset(b)
    ensures Accepted(SortByKey(a, IndexKey), taskId, total, KnownSources(sources)) ==>
              SortByKey(a, IndexKey) == SortByKey(b, IndexKey)
  {
    var rows := SortByKey(a, IndexKey);
    AcceptedMeaning(rows, taskId, total, KnownSources(sources));
    if LayoutOk(rows, taskId, total, KnownSources(sources)) {
      IndexKeysIdentify(rows);
      SortPermutes(a, IndexKey);
      SortForgetsOrder(a, b, IndexKey);
    }
  }

  lemma NormalizedRowOk(w: SegmentRequest, taskId: nat, total: Option<u64>, known: seq<Source>)
    requires RowOk(w, taskId, total, known)
    ensures RowOk(Normalized(w, known), taskId, total, known)
    ensures Normalized(Normalized(w, known), known) == Normalized(w, known)
  {
  }

  lemma NormalizedLayoutOk(rows: seq<SegmentRequest>, taskId: nat, total: Option<u64>, known: seq<Source>)
    requires LayoutOk(rows, taskId, total, known)
    ensures LayoutOk(NormalizedAll(rows, known), taskId, total, known)
    ensures NormalizedAll(NormalizedAll(rows, known), known) == NormalizedAll(rows, known)
  {
    forall i | 0 <= i < |rows|
      ensures RowOk(Normalized(rows[i], known), taskId, total, known)
      ensures Normalized(Normalized(rows[i], known), known) == Normalized(rows[i], known)
    {
      NormalizedRowOk(rows[i], taskId, total, known);
    }
  }

  lemma NormalizingKeepsOrder(rows: seq<SegmentRequest>, known: seq<Source>)
    requires Sorted(rows, IndexKey)
    ensures Sorted(NormalizedAll(rows, known), IndexKey)
  {
    forall i, k | 0 <= i < k < |rows|
      ensures Leq(IndexKey(Normalized(rows[i], known)), IndexKey(Normalized(rows[k], known)))
    {
      assert Leq(IndexKey(rows[i]), IndexKey(rows[k]));
    }
  }

  /** Sanitising a sanitised layout changes nothing. */
  lemma SanitizeIdempotent(taskId: nat, total: Option<u64>, sources: Option<SourceSet>, workers: seq<SegmentRequest>)
    ensures var once := Sanitized(taskId, total, sources, workers);
            once != [] ==> Sanitized(taskId, total, sources, once) == once
  {
    var known := KnownSources(sources);
    var rows := SortByKey(workers, IndexKey);
    AcceptedMeaning(rows, taskId, total, known);
    if LayoutOk(rows, taskId, total, known) {
      var once := NormalizedAll(rows, known);
      SortSorts(workers, IndexKey);
      NormalizingKeepsOrder(rows, known);
      NormalizedLayoutOk(rows, taskId, total, known);
      AcceptedMeaning(once, taskId, total, known);
      IndexKeysIdentify(once);
      SortKeepsSorted(once, IndexKey);
    }
  }

  function SumProgress(rows: seq<SegmentRequest>): nat {
    if rows == [] then 0 else SumProgress(rows[..|rows| - 1]) + Progress(rows[|rows| - 1])
  }

  /** The recomputed downloaded size never exceeds the known total. */
  lemma {:induction false} ProgressWithinLayout(rows: seq<SegmentRequest>, taskId: nat, total: Option<u64>,
                                                known: seq<Source>, n: nat)
    requires LayoutOk(rows, taskId, total, known) && KnownTotal(total) && n <= |rows|
    ensures SumProgress(rows[..n]) <= if n == 0 then 0 else rows[n - 1].end + 1
  {
    if n > 0 {
      ProgressWithinLayout(rows, taskId, total, known, n - 1);
      assert rows[..n][..n - 1] == rows[..n - 1];
      assert RowOk(rows[n - 1], taskId, total, known);
      if n > 1 {
        assert RowOk(rows[n - 2], taskId, total, known);
        assert rows[n - 1].start == SatAdd(rows[n - 2].end, 1);
      }
    }
  }

  lemma {:induction false} NormalizingKeepsProgress(rows: seq<SegmentRequest>, known: seq<Source>)
    ensures SumProgress(NormalizedAll(rows, known)) == SumProgress(rows)
  {
    if rows != [] {
      var n := |rows| - 1;
      NormalizingKeepsProgress(rows[..n], known);
      assert NormalizedAll(rows, known)[..n] == NormalizedAll(rows[..n], known);
    }
  }

  lemma SanitizedProgressBounded(taskId: nat, total: u64, sources: Option<SourceSet>, workers: seq<SegmentRequest>)
    requires total > 0
    ensures SumProgress(Sanitized(taskId, Some(total), sources, workers)) <= total
  {
    var rows := SortByKey(workers, IndexKey);
    var known := KnownSources(sources);
    AcceptedMeaning(rows, taskId, Some(total), known);
    if LayoutOk(rows, taskId, Some(total), known) {
      ProgressWithinLayout(rows, taskId, Some(total), known, |rows|);
      assert rows[..|rows|] == rows;
      NormalizingKeepsProgress(rows, known);
      assert RowOk(rows[|rows| - 1], taskId, Some(total), known);
    }
  }

  // ---------------------------------------------------------------- in terms of the stored rows

  /** The named source is one of the stored ones, if any are stored; an unnamed one must be the only one. */
  ghost predicate SoundSource(id: Option<string>, sources: Option<SourceSet>) {
    match id
    case Some(id) =>
      sources.None? || sources.value.sources == [] || exists s :: s in sources.value.sources && s.id == id
    case None =>
      && sources.Some? && sources.value.sources != []
      && forall s, t :: s in sources.value.sources && t in sources.value.sources ==> s.id == t.id
  }

  /** The row belongs to the task, its range is one, lies in a known size and has room for its counter; its
      source is known, and its piece and block range is complete and in order, or absent. */
  ghost predicate SoundRow(w: WorkerRow, task: TaskRow) {
    && w.taskId == task.id && w.start <= w.end && w.downloaded <= w.end - w.start + 1
    && (task.total.Some? && task.total.value > 0 ==> w.end < task.total.value)
    && SoundSource(w.sourceId, task.sources)
    && (|| (w.pieceStart.None? && w.pieceEnd.None? && w.blockStart.None? && w.blockEnd.None?)
        || (w.pieceStart.Some? && w.pieceEnd.Some? && w.blockStart.Some? && w.blockEnd.Some?
            && w.pieceStart.value <= w.pieceEnd.value && w.blockStart.value <= w.blockEnd.value))
  }

  /** Rows in index order that are sound one by one and together are the bytes from 0 on, up to the size when
      it is known. */
  ghost predicate CompleteLayout(rows: seq<WorkerRow>, task: TaskRow) {
    && rows != []
    && (forall i :: 0 <= i < |rows| ==> SoundRow(rows[i], task))
    && (forall i, k :: 0 <= i < k < |rows| ==> rows[i].index < rows[k].index)
    && rows[0].start == 0
    && (forall i, k :: 0 <= i && k == i + 1 && k < |rows| ==> rows[k].start == Min(rows[i].end + 1, U64_MAX))
    && (task.total.Some? && task.total.value > 0 ==> rows[|rows| - 1].end + 1 == task.total.value)
  }

  /** The worker of a stored row: same lane, same counter, same source; a worker that was at work is paused,
      a deleted one pending. */
  ghost predicate RestoresRow(r: SegmentRequest, w: WorkerRow, sources: Option<SourceSet>) {
    && r.taskId == w.taskId && r.index == w.index && r.start == w.start && r.end == w.end
    && r.downloaded == Some(w.downloaded)
    && r.pieceStart == w.pieceStart && r.pieceEnd == w.pieceEnd && r.blockStart == w.blockStart && r.blockEnd == w.blockEnd
    && (w.sourceId.Some? ==> r.sourceId == w.sourceId)
    && (w.sourceId.None? && sources.Some? ==> exists s :: s in sources.value.sources && r.sourceId == Some(s.id))
    && r.status == Some(if w.status == "Running" || w.status == "Preparing" then "Paused"
                        else if w.status == "Deleted" then "Pending" else w.status)
  }

  ghost predicate RestoresRows(restored: seq<SegmentRequest>, rows: seq<WorkerRow>, sources: Option<SourceSet>) {
    |restored| == |rows| && forall i :: 0 <= i < |rows| ==> RestoresRow(restored[i], rows[i], sources)
  }

  function SumCounters(workers: seq<WorkerRow>): nat {
    if workers == [] then 0 else workers[0].downloaded + SumCounters(workers[1..])
  }

  lemma RowIsSound(w: WorkerRow, task: TaskRow)
    ensures RowOk(WorkerToRequest(w), task.id, task.total, KnownSources(task.sources)) <==> SoundRow(w, task)
  {
    var known := KnownSources(task.sources);
    SourceIsSound(w.sourceId, task.sources);
    assert ResolvedSource(WorkerToRequest(w), known) == if w.sourceId.Some? then w.sourceId else SingleSource(known);
  }

  lemma SourceIsSound(id: Option<string>, sources: Option<SourceSet>)
    ensures var known := KnownSources(sources);
            var source := if id.Some? then id else SingleSource(known);
            (source.Some? && (known != [] ==> Find(known, source.value).Some?)) <==> SoundSource(id, sources)
  {
    var known := KnownSources(sources);
    if known != [] {
      assert known[0] in known;
      if id.Some? {
        assert Find(known, id.value).Some? ==> Find(known, id.value).value in known;
      }
    }
  }

  /** What recovery accepts, row by row. */
  lemma RowsLayout(task: TaskRow, rows: seq<WorkerRow>)
    requires Sorted(rows, RowIndexKey)
    ensures rows != [] && LayoutOk(DbWorkersToRequests(rows), task.id, task.total, KnownSources(task.sources))
        <==> CompleteLayout(rows, task)
  {
    var requests := DbWorkersToRequests(rows);
    forall i | 0 <= i < |rows|
      ensures RowOk(requests[i], task.id, task.total, KnownSources(task.sources)) <==> SoundRow(rows[i], task)
    {
      RowIsSound(rows[i], task);
    }
    forall i, k | 0 <= i < k < |rows|
      ensures requests[i].index != requests[k].index <==> rows[i].index < rows[k].index
    {
      assert Leq(RowIndexKey(rows[i]), RowIndexKey(rows[k]));
    }
  }

  lemma {:induction false} InsertSums(x: WorkerRow, rows: seq<WorkerRow>)
    ensures SumCounters(Insert(x, rows, RowIndexKey)) == x.downloaded + SumCounters(rows)
  {
    if rows != [] && !Leq(RowIndexKey(x), RowIndexKey(rows[0])) {
      InsertSums(x, rows[1..]);
    }
  }

  lemma {:induction false} SortSums(rows: seq<WorkerRow>)
    ensures SumCounters(SortByKey(rows, RowIndexKey)) == SumCounters(rows)
  {
    if rows != [] {
      SortSums(rows[1..]);
      InsertSums(rows[0], SortByKey(rows[1..], RowIndexKey));
    }
  }

  lemma {:induction false} CountersOneMore(rows: seq<WorkerRow>, w: WorkerRow)
    ensures SumCounters(rows + [w]) == SumCounters(rows) + w.downloaded
  {
    if rows == [] {
      assert [w][1..] == [];
    } else {
      assert (rows + [w])[1..] == rows[1..] + [w];
      CountersOneMore(rows[1..], w);
    }
  }

  lemma {:induction false} RequestsSum(rows: seq<WorkerRow>)
    ensures SumProgress(DbWorkersToRequests(rows)) == SumCounters(rows)
    decreases |rows|
  {
    if rows != [] {
      var n := |rows| - 1;
      RequestsSum(rows[..n]);
      CountersOneMore(rows[..n], rows[n]);
      assert rows == rows[..n] + [rows[n]];
      assert DbWorkersToRequests(rows)[..n] == DbWorkersToRequests(rows[..n]);
    }
  }

  lemma RestoredRow(w: WorkerRow, task: TaskRow)
    requires SoundRow(w, task)
    ensures RestoresRow(Normalized(WorkerToRequest(w), KnownSources(task.sources)), w, task.sources)
  {
    var known := KnownSources(task.sources);
    if w.sourceId.None? && task.sources.Some? {
      assert known[0] in task.sources.value.sources;
      RowIsSound(w, task);
    }
  }

  lemma RestoredEach(task: TaskRow, rows: seq<WorkerRow>)
    requires CompleteLayout(rows, task)
    ensures RestoresRows(NormalizedAll(DbWorkersToRequests(rows), KnownSources(task.sources)), rows, task.sources)
  {
    forall i | 0 <= i < |rows|
      ensures RestoresRow(Normalized(WorkerToRequest(rows[i]), KnownSources(task.sources)), rows[i], task.sources)
    {
      RestoredRow(rows[i], task);
    }
  }

  lemma SanitizedRows(task: TaskRow, workers: seq<WorkerRow>) returns (requests: seq<SegmentRequest>)
    ensures requests == DbWorkersToRequests(SortByKey(workers, RowIndexKey))
    ensures Sanitized(task.id, task.total, task.sources, DbWorkersToRequests(workers))
         == if CompleteLayout(SortByKey(workers, RowIndexKey), task)
            then NormalizedAll(requests, KnownSources(task.sources)) else []
    ensures CompleteLayout(SortByKey(workers, RowIndexKey), task) ==>
              requests != [] && LayoutOk(requests, task.id, task.total, KnownSources(task.sources))
  {
    var rows := SortByKey(workers, RowIndexKey);
    requests := DbWorkersToRequests(rows);
    SortConverts(workers);
    SortSorts(workers, RowIndexKey);
    AcceptedMeaning(requests, task.id, task.total, KnownSources(task.sources));
    RowsLayout(task, rows);
  }

  /** The accepted rows come back one by one, with the sum of their counters; nothing comes back of rows that
      are no complete layout. */
  lemma RestoredRows(task: TaskRow, workers: seq<WorkerRow>)
    ensures var rows := SortByKey(workers, RowIndexKey);
            var layout := Sanitized(task.id, task.total, task.sources, DbWorkersToRequests(workers));
            && (layout != [] <==> CompleteLayout(rows, task))
            && (layout != [] ==> RestoresRows(layout, rows, task.sources) && SumProgress(layout) == SumCounters(workers))
            && (layout != [] ==> MaxEnd(layout) == Min(layout[|layout| - 1].end + 1, U64_MAX))
  {
    var rows, known := SortByKey(workers, RowIndexKey), KnownSources(task.sources);
    var requests := SanitizedRows(task, workers);
    if CompleteLayout(rows, task) {
      RestoredEach(task, rows);
      NormalizingKeepsProgress(requests, known);
      RequestsSum(rows);
      SortSums(workers);
      NormalizedEnds(requests, known, task);
    }
  }

  lemma NormalizedEnds(requests: seq<SegmentRequest>, known: seq<Source>, task: TaskRow)
    requires requests != [] && LayoutOk(requests, task.id, task.total, known)
    ensures MaxEnd(NormalizedAll(requests, known)) == SatAdd(requests[|requests| - 1].end, 1)
  {
    NormalizedLayoutOk(requests, task.id, task.total, known);
    LastEndIsMax(NormalizedAll(requests, known), 0, task.id, task.total, known);
  }

  /** The rows of a layout end later and later, so the last one decides where it ends. */
  lemma {:induction false} LastEndIsMax(rows: seq<SegmentRequest>, i: nat, taskId: nat, total: Option<u64>, known: seq<Source>)
    requires i < |rows| && LayoutOk(rows, taskId, total, known)
    ensures MaxEnd(rows[i..]) == SatAdd(rows[|rows| - 1].end, 1) >= SatAdd(rows[i].end, 1)
    ensures rows[0..] == rows
    decreases |rows| - i
  {
    assert rows[i..][1..] == rows[i + 1..];
    if i + 1 < |rows| {
      LastEndIsMax(rows, i + 1, taskId, total, known);
      assert RowOk(rows[i + 1], taskId, total, known);
      assert rows[i + 1].start == SatAdd(rows[i].end, 1);
    }
  }

  /** The stored status of a task that was at work, or was to go on. */
  ghost predicate WasActive(status: string) {
    status == "Running" || status == "Preparing" || status == "Paused"
  }

  /** Some piece or block is stored as completed. */
  ghost predicate SomethingCompleted(pieces: seq<PieceRow>, blocks: seq<BlockRow>) {
    || (exists k :: 0 <= k < |pieces| && pieces[k].completed)
    || (exists j :: 0 <= j < |blocks| && blocks[j].completed)
  }

  /** A finished download stays finished when its file is there with the known size. */
  ghost predicate StillFinished(task: TaskRow, file: FileState) {
    file.present && task.total.Some? && task.total.value > 0 && file.size == Some(task.total.value)
  }

  /** The status after a restart, by the stored string. */
  ghost predicate StatusLaw(status: Status, restored: bool, task: TaskRow, pieces: seq<PieceRow>, blocks: seq<BlockRow>,
                            file: FileState)
  {
    if WasActive(task.status) then
      status == if restored || SomethingCompleted(pieces, blocks) then Paused else Pending
    else if task.status == "Completed" then
      status == if StillFinished(task, file) then Completed else Pending
    else if task.status == "Failed" then status == Failed
    else if task.status == "Canceled" then status == Canceled
    else if task.status == "Deleted" then status == Deleted
    else status == Pending
  }

  /** The byte count after a restart without workers: nothing, unless the file is there and something of it
      is known to be complete. */
  ghost predicate BytesLaw(downloaded: nat, status: Status, task: TaskRow, pieces: seq<PieceRow>, blocks: seq<BlockRow>,
                           file: FileState)
  {
    var kept := if task.status == "Completed" then [] else pieces;
    downloaded == if file.present && (status == Completed || SomethingCompleted(kept, blocks)) then task.downloaded else 0
  }

  lemma RestorableMeaning(task: TaskRow, pieces: seq<PieceRow>, blocks: seq<BlockRow>)
    ensures HasRestorablePieceState(DbTaskToRequest(task, pieces, blocks)) <==> SomethingCompleted(pieces, blocks)
  {
    SortPermutes(pieces, PieceRowKey);
    SortPermutes(blocks, BlockRowKey);
    var t := DbTaskToRequest(task, pieces, blocks);
    var ps, bs := SortByKey(pieces, PieceRowKey), SortByKey(blocks, BlockRowKey);
    if SomethingCompleted(pieces, blocks) {
      if exists k :: 0 <= k < |pieces| && pieces[k].completed {
        var k :| 0 <= k < |pieces| && pieces[k].completed;
        assert pieces[k] in ps;
        var i :| 0 <= i < |ps| && ps[i] == pieces[k];
        assert t.pieceStates[i].completed;
      } else {
        var j :| 0 <= j < |blocks| && blocks[j].completed;
        assert blocks[j] in bs;
        var i :| 0 <= i < |bs| && bs[i] == blocks[j];
        assert t.blockStates[i].completed;
      }
    }
    if HasRestorablePieceState(t) {
      if exists k :: 0 <= k < |t.pieceStates| && t.pieceStates[k].completed {
        var k :| 0 <= k < |t.pieceStates| && t.pieceStates[k].completed;
        assert ps[k] in pieces;
      } else {
        var j :| 0 <= j < |t.blockStates| && t.blockStates[j].completed;
        assert bs[j] in blocks;
      }
    }
  }

  // ---------------------------------------------------------------- restore plan

  datatype FileState = FileState(present: bool, size: Option<nat>) {
    predicate IsUsableForCompleted(total: Option<u64>) {
      present && size.Some? && total.Some? && total.value > 0 && size.value == total.value
    }
  }

  datatype TaskRequest = TaskRequest(
    id: nat, status: Status, downloaded: nat, total: Option<u64>, sources: Option<SourceSet>,
    pieceStates: seq<PieceState>, blockStates: seq<BlockState>)

  datatype RestorePlan = RestorePlan(task: TaskRequest, workers: Option<seq<SegmentRequest>>)

  function DbTaskToRequest(task: TaskRow, pieces: seq<PieceRow>, blocks: seq<BlockRow>): TaskRequest {
    TaskRequest(task.id, ParseStatus(task.status).GetOr(Pending), task.downloaded, task.total, task.sources,
                DbPiecesToPieceStates(pieces), DbBlocksToBlockStates(blocks))
  }

  predicate HasRestorablePieceState(t: TaskRequest) {
    || (exists k :: 0 <= k < |t.pieceStates| && t.pieceStates[k].completed)
    || (exists j :: 0 <= j < |t.blockStates| && t.blockStates[j].completed)
  }

  /** Status before the worker rows are looked at. */
  function FileCheckedStatus(task: TaskRow, file: FileState): Status {
    var stored := NormalizeRestoredStatus(ParseStatus(task.status).GetOr(Pending));
    if stored.Completed? && !file.IsUsableForCompleted(task.total) then Pending else stored
  }

  predicate DroppedCompletion(task: TaskRow, file: FileState) {
    ParseStatus(task.status) == Some(Completed) && !file.IsUsableForCompleted(task.total)
  }

  /** What the decisions of the restore plan come to, by the stored string. */
  lemma StatusByString(task: TaskRow, pieces: seq<PieceRow>, blocks: seq<BlockRow>, file: FileState)
    ensures var checked := FileCheckedStatus(task, file);
            var restorable := HasRestorablePieceState(DbTaskToRequest(task, pieces, blocks));
            && (checked.Paused? <==> WasActive(task.status))
            && (checked.Paused? ==> StatusLaw(Paused, true, task, pieces, blocks, file))
            && StatusLaw(if checked.Paused? && !restorable then Pending else checked, false, task, pieces, blocks, file)
    ensures var checked := FileCheckedStatus(task, file);
            var restorable := HasRestorablePieceState(DbTaskToRequest(task, pieces, blocks));
            var status := if checked.Paused? && !restorable then Pending else checked;
            var kept := if DroppedCompletion(task, file) then [] else pieces;
            BytesLaw(if !file.present || (!status.Completed? && !HasRestorablePieceState(DbTaskToRequest(task, kept, blocks)))
                     then 0 else task.downloaded,
                     status, task, pieces, blocks, file)
  {
    RestorableMeaning(task, pieces, blocks);
    RestorableMeaning(task, [], blocks);
  }

  method BuildRestorePlan(task: TaskRow, workers: seq<WorkerRow>, pieces: seq<PieceRow>, blocks: seq<BlockRow>,
                          file: FileState)
    returns (plan: RestorePlan)
    // Workers are restored for a paused task with a file, and then all of them, sanitised.
    ensures var layout := Sanitized(task.id, task.total, task.sources, DbWorkersToRequests(workers));
            plan.workers == if FileCheckedStatus(task, file).Paused? && file.present && layout != []
                            then Some(layout) else None
    // The status is never active; paused means there is something to resume from.
    ensures plan.task.status ==
              if FileCheckedStatus(task, file).Paused? && plan.workers.None?
                 && !HasRestorablePieceState(DbTaskToRequest(task, pieces, blocks))
              then Pending else FileCheckedStatus(task, file)
    ensures !plan.task.status.Running? && !plan.task.status.Preparing?
    ensures plan.task.status.Completed? ==> file.IsUsableForCompleted(task.total)
    // Bytes are recounted from the restored workers and never exceed a known total.
    ensures plan.workers.Some? ==> plan.task.downloaded == SumProgress(plan.workers.value)
    ensures plan.workers.Some? && KnownTotal(task.total) ==> plan.task.downloaded <= task.total.value
    ensures plan.workers.None? ==>
              plan.task.downloaded ==
                if !file.present || (!plan.task.status.Completed? && !HasRestorablePieceState(
                     DbTaskToRequest(task, if DroppedCompletion(task, file) then [] else pieces, blocks)))
                then 0 else task.downloaded
    // An unknown total is recovered from the restored ranges.
    ensures plan.task.total ==
              if plan.workers.Some? && !KnownTotal(task.total) then Some(MaxEnd(plan.workers.value)) else task.total
    // Piece states are dropped with the file or an unusable completion; block states are always kept.
    ensures plan.task.pieceStates ==
              if !file.present || DroppedCompletion(task, file) then [] else DbPiecesToPieceStates(pieces)
    ensures plan.task.blockStates == DbBlocksToBlockStates(blocks)
    ensures plan.task.id == task.id && plan.task.sources == task.sources
    // In terms of what is stored: which tasks get their workers back, exactly which, and with which count.
    ensures plan.workers.Some? <==>
              WasActive(task.status) && file.present && CompleteLayout(SortByKey(workers, RowIndexKey), task)
    ensures plan.workers.Some? ==>
              && plan.task.status == Paused
              && RestoresRows(plan.workers.value, SortByKey(workers, RowIndexKey), task.sources)
              && plan.task.downloaded == SumCounters(workers)
    ensures StatusLaw(plan.task.status, plan.workers.Some?, task, pieces, blocks, file)
    ensures plan.workers.None? ==> BytesLaw(plan.task.downloaded, plan.task.status, task, pieces, blocks, file)
    ensures plan.task.total ==
              if plan.workers.Some? && (task.total == None || task.total == Some(0))
              then Some(Min(plan.workers.value[|plan.workers.value| - 1].end + 1, U64_MAX)) else task.total
  {
    RestoredRows(task, workers);
    StatusByString(task, pieces, blocks, file);
    var request := DbTaskToRequest(task, pieces, blocks);
    var workerRequests := DbWorkersToRequests(workers);
    var status := NormalizeRestoredStatus(request.status);
    if status.Completed? && !file.IsUsableForCompleted(request.total) {
      status := Pending;
      request := request.(pieceStates := []);
    }
    var sanitized := [];
    if status.Paused? && file.present {
      sanitized := SanitizeWorkerRequests(task.id, request.total, request.sources, workerRequests);
    }
    if status.Paused? && sanitized == [] && !HasRestorablePieceState(request) {
      status := Pending;
    }
    request := request.(status := status);
    if sanitized != [] {
      if KnownTotal(task.total) {
        SanitizedProgressBounded(task.id, task.total.value, task.sources, workerRequests);
      }
      request := request.(downloaded := SumProgress(sanitized));
      if request.total.None? || request.total == Some(0) {
        request := request.(total := Some(MaxEnd(sanitized)));
      }
    } else if !file.present || (!request.status.Completed? && !HasRestorablePieceState(request)) {
      request := request.(downloaded := 0);
    }
    if !file.present {
      request := request.(pieceStates := []);
    }
    plan := RestorePlan(request, if sanitized == [] then None else Some(sanitized));
  }

  function MaxEnd(rows: seq<SegmentRequest>): u64 {
    if rows == [] then 0 else Max(SatAdd(rows[0].end, 1), MaxEnd(rows[1..]))
  }

  // ---------------------------------------------------------------- planner and recovery agree

  /** The rows of a task whose workers run `lanes`, with these counters. */
  ghost predicate RowsOfLanes(rows: seq<WorkerRow>, taskId: nat, lanes: seq<Lane>) {
    && |rows| == |lanes|
    && forall i :: 0 <= i < |lanes| ==>
         && lanes[i].start <= U64_MAX && lanes[i].end <= U64_MAX
         && rows[i].downloaded <= lanes[i].Length()
         && rows[i] == WorkerToDb(taskId, lanes[i], rows[i].downloaded, rows[i].status)
  }

  /** A stored lane layout, read back in any order, is accepted with ranges, sources and counters
      unchanged, in lane order. */
  lemma PlannedLayoutSurvives(m: Manifest, lanes: seq<Lane>, taskId: nat, rows: seq<WorkerRow>, stored: seq<WorkerRow>)
    requires m.WellFormed() && m.total <= U64_MAX && Partition(lanes, m)
    requires forall i :: 0 <= i < |lanes| ==> m.sources.Get(lanes[i].sourceId).Some?
    requires RowsOfLanes(rows, taskId, lanes) && multiset(stored) == multiset(rows)
    ensures var result := Sanitized(taskId, Some(m.total), Some(m.sources), DbWorkersToRequests(stored));
            && |result| == |lanes|
            && forall i :: 0 <= i < |lanes| ==>
                 result[i] == WorkerToRequest(rows[i]).(status := NormalizeWorkerStatus(Some(rows[i].status)))
  {
    LaneRowsOk(m, lanes, taskId, rows);
    AcceptedMeaning(DbWorkersToRequests(rows), taskId, Some(m.total), m.sources.sources);
    RowIndexesIdentify(rows);
    SortKeepsSorted(rows, RowIndexKey);
    SortForgetsOrder(rows, stored, RowIndexKey);
    SortConverts(stored);
  }

  lemma LaneRowsOk(m: Manifest, lanes: seq<Lane>, taskId: nat, rows: seq<WorkerRow>)
    requires m.WellFormed() && m.total <= U64_MAX && Partition(lanes, m)
    requires forall i :: 0 <= i < |lanes| ==> m.sources.Get(lanes[i].sourceId).Some?
    requires RowsOfLanes(rows, taskId, lanes)
    ensures LayoutOk(DbWorkersToRequests(rows), taskId, Some(m.total), m.sources.sources)
    ensures forall i :: 0 <= i < |rows| ==> rows[i].index == i
  {
    PartitionTiles(lanes, m);
    forall i | 0 <= i < |lanes|
      ensures RowOk(WorkerToRequest(rows[i]), taskId, Some(m.total), m.sources.sources)
      ensures rows[i].index == i && rows[i].start == lanes[i].start && rows[i].end == lanes[i].end < m.total
    {
      LaneWithin(lanes, m.total, i);
      assert WholePieces(lanes[i], m);
      LaneRowOk(m, lanes[i], taskId, rows[i]);
    }
    RowsFollowLanes(lanes, m.total, taskId, rows, m.sources.sources);
  }

  lemma RowsFollowLanes(lanes: seq<Lane>, total: u64, taskId: nat, rows: seq<WorkerRow>, known: seq<Source>)
    requires Tiles(lanes, total) && |rows| == |lanes|
    requires forall i :: 0 <= i < |lanes| ==>
               && RowOk(WorkerToRequest(rows[i]), taskId, Some(total), known)
               && rows[i].index == i && rows[i].start == lanes[i].start && rows[i].end == lanes[i].end < total
    ensures LayoutOk(DbWorkersToRequests(rows), taskId, Some(total), known)
  {
    var requests := DbWorkersToRequests(rows);
    forall i, k | 0 <= i && k == i + 1 && k < |requests|
      ensures requests[k].start == SatAdd(requests[i].end, 1)
    {
      assert lanes[k].start == lanes[i].end + 1;
    }
    forall i, k | 0 <= i < k < |requests|
      ensures requests[i].index != requests[k].index
    {
      assert rows[i].index == i && rows[k].index == k;
    }
  }

  lemma LaneRowOk(m: Manifest, lane: Lane, taskId: nat, row: WorkerRow)
    requires WholePieces(lane, m) && lane.end < m.total <= U64_MAX
    requires m.sources.Get(lane.sourceId).Some?
    requires row.downloaded <= lane.Length() && row == WorkerToDb(taskId, lane, row.downloaded, row.status)
    ensures RowOk(WorkerToRequest(row), taskId, Some(m.total), m.sources.sources)
  {
  }

  lemma RowIndexesIdentify(rows: seq<WorkerRow>)
    requires forall i :: 0 <= i < |rows| ==> rows[i].index == i
    ensures Sorted(rows, RowIndexKey) && KeysIdentify(rows, RowIndexKey)
  {
    forall x, y | x in rows && y in rows && RowIndexKey(x) == RowIndexKey(y)
      ensures x == y
    {
      assert RowIndexKey(x)[0] == RowIndexKey(y)[0];
    }
  }

  lemma {:induction false} LaneWithin(lanes: seq<Lane>, total: nat, i: nat)
    requires Tiles(lanes, total) && i < |lanes|
    ensures lanes[i].end < total
    decreases |lanes| - i
  {
    if i + 1 < |lanes| {
      LaneWithin(lanes, total, i + 1);
      assert lanes[i + 1].start == lanes[i].end + 1;
    }
  }

  function RowIndexKey(w: WorkerRow): Key { [w.index] }

  /** Converting rows commutes with sorting them. */
  lemma {:induction false} InsertConverts(x: WorkerRow, s: seq<WorkerRow>)
    ensures Insert(WorkerToRequest(x), DbWorkersToRequests(s), IndexKey)
            == DbWorkersToRequests(Insert(x, s, RowIndexKey))
  {
    if s != [] && !Leq(RowIndexKey(x), RowIndexKey(s[0])) {
      InsertConverts(x, s[1..]);
      assert DbWorkersToRequests(s)[1..] == DbWorkersToRequests(s[1..]);
    }
  }

  lemma {:induction false} SortConverts(s: seq<WorkerRow>)
    ensures SortByKey(DbWorkersToRequests(s), IndexKey) == DbWorkersToRequests(SortByKey(s, RowIndexKey))
  {
    if s != [] {
      SortConverts(s[1..]);
      InsertConverts(s[0], SortByKey(s[1..], RowIndexKey));
      assert DbWorkersToRequests(s)[1..] == DbWorkersToRequests(s[1..]);
    }
  }
}
