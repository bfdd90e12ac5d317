/** The task of the sequential program, seen as the protocol's state: what the task's operations do to it
    are runs of the protocol, so that the protocol's invariant holds of the task. */
module TaskProtocol {
  import opened Wrappers
  import opened Pieces
  import opened Sources
  import opened Manifests
  import opened Planner
  import opened Progress
  import opened Protocol
  import opened ProtocolSafety
  import opened ProtocolRefinement
  import opened ProtocolCompletion
  import Job
  import Rows
  import Mapping
  import Recovery

  ghost predicate SameWorker(x: Worker, w: Job.JobWorker) {
    && x.index == w.id && x.start == w.start && x.end == w.end
    && x.counter == w.counter && x.done == w.completed && w.lengthKnown
  }

  /** The task's workers are the listed workers, in order. */
  ghost predicate SameWorkers(workers: map<nat, Worker>, listed: seq<nat>, ws: seq<Job.JobWorker>) {
    && |listed| == |ws|
    && forall i :: 0 <= i < |listed| ==> listed[i] in workers && SameWorker(workers[listed[i]], ws[i])
  }

  ghost predicate SameRow(row: Row, w: Job.JobWorker) {
    row.start == w.start && row.end == w.end && row.counter == w.counter && row.done == w.completed
  }

  ghost predicate SameRows(rows: map<nat, Row>, stored: map<nat, Job.JobWorker>) {
    && rows.Keys == stored.Keys
    && forall i :: i in rows ==> SameRow(rows[i], stored[i])
  }

  /** The task is what state `s` of a run about `c` looks like from the program. */
  ghost predicate Views(c: Config, s: State, task: Job.Task)
    reads task
  {
    && task.manifest == Some(c.m)
    && task.blockStates == s.blocks
    && SameWorkers(s.workers, s.listed, task.workers)
    && SameRows(s.rows, task.storedWorkers)
  }

  // ---------------------------------------------------------------- syncing progress

  lemma SameProgress(workers: map<nat, Worker>, listed: seq<nat>, ws: seq<Job.JobWorker>)
    requires SameWorkers(workers, listed, ws)
    ensures forall i :: 0 <= i < |listed| ==> listed[i] in workers
    ensures ListedProgress(workers, listed) == Job.AllProgress(ws)
  {
    var progress := ListedProgress(workers, listed);
    forall i | 0 <= i < |listed|
      ensures progress[i] == Job.ProgressOf(ws[i])
    {
      assert SameWorker(workers[listed[i]], ws[i]);
    }
  }

  /** A sync by the task is the protocol's sync, uninterrupted. */
  method Sync(task: Job.Task, ghost c: Config, ghost s: State, ghost f: nat) returns (ghost t: State)
    requires c.Valid() && Inv(c, s) && Views(c, s, task) && f !in s.frames
    modifies task
    ensures var actions := [BeginSync(f), ReadBlocks(f)] + SyncActions(f, |s.listed|);
            CanRun(c, s, actions) && RunFrom(c, s, actions) == t
    ensures Inv(c, t) && Views(c, t, task)
  {
    ghost var actions := [BeginSync(f), ReadBlocks(f)] + SyncActions(f, |s.listed|);
    SameProgress(s.workers, s.listed, task.workers);
    UninterruptedSync(c, s, f);
    RunKeepsInv(c, s, actions);
    t := RunFrom(c, s, actions);
    var _ := task.SyncPieceProgressFromWorkers();
  }

  // ---------------------------------------------------------------- storing and replacing workers

  /** Store the worker listed at `i`, uninterrupted. */
  function StoreOne(f: nat, i: nat): seq<Action> {
    [BeginRow(f, i), ReadCounter(f), ReadStatus(f), StoreRow(f)]
  }

  /** Store the first `n` listed workers, one after the other. */
  function StoreFirst(f: nat, n: nat): seq<Action> {
    if n == 0 then [] else StoreFirst(f, n - 1) + StoreOne(f, n - 1)
  }

  ghost function RowOf(x: Worker): Row { Row(x.start, x.end, x.counter, x.done) }

  ghost function WithRow(s: State, x: Worker): State { s.(rows := s.rows[x.index := RowOf(x)]) }

  /** Reading a worker for its row, with nothing in between. */
  lemma ReadOneIsARun(c: Config, s: State, f: nat, i: nat)
    requires f !in s.frames && i < |s.listed| && s.listed[i] in s.workers
    ensures var actions := [BeginRow(f, i)] + [ReadCounter(f)] + [ReadStatus(f)];
            var x := s.workers[s.listed[i]];
            CanRun(c, s, actions) && RunFrom(c, s, actions) == SetFrame(s, f, RowFrame(x.index, RowOf(x)))
  {
    RunOne(c, s, BeginRow(f, i));
    RunOneMore(c, s, [BeginRow(f, i)], ReadCounter(f));
    RunOneMore(c, s, [BeginRow(f, i)] + [ReadCounter(f)], ReadStatus(f));
  }

  lemma StoreOneIsARun(c: Config, s: State, f: nat, i: nat)
    requires f !in s.frames && i < |s.listed| && s.listed[i] in s.workers
    ensures CanRun(c, s, StoreOne(f, i)) && RunFrom(c, s, StoreOne(f, i)) == WithRow(s, s.workers[s.listed[i]])
  {
    ReadOneIsARun(c, s, f, i);
    RunOneMore(c, s, [BeginRow(f, i)] + [ReadCounter(f)] + [ReadStatus(f)], StoreRow(f));
    assert [BeginRow(f, i)] + [ReadCounter(f)] + [ReadStatus(f)] + [StoreRow(f)] == StoreOne(f, i);
    var x := s.workers[s.listed[i]];
    assert s.frames[f := RowFrame(x.index, RowOf(x))] - {f} == s.frames;
  }

  /** One more row stored. */
  lemma RowStored(s: State, u: State, ws: seq<Job.JobWorker>, stored: map<nat, Job.JobWorker>, n: nat) returns (t: State)
    requires n < |ws| && SameWorkers(s.workers, s.listed, ws)
    requires u == s.(rows := u.rows) && SameRows(u.rows, Job.Saved(stored, ws, n))
    ensures n < |u.listed| && u.listed[n] in u.workers && t == WithRow(u, u.workers[u.listed[n]])
    ensures t == s.(rows := t.rows) && SameRows(t.rows, Job.Saved(stored, ws, n + 1))
  {
    assert SameWorker(s.workers[s.listed[n]], ws[n]);
    t := WithRow(u, u.workers[u.listed[n]]);
  }

  /** Storing the listed workers stores the task's workers. */
  lemma {:induction false} StoreFirstIsARun(c: Config, s: State, f: nat, ws: seq<Job.JobWorker>,
                                            stored: map<nat, Job.JobWorker>, n: nat) returns (t: State)
    requires f !in s.frames && n <= |ws| && SameWorkers(s.workers, s.listed, ws) && SameRows(s.rows, stored)
    ensures CanRun(c, s, StoreFirst(f, n)) && RunFrom(c, s, StoreFirst(f, n)) == t
    ensures t == s.(rows := t.rows) && SameRows(t.rows, Job.Saved(stored, ws, n))
  {
    if n == 0 {
      t := s;
    } else {
      var u := StoreFirstIsARun(c, s, f, ws, stored, n - 1);
      t := RowStored(s, u, ws, stored, n - 1);
      StoreOneIsARun(c, u, f, n - 1);
      RunConcat(c, s, StoreFirst(f, n - 1), StoreOne(f, n - 1));
    }
  }

  /** The rebuilt workers are the task's planned workers. */
  lemma RebuildPlans(c: Config, s: State, lanes: seq<Lane>)
    requires InvWorkers(c, s.workers, s.nextId) && Partition(lanes, c.m)
    ensures var t := ApplyRebuild(c, s, lanes);
            SameWorkers(t.workers, t.listed, Job.PlannedWorkers(c.m.blocks, s.blocks, lanes))
  {
    var workers, ids := FreshWorkers(c, s.blocks, lanes, s.workers, s.nextId);
    var planned := Job.PlannedWorkers(c.m.blocks, s.blocks, lanes);
    forall i | 0 <= i < |ids|
      ensures ids[i] in workers && SameWorker(workers[ids[i]], planned[i])
    {
      assert workers[ids[i]] == SeededWorker(c, s.blocks, lanes[i]);
      assert WholePieces(lanes[i], c.m);
    }
  }

  /** Rebuild the workers and store their rows. */
  function ReplaceActions(f: nat, lanes: seq<Lane>): seq<Action> {
    [Rebuild(lanes)] + StoreFirst(f, |lanes|)
  }

  lemma ReplaceIsARun(c: Config, s: State, f: nat, lanes: seq<Lane>) returns (t: State)
    requires InvWorkers(c, s.workers, s.nextId) && Partition(lanes, c.m) && f !in s.frames
    ensures CanRun(c, s, ReplaceActions(f, lanes)) && RunFrom(c, s, ReplaceActions(f, lanes)) == t
    ensures t.blocks == s.blocks
    ensures var planned := Job.PlannedWorkers(c.m.blocks, s.blocks, lanes);
            SameWorkers(t.workers, t.listed, planned) && SameRows(t.rows, Job.Saved(map[], planned, |planned|))
  {
    RebuildPlans(c, s, lanes);
    RunOne(c, s, Rebuild(lanes));
    t := StoreFirstIsARun(c, ApplyRebuild(c, s, lanes), f, Job.PlannedWorkers(c.m.blocks, s.blocks, lanes), map[], |lanes|);
    RunConcat(c, s, [Rebuild(lanes)], StoreFirst(f, |lanes|));
  }

  /** The steps of making sure of the workers `ws` on `lanes`. */
  function EnsureActions(f: nat, ws: seq<Job.JobWorker>, lanes: seq<Lane>): seq<Action> {
    if ws != [] && Job.RunLanes(ws, lanes) then [] else ReplaceActions(f, lanes)
  }

  lemma EnsureIsARun(c: Config, s: State, f: nat, lanes: seq<Lane>, ws: seq<Job.JobWorker>,
                     stored: map<nat, Job.JobWorker>) returns (t: State)
    requires c.Valid() && Inv(c, s) && Partition(lanes, c.m) && f !in s.frames
    requires SameWorkers(s.workers, s.listed, ws) && SameRows(s.rows, stored)
    ensures CanRun(c, s, EnsureActions(f, ws, lanes)) && RunFrom(c, s, EnsureActions(f, ws, lanes)) == t
    ensures Inv(c, t) && t.blocks == s.blocks
    ensures var planned := Job.PlannedWorkers(c.m.blocks, s.blocks, lanes);
            var kept := ws != [] && Job.RunLanes(ws, lanes);
            && SameWorkers(t.workers, t.listed, if kept then ws else planned)
            && SameRows(t.rows, if kept then stored else Job.Saved(map[], planned, |planned|))
  {
    if ws != [] && Job.RunLanes(ws, lanes) {
      t := s;
    } else {
      t := ReplaceIsARun(c, s, f, lanes);
      RunKeepsInv(c, s, ReplaceActions(f, lanes));
    }
  }

  /** Making sure of the workers does nothing, or rebuilds them all and stores their rows. */
  method EnsureWorkers(task: Job.Task, segmentsPerTask: nat, rangeSupported: bool, preferred: seq<string>,
                       ghost c: Config, ghost s: State, ghost f: nat) returns (ok: bool, ghost t: State)
    requires c.Valid() && Inv(c, s) && Views(c, s, task) && task.sources == c.m.sources && f !in s.frames
    requires c.m.pieces != [] && c.m.sources.ActiveTransferSources() != []
    modifies task
    ensures var actions := EnsureActions(f, old(task.workers),
                                         Job.PlannedLanes(c.m, segmentsPerTask, rangeSupported, preferred));
            ok && CanRun(c, s, actions) && RunFrom(c, s, actions) == t
    ensures Inv(c, t) && Views(c, t, task)
  {
    ghost var lanes := Job.PlannedLanes(c.m, segmentsPerTask, rangeSupported, preferred);
    PlanPartitions(c.m, if rangeSupported then segmentsPerTask else 1, rangeSupported, preferred);
    t := EnsureIsARun(c, s, f, lanes, task.workers, task.storedWorkers);
    ok := task.EnsureWorkers(segmentsPerTask, rangeSupported, preferred);
  }

  // ---------------------------------------------------------------- reset

  /** Forgetting all progress is the protocol's reset. */
  method ResetResumeState(task: Job.Task, ghost c: Config, ghost s: State)
    requires Views(c, s, task) && Aligned(s.blocks, c.m.blocks)
    modifies task
    ensures Views(c, ApplyReset(c, s), task)
  {
    assert Job.ClearedBlocks(s.blocks) == InitializeBlockStates(c.m.blocks);
    task.ResetResumeState();
  }

  // ---------------------------------------------------------------- completion

  lemma DoneAgrees(s: State, ws: seq<Job.JobWorker>)
    requires SameWorkers(s.workers, s.listed, ws)
    ensures ListedDone(s) <==> forall i :: 0 <= i < |ws| ==> ws[i].completed
  {
    assert forall i :: 0 <= i < |ws| ==> s.listed[i] in s.workers && SameWorker(s.workers[s.listed[i]], ws[i]);
  }

  /** The steps of completing when `all` workers are seen completed. */
  function CompletionActions(f: nat, all: bool): seq<Action> {
    if all then [CheckCompleted(f)] + [Complete(f)] else []
  }

  lemma CompletionIsARun(c: Config, s: State, f: nat) returns (t: State)
    requires c.Valid() && Inv(c, s) && f !in s.frames && s.listed != []
    ensures var actions := CompletionActions(f, ListedDone(s)); CanRun(c, s, actions) && RunFrom(c, s, actions) == t
    ensures Inv(c, t) && (ListedDone(s) ==> t.content == c.origin)
    ensures t == s.(blocks := if ListedDone(s) then AllCompleted(s.blocks) else s.blocks) && |s.blocks| == |c.m.blocks|
  {
    if ListedDone(s) {
      CompletionRun(c, s, f);
      CheckCompletedKeepsInv(c, s, f);
      RunKeepsInv(c, s, [CheckCompleted(f)] + [Complete(f)]);
      t := s.(blocks := AllCompleted(s.blocks));
    } else {
      t := s;
    }
  }

  method MarkIfCompleted(task: Job.Task) returns (all: bool)
    requires task.manifest.Some? && |task.blockStates| == |task.manifest.value.blocks|
    modifies task
    ensures all <==> forall i :: 0 <= i < |task.workers| ==> task.workers[i].completed
    ensures task.blockStates == if all then AllCompleted(old(task.blockStates)) else old(task.blockStates)
    ensures task.manifest == old(task.manifest) && task.workers == old(task.workers)
    ensures task.storedWorkers == old(task.storedWorkers)
  {
    all := task.AllWorkersCompleted();
    if all {
      task.MarkAllPiecesCompleted();
    }
  }

  /** Marking everything after all workers have completed is the protocol's completion; the payload is
      then the origin. */
  method CompleteTask(task: Job.Task, ghost c: Config, ghost s: State, ghost f: nat) returns (all: bool, ghost t: State)
    requires c.Valid() && Inv(c, s) && Views(c, s, task) && f !in s.frames && task.workers != []
    modifies task
    ensures all <==> ListedDone(s)
    ensures var actions := CompletionActions(f, ListedDone(s)); CanRun(c, s, actions) && RunFrom(c, s, actions) == t
    ensures Inv(c, t) && Views(c, t, task) && (all ==> t.content == c.origin)
  {
    DoneAgrees(s, task.workers);
    t := CompletionIsARun(c, s, f);
    all := MarkIfCompleted(task);
  }

  // ---------------------------------------------------------------- restart

  /** The workers made from accepted requests are those the protocol restores. */
  lemma RestoredAreListed(requests: seq<Rows.SegmentRequest>, rows: map<nat, Row>, sources: SourceSet, fallback: string)
    requires forall i :: 0 <= i < |requests| ==> IsRequest(requests[i], rows)
    ensures var order := IndexOrder(requests);
            && (forall i :: 0 <= i < |order| ==> order[i] in rows)
            && SameWorkers(RestoredWorkers(rows, order), Ids(0, |order|), Job.RestoredWorkers(requests, sources, fallback))
  {
    var order := IndexOrder(requests);
    var ids := Ids(0, |order|);
    var restored := Job.RestoredWorkers(requests, sources, fallback);
    forall i | 0 <= i < |order|
      ensures order[i] in rows
      ensures ids[i] == i && SameWorker(WorkerFromRow(order[i], rows[order[i]]), restored[i])
    {
      assert IsRequest(requests[i], rows);
    }
  }

  /** The order in which the protocol restores: the accepted layout, or nothing. */
  function OrderOf(workers: Option<seq<Rows.SegmentRequest>>): seq<nat> {
    if workers.Some? then IndexOrder(workers.value) else []
  }

  /** The workers that come back of the stored rows: an accepted layout of a task that was active and has its
      file, or none. */
  function Accepted(row: Rows.TaskRow, workerRows: seq<Rows.WorkerRow>, present: bool): Option<seq<Rows.SegmentRequest>> {
    var layout := Recovery.Sanitized(row.id, row.total, row.sources, Mapping.DbWorkersToRequests(workerRows));
    var active := row.status == "Running" || row.status == "Preparing" || row.status == "Paused";
    if active && present && layout != [] then Some(layout) else None
  }

  function Requests(workers: Option<seq<Rows.SegmentRequest>>): seq<Rows.SegmentRequest> {
    if workers.Some? then workers.value else []
  }

  method PlanRestart(row: Rows.TaskRow, workerRows: seq<Rows.WorkerRow>, pieceRows: seq<Rows.PieceRow>,
                     blockRows: seq<Rows.BlockRow>, file: Recovery.FileState)
    returns (plan: Recovery.RestorePlan)
    ensures plan.workers == Accepted(row, workerRows, file.present)
    ensures plan.task.blockStates == Mapping.DbBlocksToBlockStates(blockRows)
  {
    Recovery.StatusByString(row, pieceRows, blockRows, file);
    plan := Recovery.BuildRestorePlan(row, workerRows, pieceRows, blockRows, file);
  }

  method StartTask(plan: Recovery.RestorePlan, sources: SourceSet, fallback: string, stored: map<nat, Job.JobWorker>,
                   m: Manifest)
    returns (task: Job.Task)
    ensures fresh(task) && task.manifest == Some(m)
    ensures task.blockStates == InstalledBlocks(m.blocks, plan.task.blockStates)
    ensures task.workers == Job.RestoredWorkers(Requests(plan.workers), sources, fallback) && task.storedWorkers == stored
  {
    task := new Job.Task(sources, plan.task.pieceStates, plan.task.blockStates,
                         Job.RestoredWorkers(Requests(plan.workers), sources, fallback), stored, plan.task.downloaded);
    task.InstallManifest(m);
  }

  lemma AcceptedRestores(c: Config, s: State, row: Rows.TaskRow, workerRows: seq<Rows.WorkerRow>, present: bool,
                         sources: SourceSet, fallback: string)
    requires c.Valid() && Inv(c, s) && !s.resetUnsaved && c.m.total > 0 && row.total == Some(c.m.total)
    requires StoredAs(workerRows, s.rows)
    ensures var workers := Accepted(row, workerRows, present);
            var order := OrderOf(workers);
            && Enabled(c, s, Restore(order)) && Inv(c, Apply(c, s, Restore(order)))
            && (forall i :: 0 <= i < |order| ==> order[i] in s.rows)
            && SameWorkers(RestoredWorkers(s.rows, order), Ids(0, |order|),
                           Job.RestoredWorkers(Requests(workers), sources, fallback))
  {
    AcceptedRowsTile(row.id, c.m.total, row.sources, workerRows, s.rows);
    var workers := Accepted(row, workerRows, present);
    RestoredAreListed(Requests(workers), s.rows, sources, fallback);
    RestoreKeepsInv(c, s, OrderOf(workers));
  }

  /** Starting again from what is stored is the protocol's restart from the accepted rows, in index order. */
  method Restart(row: Rows.TaskRow, workerRows: seq<Rows.WorkerRow>, pieceRows: seq<Rows.PieceRow>,
                 blockRows: seq<Rows.BlockRow>, file: Recovery.FileState, sources: SourceSet, fallback: string,
                 stored: map<nat, Job.JobWorker>, m: Manifest, ghost c: Config, ghost s: State)
    returns (task: Job.Task, ghost order: seq<nat>)
    requires c.Valid() && Inv(c, s) && !s.resetUnsaved && m == c.m && c.m.total > 0 && row.total == Some(c.m.total)
    requires StoredAs(workerRows, s.rows) && SameRows(s.rows, stored)
    requires Mapping.DbBlocksToBlockStates(blockRows) == s.storedBlocks
    ensures fresh(task) && Enabled(c, s, Restore(order))
    ensures order == OrderOf(Accepted(row, workerRows, file.present))
    ensures Inv(c, Apply(c, s, Restore(order))) && Views(c, Apply(c, s, Restore(order)), task)
  {
    AcceptedRestores(c, s, row, workerRows, file.present, sources, fallback);
    var plan := PlanRestart(row, workerRows, pieceRows, blockRows, file);
    order := OrderOf(plan.workers);
    task := StartTask(plan, sources, fallback, stored, m);
  }
}
