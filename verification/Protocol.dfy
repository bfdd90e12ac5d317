/** Segmented download of one payload as a transition system.

    The state is what is on disk (payload bytes, stored rows), what is in memory (workers, the
    listed workers, block states) and what is on its way between the two (operations in flight).
    Steps interleave arbitrarily; each step is one atomic access of the program. `written` is
    ghost knowledge: the payload bytes that have been written since the file was last created. */
module Protocol {
  import opened Widths
  import opened Pieces
  import opened Manifests
  import opened Planner
  import opened Progress

  /** What a run is about: the manifest, and the bytes the origin serves. */
  datatype Config = Config(m: Manifest, origin: seq<byte>) {
    ghost predicate Valid() {
      m.WellFormed() && m.totalKnown && |origin| == m.total
    }
  }

  /** `local` is the variable of the download loop, `counter` what it has published, and `inflight`
      the bytes of the current slice that have already reached the file. `attached` says that the
      file is the payload and not one that has been removed since the loop opened it. */
  datatype Worker = Worker(index: nat, start: nat, end: nat, counter: nat, local: nat, inflight: nat,
                           attached: bool, done: bool) {
    function Length(): nat { RangeLength(start, end) }
    /** Where the next byte of the current slice goes. */
    function Position(): nat { start + local + inflight }
    /** Bytes of the lane the worker claims: its counter, or everything once it is completed. */
    function Claim(): nat { if done then Length() else counter }
    function AsProgress(): LaneProgress { LaneProgress(start, end, counter) }
    function Writing(n: nat): Worker { this.(inflight := inflight + n) }
    function Committed(): Worker { this.(local := local + inflight, inflight := 0) }
    function Published(): Worker { this.(counter := local) }
    function Retried(): Worker { this.(inflight := 0, attached := true) }
    function Restarted(): Worker { this.(local := counter, inflight := 0, attached := true) }
    function Finished(): Worker { this.(done := true) }
  }

  /** A stored worker row. Its counter is read before its status, so it can say `done` beside a
      counter that is not full. */
  datatype Row = Row(start: nat, end: nat, counter: nat, done: bool) {
    function Length(): nat { RangeLength(start, end) }
    function Claim(): nat { if done then Length() else counter }
  }

  /** An operation that has read something and not yet stored its result. */
  datatype Frame =
    | ListFrame(todo: seq<nat>)               // a sync that has read the worker list
    | SyncFrame(states: seq<BlockState>, todo: seq<nat>)
    | WorkerFrame(w: nat)                     // a worker to store, nothing read yet
    | CounterFrame(w: nat, counter: nat)      // its counter has been read, its status not
    | RowFrame(index: nat, row: Row)
    | FlagsFrame(states: seq<BlockState>)
    | CompletionFrame                         // all workers were seen completed, nothing is marked yet

  datatype State = State(
    content: seq<byte>,
    written: set<nat>,
    workers: map<nat, Worker>,
    nextId: nat,
    listed: seq<nat>,
    blocks: seq<BlockState>,
    frames: map<nat, Frame>,
    rows: map<nat, Row>,
    storedBlocks: seq<BlockState>,
    resetUnsaved: bool)

  datatype Action =
    | Write(w: nat, n: nat)             // part of a slice reaches the worker's file
    | Commit(w: nat)                    // the slice is written: advance the loop variable
    | Publish(w: nat)                   // store the loop variable into the counter
    | Retry(w: nat)                     // an attempt failed, maybe half way through a slice; the loop goes on
    | Restart(w: nat)                   // a download loop starts from the counter
    | Finish(w: nat)                    // the length check passed
    | BeginSync(f: nat)                 // read the worker list
    | ReadBlocks(f: nat)                // read the block states
    | SyncWorker(f: nat)                // read one counter and mark its blocks
    | EndSync(f: nat)                   // publish the block states
    | BeginRow(f: nat, position: nat)   // pick a listed worker for storing
    | ReadCounter(f: nat)
    | ReadStatus(f: nat)
    | ReadFlags(f: nat)                 // read the block states for storing
    | StoreRow(f: nat)
    | StoreFlags(f: nat)
    | PurgeRows
    | Rebuild(lanes: seq<Lane>)         // replace the workers by freshly planned ones
    | Reset                             // discard the file and all progress
    | Restore(order: seq<nat>)          // crash, then restart from the stored rows in index order
    | CheckCompleted(f: nat)            // see that all workers have completed
    | Complete(f: nat)                  // mark everything completed

  // ---------------------------------------------------------------- small operations

  function Bytes(lo: nat, hi: nat): (s: set<nat>)
    ensures forall k :: k in s <==> lo <= k < hi
  {
    if lo >= hi then {} else Bytes(lo, hi - 1) + {hi - 1}
  }

  /** `content` with the origin's bytes in `[lo, hi)`. */
  function Overlay(content: seq<byte>, origin: seq<byte>, lo: nat, hi: nat): (r: seq<byte>)
    requires |content| == |origin| && lo <= hi <= |origin|
    ensures |r| == |content|
    ensures forall k :: 0 <= k < |content| ==> r[k] == if lo <= k < hi then origin[k] else content[k]
  {
    seq(|content|, k requires 0 <= k < |content| == |origin| => if lo <= k < hi then origin[k] else content[k])
  }

  function Zeros(n: nat): (z: seq<byte>)
    ensures |z| == n && forall k :: 0 <= k < n ==> z[k] == 0
  {
    seq(n, _ => 0)
  }

  /** Block states after reading one worker's counter. */
  function MarkWorker(states: seq<BlockState>, blocks: seq<PieceBlock>, w: Worker): (r: seq<BlockState>)
    ensures |r| == |states|
  {
    MarkClaim(states, blocks, w.AsProgress())
  }

  /** Fresh workers for planned lanes, seeded from the block states. */
  function SeededWorker(c: Config, states: seq<BlockState>, lane: Lane): Worker {
    var seed := Seed(c.m.blocks, states, lane.start, lane.end);
    Worker(lane.laneId, lane.start, lane.end, seed, seed, 0, true, false)
  }

  function WorkerFromRow(index: nat, row: Row): Worker {
    Worker(index, row.start, row.end, row.counter, row.counter, 0, true, row.done)
  }

  /** Ids `base`, `base + 1`, ... */
  function Ids(base: nat, n: nat): (ids: seq<nat>)
    ensures |ids| == n && forall i :: 0 <= i < n ==> ids[i] == base + i
  {
    seq(n, i requires 0 <= i < n => base + i)
  }

  function SeededWorkers(c: Config, states: seq<BlockState>, lanes: seq<Lane>, base: nat): (m: map<nat, Worker>)
    ensures forall k :: k in m <==> base <= k < base + |lanes|
    ensures forall k :: k in m ==> m[k] == SeededWorker(c, states, lanes[k - base])
  {
    if lanes == [] then map[]
    else
      var n := |lanes| - 1;
      SeededWorkers(c, states, lanes[..n], base)[base + n := SeededWorker(c, states, lanes[n])]
  }

  function RestoredWorkers(rows: map<nat, Row>, order: seq<nat>): (m: map<nat, Worker>)
    requires forall i :: 0 <= i < |order| ==> order[i] in rows
    ensures forall k :: k in m <==> 0 <= k < |order|
    ensures forall k :: k in m ==> m[k] == WorkerFromRow(order[k], rows[order[k]])
  {
    map k | k in Bytes(0, |order|) :: WorkerFromRow(order[k], rows[order[k]])
  }

  // ---------------------------------------------------------------- claims

  ghost predicate AllWritten(written: set<nat>, lo: nat, hi: nat) {
    forall k :: lo <= k < hi ==> k in written
  }

  /** Every completed flag stands for written bytes. */
  ghost predicate FlagsCovered(c: Config, written: set<nat>, states: seq<BlockState>) {
    forall j :: 0 <= j < |states| && j < |c.m.blocks| && states[j].completed ==>
      AllWritten(written, c.m.blocks[j].offset, c.m.blocks[j].End())
  }

  ghost predicate RowCovered(written: set<nat>, row: Row) {
    AllWritten(written, row.start, row.start + row.Claim())
  }

  ghost predicate ClaimCovered(written: set<nat>, workers: map<nat, Worker>, id: nat) {
    id in workers && AllWritten(written, workers[id].start, workers[id].start + workers[id].Claim())
  }

  /** The bytes that have been written are the origin's. */
  ghost predicate ContentOk(c: Config, content: seq<byte>, written: set<nat>) {
    && |content| == |c.origin|
    && forall k :: k in written ==> k < |c.origin| && content[k] == c.origin[k]
  }

  /** No claim of progress covers a byte that was never written, and written bytes are the origin's. */
  ghost predicate Safe(c: Config, s: State) {
    && ContentOk(c, s.content, s.written)
    && (forall i :: 0 <= i < |s.listed| ==> ClaimCovered(s.written, s.workers, s.listed[i]))
    && FlagsCovered(c, s.written, s.blocks)
    && (forall i :: i in s.rows ==> RowCovered(s.written, s.rows[i]))
    && (!s.resetUnsaved ==> FlagsCovered(c, s.written, s.storedBlocks))
  }

  // ---------------------------------------------------------------- steps

  ghost predicate NoneCompleted(states: seq<BlockState>) {
    forall j :: 0 <= j < |states| ==> !states[j].completed
  }

  /** Nothing in flight carries or can acquire a claim about the file that a reset removes. */
  ghost predicate Claimless(frame: Frame) {
    match frame
    case ListFrame(todo) => todo == []
    case SyncFrame(states, todo) => NoneCompleted(states) && todo == []
    case WorkerFrame(_) => false
    case CounterFrame(_, _) => false
    case RowFrame(_, row) => row.Claim() == 0
    case FlagsFrame(states) => NoneCompleted(states)
    case CompletionFrame => false
  }

  ghost predicate Quiescent(s: State) {
    forall f :: f in s.frames ==> Claimless(s.frames[f])
  }

  /** The stored rows in increasing index order tile the payload: what recovery accepts. */
  ghost predicate RowsTile(rows: map<nat, Row>, order: seq<nat>, total: nat) {
    && order != [] && |order| == |rows|
    && (forall i :: 0 <= i < |order| ==> order[i] in rows)
    && (forall i, k :: 0 <= i < k < |order| ==> order[i] < order[k])
    && rows[order[0]].start == 0
    && rows[order[|order| - 1]].end + 1 == total
    && (forall i, k :: 0 <= i && k == i + 1 && k < |order| ==> rows[order[k]].start == rows[order[i]].end + 1)
  }

  ghost predicate ListedDone(s: State) {
    forall i :: 0 <= i < |s.listed| ==> s.listed[i] in s.workers && s.workers[s.listed[i]].done
  }

  ghost predicate Enabled(c: Config, s: State, a: Action) {
    match a
    case Write(w, n) =>
      && w in s.workers
      && s.workers[w].local + s.workers[w].inflight + n <= s.workers[w].Length()
      && s.workers[w].Position() + n <= |s.content| == |c.origin|
    case Commit(w) => w in s.workers
    case Publish(w) => w in s.workers
    case Retry(w) => w in s.workers
    case Restart(w) => w in s.workers
    case Finish(w) =>
      w in s.workers && s.workers[w].local == s.workers[w].counter == s.workers[w].Length()
    case BeginSync(f) => f !in s.frames
    case ReadBlocks(f) => f in s.frames && s.frames[f].ListFrame?
    case SyncWorker(f) =>
      f in s.frames && s.frames[f].SyncFrame? && s.frames[f].todo != [] && s.frames[f].todo[0] in s.workers
    case EndSync(f) => f in s.frames && s.frames[f].SyncFrame? && s.frames[f].todo == []
    case BeginRow(f, position) => f !in s.frames && position < |s.listed|
    case ReadCounter(f) => f in s.frames && s.frames[f].WorkerFrame? && s.frames[f].w in s.workers
    case ReadStatus(f) => f in s.frames && s.frames[f].CounterFrame? && s.frames[f].w in s.workers
    case ReadFlags(f) => f !in s.frames
    case StoreRow(f) => f in s.frames && s.frames[f].RowFrame?
    case StoreFlags(f) => f in s.frames && s.frames[f].FlagsFrame?
    case PurgeRows => true
    case Rebuild(lanes) => Partition(lanes, c.m)
    case Reset => Quiescent(s)
    case Restore(order) =>
      && !s.resetUnsaved
      && (order != [] ==> RowsTile(s.rows, order, c.m.total))
    case CheckCompleted(f) => f !in s.frames && s.listed != [] && ListedDone(s)
    case Complete(f) => f in s.frames && s.frames[f].CompletionFrame?
  }

  ghost function Apply(c: Config, s: State, a: Action): State
    requires Enabled(c, s, a)
  {
    match a
    case Write(w, n) => ApplyWrite(c, s, w, n)
    case Commit(w) => SetWorker(s, w, s.workers[w].Committed())
    case Publish(w) => SetWorker(s, w, s.workers[w].Published())
    case Retry(w) => SetWorker(s, w, s.workers[w].Retried())
    case Restart(w) => SetWorker(s, w, s.workers[w].Restarted())
    case Finish(w) => SetWorker(s, w, s.workers[w].Finished())
    case BeginSync(f) => SetFrame(s, f, ListFrame(s.listed))
    case ReadBlocks(f) => SetFrame(s, f, SyncFrame(InstalledBlocks(c.m.blocks, s.blocks), s.frames[f].todo))
    case SyncWorker(f) =>
      var frame := s.frames[f];
      SetFrame(s, f, SyncFrame(MarkWorker(frame.states, c.m.blocks, s.workers[frame.todo[0]]), frame.todo[1..]))
    case EndSync(f) =>
      s.(blocks := s.frames[f].states, frames := s.frames - {f})
    case BeginRow(f, position) => SetFrame(s, f, WorkerFrame(s.listed[position]))
    case ReadCounter(f) =>
      var w := s.frames[f].w;
      SetFrame(s, f, CounterFrame(w, s.workers[w].counter))
    case ReadStatus(f) =>
      var x := s.workers[s.frames[f].w];
      SetFrame(s, f, RowFrame(x.index, Row(x.start, x.end, s.frames[f].counter, x.done)))
    case ReadFlags(f) => SetFrame(s, f, FlagsFrame(s.blocks))
    case StoreRow(f) =>
      s.(rows := s.rows[s.frames[f].index := s.frames[f].row], frames := s.frames - {f})
    case StoreFlags(f) =>
      s.(storedBlocks := s.frames[f].states, resetUnsaved := false, frames := s.frames - {f})
    case PurgeRows =>
      s.(rows := map[])
    case Rebuild(lanes) => ApplyRebuild(c, s, lanes)
    case Reset => ApplyReset(c, s)
    case Restore(order) => ApplyRestore(c, s, order)
    case CheckCompleted(f) => SetFrame(s, f, CompletionFrame)
    case Complete(f) =>
      s.(blocks := AllCompleted(s.blocks), frames := s.frames - {f})
  }

  ghost function SetWorker(s: State, w: nat, x: Worker): State {
    s.(workers := s.workers[w := x])
  }

  ghost function SetFrame(s: State, f: nat, frame: Frame): State {
    s.(frames := s.frames[f := frame])
  }

  /** The payload after worker `x` has written `n` more bytes of its slice. */
  ghost function Landed(c: Config, content: seq<byte>, x: Worker, n: nat): (r: seq<byte>)
    requires |content| == |c.origin| && x.Position() + n <= |c.origin|
    ensures |r| == |content|
  {
    if x.attached then Overlay(content, c.origin, x.Position(), x.Position() + n) else content
  }

  ghost function LandedBytes(written: set<nat>, x: Worker, n: nat): set<nat> {
    if x.attached then written + Bytes(x.Position(), x.Position() + n) else written
  }

  ghost function ApplyWrite(c: Config, s: State, w: nat, n: nat): State
    requires Enabled(c, s, Write(w, n))
  {
    var x := s.workers[w];
    s.(content := Landed(c, s.content, x, n), written := LandedBytes(s.written, x, n),
       workers := s.workers[w := x.Writing(n)])
  }

  ghost function ApplyRebuild(c: Config, s: State, lanes: seq<Lane>): State {
    s.(workers := s.workers + SeededWorkers(c, s.blocks, lanes, s.nextId),
       nextId := s.nextId + |lanes|,
       listed := Ids(s.nextId, |lanes|),
       rows := map[])
  }

  function Detached(workers: map<nat, Worker>): (r: map<nat, Worker>)
    ensures forall id :: id in r <==> id in workers
    ensures forall id :: id in workers ==> r[id] == workers[id].(attached := false)
  {
    map id | id in workers :: workers[id].(attached := false)
  }

  /** The file is removed and re-created with zeros; flags, listed workers and worker rows go, stored
      block rows stay. Download loops may still be running, on the removed file until they retry. */
  ghost function ApplyReset(c: Config, s: State): State {
    s.(content := Zeros(c.m.total), written := {}, workers := Detached(s.workers), listed := [],
       blocks := InitializeBlockStates(c.m.blocks), rows := map[], resetUnsaved := true)
  }

  /** Memory is lost; block states come from the stored rows, workers from the accepted worker rows. */
  ghost function ApplyRestore(c: Config, s: State, order: seq<nat>): State
    requires forall i :: 0 <= i < |order| ==> order[i] in s.rows
  {
    s.(workers := RestoredWorkers(s.rows, order), nextId := |order|, listed := Ids(0, |order|),
       blocks := InstalledBlocks(c.m.blocks, s.storedBlocks), frames := map[])
  }

  // ---------------------------------------------------------------- runs

  /** A task that has been added and prepared, with nothing downloaded. */
  ghost function Init(c: Config): State {
    State(Zeros(c.m.total), {}, map[], 0, [], InitializeBlockStates(c.m.blocks), map[], map[], [], false)
  }

  /** Every action is enabled where it is taken. */
  ghost predicate CanRun(c: Config, s: State, actions: seq<Action>)
    decreases |actions|
  {
    actions == [] || (Enabled(c, s, actions[0]) && CanRun(c, Apply(c, s, actions[0]), actions[1..]))
  }

  ghost function RunFrom(c: Config, s: State, actions: seq<Action>): State
    requires CanRun(c, s, actions)
    decreases |actions|
  {
    if actions == [] then s else RunFrom(c, Apply(c, s, actions[0]), actions[1..])
  }
}
