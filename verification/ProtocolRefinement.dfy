/** How whole operations of the program appear in the protocol: a slice of a response, an uninterrupted
    progress sync, and the worker rows that recovery accepts. */
module ProtocolRefinement {
  import opened Widths
  import opened Wrappers
  import opened Sorting
  import opened Pieces
  import opened Sources
  import opened Progress
  import opened Protocol
  import Rows
  import Mapping
  import Recovery
  import Transfer

  // ---------------------------------------------------------------- runs

  lemma {:induction false} RunConcat(c: Config, s: State, a: seq<Action>, b: seq<Action>)
    requires CanRun(c, s, a) && CanRun(c, RunFrom(c, s, a), b)
    ensures CanRun(c, s, a + b) && RunFrom(c, s, a + b) == RunFrom(c, RunFrom(c, s, a), b)
    decreases |a|
  {
    if a == [] {
      assert a + b == b;
    } else {
      assert (a + b)[0] == a[0] && (a + b)[1..] == a[1..] + b;
      RunConcat(c, Apply(c, s, a[0]), a[1..], b);
    }
  }

  lemma RunOne(c: Config, s: State, a: Action)
    requires Enabled(c, s, a)
    ensures CanRun(c, s, [a]) && RunFrom(c, s, [a]) == Apply(c, s, a)
  {
    assert [a][1..] == [];
  }

  lemma RunOneMore(c: Config, s: State, actions: seq<Action>, a: Action)
    requires CanRun(c, s, actions) && Enabled(c, RunFrom(c, s, actions), a)
    ensures CanRun(c, s, actions + [a]) && RunFrom(c, s, actions + [a]) == Apply(c, RunFrom(c, s, actions), a)
  {
    RunOne(c, RunFrom(c, s, actions), a);
    RunConcat(c, s, actions, [a]);
  }

  // ---------------------------------------------------------------- slices of a response

  /** Worker `w` between slices, `n` bytes further, all of them published, and `torn` bytes into a
      slice that will not be finished. */
  ghost function AfterStream(c: Config, s: State, w: nat, n: nat, torn: nat): State
    requires w in s.workers && |s.content| == |c.origin| && s.workers[w].Position() + n + torn <= |c.origin|
  {
    var x := s.workers[w];
    s.(content := Landed(c, s.content, x, n + torn), written := LandedBytes(s.written, x, n + torn),
       workers := s.workers[w := x.(local := x.local + n, counter := if n == 0 then x.counter else x.local + n,
                                    inflight := torn)])
  }

  /** There is room for `n` more bytes in the worker's lane. */
  ghost predicate Fits(c: Config, s: State, w: nat, n: nat) {
    && w in s.workers && s.workers[w].inflight == 0 && |s.content| == |c.origin|
    && s.workers[w].local + n <= s.workers[w].Length()
    && s.workers[w].Position() + n <= |c.origin|
  }

  lemma TornIsARun(c: Config, s: State, w: nat, torn: nat)
    requires Fits(c, s, w, torn)
    ensures CanRun(c, s, [Write(w, torn)]) && RunFrom(c, s, [Write(w, torn)]) == AfterStream(c, s, w, 0, torn)
  {
    RunOne(c, s, Write(w, torn));
  }

  lemma SliceIsARun(c: Config, s: State, w: nat, n: nat)
    requires Fits(c, s, w, n) && n > 0
    ensures var actions := [Write(w, n), Commit(w), Publish(w)];
            CanRun(c, s, actions) && RunFrom(c, s, actions) == AfterStream(c, s, w, n, 0)
  {
    TornIsARun(c, s, w, n);
    var s1 := AfterStream(c, s, w, 0, n);
    var s2 := Apply(c, s1, Commit(w));
    RunOneMore(c, s, [Write(w, n)], Commit(w));
    RunOneMore(c, s, [Write(w, n)] + [Commit(w)], Publish(w));
    assert [Write(w, n)] + [Commit(w)] + [Publish(w)] == [Write(w, n), Commit(w), Publish(w)];
  }

  lemma LandedOn(c: Config, content: seq<byte>, written: set<nat>, x: Worker, y: Worker, m: nat, n: nat)
    requires |content| == |c.origin| && x.Position() + m + n <= |c.origin|
    requires y.Position() == x.Position() + m && y.attached == x.attached
    ensures Landed(c, Landed(c, content, x, m), y, n) == Landed(c, content, x, m + n)
    ensures LandedBytes(LandedBytes(written, x, m), y, n) == LandedBytes(written, x, m + n)
  {
  }

  lemma StreamOn(c: Config, s: State, w: nat, m: nat, n: nat, torn: nat)
    requires Fits(c, s, w, m + n + torn)
    ensures AfterStream(c, AfterStream(c, s, w, m, 0), w, n, torn) == AfterStream(c, s, w, m + n, torn)
    ensures Fits(c, AfterStream(c, s, w, m, 0), w, n + torn)
  {
    var x := s.workers[w];
    var t := AfterStream(c, s, w, m, 0);
    LandedOn(c, s.content, s.written, x, t.workers[w], m, n + torn);
  }

  lemma {:induction false} SlicesAreARun(c: Config, s: State, w: nat, slices: seq<nat>, n: nat)
    returns (actions: seq<Action>)
    requires Transfer.Slices(slices, n) && Fits(c, s, w, n)
    ensures CanRun(c, s, actions) && RunFrom(c, s, actions) == AfterStream(c, s, w, n, 0)
    decreases |slices|
  {
    actions := [];
    if slices == [] {
      NothingStreamed(c, s, w);
    } else {
      var last := slices[|slices| - 1];
      actions := SlicesAreARun(c, s, w, slices[..|slices| - 1], n - last);
      actions := OneMoreSlice(c, s, w, actions, n - last, last);
    }
  }

  lemma OneMoreSlice(c: Config, s: State, w: nat, actions: seq<Action>, m: nat, n: nat) returns (all: seq<Action>)
    requires Fits(c, s, w, m + n) && n > 0
    requires CanRun(c, s, actions) && RunFrom(c, s, actions) == AfterStream(c, s, w, m, 0)
    ensures CanRun(c, s, all) && RunFrom(c, s, all) == AfterStream(c, s, w, m + n, 0)
  {
    StreamOn(c, s, w, m, n, 0);
    SliceIsARun(c, AfterStream(c, s, w, m, 0), w, n);
    all := actions + [Write(w, n), Commit(w), Publish(w)];
    RunConcat(c, s, actions, [Write(w, n), Commit(w), Publish(w)]);
  }

  /** The slices of a response and what is torn off the last one are a run: three steps for each whole
      slice, one for the torn part. */
  lemma StreamIsARun(c: Config, s: State, w: nat, slices: seq<nat>, n: nat, torn: nat) returns (actions: seq<Action>)
    requires Transfer.Slices(slices, n) && Fits(c, s, w, n + torn)
    ensures CanRun(c, s, actions) && RunFrom(c, s, actions) == AfterStream(c, s, w, n, torn)
  {
    actions := SlicesAreARun(c, s, w, slices, n);
    StreamOn(c, s, w, n, 0, torn);
    TornIsARun(c, AfterStream(c, s, w, n, 0), w, torn);
    RunConcat(c, s, actions, [Write(w, torn)]);
    actions := actions + [Write(w, torn)];
  }

  lemma NothingStreamed(c: Config, s: State, w: nat)
    requires Fits(c, s, w, 0)
    ensures AfterStream(c, s, w, 0, 0) == s
  {
    var x := s.workers[w];
    assert Landed(c, s.content, x, 0) == s.content;
    assert LandedBytes(s.written, x, 0) == s.written;
    assert s.workers[w := x] == s.workers;
  }

  /** Origin bytes put at the worker's position are what the protocol lands there. */
  lemma PutIsLanded(c: Config, content: seq<byte>, x: Worker, data: seq<byte>, done: nat)
    requires x.attached && |content| == |c.origin| && done <= |data| && x.Position() + |data| <= |c.origin|
    requires data == c.origin[x.Position()..x.Position() + |data|]
    ensures Transfer.Put(content, x.Position(), data, done) == Landed(c, content, x, done)
  {
  }

  // ---------------------------------------------------------------- a sync nobody interrupts

  /** The listed workers as a sync sees them. */
  function ListedProgress(workers: map<nat, Worker>, listed: seq<nat>): (r: seq<LaneProgress>)
    requires forall i :: 0 <= i < |listed| ==> listed[i] in workers
    ensures |r| == |listed|
  {
    seq(|listed|, i requires 0 <= i < |listed| && listed[i] in workers => workers[listed[i]].AsProgress())
  }

  /** Begin, read every counter, end. */
  function SyncActions(f: nat, n: nat): seq<Action> {
    if n == 0 then [EndSync(f)] else [SyncWorker(f)] + SyncActions(f, n - 1)
  }

  lemma SyncReads(c: Config, s: State, f: nat) returns (next: Frame)
    requires f in s.frames && s.frames[f].SyncFrame? && s.frames[f].todo != []
    requires forall i :: 0 <= i < |s.frames[f].todo| ==> s.frames[f].todo[i] in s.workers
    ensures Enabled(c, s, SyncWorker(f)) && Apply(c, s, SyncWorker(f)) == SetFrame(s, f, next)
    ensures next.SyncFrame? && next.todo == s.frames[f].todo[1..]
    ensures SyncedBlocks(next.states, c.m.blocks, ListedProgress(s.workers, next.todo))
         == SyncedBlocks(s.frames[f].states, c.m.blocks, ListedProgress(s.workers, s.frames[f].todo))
  {
    var frame := s.frames[f];
    assert frame.todo[0] in s.workers;
    next := SyncFrame(MarkWorker(frame.states, c.m.blocks, s.workers[frame.todo[0]]), frame.todo[1..]);
    var progress := ListedProgress(s.workers, frame.todo);
    assert progress == [progress[0]] + progress[1..];
    assert progress[1..] == ListedProgress(s.workers, frame.todo[1..]);
    SyncOneFirst(frame.states, c.m.blocks, progress[0], progress[1..]);
  }

  lemma {:induction false} SyncLoop(c: Config, s: State, f: nat)
    requires f in s.frames && s.frames[f].SyncFrame?
    requires forall i :: 0 <= i < |s.frames[f].todo| ==> s.frames[f].todo[i] in s.workers
    ensures var frame := s.frames[f];
            var actions := SyncActions(f, |frame.todo|);
            CanRun(c, s, actions)
            && RunFrom(c, s, actions) == s.(
                 blocks := SyncedBlocks(frame.states, c.m.blocks, ListedProgress(s.workers, frame.todo)),
                 frames := s.frames - {f})
    decreases |s.frames[f].todo|
  {
    var frame := s.frames[f];
    if frame.todo == [] {
      RunOne(c, s, EndSync(f));
    } else {
      var next := SyncReads(c, s, f);
      var t := SetFrame(s, f, next);
      SyncLoop(c, t, f);
      assert t.frames - {f} == s.frames - {f};
      var rest := SyncActions(f, |frame.todo| - 1);
      assert ([SyncWorker(f)] + rest)[1..] == rest;
    }
  }

  lemma SyncOneFirst(states: seq<BlockState>, blocks: seq<PieceBlock>, w: LaneProgress, rest: seq<LaneProgress>)
    ensures SyncedBlocks(states, blocks, [w] + rest) == SyncedBlocks(MarkClaim(states, blocks, w), blocks, rest)
  {
    var workers := [w] + rest;
    assert workers[1..] == rest && workers[0] == w;
    if w.Downloaded() != 0 {
      var r := Range(w.start, w.start + w.Downloaded() - 1);
      assert ClaimRanges(workers) == [r] + ClaimRanges(rest);
      assert ([r] + ClaimRanges(rest))[1..] == ClaimRanges(rest);
    } else {
      assert ClaimRanges(workers) == ClaimRanges(rest);
    }
  }

  /** A sync nobody interrupts leaves the block states the sequential program computes. */
  lemma UninterruptedSync(c: Config, s: State, f: nat)
    requires f !in s.frames
    requires forall i :: 0 <= i < |s.listed| ==> s.listed[i] in s.workers
    ensures var actions := [BeginSync(f), ReadBlocks(f)] + SyncActions(f, |s.listed|);
            CanRun(c, s, actions)
            && RunFrom(c, s, actions) == s.(
                 blocks := SyncedBlocks(InstalledBlocks(c.m.blocks, s.blocks), c.m.blocks, ListedProgress(s.workers, s.listed)))
  {
    var s1 := Apply(c, s, BeginSync(f));
    var s2 := Apply(c, s1, ReadBlocks(f));
    SyncLoop(c, s2, f);
    var rest := SyncActions(f, |s.listed|);
    var actions := [BeginSync(f), ReadBlocks(f)] + rest;
    assert actions[1..] == [ReadBlocks(f)] + rest && actions[1..][1..] == rest;
    assert s2.frames - {f} == s.frames;
  }

  // ---------------------------------------------------------------- the rows recovery accepts

  /** `stored` are the protocol's rows of one task, in any order. */
  ghost predicate StoredAs(stored: seq<Rows.WorkerRow>, rows: map<nat, Row>) {
    && |stored| == |rows|
    && (forall i, k :: 0 <= i < k < |stored| ==> stored[i].index != stored[k].index)
    && forall i :: 0 <= i < |stored| ==> IsRow(stored[i], rows)
  }

  ghost predicate IsRow(w: Rows.WorkerRow, rows: map<nat, Row>) {
    && w.index in rows && rows[w.index].start == w.start && rows[w.index].end == w.end
    && rows[w.index].counter == w.downloaded && rows[w.index].done == (w.status == "Completed")
  }

  function IndexOrder(requests: seq<Rows.SegmentRequest>): (order: seq<nat>)
    ensures |order| == |requests|
  {
    seq(|requests|, i requires 0 <= i < |requests| => requests[i].index)
  }

  /** The request carries the range, the counter and the status of the row under its index. */
  ghost predicate IsRequest(w: Rows.SegmentRequest, rows: map<nat, Row>) {
    && w.index in rows && rows[w.index].start == w.start && rows[w.index].end == w.end
    && rows[w.index].counter == Recovery.Progress(w) && rows[w.index].done == (w.status == Some("Completed"))
  }

  /** Whatever layout recovery accepts, the protocol can restore: its rows tile the payload in index
      order, with the same ranges, counters and completed workers. */
  lemma AcceptedRowsTile(taskId: nat, total: u64, sources: Option<SourceSet>, stored: seq<Rows.WorkerRow>, rows: map<nat, Row>)
    requires total > 0 && StoredAs(stored, rows)
    ensures var result := Recovery.Sanitized(taskId, Some(total), sources, Mapping.DbWorkersToRequests(stored));
            result != [] ==>
              RowsTile(rows, IndexOrder(result), total) && forall i :: 0 <= i < |result| ==> IsRequest(result[i], rows)
  {
    var requests := Mapping.DbWorkersToRequests(stored);
    var sorted := SortByKey(requests, Recovery.IndexKey);
    var known := Recovery.KnownSources(sources);
    Recovery.AcceptedMeaning(sorted, taskId, Some(total), known);
    if Recovery.Accepted(sorted, taskId, Some(total), known) {
      SortedRequests(stored, rows);
      SortedRowsTile(taskId, total, known, sorted, rows);
      NormalizedRequests(sorted, known, rows);
    }
  }

  lemma SortedRequests(stored: seq<Rows.WorkerRow>, rows: map<nat, Row>)
    requires StoredAs(stored, rows)
    ensures var sorted := SortByKey(Mapping.DbWorkersToRequests(stored), Recovery.IndexKey);
            && Sorted(sorted, Recovery.IndexKey) && |sorted| == |rows|
            && forall i :: 0 <= i < |sorted| ==> IsRequest(sorted[i], rows)
  {
    var requests := Mapping.DbWorkersToRequests(stored);
    var sorted := SortByKey(requests, Recovery.IndexKey);
    SortPermutes(requests, Recovery.IndexKey);
    SortSorts(requests, Recovery.IndexKey);
    forall i | 0 <= i < |sorted|
      ensures IsRequest(sorted[i], rows)
    {
      assert sorted[i] in requests;
      var k :| 0 <= k < |requests| && requests[k] == sorted[i];
      assert IsRow(stored[k], rows);
    }
  }

  lemma NormalizedRequests(sorted: seq<Rows.SegmentRequest>, known: seq<Source>, rows: map<nat, Row>)
    requires forall i :: 0 <= i < |sorted| ==> IsRequest(sorted[i], rows)
    ensures IndexOrder(Recovery.NormalizedAll(sorted, known)) == IndexOrder(sorted)
    ensures forall i :: 0 <= i < |sorted| ==> IsRequest(Recovery.NormalizedAll(sorted, known)[i], rows)
  {
    forall i | 0 <= i < |sorted|
      ensures IsRequest(Recovery.Normalized(sorted[i], known), rows)
    {
      assert IsRequest(sorted[i], rows);
    }
  }

  lemma SortedRowsTile(taskId: nat, total: u64, known: seq<Source>, sorted: seq<Rows.SegmentRequest>, rows: map<nat, Row>)
    requires total > 0 && Recovery.LayoutOk(sorted, taskId, Some(total), known)
    requires Sorted(sorted, Recovery.IndexKey) && |sorted| == |rows|
    requires forall i :: 0 <= i < |sorted| ==> IsRequest(sorted[i], rows)
    ensures RowsTile(rows, IndexOrder(sorted), total)
  {
    var order := IndexOrder(sorted);
    forall i, k | 0 <= i < k < |order|
      ensures order[i] < order[k]
    {
      assert Leq(Recovery.IndexKey(sorted[i]), Recovery.IndexKey(sorted[k]));
    }
    forall i | 0 <= i < |sorted|
      ensures sorted[i].end < total
    {
      assert Recovery.RowOk(sorted[i], taskId, Some(total), known);
    }
  }
}
