/** The protocol is not safe by standing still: from every state it can reach, the download can be
    completed, with the origin's content. */
module ProtocolCompletion {
  import opened Widths
  import opened Pieces
  import opened Planner
  import opened Protocol
  import opened ProtocolSafety
  import opened ProtocolRefinement

  /** What one worker's steps leave alone: everything but the file and that worker. */
  ghost predicate OnlyWorker(s: State, t: State, w: nat) {
    && t == s.(content := t.content, written := t.written, workers := t.workers)
    && (forall id :: id in t.workers <==> id in s.workers)
    && (forall id :: id in s.workers && id != w ==> t.workers[id] == s.workers[id])
  }

  /** A worker at any point of its lane, done with what it was doing. */
  ghost predicate Ready(c: Config, s: State, w: nat) {
    && w in s.workers && |s.content| == |c.origin| && s.workers[w].inflight == 0
    && s.workers[w].local <= s.workers[w].Length() && s.workers[w].end < |c.origin|
    && s.workers[w].start <= s.workers[w].end
  }

  lemma RetryReadies(c: Config, s: State, w: nat) returns (t: State)
    requires c.Valid() && Inv(c, s) && w in s.workers
    ensures Enabled(c, s, Retry(w)) && t == Apply(c, s, Retry(w))
    ensures Ready(c, t, w) && OnlyWorker(s, t, w)
  {
    assert WorkerOk(c, s.workers[w]);
    t := Apply(c, s, Retry(w));
  }

  /** The rest of the lane in one slice. */
  lemma RestOfLane(c: Config, s: State, w: nat) returns (t: State, actions: seq<Action>)
    requires Ready(c, s, w)
    ensures CanRun(c, s, actions) && RunFrom(c, s, actions) == t && OnlyWorker(s, t, w)
    ensures w in t.workers && t.workers[w].local == t.workers[w].Length() && t.workers[w].inflight == 0
  {
    var x := s.workers[w];
    var n := x.Length() - x.local;
    if n == 0 {
      t, actions := s, [];
    } else {
      SliceIsARun(c, s, w, n);
      t, actions := AfterStream(c, s, w, n, 0), [Write(w, n), Commit(w), Publish(w)];
    }
  }

  lemma PublishAndFinish(c: Config, s: State, w: nat) returns (t: State)
    requires w in s.workers && s.workers[w].local == s.workers[w].Length()
    ensures CanRun(c, s, [Publish(w)] + [Finish(w)]) && RunFrom(c, s, [Publish(w)] + [Finish(w)]) == t
    ensures OnlyWorker(s, t, w) && w in t.workers && t.workers[w].done
  {
    RunOne(c, s, Publish(w));
    RunOneMore(c, s, [Publish(w)], Finish(w));
    t := Apply(c, Apply(c, s, Publish(w)), Finish(w));
  }

  /** Any worker can be brought to the end of its lane. */
  lemma FinishOne(c: Config, s: State, w: nat) returns (t: State, actions: seq<Action>)
    requires c.Valid() && Inv(c, s) && w in s.workers
    ensures CanRun(c, s, actions) && RunFrom(c, s, actions) == t
    ensures OnlyWorker(s, t, w) && w in t.workers && t.workers[w].done
  {
    var s1 := RetryReadies(c, s, w);
    RunOne(c, s, Retry(w));
    var s2, more := RestOfLane(c, s1, w);
    RunConcat(c, s, [Retry(w)], more);
    t := PublishAndFinish(c, s2, w);
    RunConcat(c, s, [Retry(w)] + more, [Publish(w)] + [Finish(w)]);
    actions := [Retry(w)] + more + ([Publish(w)] + [Finish(w)]);
  }

  /** The first `n` listed workers have finished. */
  ghost predicate FirstDone(s: State, n: nat)
    requires n <= |s.listed|
  {
    forall i :: 0 <= i < n ==> s.listed[i] in s.workers && s.workers[s.listed[i]].done
  }

  lemma DoneGrows(s: State, t: State, n: nat)
    requires n < |s.listed| && FirstDone(s, n) && OnlyWorker(s, t, s.listed[n])
    requires s.listed[n] in t.workers && t.workers[s.listed[n]].done
    ensures t.listed == s.listed && t.frames == s.frames && FirstDone(t, n + 1)
  {
    forall i | 0 <= i < n + 1
      ensures t.listed[i] in t.workers && t.workers[t.listed[i]].done
    {
      assert i < n ==> s.listed[i] in s.workers && s.workers[s.listed[i]].done;
    }
  }

  lemma ListedIsWorker(c: Config, s: State, n: nat)
    requires Inv(c, s) && n < |s.listed|
    ensures s.listed[n] in s.workers
  {
    assert Tracked(s.written, s.workers, s.listed[n]);
  }

  lemma {:induction false} FinishFirst(c: Config, s: State, n: nat) returns (t: State, actions: seq<Action>)
    requires c.Valid() && Inv(c, s) && n <= |s.listed|
    ensures CanRun(c, s, actions) && RunFrom(c, s, actions) == t
    ensures Inv(c, t) && t.listed == s.listed && t.frames == s.frames && FirstDone(t, n)
    decreases n
  {
    if n == 0 {
      t, actions := s, [];
    } else {
      t, actions := FinishFirst(c, s, n - 1);
      ListedIsWorker(c, t, n - 1);
      var u, rest := FinishOne(c, t, t.listed[n - 1]);
      DoneGrows(t, u, n - 1);
      RunKeepsInv(c, t, rest);
      RunConcat(c, s, actions, rest);
      t, actions := u, actions + rest;
    }
  }

  lemma RebuildListsWorkers(c: Config, s: State, lanes: seq<Lane>) returns (t: State)
    requires c.Valid() && Inv(c, s) && Partition(lanes, c.m)
    ensures CanRun(c, s, [Rebuild(lanes)]) && RunFrom(c, s, [Rebuild(lanes)]) == t
    ensures Inv(c, t) && t.listed != [] && t.frames == s.frames
  {
    RunOne(c, s, Rebuild(lanes));
    RebuildKeepsInv(c, s, lanes);
    t := ApplyRebuild(c, s, lanes);
  }

  /** There is always a name for one more operation. */
  lemma {:induction false} FreshName(ids: set<nat>) returns (f: nat)
    ensures forall id :: id in ids ==> id < f
    decreases ids
  {
    if ids == {} {
      f := 0;
    } else {
      var id :| id in ids;
      var above := FreshName(ids - {id});
      f := Max(above, id + 1);
      forall x | x in ids
        ensures x < f
      {
        assert x == id || x in ids - {id};
      }
    }
  }

  /** What the two steps of completing do, one right after the other. */
  lemma CompletionRun(c: Config, s: State, f: nat)
    requires Enabled(c, s, CheckCompleted(f))
    ensures var actions := [CheckCompleted(f)] + [Complete(f)];
            CanRun(c, s, actions) && RunFrom(c, s, actions) == s.(blocks := AllCompleted(s.blocks))
  {
    RunOne(c, s, CheckCompleted(f));
    RunOneMore(c, s, [CheckCompleted(f)], Complete(f));
    assert s.frames[f := CompletionFrame] - {f} == s.frames;
  }

  lemma AllDoneCompletes(c: Config, s: State) returns (t: State, actions: seq<Action>)
    requires c.Valid() && Inv(c, s) && s.listed != [] && FirstDone(s, |s.listed|)
    ensures CanRun(c, s, actions) && RunFrom(c, s, actions) == t
    ensures t.content == c.origin && t == s.(blocks := AllCompleted(s.blocks))
  {
    var f := FreshName(s.frames.Keys);
    assert f !in s.frames;
    CompletionRun(c, s, f);
    CheckCompletedKeepsInv(c, s, f);
    t, actions := s.(blocks := AllCompleted(s.blocks)), [CheckCompleted(f)] + [Complete(f)];
  }

  /** From every state of every run, for every plan of the payload: rebuild the workers, let them finish,
      complete. The result is the origin, marked as completed; operations in flight stay in flight. */
  lemma CanAlwaysComplete(c: Config, s: State, lanes: seq<Lane>) returns (t: State, actions: seq<Action>)
    requires c.Valid() && Inv(c, s) && Partition(lanes, c.m)
    ensures CanRun(c, s, actions) && RunFrom(c, s, actions) == t
    ensures t.content == c.origin && t.frames == s.frames
    ensures |t.blocks| == |c.m.blocks| && forall j :: 0 <= j < |t.blocks| ==> t.blocks[j].completed
  {
    var s1 := RebuildListsWorkers(c, s, lanes);
    var s2, finishing := FinishFirst(c, s1, |s1.listed|);
    var completing: seq<Action>;
    t, completing := AllDoneCompletes(c, s2);
    RunConcat(c, s1, finishing, completing);
    RunConcat(c, s, [Rebuild(lanes)], finishing + completing);
    actions := [Rebuild(lanes)] + (finishing + completing);
  }
}
