/** The download loop of one worker in range mode (src/worker/runtime.rs:37-174, 235-281): it refines the
    protocol, whatever the servers, the network, the device and the user do. */
module Downloads {
  import opened Widths
  import opened Wrappers
  import opened PayloadStores
  import opened Protocol
  import opened ProtocolRefinement
  import T = Transfer

  /** What one attempt meets: a request that gets no response, or a response, its body, the user's
      patience and the device's budget while it is streamed. */
  datatype Reply =
    | Unreachable
    | Answer(head: T.Head, body: T.Body, patience: nat, budget: nat)

  /** `stopFirst` and `stopAfter`: the worker finds itself told to stop before or after the request. */
  datatype Turn = Turn(stopFirst: bool, reply: Reply, stopAfter: bool)

  datatype Verdict = Done | StopRequested | Retryable | Fatal

  predicate TerminalStatus(status: nat) { status in {401, 403, 404} }

  predicate RetryStatus(status: nat) { status in {408, 429, 500, 502, 503, 504} }

  // ---------------------------------------------------------------- what servers can do

  /** The server says, by status, that asking again is no use. */
  predicate Refused(turn: Turn) {
    !turn.stopFirst && turn.reply.Answer?
    && (turn.reply.head.status == 401 || turn.reply.head.status == 403 || turn.reply.head.status == 404)
  }

  /** No response, or one that says that the server is busy or broken for now. */
  predicate Transient(turn: Turn) {
    !turn.stopFirst
    && (turn.reply.Answer? ==>
          || turn.reply.head.status == 408 || turn.reply.head.status == 429
          || turn.reply.head.status == 500 || turn.reply.head.status == 502
          || turn.reply.head.status == 503 || turn.reply.head.status == 504)
  }

  /** All that is missing of the lane arrives, and nobody and nothing stops the worker from storing it. */
  predicate Full(turn: Turn, start: u64, end: u64, local: nat) {
    && !turn.stopFirst && !turn.stopAfter && turn.reply.Answer?
    && turn.reply.head == T.Head(206, Some(T.ContentRange(SatAdd(start, Min(local, U64_MAX)), end)))
    && !turn.reply.body.broken && local + |turn.reply.body.Bytes()| == Max(end - start, 0) + 1
    && |turn.reply.body.Bytes()| <= turn.reply.budget && T.Needed(turn.reply.body) <= turn.reply.patience
  }

  // ---------------------------------------------------------------- what an attempt leads to

  /** The response passes all checks and is streamed. */
  predicate Accepted(turn: Turn, start: u64, end: u64, local: nat) {
    && !turn.stopFirst && turn.reply.Answer?
    && !TerminalStatus(turn.reply.head.status) && !RetryStatus(turn.reply.head.status)
    && T.ValidateResponse(turn.reply.head, start, end, true, SatAdd(start, Min(local, U64_MAX))).None?
  }

  /** How the program judges a turn of a lane of which `local` bytes are there, when the device takes it all. */
  function Judged(turn: Turn, start: u64, end: u64, local: nat): Verdict {
    if turn.stopFirst then StopRequested
    else if turn.reply.Unreachable? then Retryable
    else if TerminalStatus(turn.reply.head.status) then Fatal
    else if !Accepted(turn, start, end, local) then Retryable
    else if turn.reply.patience < T.Needed(turn.reply.body) then StopRequested
    else if turn.reply.body.broken then Retryable
    else if turn.stopAfter then StopRequested
    else if local + |turn.reply.body.Bytes()| == T.ExpectedLength(true, start, end) then Done
    else Fatal
  }

  predicate DeviceTakes(turn: Turn) {
    turn.reply.Answer? ==> |turn.reply.body.Bytes()| <= turn.reply.budget
  }

  /** The loop will try again, whatever else the turn is. */
  predicate Retried(turn: Turn, start: u64, end: u64, local: nat) {
    if Accepted(turn, start, end, local) && !DeviceTakes(turn) then turn.reply.patience >= T.Needed(turn.reply.body)
    else Judged(turn, start, end, local).Retryable?
  }

  /** A turn that is retried and cannot have brought all that was missing. */
  predicate Recoverable(turn: Turn, start: u64, end: u64, local: nat) {
    && Retried(turn, start, end, local)
    && (Accepted(turn, start, end, local) ==>
          !DeviceTakes(turn) || local + |turn.reply.body.Bytes()| < T.ExpectedLength(true, start, end))
  }

  /** What the verdicts are, reply by reply. */
  lemma VerdictsByReply(turn: Turn, start: u64, end: u64, local: nat)
    ensures turn.stopFirst ==> Judged(turn, start, end, local).StopRequested?
    ensures Refused(turn) ==> Judged(turn, start, end, local).Fatal?
    ensures Transient(turn) ==> Judged(turn, start, end, local).Retryable? && Recoverable(turn, start, end, local)
    ensures !turn.stopFirst && !Refused(turn) && turn.reply.Answer? && turn.reply.head.status != 206 ==>
              Judged(turn, start, end, local).Retryable?
    ensures turn.stopFirst || !turn.reply.Answer? || turn.reply.head.status != 206 ==> !Accepted(turn, start, end, local)
    ensures Full(turn, start, end, local) && end < U64_MAX ==> DeviceTakes(turn) && Judged(turn, start, end, local).Done?
  {
  }

  /** A resumed request that is answered with the whole resource is tried again like any other failure: the
      check for an invalidated resume does not see it. */
  lemma RefusedResumeIsRetried(turn: Turn, start: u64, end: u64, local: nat)
    requires !turn.stopFirst && turn.reply.Answer? && turn.reply.head.status == T.OK && 0 < local <= U64_MAX - start
    ensures T.ValidateResponse(turn.reply.head, start, end, true, start + local) == Some(T.ResumeInvalidated)
    ensures Retried(turn, start, end, local) && Recoverable(turn, start, end, local)
  {
    assert !Accepted(turn, start, end, local);
  }

  /** A partial response carries the origin's bytes from where its Content-Range says, and no more than
      that range: sections 14.4 and 15.3.7 of RFC 9110. */
  ghost predicate Honest(c: Config, turn: Turn) {
    turn.reply.Answer? && turn.reply.head.status == T.PARTIAL_CONTENT && turn.reply.head.contentRange.Some? ==>
      var range, bytes := turn.reply.head.contentRange.value, turn.reply.body.Bytes();
      range.start + |bytes| <= range.end + 1 && IsOriginAt(c, range.start, bytes)
  }

  ghost predicate IsOriginAt(c: Config, at: nat, bytes: seq<byte>) {
    at + |bytes| <= |c.origin| ==> bytes == c.origin[at..at + |bytes|]
  }

  /** Protocol state `s` describes this worker between slices, with this payload. */
  ghost predicate Mirrors(c: Config, s: State, w: nat, flat: seq<byte>, start: nat, end: nat, local: nat) {
    && s.content == flat && |flat| == |c.origin| && start <= end < |c.origin|
    && w in s.workers
    && var x := s.workers[w];
       && x.start == start && x.end == end && x.counter == local && x.local == local && x.inflight == 0
       && x.attached && local <= x.Length()
  }

  /** Protocol state `s` knows this worker's lane and counter; an earlier loop may have left it anywhere. */
  ghost predicate Published(c: Config, s: State, w: nat, flat: seq<byte>, start: nat, end: nat, counter: nat) {
    && s.content == flat && |flat| == |c.origin| && start <= end < |c.origin|
    && w in s.workers
    && var x := s.workers[w];
       x.start == start && x.end == end && x.counter == counter && counter <= x.Length()
  }

  /** A stretch of protocol steps from `s` to `t`. */
  ghost predicate Leads(c: Config, s: State, actions: seq<Action>, t: State) {
    CanRun(c, s, actions) && RunFrom(c, s, actions) == t
  }

  lemma LeadsNowhere(c: Config, s: State)
    ensures Leads(c, s, [], s)
  {
  }

  lemma LeadsOn(c: Config, s: State, a: seq<Action>, t: State, b: seq<Action>, u: State)
    requires Leads(c, s, a, t) && Leads(c, t, b, u)
    ensures Leads(c, s, a + b, u)
  {
    RunConcat(c, s, a, b);
  }

  /** A streamed response as protocol steps; a torn slice is dropped by the retry that follows. */
  lemma StreamLeads(c: Config, s: State, w: nat, flat: seq<byte>, flat': seq<byte>, start: nat, end: nat, local: nat,
                    data: seq<byte>, slices: seq<nat>, n: nat, torn: nat)
    returns (t: State, actions: seq<Action>)
    requires Mirrors(c, s, w, flat, start, end, local)
    requires start + local + |data| <= end + 1 && IsOriginAt(c, start + local, data)
    requires T.Slices(slices, n) && T.InPlace(flat', flat, start + local, data, n + torn)
    ensures Leads(c, s, actions, t) && Mirrors(c, t, w, flat', start, end, local + n)
  {
    var x := s.workers[w];
    actions := StreamIsARun(c, s, w, slices, n, torn);
    var u := AfterStream(c, s, w, n, torn);
    PutIsLanded(c, s.content, x, data, n + torn);
    t := Apply(c, u, Retry(w));
    RunOneMore(c, s, actions, Retry(w));
    actions := actions + [Retry(w)];
  }

  /** One request and its response. */
  method Attempt(worker: T.StreamWorker, store: PayloadStore, turn: Turn, local: nat,
                 ghost c: Config, ghost s: State, ghost w: nat)
    returns (verdict: Verdict, local': nat, ghost t: State, ghost actions: seq<Action>)
    requires store.Valid() && worker.lengthKnown && Honest(c, turn) && |c.origin| <= U64_MAX
    requires worker.downloadedSize == local && Mirrors(c, s, w, store.Flat(), worker.start, worker.end, local)
    modifies worker`downloadedSize, store.files
    ensures worker.downloadedSize == local' >= local
    ensures Mirrors(c, t, w, store.Flat(), worker.start, worker.end, local') && Leads(c, s, actions, t)
    ensures verdict.Done? ==> local' == worker.end - worker.start + 1
    ensures DeviceTakes(turn) || !Accepted(turn, worker.start, worker.end, local) ==>
              verdict == Judged(turn, worker.start, worker.end, local)
    ensures Retried(turn, worker.start, worker.end, local) ==> verdict.Retryable?
    ensures Recoverable(turn, worker.start, worker.end, local) && local < worker.end - worker.start + 1 ==>
              local' < worker.end - worker.start + 1
    ensures !Accepted(turn, worker.start, worker.end, local) ==> local' == local && t == s
    // Reply by reply.
    ensures turn.stopFirst ==> verdict.StopRequested? && local' == local
    ensures Refused(turn) ==> verdict.Fatal? && local' == local
    ensures Transient(turn) ==> verdict.Retryable? && local' == local
    ensures !turn.stopFirst && !Refused(turn) && turn.reply.Answer? && turn.reply.head.status != 206 ==>
              verdict.Retryable? && local' == local
    ensures Full(turn, worker.start, worker.end, local) ==> verdict.Done?
  {
    VerdictsByReply(turn, worker.start, worker.end, local);
    t, actions, local' := s, [], local;
    LeadsNowhere(c, s);
    if turn.stopFirst {
      return StopRequested, local', t, actions;
    }
    var rangeStart := SatAdd(worker.start, local);
    if turn.reply.Unreachable? {
      return Retryable, local', t, actions;
    }
    var head := turn.reply.head;
    if TerminalStatus(head.status) {
      return Fatal, local', t, actions;
    }
    if RetryStatus(head.status) || T.ValidateResponse(head, worker.start, worker.end, true, rangeStart).Some? {
      return Retryable, local', t, actions;
    }
    var outcome;
    outcome, local', t, actions := StreamAnswer(worker, store, turn.reply, local, c, s, w);
    if outcome.NetworkFailed? || outcome.StoreFailed? {
      return Retryable, local', t, actions;
    }
    if outcome.Stopped? || turn.stopAfter {
      return StopRequested, local', t, actions;
    }
    verdict := if local' == T.ExpectedLength(true, worker.start, worker.end) then Done else Fatal;
  }

  /** What became of an accepted response, of which `stored` bytes were counted. */
  ghost predicate Streamed(outcome: T.Outcome, reply: Reply, stored: nat)
    requires reply.Answer?
  {
    var n := |reply.body.Bytes()|;
    && stored <= n && stored <= reply.budget
    && (outcome.Ended? ==> !reply.body.broken && stored == n)
    && (outcome.NetworkFailed? ==> reply.body.broken && stored == n)
    && (outcome.Stopped? ==> reply.patience < T.Needed(reply.body))
    && (n <= reply.budget ==>
          outcome == if reply.patience < T.Needed(reply.body) then T.Stopped
                     else if reply.body.broken then T.NetworkFailed else T.Ended)
  }

  /** The accepted response is streamed. */
  method StreamAnswer(worker: T.StreamWorker, store: PayloadStore, reply: Reply, local: nat,
                      ghost c: Config, ghost s: State, ghost w: nat)
    returns (outcome: T.Outcome, local': nat, ghost t: State, ghost actions: seq<Action>)
    requires store.Valid() && reply.Answer? && |c.origin| <= U64_MAX && worker.start + local <= U64_MAX
    requires worker.start + local + |reply.body.Bytes()| <= worker.end + 1
    requires IsOriginAt(c, worker.start + local, reply.body.Bytes())
    requires worker.downloadedSize == local && Mirrors(c, s, w, store.Flat(), worker.start, worker.end, local)
    modifies worker`downloadedSize, store.files
    ensures worker.downloadedSize == local' >= local
    ensures Mirrors(c, t, w, store.Flat(), worker.start, worker.end, local') && Leads(c, s, actions, t)
    ensures Streamed(outcome, reply, local' - local)
  {
    ghost var flat := store.Flat();
    ghost var slices, torn;
    T.FlatLength(store);
    outcome, local', slices, torn :=
      worker.StreamResponse(store, reply.body, local, true, worker.start + local, reply.patience, reply.budget);
    t, actions := StreamLeads(c, s, w, flat, store.Flat(), worker.start, worker.end, local, reply.body.Bytes(),
                              slices, local' - local, torn);
  }

  datatype RunResult = Completed | Cancelled | Failed

  /** What the worker meets in attempt `k` when `p` bytes of its lane are there. */
  type Turns = (nat, nat) -> Turn

  ghost predicate HonestTurns(c: Config, turns: Turns) {
    forall k, p :: Honest(c, turns(k, p))
  }

  /** Wherever the worker is in its lane, attempt `n` brings the rest, and the attempts before it are retried. */
  ghost predicate Reaches(turns: Turns, start: u64, end: u64, n: nat) {
    forall p {:trigger turns(n, p)} :: 0 <= p < T.ExpectedLength(true, start, end) ==>
      && DeviceTakes(turns(n, p)) && Judged(turns(n, p), start, end, p).Done?
      && forall k :: 0 <= k < n ==> Recoverable(turns(k, p), start, end, p)
  }

  /** Servers that are busy for `n` attempts and then give all that is missing. */
  ghost predicate FullAfter(turns: Turns, start: u64, end: u64, n: nat) {
    forall p {:trigger turns(n, p)} :: 0 <= p < Max(end - start, 0) + 1 ==>
      Full(turns(n, p), start, end, p) && forall k :: 0 <= k < n ==> Transient(turns(k, p))
  }

  lemma FullAfterReaches(turns: Turns, start: u64, end: u64, n: nat)
    requires FullAfter(turns, start, end, n) && end < U64_MAX
    ensures Reaches(turns, start, end, n)
  {
    forall p {:trigger turns(n, p)} | 0 <= p < T.ExpectedLength(true, start, end)
      ensures DeviceTakes(turns(n, p)) && Judged(turns(n, p), start, end, p).Done?
      ensures forall k :: 0 <= k < n ==> Recoverable(turns(k, p), start, end, p)
    {
      VerdictsByReply(turns(n, p), start, end, p);
      forall k | 0 <= k < n
        ensures Recoverable(turns(k, p), start, end, p)
      {
        VerdictsByReply(turns(k, p), start, end, p);
      }
    }
  }

  lemma FullAfterAll(turns: Turns, start: u64, end: u64)
    requires end < U64_MAX
    ensures forall n :: 0 <= n && FullAfter(turns, start, end, n) ==> Reaches(turns, start, end, n)
  {
    forall n: nat | FullAfter(turns, start, end, n)
      ensures Reaches(turns, start, end, n)
    {
      FullAfterReaches(turns, start, end, n);
    }
  }

  /** No attempt that brings the rest has been missed. */
  ghost predicate Promised(turns: Turns, start: u64, end: u64, maxRetries: nat, requests: nat, local: nat) {
    forall n :: 0 <= n <= maxRetries && Reaches(turns, start, end, n) ==>
      requests <= n && local < T.ExpectedLength(true, start, end)
  }

  lemma NextTurn(turns: Turns, start: u64, end: u64, maxRetries: nat, requests: nat, local: nat)
    requires Promised(turns, start, end, maxRetries, requests, local)
    ensures forall n :: 0 <= n <= maxRetries && Reaches(turns, start, end, n) ==>
              var turn := turns(requests, local);
              if requests < n then Recoverable(turn, start, end, local)
              else requests == n && DeviceTakes(turn) && Judged(turn, start, end, local).Done?
  {
    forall n | 0 <= n <= maxRetries && Reaches(turns, start, end, n)
      ensures var turn := turns(requests, local);
              if requests < n then Recoverable(turn, start, end, local)
              else requests == n && DeviceTakes(turn) && Judged(turn, start, end, local).Done?
    {
      assert turns(n, local) == turns(n, local);
    }
  }

  /** Every attempt is retried. */
  ghost predicate NeverAnswered(turns: Turns, start: u64, end: u64) {
    forall k, p :: Retried(turns(k, p), start, end, p)
  }

  /** The loop: at most `maxRetries` retries, and completion only with the whole lane stored. It completes
      when one of its attempts brings the rest of the lane, and fails when all of them are retried. */
  method RunDownloadLoop(worker: T.StreamWorker, store: PayloadStore, turns: Turns, maxRetries: nat,
                         ghost c: Config, ghost s: State, ghost w: nat)
    returns (result: RunResult, requests: nat, ghost t: State, ghost actions: seq<Action>)
    requires store.Valid() && worker.lengthKnown && |c.origin| <= U64_MAX && HonestTurns(c, turns)
    requires Published(c, s, w, store.Flat(), worker.start, worker.end, worker.downloadedSize)
    modifies worker`downloadedSize, store.files
    ensures Leads(c, s, actions, t)
    ensures w in t.workers && t.content == store.Flat() && t.workers[w].counter == worker.downloadedSize
    ensures requests <= maxRetries + 1
    ensures result.Completed? ==> t.workers[w].done && worker.downloadedSize == worker.end - worker.start + 1
    ensures forall n :: 0 <= n <= maxRetries && Reaches(turns, worker.start, worker.end, n) ==>
              result.Completed? && requests <= n + 1
    ensures NeverAnswered(turns, worker.start, worker.end) && old(worker.downloadedSize) <= worker.end - worker.start ==>
              result.Failed? && requests == maxRetries + 1
    // A lane that is full already asks for nothing; a first refusal ends the worker; servers that are busy
    // for no more attempts than there are retries do not.
    ensures old(worker.downloadedSize) == worker.end - worker.start + 1 ==> result.Completed? && requests == 0
    ensures old(worker.downloadedSize) <= worker.end - worker.start && Refused(turns(0, old(worker.downloadedSize))) ==>
              result.Failed? && requests == 1 && worker.downloadedSize == old(worker.downloadedSize)
    ensures forall n :: 0 <= n <= maxRetries && FullAfter(turns, worker.start, worker.end, n) ==>
              result.Completed? && requests <= n + 1
  {
    FullAfterAll(turns, worker.start, worker.end);
    t, actions, requests, result := Apply(c, s, Restart(w)), [Restart(w)], 0, Cancelled;
    RunOne(c, s, Restart(w));
    var local := worker.downloadedSize;
    if local < T.ExpectedLength(true, worker.start, worker.end) {
      ghost var s1, more := t, [];
      result, local, requests, t, more := RetryLoop(worker, store, turns, maxRetries, local, c, s1, w);
      LeadsOn(c, s, actions, s1, more, t);
      actions := actions + more;
      if !result.Completed? {
        return;
      }
    }
    result := Completed;
    ghost var u := Apply(c, t, Finish(w));
    RunOneMore(c, s, actions, Finish(w));
    t, actions := u, actions + [Finish(w)];
  }

  method RetryLoop(worker: T.StreamWorker, store: PayloadStore, turns: Turns, maxRetries: nat, downloaded: nat,
                   ghost c: Config, ghost s: State, ghost w: nat)
    returns (result: RunResult, local: nat, requests: nat, ghost t: State, ghost actions: seq<Action>)
    requires store.Valid() && worker.lengthKnown && |c.origin| <= U64_MAX && HonestTurns(c, turns)
    requires worker.downloadedSize == downloaded && Mirrors(c, s, w, store.Flat(), worker.start, worker.end, downloaded)
    requires downloaded < worker.end - worker.start + 1
    modifies worker`downloadedSize, store.files
    ensures worker.downloadedSize == local
    ensures Mirrors(c, t, w, store.Flat(), worker.start, worker.end, local) && Leads(c, s, actions, t)
    ensures requests <= maxRetries + 1
    ensures result.Completed? ==> local == worker.end - worker.start + 1
    ensures forall n :: 0 <= n <= maxRetries && Reaches(turns, worker.start, worker.end, n) ==>
              result.Completed? && requests <= n + 1
    ensures NeverAnswered(turns, worker.start, worker.end) ==> result.Failed? && requests == maxRetries + 1
    ensures Refused(turns(0, downloaded)) ==> result.Failed? && requests == 1 && local == downloaded
  {
    t, actions, requests, local := s, [], 0, downloaded;
    LeadsNowhere(c, s);
    var retries := 0;
    while true
      invariant worker.downloadedSize == local
      invariant Mirrors(c, t, w, store.Flat(), worker.start, worker.end, local) && Leads(c, s, actions, t)
      invariant requests == retries <= maxRetries
      invariant Promised(turns, worker.start, worker.end, maxRetries, requests, local)
      invariant if requests == 0 then local == downloaded else !Refused(turns(0, downloaded))
      decreases maxRetries - retries
    {
      ghost var t', more;
      var verdict;
      NextTurn(turns, worker.start, worker.end, maxRetries, requests, local);
      verdict, local, t', more := Attempt(worker, store, turns(requests, local), local, c, t, w);
      LeadsOn(c, s, actions, t, more, t');
      t, actions := t', actions + more;
      requests := requests + 1;
      if !verdict.Retryable? {
        return match verdict case Done => Completed case StopRequested => Cancelled case _ => Failed,
               local, requests, t, actions;
      }
      if retries >= maxRetries {
        return Failed, local, requests, t, actions;
      }
      retries := retries + 1;
    }
  }
}
