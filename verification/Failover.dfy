/** Ranking transfer sources by how they have behaved, and failing over between them inside the bounded
    retry loop (src/job/mod.rs:571-644, src/worker/runtime.rs:235-281, src/worker/retry.rs:4-10). */
module Failover {
  import opened Widths
  import opened Wrappers
  import opened Sorting
  import opened Sources
  import opened Planner
  import opened PlannerTheorems

  datatype RuntimeState = RuntimeState(successes: u32, failures: u32)

  type Runtime = map<string, RuntimeState>

  function StateOf(runtime: Runtime, id: string): RuntimeState {
    if id in runtime then runtime[id] else RuntimeState(0, 0)
  }

  function AfterSuccess(runtime: Runtime, id: string): Runtime {
    runtime[id := RuntimeState(SatInc32(StateOf(runtime, id).successes), 0)]
  }

  function AfterFailure(runtime: Runtime, id: string): Runtime {
    runtime[id := StateOf(runtime, id).(failures := SatInc32(StateOf(runtime, id).failures))]
  }

  // ---------------------------------------------------------------- ranking

  /** Fewest consecutive failures first, then most successes, then the primary source, then by id. */
  function BehaviourKey(s: Source, runtime: Runtime, primaryId: Option<string>): Key {
    [StateOf(runtime, s.id).failures, -(StateOf(runtime, s.id).successes as int), if primaryId == Some(s.id) then 0 else 1]
    + Codes(s.id)
  }

  function BehaviourRanker(runtime: Runtime, primaryId: Option<string>): Source -> Key {
    s => BehaviourKey(s, runtime, primaryId)
  }

  function RankedSources(sources: SourceSet, runtime: Runtime): seq<Source> {
    SortByKey(sources.ActiveTransferSources(), BehaviourRanker(runtime, PrimaryId(sources)))
  }

  /** The first source that is not `id`. */
  function FirstOther(ranked: seq<Source>, id: string): (r: Option<Source>)
    ensures r.Some? ==> r.value in ranked && r.value.id != id
    ensures r.None? ==> forall s :: s in ranked ==> s.id == id
  {
    if ranked == [] then None
    else if ranked[0].id != id then Some(ranked[0])
    else FirstOther(ranked[1..], id)
  }

  /** The first other source of a sorted list ranks no higher than any other. */
  lemma {:induction false} FirstOtherIsLeast(ranked: seq<Source>, key: Source -> Key, id: string, s: Source)
    requires Sorted(ranked, key) && s in ranked && s.id != id
    ensures FirstOther(ranked, id).Some? && Leq(key(FirstOther(ranked, id).value), key(s))
  {
    if ranked[0].id != id {
      HeadIsLeast(ranked, s, key);
    } else {
      TailKeeps(ranked, key);
      FirstOtherIsLeast(ranked[1..], key, id, s);
    }
  }

  /** The fallback for a failing source has no more consecutive failures than any other source. */
  lemma FallbackFailsLeast(sources: SourceSet, runtime: Runtime, id: string, s: Source)
    requires s in sources.ActiveTransferSources() && s.id != id
    ensures var fallback := FirstOther(RankedSources(sources, runtime), id);
            && fallback.Some? && fallback.value in sources.ActiveTransferSources()
            && StateOf(runtime, fallback.value.id).failures <= StateOf(runtime, s.id).failures
  {
    var active := sources.ActiveTransferSources();
    var key := BehaviourRanker(runtime, PrimaryId(sources));
    SortPermutes(active, key);
    SortSorts(active, key);
    FirstOtherIsLeast(RankedSources(sources, runtime), key, id, s);
    var first := FirstOther(RankedSources(sources, runtime), id).value;
    assert key(first)[0] == StateOf(runtime, first.id).failures;
    assert key(s)[0] == StateOf(runtime, s.id).failures;
  }

  /** With distinct ids the ranking depends on the set of sources only, as long as the primary one is in it. */
  lemma RankingForgetsOrder(a: SourceSet, b: SourceSet, runtime: Runtime)
    requires SameSources(a, b) && a.PrimaryPresent()
    ensures RankedSources(a, runtime) == RankedSources(b, runtime)
  {
    SamePrimary(a, b);
    var key := BehaviourRanker(runtime, PrimaryId(a));
    RankedKeysDistinct(a, key, runtime, PrimaryId(a));
    RankedKeysDistinct(b, key, runtime, PrimaryId(a));
    SortDependsOnElements(a.ActiveTransferSources(), b.ActiveTransferSources(), key);
  }

  lemma RankedKeysDistinct(sources: SourceSet, key: Source -> Key, runtime: Runtime, primaryId: Option<string>)
    requires sources.DistinctIds() && key == BehaviourRanker(runtime, primaryId)
    ensures KeysDistinct(sources.ActiveTransferSources(), key)
  {
    var active := sources.ActiveTransferSources();
    FilterKeepsIdsDistinct(sources.sources);
    forall i, j | 0 <= i < j < |active|
      ensures key(active[i]) != key(active[j])
    {
      if key(active[i]) == key(active[j]) {
        assert BehaviourKey(active[i], runtime, primaryId)[3..] == Codes(active[i].id);
        assert BehaviourKey(active[j], runtime, primaryId)[3..] == Codes(active[j].id);
        CodesInjective(active[i].id, active[j].id);
      }
    }
  }

  // ---------------------------------------------------------------- what a recording does to the ranking

  /** One source is ranked before another exactly when its behaviour key is not the greater one. */
  lemma RankedByKey(sources: SourceSet, runtime: Runtime, a: Source, b: Source)
    requires sources.DistinctIds() && a in sources.ActiveTransferSources() && b in sources.ActiveTransferSources() && a != b
    ensures Precedes(RankedSources(sources, runtime), a, b)
        <==> Leq(BehaviourKey(a, runtime, PrimaryId(sources)), BehaviourKey(b, runtime, PrimaryId(sources)))
  {
    var active := sources.ActiveTransferSources();
    var key := BehaviourRanker(runtime, PrimaryId(sources));
    RankedKeysDistinct(sources, key, runtime, PrimaryId(sources));
    SortKeepsDistinct(active, key);
    SortedPrecedes(active, key, a, b);
  }

  /** Fewer consecutive failures, or as many and more successes, or the same record and being the primary
      source, or none of that and the smaller id. */
  ghost predicate RanksHigher(sources: SourceSet, runtime: Runtime, a: Source, b: Source) {
    var x := if a.id in runtime then runtime[a.id] else RuntimeState(0, 0);
    var y := if b.id in runtime then runtime[b.id] else RuntimeState(0, 0);
    || x.failures < y.failures
    || (x.failures == y.failures && x.successes > y.successes)
    || (x == y && IsPrimary(sources, a) && !IsPrimary(sources, b))
    || (x == y && (IsPrimary(sources, a) <==> IsPrimary(sources, b)) && StringLess(a.id, b.id))
  }

  /** The law of the ranking, in terms of the records, the primary source and the ids. */
  lemma RankingLaw(sources: SourceSet, runtime: Runtime, a: Source, b: Source)
    requires sources.DistinctIds() && a in sources.ActiveTransferSources() && b in sources.ActiveTransferSources() && a != b
    ensures Precedes(RankedSources(sources, runtime), a, b) <==> RanksHigher(sources, runtime, a, b)
  {
    RankedByKey(sources, runtime, a, b);
    PrimaryMeaning(sources, a);
    PrimaryMeaning(sources, b);
    FindDistinct(sources.sources, a);
    FindDistinct(sources.sources, b);
    CodesOrder(a.id, b.id);
    KeyOrder(a, b, runtime, PrimaryId(sources));
  }

  lemma KeyOrder(a: Source, b: Source, runtime: Runtime, primaryId: Option<string>)
    ensures var x, y := StateOf(runtime, a.id), StateOf(runtime, b.id);
            var p, q := primaryId == Some(a.id), primaryId == Some(b.id);
            Leq(BehaviourKey(a, runtime, primaryId), BehaviourKey(b, runtime, primaryId)) <==>
              || x.failures < y.failures
              || (x.failures == y.failures && x.successes > y.successes)
              || (x == y && p && !q)
              || (x == y && p == q && Leq(Codes(a.id), Codes(b.id)))
  {
    var ka, kb := BehaviourKey(a, runtime, primaryId), BehaviourKey(b, runtime, primaryId);
    assert ka[1..][1..][1..] == Codes(a.id) && kb[1..][1..][1..] == Codes(b.id);
    assert Leq(ka[1..][1..], kb[1..][1..]) <==>
             ka[2] < kb[2] || (ka[2] == kb[2] && Leq(ka[1..][1..][1..], kb[1..][1..][1..]));
    assert Leq(ka[1..], kb[1..]) <==> ka[1] < kb[1] || (ka[1] == kb[1] && Leq(ka[1..][1..], kb[1..][1..]));
  }

  /** The ranking is of the sources that carry payload, each once. */
  lemma RankedAreTransferSources(sources: SourceSet, runtime: Runtime)
    ensures forall s :: s in RankedSources(sources, runtime) <==> s in sources.sources && !s.metadataOnly
    ensures forall id :: FirstOther(RankedSources(sources, runtime), id).Some? ==>
              !FirstOther(RankedSources(sources, runtime), id).value.metadataOnly
  {
    SortPermutes(sources.ActiveTransferSources(), BehaviourRanker(runtime, PrimaryId(sources)));
  }

  /** The fallback precedes all others: it ranks higher than every source but the failing one. */
  lemma FallbackRanksHighest(sources: SourceSet, runtime: Runtime, id: string, s: Source)
    requires sources.DistinctIds() && s in sources.sources && !s.metadataOnly && s.id != id
    ensures var fallback := FirstOther(RankedSources(sources, runtime), id);
            && fallback.Some? && fallback.value in sources.sources && !fallback.value.metadataOnly && fallback.value.id != id
            && (fallback.value == s || RanksHigher(sources, runtime, fallback.value, s))
  {
    var active := sources.ActiveTransferSources();
    var key := BehaviourRanker(runtime, PrimaryId(sources));
    FallbackFailsLeast(sources, runtime, id, s);
    SortPermutes(active, key);
    SortSorts(active, key);
    FirstOtherIsLeast(RankedSources(sources, runtime), key, id, s);
    var first := FirstOther(RankedSources(sources, runtime), id).value;
    if first != s {
      RankedByKey(sources, runtime, first, s);
      RankingLaw(sources, runtime, first, s);
    }
  }

  /** A source with fewer consecutive failures is ranked before one with more. */
  lemma FewerFailuresFirst(sources: SourceSet, runtime: Runtime, a: Source, b: Source)
    requires sources.DistinctIds() && a in sources.ActiveTransferSources() && b in sources.ActiveTransferSources()
    requires StateOf(runtime, a.id).failures < StateOf(runtime, b.id).failures
    ensures Precedes(RankedSources(sources, runtime), a, b) && !Precedes(RankedSources(sources, runtime), b, a)
  {
    var ka, kb := BehaviourKey(a, runtime, PrimaryId(sources)), BehaviourKey(b, runtime, PrimaryId(sources));
    assert ka[0] < kb[0];
    RankedByKey(sources, runtime, a, b);
    RankedByKey(sources, runtime, b, a);
  }

  /** After a success a source is ranked before every other one with a failure on record; after a failure
      it is ranked after every other one without. */
  lemma RecordingRanks(sources: SourceSet, runtime: Runtime, s: Source, other: Source)
    requires sources.DistinctIds() && s in sources.ActiveTransferSources() && other in sources.ActiveTransferSources()
    requires s.id != other.id
    ensures StateOf(runtime, other.id).failures > 0 ==>
              Precedes(RankedSources(sources, AfterSuccess(runtime, s.id)), s, other)
    ensures StateOf(runtime, other.id).failures == 0 ==>
              Precedes(RankedSources(sources, AfterFailure(runtime, s.id)), other, s)
  {
    if StateOf(runtime, other.id).failures > 0 {
      FewerFailuresFirst(sources, AfterSuccess(runtime, s.id), s, other);
    } else {
      FewerFailuresFirst(sources, AfterFailure(runtime, s.id), other, s);
    }
  }

  /** Recording moves one source only: any two others keep their order. */
  lemma RecordingMovesOne(sources: SourceSet, runtime: Runtime, id: string, a: Source, b: Source)
    requires sources.DistinctIds() && a in sources.ActiveTransferSources() && b in sources.ActiveTransferSources()
    requires a != b && a.id != id && b.id != id
    ensures Precedes(RankedSources(sources, AfterSuccess(runtime, id)), a, b)
        <==> Precedes(RankedSources(sources, runtime), a, b)
    ensures Precedes(RankedSources(sources, AfterFailure(runtime, id)), a, b)
        <==> Precedes(RankedSources(sources, runtime), a, b)
  {
    SameRecordsSameOrder(sources, runtime, AfterSuccess(runtime, id), a, b);
    SameRecordsSameOrder(sources, runtime, AfterFailure(runtime, id), a, b);
  }

  lemma SameRecordsSameOrder(sources: SourceSet, before: Runtime, after: Runtime, a: Source, b: Source)
    requires sources.DistinctIds() && a in sources.ActiveTransferSources() && b in sources.ActiveTransferSources() && a != b
    requires StateOf(after, a.id) == StateOf(before, a.id) && StateOf(after, b.id) == StateOf(before, b.id)
    ensures Precedes(RankedSources(sources, after), a, b) <==> Precedes(RankedSources(sources, before), a, b)
  {
    RankedByKey(sources, before, a, b);
    RankedByKey(sources, after, a, b);
    assert BehaviourKey(a, after, PrimaryId(sources)) == BehaviourKey(a, before, PrimaryId(sources));
    assert BehaviourKey(b, after, PrimaryId(sources)) == BehaviourKey(b, before, PrimaryId(sources));
  }

  // ---------------------------------------------------------------- what a task remembers about its sources

  /** What other workers of the task do to the shared state in between. */
  datatype Event = Succeeded(id: string) | FailedOn(id: string)

  function AfterEvents(runtime: Runtime, events: seq<Event>): Runtime
    decreases |events|
  {
    if events == [] then runtime
    else
      var before := AfterEvents(runtime, events[..|events| - 1]);
      match events[|events| - 1]
      case Succeeded(id) => AfterSuccess(before, id)
      case FailedOn(id) => AfterFailure(before, id)
  }

  class SourceRuntime {
    const sources: SourceSet
    var runtime: Runtime

    constructor (sources: SourceSet)
      ensures this.sources == sources && runtime == map[]
    {
      this.sources, this.runtime := sources, map[];
    }

    method RecordSourceSuccess(id: string)
      modifies this
      ensures StateOf(runtime, id).failures == 0
      ensures StateOf(runtime, id).successes == Min(old(StateOf(runtime, id)).successes + 1, U32_MAX)
      ensures forall other :: other != id ==> StateOf(runtime, other) == old(StateOf(runtime, other))
      ensures runtime == AfterSuccess(old(runtime), id)
    {
      var state := StateOf(runtime, id);
      runtime := runtime[id := RuntimeState(SatInc32(state.successes), 0)];
    }

    method RecordSourceFailure(id: string)
      modifies this
      ensures StateOf(runtime, id).successes == old(StateOf(runtime, id)).successes
      ensures StateOf(runtime, id).failures == Min(old(StateOf(runtime, id)).failures + 1, U32_MAX)
      ensures forall other :: other != id ==> StateOf(runtime, other) == old(StateOf(runtime, other))
      ensures runtime == AfterFailure(old(runtime), id)
    {
      var state := StateOf(runtime, id);
      runtime := runtime[id := state.(failures := SatInc32(state.failures))];
    }

    /** The others' recordings, one after the other. */
    method Interfere(events: seq<Event>)
      modifies this
      ensures runtime == AfterEvents(old(runtime), events)
    {
      ghost var start := runtime;
      assert events[..0] == [];
      for i := 0 to |events|
        invariant runtime == AfterEvents(start, events[..i])
      {
        assert events[..i + 1][..i] == events[..i];
        match events[i]
        case Succeeded(id) => RecordSourceSuccess(id);
        case FailedOn(id) => RecordSourceFailure(id);
      }
      assert events[..|events|] == events;
    }

    /** Two reads of the shared state; others may record in between. */
    method SelectRetrySource(current: string, between: seq<Event>) returns (fallback: Option<Source>)
      modifies this
      ensures runtime == AfterEvents(old(runtime), between)
      ensures fallback == if StateOf(runtime, current).failures == 0 then None
                          else FirstOther(RankedSources(sources, old(runtime)), current)
    {
      var ranked := RankedSources(sources, runtime);
      Interfere(between);
      if StateOf(runtime, current).failures == 0 {
        return None;
      }
      fallback := FirstOther(ranked, current);
    }
  }

  // ---------------------------------------------------------------- the retry loop

  /** Sources a worker starting at `start` can meet that always fail. */
  function Broken(active: seq<Source>, works: string -> bool): (r: set<string>)
    ensures forall s :: s in active && !works(s.id) ==> s.id in r
    ensures forall id :: id in r ==> !works(id)
  {
    if active == [] then {}
    else
      assert active == [active[0]] + active[1..];
      Broken(active[1..], works) + (if works(active[0].id) then {} else {active[0].id})
  }

  function BrokenFrom(active: seq<Source>, start: string, works: string -> bool): set<string> {
    Broken(active, works) + (if works(start) then {} else {start})
  }

  /** Others record truthfully: working sources succeed, broken ones fail. */
  predicate Truthful(events: seq<Event>, works: string -> bool) {
    forall i :: 0 <= i < |events| ==> (events[i].Succeeded? <==> works(events[i].id))
  }

  /** Working sources have no failures on record; the tried ones, which are broken, have some. */
  ghost predicate Learned(runtime: Runtime, works: string -> bool, tried: set<string>) {
    && (forall id :: id in runtime && works(id) ==> runtime[id].failures == 0)
    && (forall id :: id in tried ==> !works(id) && id in runtime && runtime[id].failures >= 1)
  }

  lemma {:induction false} EventsKeepLearned(runtime: Runtime, events: seq<Event>, works: string -> bool, tried: set<string>)
    requires Learned(runtime, works, tried) && Truthful(events, works)
    ensures Learned(AfterEvents(runtime, events), works, tried)
    decreases |events|
  {
    if events != [] {
      var last := |events| - 1;
      EventsKeepLearned(runtime, events[..last], works, tried);
      assert events[last].Succeeded? <==> works(events[last].id);
    }
  }

  lemma FailureLearned(runtime: Runtime, works: string -> bool, tried: set<string>, id: string)
    requires Learned(runtime, works, tried) && !works(id)
    ensures Learned(AfterFailure(runtime, id), works, tried + {id})
  {
  }

  /** After a failure the fallback is a source that has not been tried. */
  lemma FallbackIsFresh(sources: SourceSet, runtime: Runtime, works: string -> bool, tried: set<string>,
                        current: string, good: Source)
    requires Learned(runtime, works, tried) && current in tried
    requires good in sources.ActiveTransferSources() && works(good.id)
    ensures var fallback := FirstOther(RankedSources(sources, runtime), current);
            fallback.Some? && fallback.value in sources.ActiveTransferSources() && fallback.value.id !in tried
  {
    FallbackFailsLeast(sources, runtime, current, good);
  }

  lemma SubsetSize(a: set<string>, b: set<string>)
    requires a <= b
    ensures |a| <= |b|
    ensures |a| == |b| ==> a == b
  {
    assert b == a + (b - a);
  }

  ghost predicate SomeWorks(sources: SourceSet, works: string -> bool) {
    exists s :: s in sources.ActiveTransferSources() && works(s.id)
  }

  /** One failed attempt: remember it, pick another source if there is a reason to. */
  method RetryOrFail(book: SourceRuntime, current: string, before: seq<Event>, between: seq<Event>, reading: seq<Event>)
    returns (next: string)
    modifies book
    ensures var recorded := AfterFailure(AfterEvents(old(book.runtime), before), current);
            var seen := AfterEvents(recorded, between);
            && book.runtime == AfterEvents(seen, reading)
            && next == if StateOf(book.runtime, current).failures == 0 then current
                       else match FirstOther(RankedSources(book.sources, seen), current)
                            case Some(s) => s.id
                            case None => current
  {
    book.Interfere(before);
    book.RecordSourceFailure(current);
    book.Interfere(between);
    var fallback := book.SelectRetrySource(current, reading);
    next := if fallback.Some? && fallback.value.id != current then fallback.value.id else current;
  }

  /** The worker's attempts until one works or the retries are used up. `works` says which sources answer
      well and which always fail retryably; `others(n)` is what other workers record before step `n`. */
  method DownloadWithFailover(book: SourceRuntime, start: string, works: string -> bool, others: nat -> seq<Event>,
                              maxRetries: nat)
    returns (reached: Option<string>, requests: nat, failed: nat)
    requires forall n :: Truthful(others(n), works)
    requires Learned(book.runtime, works, {})
    modifies book
    // In all cases the number of requests is bounded, and only a working source is ever settled on.
    ensures requests <= maxRetries + 1
    ensures requests == failed + (if reached.Some? then 1 else 0)
    ensures reached.Some? ==> works(reached.value)
    // Every failed attempt strikes a different broken source, so a working one is reached in time.
    ensures var m := |BrokenFrom(book.sources.ActiveTransferSources(), start, works)|;
            SomeWorks(book.sources, works) && maxRetries >= m ==> reached.Some? && failed <= m
  {
    var current, retries := start, 0;
    requests, failed := 0, 0;
    ghost var broken := BrokenFrom(book.sources.ActiveTransferSources(), start, works);
    ghost var tried: set<string> := {};
    while true
      invariant requests == failed == retries <= maxRetries
      invariant Learned(book.runtime, works, tried)
      invariant SomeWorks(book.sources, works) ==> Fresh(current, works, tried, broken) && |tried| == failed
      decreases maxRetries - retries
    {
      requests := requests + 1;
      if works(current) {
        if SomeWorks(book.sources, works) { SubsetSize(tried, broken); }
        book.RecordSourceSuccess(current);
        return Some(current), requests, failed;
      }
      failed := failed + 1;
      ghost var tried0 := tried;
      tried := tried + {current};
      ghost var runtime0, current0 := book.runtime, current;
      current := RetryOrFail(book, current, others(3 * retries), others(3 * retries + 1), others(3 * retries + 2));
      AttemptLearned(book.sources, runtime0, works, tried0, broken, current0,
                     others(3 * retries), others(3 * retries + 1), others(3 * retries + 2));
      if retries >= maxRetries {
        if SomeWorks(book.sources, works) { SubsetSize(tried, broken); }
        return None, requests, failed;
      }
      retries := retries + 1;
    }
  }

  /** The tried sources are broken ones; the current one works or has not been tried. */
  ghost predicate Fresh(current: string, works: string -> bool, tried: set<string>, broken: set<string>) {
    tried <= broken && current !in tried && (works(current) || current in broken)
  }

  lemma AttemptLearned(sources: SourceSet, runtime: Runtime, works: string -> bool, tried: set<string>, broken: set<string>,
                       current: string, before: seq<Event>, between: seq<Event>, reading: seq<Event>)
    requires Learned(runtime, works, tried) && !works(current)
    requires Truthful(before, works) && Truthful(between, works) && Truthful(reading, works)
    requires Broken(sources.ActiveTransferSources(), works) <= broken
    ensures var seen := AfterEvents(AfterFailure(AfterEvents(runtime, before), current), between);
            var after := AfterEvents(seen, reading);
            && Learned(after, works, tried + {current})
            && StateOf(after, current).failures >= 1
            && (SomeWorks(sources, works) && Fresh(current, works, tried, broken) ==>
                  var fallback := FirstOther(RankedSources(sources, seen), current);
                  fallback.Some? && Fresh(fallback.value.id, works, tried + {current}, broken))
  {
    EventsKeepLearned(runtime, before, works, tried);
    FailureLearned(AfterEvents(runtime, before), works, tried, current);
    var recorded := AfterFailure(AfterEvents(runtime, before), current);
    EventsKeepLearned(recorded, between, works, tried + {current});
    var seen := AfterEvents(recorded, between);
    EventsKeepLearned(seen, reading, works, tried + {current});
    if SomeWorks(sources, works) {
      var good :| good in sources.ActiveTransferSources() && works(good.id);
      FallbackIsFresh(sources, seen, works, tried + {current}, current, good);
    }
  }
}
