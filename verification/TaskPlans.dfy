/** The plans a task really makes: its preference list is its own ranking of all transfer sources
    (src/job/mod.rs:588-623, src/job/workers.rs:126-142). When the stored order of the sources can change
    them. */
module TaskPlans {
  import opened Widths
  import opened Wrappers
  import opened Sorting
  import opened Pieces
  import opened Sources
  import opened Manifests
  import opened Planner
  import opened PlannerTheorems
  import opened Failover
  import Job

  function Ids(sources: seq<Source>): (ids: seq<string>)
    ensures |ids| == |sources| && forall i :: 0 <= i < |ids| ==> ids[i] == sources[i].id
  {
    seq(|sources|, i requires 0 <= i < |sources| => sources[i].id)
  }

  function Preferred(sources: SourceSet, runtime: Runtime): seq<string> {
    Ids(RankedSources(sources, runtime))
  }

  function TaskPlan(m: Manifest, runtime: Runtime, segmentsPerTask: nat, rangeSupported: bool): seq<Lane>
    requires m.WellFormed()
  {
    Job.PlannedLanes(m, segmentsPerTask, rangeSupported, Preferred(m.sources, runtime))
  }

  // ---------------------------------------------------------------- the planner follows the ranking

  lemma {:induction false} PreferredPosition(ids: seq<string>, i: nat)
    requires i < |ids| < U64_MAX && forall j, k :: 0 <= j < k < |ids| ==> ids[j] != ids[k]
    ensures PreferredIndex(ids[i], ids) == i
    decreases i
  {
    if i > 0 { PreferredPosition(ids[1..], i - 1); }
  }

  lemma RankedIsDistinct(sources: SourceSet, runtime: Runtime)
    requires sources.DistinctIds()
    ensures IdsDistinct(RankedSources(sources, runtime))
    ensures forall s :: s in RankedSources(sources, runtime) <==> s in sources.ActiveTransferSources()
    ensures |RankedSources(sources, runtime)| == |sources.ActiveTransferSources()|
    ensures Sorted(RankedSources(sources, runtime), BehaviourRanker(runtime, PrimaryId(sources)))
  {
    var active, key := sources.ActiveTransferSources(), BehaviourRanker(runtime, PrimaryId(sources));
    var ranked := RankedSources(sources, runtime);
    RankedKeysDistinct(sources, key, runtime, PrimaryId(sources));
    SortPermutes(active, key);
    SortSorts(active, key);
    SortKeepsDistinct(active, key);
    forall i, j | 0 <= i < j < |ranked|
      ensures ranked[i].id != ranked[j].id
    {
      assert key(ranked[i]) != key(ranked[j]);
    }
  }

  /** Ranked ids as the preference list: the planner takes the sources in exactly that order. */
  lemma PlannerFollowsRanking(sources: SourceSet, runtime: Runtime)
    requires sources.DistinctIds() && |sources.sources| < U64_MAX
    ensures OrderedSources(sources, Preferred(sources, runtime)) == RankedSources(sources, runtime)
  {
    var active, ranked := sources.ActiveTransferSources(), RankedSources(sources, runtime);
    var ids := Preferred(sources, runtime);
    var key := Ranker(ids, PrimaryId(sources));
    RankedIsDistinct(sources, runtime);
    forall i | 0 <= i < |ranked|
      ensures key(ranked[i])[0] == i && |key(ranked[i])| > 0
    {
      PreferredPosition(ids, i);
    }
    SortPermutes(active, key);
    SortSorts(active, key);
    ActiveKeysDistinct(sources, ids, PrimaryId(sources));
    SortKeepsDistinct(active, key);
    StrictUnique(OrderedSources(sources, ids), ranked, key);
  }

  /** The plan of a task: as many lanes as segments are configured and pieces allow, or one without range
      requests; lane `i` is whole pieces from the source ranked `i`-th, going round. */
  lemma TaskPlanLaw(m: Manifest, runtime: Runtime, segmentsPerTask: nat, rangeSupported: bool, i: nat)
    requires m.WellFormed() && m.pieces != [] && m.sources.DistinctIds() && |m.sources.sources| < U64_MAX
    requires m.sources.ActiveTransferSources() != []
    requires i < |TaskPlan(m, runtime, segmentsPerTask, rangeSupported)|
    ensures var lanes, ranked := TaskPlan(m, runtime, segmentsPerTask, rangeSupported), RankedSources(m.sources, runtime);
            && |lanes| == (if rangeSupported then Min(Max(segmentsPerTask, 1), |m.pieces|) else 1)
            && Partition(lanes, m) && NamesItsBlocks(lanes[i], m)
            && ranked != [] && lanes[i].sourceId == ranked[if rangeSupported then i % |ranked| else 0].id
  {
    var preferred := Preferred(m.sources, runtime);
    var workers := if rangeSupported then segmentsPerTask else 1;
    PlannerFollowsRanking(m.sources, runtime);
    PlanPartitions(m, workers, rangeSupported, preferred);
    PlannedLaneSource(m, workers, rangeSupported, preferred, i);
  }

  /** A task has no lanes exactly when no source carries payload, or nothing is to be downloaded. */
  lemma NoLanes(m: Manifest, runtime: Runtime, segmentsPerTask: nat, rangeSupported: bool)
    requires m.WellFormed()
    ensures TaskPlan(m, runtime, segmentsPerTask, rangeSupported) == []
        <==> (forall s :: s in m.sources.sources ==> s.metadataOnly) || (m.totalKnown && m.total == 0)
  {
    var workers := if rangeSupported then segmentsPerTask else 1;
    assert m.totalKnown ==> (m.pieces == [] <==> m.total == 0) by {
      if m.totalKnown { assert CutsPayload(m.pieces, m.pieceSize, m.total); }
    }
    if m.pieces != [] && m.sources.ActiveTransferSources() != [] {
      PlanPartitions(m, workers, rangeSupported, Preferred(m.sources, runtime));
      assert m.sources.ActiveTransferSources()[0] in m.sources.sources;
    }
    if m.sources.ActiveTransferSources() != [] {
      assert m.sources.ActiveTransferSources()[0] in m.sources.ActiveTransferSources();
    }
  }

  // ---------------------------------------------------------------- when the ranking depends on the stored order

  /** Two transfer sources with the same record. */
  ghost predicate Tied(sources: SourceSet, runtime: Runtime, a: Source, b: Source) {
    && a in sources.ActiveTransferSources() && b in sources.ActiveTransferSources() && a != b
    && StateOf(runtime, a.id) == StateOf(runtime, b.id)
  }

  lemma SameActive(a: SourceSet, b: SourceSet)
    requires SameSources(a, b)
    ensures forall s :: s in a.ActiveTransferSources() <==> s in b.ActiveTransferSources()
  {
  }

  /** Without a tie the records alone decide which of two sources comes first. */
  lemma RecordsDecide(x: Source, y: Source, runtime: Runtime, p: Option<string>, q: Option<string>)
    requires Leq(BehaviourKey(x, runtime, p), BehaviourKey(y, runtime, p))
    requires StateOf(runtime, x.id) != StateOf(runtime, y.id)
    ensures Leq(BehaviourKey(x, runtime, q), BehaviourKey(y, runtime, q))
  {
    var xs, ys := StateOf(runtime, x.id), StateOf(runtime, y.id);
    var kx, ky := BehaviourKey(x, runtime, p), BehaviourKey(y, runtime, p);
    var lx, ly := BehaviourKey(x, runtime, q), BehaviourKey(y, runtime, q);
    assert kx[0] == lx[0] == xs.failures && ky[0] == ly[0] == ys.failures;
    if xs.failures == ys.failures {
      assert kx[1..][0] == lx[1..][0] == -(xs.successes as int) && ky[1..][0] == ly[1..][0] == -(ys.successes as int);
      assert Leq(kx[1..], ky[1..]);
      assert Leq(lx[1..], ly[1..]);
    }
  }

  lemma NoTieNoOrder(a: SourceSet, b: SourceSet, runtime: Runtime)
    requires SameSources(a, b) && forall s, t :: !Tied(a, runtime, s, t)
    ensures RankedSources(a, runtime) == RankedSources(b, runtime)
  {
    var ranked, other := RankedSources(a, runtime), RankedSources(b, runtime);
    var key := BehaviourRanker(runtime, PrimaryId(b));
    SameActive(a, b);
    RankedIsDistinct(a, runtime);
    RankedIsDistinct(b, runtime);
    forall i, j | 0 <= i < j < |ranked|
      ensures Leq(key(ranked[i]), key(ranked[j])) && key(ranked[i]) != key(ranked[j])
    {
      assert ranked[i] in ranked && ranked[j] in ranked && !Tied(a, runtime, ranked[i], ranked[j]);
      RecordsDecide(ranked[i], ranked[j], runtime, PrimaryId(a), PrimaryId(b));
      if key(ranked[i]) == key(ranked[j]) { KeysTell(ranked[i], ranked[j], runtime, PrimaryId(b)); }
    }
    forall i, j | 0 <= i < j < |other|
      ensures key(other[i]) != key(other[j])
    {
      if key(other[i]) == key(other[j]) { KeysTell(other[i], other[j], runtime, PrimaryId(b)); }
    }
    StrictUnique(ranked, other, key);
  }

  lemma KeysTell(x: Source, y: Source, runtime: Runtime, p: Option<string>)
    requires BehaviourKey(x, runtime, p) == BehaviourKey(y, runtime, p)
    ensures x.id == y.id
  {
    assert BehaviourKey(x, runtime, p)[3..] == Codes(x.id);
    assert BehaviourKey(y, runtime, p)[3..] == Codes(y.id);
    CodesInjective(x.id, y.id);
  }

  /** Stored first, a source is ranked before the ones it is tied with, when no primary one is present. */
  lemma FrontWinsTie(sources: SourceSet, runtime: Runtime, a: Source, b: Source)
    requires sources.DistinctIds() && !sources.PrimaryPresent() && Tied(sources, runtime, a, b)
    ensures SameSources(sources, MoveToFront(sources, a))
    ensures Precedes(RankedSources(MoveToFront(sources, a), runtime), a, b)
  {
    var front := MoveToFront(sources, a);
    FrontIsPrimary(sources, a);
    assert PrimaryId(front) == Some(a.id);
    SameActive(sources, front);
    FindDistinct(sources.sources, a);
    FindDistinct(sources.sources, b);
    var ka, kb := BehaviourKey(a, runtime, Some(a.id)), BehaviourKey(b, runtime, Some(a.id));
    assert ka[0] == kb[0] && ka[1..][0] == kb[1..][0];
    assert ka[1..][1..][0] == 0 && kb[1..][1..][0] == 1;
    assert Leq(ka[1..][1..], kb[1..][1..]);
    assert Leq(ka[1..], kb[1..]);
    RankedByKey(front, runtime, a, b);
  }

  lemma PrecedesOneWay(sources: SourceSet, runtime: Runtime, a: Source, b: Source)
    requires sources.DistinctIds() && Tied(sources, runtime, a, b) && Precedes(RankedSources(sources, runtime), a, b)
    ensures !Precedes(RankedSources(sources, runtime), b, a)
  {
    RankedIsDistinct(sources, runtime);
  }

  /** The task ranks its sources the same however they are stored, exactly when its primary source is
      among them or no two transfer sources have the same record. */
  lemma RankingIsOrderFree(sources: SourceSet, runtime: Runtime)
    requires sources.DistinctIds()
    ensures (forall other :: SameSources(sources, other) ==> RankedSources(other, runtime) == RankedSources(sources, runtime))
        <==> sources.PrimaryPresent() || forall a, b :: !Tied(sources, runtime, a, b)
  {
    if sources.PrimaryPresent() {
      forall other | SameSources(sources, other)
        ensures RankedSources(other, runtime) == RankedSources(sources, runtime)
      {
        RankingForgetsOrder(sources, other, runtime);
      }
    } else if forall a, b :: !Tied(sources, runtime, a, b) {
      forall other | SameSources(sources, other)
        ensures RankedSources(other, runtime) == RankedSources(sources, runtime)
      {
        NoTieNoOrder(sources, other, runtime);
      }
    } else {
      var a, b :| Tied(sources, runtime, a, b);
      assert Tied(sources, runtime, b, a);
      FrontWinsTie(sources, runtime, a, b);
      FrontWinsTie(sources, runtime, b, a);
      if RankedSources(MoveToFront(sources, a), runtime) == RankedSources(sources, runtime) {
        PrecedesOneWay(sources, runtime, a, b);
      }
    }
  }

  // ---------------------------------------------------------------- when the plan depends on the stored order

  ghost predicate PlanIsOrderFree(m: Manifest, runtime: Runtime, segmentsPerTask: nat, rangeSupported: bool)
    requires m.WellFormed()
  {
    forall other :: SameSources(m.sources, other) ==>
      TaskPlan(m.(sources := other), runtime, segmentsPerTask, rangeSupported)
      == TaskPlan(m, runtime, segmentsPerTask, rangeSupported)
  }

  /** One ranking, one plan. */
  lemma SameRankingSamePlan(m: Manifest, other: SourceSet, runtime: Runtime, segmentsPerTask: nat, rangeSupported: bool)
    requires m.WellFormed() && m.pieces != [] && SameSources(m.sources, other)
    requires |m.sources.sources| < U64_MAX && |other.sources| < U64_MAX
    requires RankedSources(other, runtime) == RankedSources(m.sources, runtime)
    ensures TaskPlan(m.(sources := other), runtime, segmentsPerTask, rangeSupported)
         == TaskPlan(m, runtime, segmentsPerTask, rangeSupported)
  {
    PlannerFollowsRanking(m.sources, runtime);
    PlannerFollowsRanking(other, runtime);
    RankedIsDistinct(m.sources, runtime);
    RankedIsDistinct(other, runtime);
    SameOrderSamePlan(m, other, Preferred(m.sources, runtime), if rangeSupported then segmentsPerTask else 1, rangeSupported);
  }

  lemma SameOrderSamePlan(m: Manifest, other: SourceSet, preferred: seq<string>, workers: nat, allowParallel: bool)
    requires m.WellFormed() && m.pieces != []
    requires OrderedSources(other, preferred) == OrderedSources(m.sources, preferred)
    ensures LanePlan(m.(sources := other), workers, allowParallel, preferred) == LanePlan(m, workers, allowParallel, preferred)
  {
    OrderedNonEmpty(m.sources, preferred);
    OrderedNonEmpty(other, preferred);
    var ordered := OrderedSources(m.sources, preferred);
    if ordered != [] && allowParallel {
      var w := LaneCount(|m.pieces|, workers);
      forall i | 0 <= i < w
        ensures LaneAt(m, w, ordered, i) == LaneAt(m.(sources := other), w, ordered, i)
      {
        SliceBounds(|m.pieces|, w, i);
      }
    }
  }

  lemma {:induction false} SameSize(a: seq<Source>, b: seq<Source>)
    requires IdsDistinct(a) && IdsDistinct(b) && forall s :: s in a <==> s in b
    ensures |a| == |b|
  {
    Count(a);
    Count(b);
    assert (set s | s in a) == (set s | s in b);
  }

  lemma {:induction false} Count(a: seq<Source>)
    requires IdsDistinct(a)
    ensures |set s | s in a| == |a|
  {
    if a != [] {
      var last := |a| - 1;
      Count(a[..last]);
      assert (set s | s in a) == (set s | s in a[..last]) + {a[last]};
    }
  }

  /** The first lane goes to the source ranked first. */
  lemma LeaderLeads(m: Manifest, runtime: Runtime, segmentsPerTask: nat, rangeSupported: bool)
    requires m.WellFormed() && m.pieces != [] && m.sources.DistinctIds() && |m.sources.sources| < U64_MAX
    requires m.sources.ActiveTransferSources() != []
    ensures RankedSources(m.sources, runtime) != []
    ensures var lanes := TaskPlan(m, runtime, segmentsPerTask, rangeSupported);
            lanes != [] && lanes[0].sourceId == RankedSources(m.sources, runtime)[0].id
  {
    PlannerFollowsRanking(m.sources, runtime);
    RankedIsDistinct(m.sources, runtime);
    FirstLaneSource(m, if rangeSupported then segmentsPerTask else 1, rangeSupported, Preferred(m.sources, runtime));
  }

  lemma NothingPrecedesHead(ranked: seq<Source>, a: Source)
    requires IdsDistinct(ranked) && ranked != []
    ensures !Precedes(ranked, a, ranked[0])
  {
    forall j | 0 < j < |ranked|
      ensures ranked[j] != ranked[0]
    {
      assert ranked[0].id != ranked[j].id;
    }
  }

  /** Nothing recorded yet: stored first means ranked first, when no primary one is present. */
  lemma FrontLeads(sources: SourceSet, a: Source)
    requires sources.DistinctIds() && !sources.PrimaryPresent() && a in sources.ActiveTransferSources()
    ensures SameSources(sources, MoveToFront(sources, a)) && a in MoveToFront(sources, a).ActiveTransferSources()
    ensures RankedSources(MoveToFront(sources, a), map[]) != [] && RankedSources(MoveToFront(sources, a), map[])[0] == a
  {
    var front := MoveToFront(sources, a);
    FrontIsPrimary(sources, a);
    SameActive(sources, front);
    RankedIsDistinct(front, map[]);
    var ranked := RankedSources(front, map[]);
    NothingPrecedesHead(ranked, a);
    if ranked[0] != a {
      assert ranked[0] in ranked;
      assert ranked[0] in sources.ActiveTransferSources();
      FrontWinsTie(sources, map[], a, ranked[0]);
    }
  }

  /** Before anything has been recorded: the task plans the same lanes however its sources are stored,
      exactly when its primary source is among them or there is at most one transfer source. */
  lemma FreshPlanIsOrderFree(m: Manifest, segmentsPerTask: nat, rangeSupported: bool)
    requires m.WellFormed() && m.pieces != [] && m.sources.DistinctIds() && |m.sources.sources| < U64_MAX
    ensures PlanIsOrderFree(m, map[], segmentsPerTask, rangeSupported)
        <==> m.sources.PrimaryPresent() || |m.sources.ActiveTransferSources()| <= 1
  {
    var active := m.sources.ActiveTransferSources();
    if m.sources.PrimaryPresent() || |active| <= 1 {
      OrderFreeWhenUntied(m, map[], segmentsPerTask, rangeSupported);
    } else {
      var a, b := active[0], active[1];
      FilterKeepsIdsDistinct(m.sources.sources);
      FrontDecides(m, a, segmentsPerTask, rangeSupported);
      FrontDecides(m, b, segmentsPerTask, rangeSupported);
    }
  }

  /** When the ranking does not depend on the stored order, neither does the plan, whatever has been recorded. */
  lemma OrderFreeWhenUntied(m: Manifest, runtime: Runtime, segmentsPerTask: nat, rangeSupported: bool)
    requires m.WellFormed() && m.pieces != [] && m.sources.DistinctIds() && |m.sources.sources| < U64_MAX
    requires m.sources.PrimaryPresent() || forall a, b :: !Tied(m.sources, runtime, a, b)
    ensures PlanIsOrderFree(m, runtime, segmentsPerTask, rangeSupported)
  {
    RankingIsOrderFree(m.sources, runtime);
    forall other | SameSources(m.sources, other)
      ensures TaskPlan(m.(sources := other), runtime, segmentsPerTask, rangeSupported)
           == TaskPlan(m, runtime, segmentsPerTask, rangeSupported)
    {
      SameSize(m.sources.sources, other.sources);
      SameRankingSamePlan(m, other, runtime, segmentsPerTask, rangeSupported);
    }
  }

  lemma FrontDecides(m: Manifest, a: Source, segmentsPerTask: nat, rangeSupported: bool)
    requires m.WellFormed() && m.pieces != [] && m.sources.DistinctIds() && |m.sources.sources| < U64_MAX
    requires !m.sources.PrimaryPresent() && a in m.sources.ActiveTransferSources()
    ensures var front := MoveToFront(m.sources, a);
            var lanes := TaskPlan(m.(sources := front), map[], segmentsPerTask, rangeSupported);
            SameSources(m.sources, front) && lanes != [] && lanes[0].sourceId == a.id
  {
    var front := MoveToFront(m.sources, a);
    FrontLeads(m.sources, a);
    SameSize(m.sources.sources, front.sources);
    LeaderLeads(m.(sources := front), map[], segmentsPerTask, rangeSupported);
  }

  /** A download of unknown size always runs from the transfer source that is stored first. */
  lemma StreamingPlanIsOrderFree(m: Manifest, runtime: Runtime, segmentsPerTask: nat, rangeSupported: bool)
    requires m.WellFormed() && !m.totalKnown && m.sources.DistinctIds()
    ensures PlanIsOrderFree(m, runtime, segmentsPerTask, rangeSupported) <==> |m.sources.ActiveTransferSources()| <= 1
  {
    var active := m.sources.ActiveTransferSources();
    FilterKeepsIdsDistinct(m.sources.sources);
    if |active| <= 1 {
      forall other | SameSources(m.sources, other)
        ensures TaskPlan(m.(sources := other), runtime, segmentsPerTask, rangeSupported)
             == TaskPlan(m, runtime, segmentsPerTask, rangeSupported)
      {
        FilterKeepsIdsDistinct(other.sources);
        SameActive(m.sources, other);
        SameSize(active, other.ActiveTransferSources());
        if |active| == 1 { assert other.ActiveTransferSources()[0] in active; }
      }
    } else {
      var a, b := active[0], active[1];
      FrontKeepsSources(m.sources, a);
      FrontKeepsSources(m.sources, b);
      assert MoveToFront(m.sources, a).ActiveTransferSources()[0] == a;
      assert MoveToFront(m.sources, b).ActiveTransferSources()[0] == b;
    }
  }
}
