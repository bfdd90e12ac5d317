/** What the lane planner guarantees: balanced sources, bounded parallelism, independence from
    the stored order of sources, and when an index-only layout check is enough. */
module PlannerTheorems {
  import opened Widths
  import opened Wrappers
  import opened Sorting
  import opened Lists
  import opened Pieces
  import opened Sources
  import opened Manifests
  import opened Planner
  import opened Progress

  // ---------------------------------------------------------------- balance over sources

  function LanesOf(lanes: seq<Lane>, sourceId: string): nat {
    if lanes == [] then 0
    else LanesOf(lanes[..|lanes| - 1], sourceId)
         + (if lanes[|lanes| - 1].sourceId == sourceId then 1 else 0)
  }

  /** How many of the numbers below `c` leave remainder `s` on division by `k`. */
  function Share(c: nat, k: nat, s: nat): nat
    requires k > 0
  {
    c / k + (if s < c % k then 1 else 0)
  }

  lemma ShareStep(c: nat, k: nat, s: nat)
    requires s < k
    ensures Share(c + 1, k, s) == Share(c, k, s) + (if c % k == s then 1 else 0)
  {
    DivStep(c, k);
  }

  lemma DivStep(c: nat, k: nat)
    requires k > 0
    ensures (c + 1) / k == if c % k == k - 1 then c / k + 1 else c / k
    ensures (c + 1) % k == if c % k == k - 1 then 0 else c % k + 1
  {
    var q := c / k;
    assert c == q * k + c % k;
    if c % k == k - 1 {
      assert (q + 1) * k == q * k + k;
      DivUnique(c + 1, k, q + 1);
    } else {
      DivUnique(c + 1, k, q);
    }
  }

  /** Source `s` serves floor(count / k) of the first `count` lanes, or one more. */
  lemma {:induction false} RoundRobinCount(m: Manifest, w: nat, ordered: seq<Source>, count: nat, s: nat)
    requires m.WellFormed() && count <= w <= |m.pieces|
    requires IdsDistinct(ordered) && s < |ordered|
    ensures LanesOf(ParallelPlan(m, w, ordered, count), ordered[s].id) == Share(count, |ordered|, s)
  {
    var lanes := ParallelPlan(m, w, ordered, count);
    if count > 0 {
      var i := count - 1;
      RoundRobinCount(m, w, ordered, i, s);
      ShareStep(i, |ordered|, s);
      assert lanes[..i] == ParallelPlan(m, w, ordered, i);
      LaneAtSource(m, w, ordered, i);
    }
  }

  lemma {:induction false} FilterKeepsIdsDistinct(sources: seq<Source>)
    requires IdsDistinct(sources)
    ensures IdsDistinct(Filter(sources, CanTransfer))
  {
    if sources != [] {
      FilterKeepsIdsDistinct(sources[1..]);
      var rest := Filter(sources[1..], CanTransfer);
      forall j | 0 <= j < |rest|
        ensures rest[j].id != sources[0].id
      {
        assert rest[j] in sources[1..];
        var i :| 0 <= i < |sources| - 1 && sources[1..][i] == rest[j];
        assert sources[i + 1] == rest[j];
      }
    }
  }

  lemma RankerIdentifies(a: Source, b: Source, preferred: seq<string>, primaryId: Option<string>)
    requires Ranker(preferred, primaryId)(a) == Ranker(preferred, primaryId)(b)
    ensures a.id == b.id
  {
    assert RankKey(a, preferred, primaryId)[2..] == Codes(a.id);
    assert RankKey(b, preferred, primaryId)[2..] == Codes(b.id);
    CodesInjective(a.id, b.id);
  }

  lemma ActiveKeysDistinct(sources: SourceSet, preferred: seq<string>, primaryId: Option<string>)
    requires sources.DistinctIds()
    ensures KeysDistinct(sources.ActiveTransferSources(), Ranker(preferred, primaryId))
    ensures IdsDistinct(SortByKey(sources.ActiveTransferSources(), Ranker(preferred, primaryId)))
  {
    var active := sources.ActiveTransferSources();
    var key := Ranker(preferred, primaryId);
    FilterKeepsIdsDistinct(sources.sources);
    forall i, j | 0 <= i < j < |active|
      ensures key(active[i]) != key(active[j])
    {
      if key(active[i]) == key(active[j]) {
        RankerIdentifies(active[i], active[j], preferred, primaryId);
      }
    }
    SortKeepsDistinct(active, key);
  }

  /** The lane counts of any two transfer sources differ by at most one. */
  lemma SourcesBalanced(m: Manifest, requestedWorkers: nat, preferred: seq<string>, a: Source, b: Source)
    requires m.WellFormed() && m.pieces != [] && m.sources.DistinctIds()
    requires a in m.sources.ActiveTransferSources() && b in m.sources.ActiveTransferSources()
    ensures var lanes := LanePlan(m, requestedWorkers, true, preferred);
            LanesOf(lanes, a.id) <= LanesOf(lanes, b.id) + 1
  {
    var ordered := OrderedSources(m.sources, preferred);
    var w := LaneCount(|m.pieces|, requestedWorkers);
    OrderedNonEmpty(m.sources, preferred);
    ActiveKeysDistinct(m.sources, preferred, PrimaryId(m.sources));
    assert a in ordered && b in ordered;
    var s :| 0 <= s < |ordered| && ordered[s] == a;
    var t :| 0 <= t < |ordered| && ordered[t] == b;
    RoundRobinCount(m, w, ordered, w, s);
    RoundRobinCount(m, w, ordered, w, t);
  }

  // ---------------------------------------------------------------- the order of sources

  ghost predicate Precedes(ranked: seq<Source>, a: Source, b: Source) {
    exists i, j :: 0 <= i < j < |ranked| && ranked[i] == a && ranked[j] == b
  }

  /** `a` is preferred, and `b` later or not at all. */
  ghost predicate PreferredOver(preferred: seq<string>, a: string, b: string) {
    exists i :: 0 <= i < |preferred| && preferred[i] == a && forall j :: 0 <= j <= i ==> preferred[j] != b
  }

  /** Earlier in the preference list, or neither is in it and being the primary source, or that too does
      not tell them apart and the smaller id. */
  ghost predicate PlannedBefore(sources: SourceSet, preferred: seq<string>, a: Source, b: Source) {
    || PreferredOver(preferred, a.id, b.id)
    || (a.id !in preferred && b.id !in preferred && IsPrimary(sources, a) && !IsPrimary(sources, b))
    || (a.id !in preferred && b.id !in preferred && (IsPrimary(sources, a) <==> IsPrimary(sources, b))
        && StringLess(a.id, b.id))
  }

  /** The law of the planner's order, in terms of the preference list, the primary source and the ids. */
  lemma PlannerOrderLaw(sources: SourceSet, preferred: seq<string>, a: Source, b: Source)
    requires sources.DistinctIds() && |preferred| < U64_MAX && a != b
    requires a in sources.ActiveTransferSources() && b in sources.ActiveTransferSources()
    ensures Precedes(OrderedSources(sources, preferred), a, b) <==> PlannedBefore(sources, preferred, a, b)
  {
    OrderedByKey(sources, preferred, a, b);
    FindDistinct(sources.sources, a);
    FindDistinct(sources.sources, b);
    PrimaryMeaning(sources, a);
    PrimaryMeaning(sources, b);
    CodesOrder(a.id, b.id);
    RankKeyOrder(a, b, preferred, PrimaryId(sources));
    PreferenceOrder(a.id, b.id, preferred);
  }

  lemma OrderedByKey(sources: SourceSet, preferred: seq<string>, a: Source, b: Source)
    requires sources.DistinctIds() && a != b
    requires a in sources.ActiveTransferSources() && b in sources.ActiveTransferSources()
    ensures var key := Ranker(preferred, PrimaryId(sources));
            Precedes(OrderedSources(sources, preferred), a, b) <==> Leq(key(a), key(b))
  {
    var active, key := sources.ActiveTransferSources(), Ranker(preferred, PrimaryId(sources));
    ActiveKeysDistinct(sources, preferred, PrimaryId(sources));
    SortKeepsDistinct(active, key);
    SortedPrecedes(active, key, a, b);
  }

  /** In a sorted arrangement with distinct keys, one element precedes another exactly when its key is the
      smaller one. */
  lemma SortedPrecedes(s: seq<Source>, key: Source -> Key, a: Source, b: Source)
    requires KeysDistinct(SortByKey(s, key), key) && a in s && b in s && a != b
    ensures Precedes(SortByKey(s, key), a, b) <==> Leq(key(a), key(b))
  {
    var sorted := SortByKey(s, key);
    SortPermutes(s, key);
    SortSorts(s, key);
    assert a in sorted && b in sorted;
    var i :| 0 <= i < |sorted| && sorted[i] == a;
    var j :| 0 <= j < |sorted| && sorted[j] == b;
    LeqTotal(key(a), key(b));
    assert key(a) != key(b) by { assert i < j || j < i; }
    if j < i { assert Leq(key(b), key(a)); }
  }

  lemma RankKeyOrder(a: Source, b: Source, preferred: seq<string>, primaryId: Option<string>)
    ensures var x, y := PreferredIndex(a.id, preferred), PreferredIndex(b.id, preferred);
            var p, q := primaryId == Some(a.id), primaryId == Some(b.id);
            Leq(RankKey(a, preferred, primaryId), RankKey(b, preferred, primaryId)) <==>
              || x < y
              || (x == y && p && !q)
              || (x == y && p == q && Leq(Codes(a.id), Codes(b.id)))
  {
    var ka, kb := RankKey(a, preferred, primaryId), RankKey(b, preferred, primaryId);
    assert ka[1..][1..] == Codes(a.id) && kb[1..][1..] == Codes(b.id);
    assert Leq(ka[1..], kb[1..]) <==> ka[1] < kb[1] || (ka[1] == kb[1] && Leq(ka[1..][1..], kb[1..][1..]));
  }

  lemma PreferenceOrder(a: string, b: string, preferred: seq<string>)
    requires |preferred| < U64_MAX && a != b
    ensures PreferredIndex(a, preferred) < PreferredIndex(b, preferred) <==> PreferredOver(preferred, a, b)
    ensures PreferredIndex(a, preferred) == PreferredIndex(b, preferred) <==> a !in preferred && b !in preferred
  {
    PreferredPlace(a, preferred);
    PreferredPlace(b, preferred);
    var x, y := PreferredIndex(a, preferred), PreferredIndex(b, preferred);
    if x < y { assert preferred[x] == a && forall j :: 0 <= j <= x ==> preferred[j] != b; }
  }

  // ---------------------------------------------------------------- parallelism

  /** The suggested piece size is the least that gives no more than `t` pieces, where `t` is the number of
      workers asked for, at least 1 and at most one a byte; but never more than 1 MiB, and 1 for nothing. */
  lemma SuggestedSize(total: nat, requestedWorkers: nat)
    ensures var t := Min(Max(requestedWorkers, 1), total);
            var size := SuggestedHttpPieceSize(total, requestedWorkers);
            && 1 <= size <= 1048576 && (total == 0 ==> size == 1)
            && (total > 0 ==> (size - 1) * t < total && (size < 1048576 ==> total <= size * t))
  {
    if total == 0 { return; }
    var t := TargetWorkers(total, requestedWorkers);
    var ideal := IdealPieceSize(total, requestedWorkers);
    var size := SuggestedHttpPieceSize(total, requestedWorkers);
    CeilDivLeast(total, t, ideal);
    CeilDivLeast(total, t, 0);
    CeilDivLeast(total, t, ideal - 1);
    MulMono(size - 1, ideal - 1, t);
  }

  /** The manifest the HTTP preparation step builds for a known size and worker request. */
  ghost predicate PreparedFor(m: Manifest, total: nat, requestedWorkers: nat) {
    && m.WellFormed() && m.totalKnown && m.total == total
    && m.pieceSize == ClampPieceSize(total, SuggestedHttpPieceSize(total, requestedWorkers))
    && m.blockSize == Min(m.pieceSize, DEFAULT_BLOCK_SIZE)
  }

  lemma IdealFits(total: nat, requestedWorkers: nat)
    requires total > 0
    ensures 1 <= IdealPieceSize(total, requestedWorkers) <= total
    ensures ClampPieceSize(total, SuggestedHttpPieceSize(total, requestedWorkers))
            == Min(IdealPieceSize(total, requestedWorkers), MAX_HTTP_PIECE_SIZE)
  {
    var t := TargetWorkers(total, requestedWorkers);
    CeilDivLeast(total, t, total);
    MulMono(1, t, total);
    assert total * t == t * total;
    CeilDivLeast(total, t, 0);
  }

  /** At least half of the usable workers get a lane, and never more than were asked for. */
  lemma ParallelismBound(m: Manifest, total: nat, requestedWorkers: nat, preferred: seq<string>)
    requires total > 0 && PreparedFor(m, total, requestedWorkers)
    requires m.sources.ActiveTransferSources() != []
    ensures var t := TargetWorkers(total, requestedWorkers);
            var n := |LanePlan(m, requestedWorkers, true, preferred)|;
            t < 2 * n && n <= t
  {
    var t := TargetWorkers(total, requestedWorkers);
    var ideal := IdealPieceSize(total, requestedWorkers);
    var size := m.pieceSize;
    var count := |m.pieces|;
    IdealFits(total, requestedWorkers);
    PieceCount(m.pieces, size, total);
    PlanPartitions(m, requestedWorkers, true, preferred);
    assert count <= total by {
      assert total <= total * size by { MulMono(1, size, total); assert total * size == size * total; }
      CeilDivLeast(total, size, total);
    }
    assert total <= count * size by { CeilDivLeast(total, size, count); }
    assert count * size <= count * ideal by {
      MulMono(size, ideal, count);
      assert count * size == size * count && count * ideal == ideal * count;
    }
    HalfOfTarget(total, t, ideal, count);
  }

  lemma HalfOfTarget(total: nat, t: nat, ideal: nat, count: nat)
    requires 1 <= t <= total && ideal == CeilDiv(total, t) && ideal >= 1
    requires total <= count * ideal
    ensures t < 2 * count
  {
    if ideal == 1 {
      CeilDivLeast(total, t, 1);
      assert count * 1 == count && 1 * t == t;
    } else {
      CeilDivLeast(total, t, ideal - 1);
      assert (ideal - 1) * t < count * ideal;
      assert count * ideal <= (2 * count) * (ideal - 1) by {
        assert (2 * count) * (ideal - 1) == count * (2 * ideal - 2);
        MulMono(ideal, 2 * ideal - 2, count);
        assert count * ideal == ideal * count && count * (2 * ideal - 2) == (2 * ideal - 2) * count;
      }
      assert t * (ideal - 1) == (ideal - 1) * t;
      MulStrict(t, 2 * count, ideal - 1);
    }
  }

  lemma MulStrict(x: nat, y: nat, b: nat)
    requires x * b < y * b
    ensures x < y
  {
    if y <= x {
      MulMono(y, x, b);
    }
  }

  // ---------------------------------------------------------------- the stored order of sources

  ghost predicate SameSources(a: SourceSet, b: SourceSet) {
    && a.primaryId == b.primaryId
    && a.DistinctIds() && b.DistinctIds()
    && forall s :: s in a.sources <==> s in b.sources
  }

  lemma SamePrimary(a: SourceSet, b: SourceSet)
    requires SameSources(a, b) && a.PrimaryPresent()
    ensures PrimaryId(a) == PrimaryId(b) == a.primaryId
    ensures b.PrimaryPresent()
  {
    var s := a.Get(a.primaryId.value).value;
    FindDistinct(b.sources, s);
  }

  /** With the primary id in the set, the plan of a known-size payload depends on the set of
      sources and the preference list only. */
  lemma PlanForgetsSourceOrder(m: Manifest, other: SourceSet, requestedWorkers: nat, allowParallel: bool,
                               preferred: seq<string>)
    requires m.WellFormed() && m.totalKnown
    requires SameSources(m.sources, other) && m.sources.PrimaryPresent()
    ensures LanePlan(m, requestedWorkers, allowParallel, preferred)
            == LanePlan(m.(sources := other), requestedWorkers, allowParallel, preferred)
  {
    SamePrimary(m.sources, other);
    var a, b := m.sources.ActiveTransferSources(), other.ActiveTransferSources();
    var key := Ranker(preferred, m.sources.primaryId);
    ActiveKeysDistinct(m.sources, preferred, m.sources.primaryId);
    ActiveKeysDistinct(other, preferred, m.sources.primaryId);
    assert forall s :: s in a <==> s in b;
    SortDependsOnElements(a, b, key);
    assert OrderedSources(m.sources, preferred) == OrderedSources(other, preferred);
    assert a == [] <==> b == [] by {
      if a != [] { assert a[0] in b; }
      if b != [] { assert b[0] in a; }
    }
    var w := LaneCount(|m.pieces|, requestedWorkers);
    if m.pieces != [] && a != [] && allowParallel {
      OrderedNonEmpty(m.sources, preferred);
      var ordered := OrderedSources(m.sources, preferred);
      forall i | 0 <= i < w
        ensures LaneAt(m, w, ordered, i) == LaneAt(m.(sources := other), w, ordered, i)
      {
        SliceBounds(|m.pieces|, w, i);
      }
    }
  }

  function MoveToFront(sources: SourceSet, a: Source): SourceSet {
    sources.(sources := [a] + Filter(sources.sources, s => s != a))
  }

  lemma {:induction false} FilterKeepsDistinctBut(sources: seq<Source>, a: Source)
    requires IdsDistinct(sources)
    ensures IdsDistinct(Filter(sources, s => s != a))
  {
    if sources != [] {
      FilterKeepsDistinctBut(sources[1..], a);
      var rest := Filter(sources[1..], s => s != a);
      forall j | 0 <= j < |rest|
        ensures rest[j].id != sources[0].id
      {
        assert rest[j] in sources[1..];
        var i :| 0 <= i < |sources| - 1 && sources[1..][i] == rest[j];
        assert sources[i + 1] == rest[j];
      }
    }
  }

  lemma FrontKeepsSources(sources: SourceSet, a: Source)
    requires sources.DistinctIds() && a in sources.sources
    ensures SameSources(sources, MoveToFront(sources, a))
  {
    var rest := Filter(sources.sources, s => s != a);
    var front := MoveToFront(sources, a);
    FilterKeepsDistinctBut(sources.sources, a);
    forall j | 0 <= j < |rest|
      ensures rest[j].id != a.id
    {
      assert rest[j] in sources.sources && rest[j] != a;
      FindDistinct(sources.sources, rest[j]);
      FindDistinct(sources.sources, a);
    }
    assert forall s :: s in sources.sources <==> s in front.sources;
  }

  lemma FrontIsPrimary(sources: SourceSet, a: Source)
    requires sources.DistinctIds() && !sources.PrimaryPresent()
    requires a in sources.ActiveTransferSources()
    ensures SameSources(sources, MoveToFront(sources, a))
    ensures OrderedSources(MoveToFront(sources, a), [])[..1] == [a]
  {
    var front := MoveToFront(sources, a);
    FrontKeepsSources(sources, a);
    assert PrimaryId(front) == Some(a.id);
    LeaderIsPrimary(front, a);
  }

  lemma LeaderIsPrimary(sources: SourceSet, a: Source)
    requires sources.DistinctIds() && a in sources.sources && CanTransfer(a) && PrimaryId(sources) == Some(a.id)
    ensures OrderedSources(sources, [])[..1] == [a]
  {
    var active := sources.ActiveTransferSources();
    var key := Ranker([], Some(a.id));
    var ordered := OrderedSources(sources, []);
    SortPermutes(active, key);
    SortSorts(active, key);
    HeadIsLeast(ordered, a, key);
    var first := ordered[0];
    assert first in ordered && first in active;
    assert key(first)[0] == key(a)[0] && key(a)[1] == 0;
    assert key(first)[1..][0] == key(first)[1] && key(a)[1..][0] == key(a)[1];
    assert first.id == a.id;
    FindDistinct(sources.sources, a);
    FindDistinct(sources.sources, first);
  }

  /** Planned without a preference list and with no primary source present, any two transfer sources can be
      made to lead by storing them first. */
  lemma OrderMattersWithoutPrimary(m: Manifest, a: Source, b: Source, requestedWorkers: nat, allowParallel: bool)
    requires m.WellFormed() && m.pieces != []
    requires m.sources.DistinctIds() && !m.sources.PrimaryPresent()
    requires a in m.sources.ActiveTransferSources() && b in m.sources.ActiveTransferSources() && a != b
    ensures var left, right := MoveToFront(m.sources, a), MoveToFront(m.sources, b);
            && SameSources(m.sources, left) && SameSources(m.sources, right)
            && LanePlan(m.(sources := left), requestedWorkers, allowParallel, [])
               != LanePlan(m.(sources := right), requestedWorkers, allowParallel, [])
  {
    var left, right := MoveToFront(m.sources, a), MoveToFront(m.sources, b);
    FrontIsPrimary(m.sources, a);
    FrontIsPrimary(m.sources, b);
    FirstLaneSource(m.(sources := left), requestedWorkers, allowParallel, []);
    FirstLaneSource(m.(sources := right), requestedWorkers, allowParallel, []);
    assert OrderedSources(left, [])[0] == OrderedSources(left, [])[..1][0];
    assert OrderedSources(right, [])[0] == OrderedSources(right, [])[..1][0];
    FindDistinct(m.sources.sources, a);
    FindDistinct(m.sources.sources, b);
  }

  lemma FirstLaneSource(m: Manifest, requestedWorkers: nat, allowParallel: bool, preferred: seq<string>)
    requires m.WellFormed() && m.pieces != [] && OrderedSources(m.sources, preferred) != []
    ensures var lanes := LanePlan(m, requestedWorkers, allowParallel, preferred);
            lanes != [] && lanes[0].sourceId == OrderedSources(m.sources, preferred)[0].id
  {
    OrderedNonEmpty(m.sources, preferred);
    var ordered := OrderedSources(m.sources, preferred);
    if allowParallel {
      var w := LaneCount(|m.pieces|, requestedWorkers);
      SliceBounds(|m.pieces|, w, 0);
      var lanes := LanePlan(m, requestedWorkers, true, preferred);
      assert lanes[0] == LaneAt(m, w, ordered, 0);
    }
  }

  // ---------------------------------------------------------------- index-only layout matching

  /** Below the cap, the number of pieces determines the piece size. */
  lemma SizeFromCount(total: nat, requestedWorkers: nat)
    requires total > 0
    ensures var s := IdealPieceSize(total, requestedWorkers);
            var n := CeilDiv(total, s);
            n > 0 && s == CeilDiv(total, n)
  {
    IdealFits(total, requestedWorkers);
    var t := TargetWorkers(total, requestedWorkers);
    var s := IdealPieceSize(total, requestedWorkers);
    var n := CeilDiv(total, s);
    CeilDivLeast(total, t, s);
    assert s * t == t * s;
    CeilDivLeast(total, s, t);
    CeilDivLeast(total, s, 0);
    CeilDivLeast(total, s, n);
    assert n * s == s * n;
    CeilDivLeast(total, n, s);
    var c := CeilDiv(total, n);
    CeilDivLeast(total, n, c);
    MulMono(n, t, c);
    assert c * n == n * c && t * c == c * t;
    CeilDivLeast(total, t, c);
  }

  /** For one payload and two worker settings with equal piece counts, the piece sizes agree
      exactly when both ideal sizes are on the same side of the 1 MiB cap. */
  lemma EqualCountsMeanEqualSizes(m1: Manifest, m2: Manifest, total: nat, w1: nat, w2: nat)
    requires total > 0 && PreparedFor(m1, total, w1) && PreparedFor(m2, total, w2)
    requires |m1.pieces| == |m2.pieces|
    ensures m1.pieceSize == m2.pieceSize <==>
            (IdealPieceSize(total, w1) < MAX_HTTP_PIECE_SIZE <==> IdealPieceSize(total, w2) < MAX_HTTP_PIECE_SIZE)
    ensures IdealPieceSize(total, w1) <= MAX_HTTP_PIECE_SIZE && IdealPieceSize(total, w2) <= MAX_HTTP_PIECE_SIZE ==>
              m1.pieceSize == m2.pieceSize
  {
    IdealFits(total, w1);
    IdealFits(total, w2);
    PieceCount(m1.pieces, m1.pieceSize, total);
    PieceCount(m2.pieces, m2.pieceSize, total);
    SizeFromCount(total, w1);
    SizeFromCount(total, w2);
  }

  /** Equal sizes mean the same pieces and the same blocks. */
  lemma GeometryIsDetermined(p1: seq<PieceLayout>, b1: seq<PieceBlock>, p2: seq<PieceLayout>, b2: seq<PieceBlock>,
                             pieceSize: nat, blockSize: nat, total: nat)
    requires Geometry(p1, b1, pieceSize, blockSize, total) && Geometry(p2, b2, pieceSize, blockSize, total)
    ensures p1 == p2 && b1 == b2
  {
    PiecesAreDetermined(p1, p2, pieceSize, total);
    BlocksAreDetermined(b1, b2, p1, blockSize);
  }

  lemma PiecesAreDetermined(p1: seq<PieceLayout>, p2: seq<PieceLayout>, size: nat, total: nat)
    requires CutsPayload(p1, size, total) && CutsPayload(p2, size, total) && size > 0
    ensures p1 == p2
  {
    PieceCount(p1, size, total);
    PieceCount(p2, size, total);
    forall k | 0 <= k < |p1|
      ensures p1[k] == p2[k]
    {
      PieceOffset(p1, size, k);
      PieceOffset(p2, size, k);
    }
  }

  lemma BlocksAreDetermined(b1: seq<PieceBlock>, b2: seq<PieceBlock>, pieces: seq<PieceLayout>, size: nat)
    requires CutsPieces(b1, pieces, size) && CutsPieces(b2, pieces, size)
    ensures b1 == b2
  {
    var n := Min(|b1|, |b2|);
    SameBlocks(b1, b2, pieces, size, n);
    if n > 0 {
      assert b1[n - 1] == b1[..n][n - 1] == b2[n - 1];
      if n < |b2| { NotLast(b2, pieces, size, n - 1); }
      if n < |b1| { NotLast(b1, pieces, size, n - 1); }
    }
  }

  lemma {:induction false} SameBlocks(b1: seq<PieceBlock>, b2: seq<PieceBlock>, pieces: seq<PieceLayout>, size: nat, n: nat)
    requires BlockRun(b1, pieces, size) && BlockRun(b2, pieces, size)
    requires n <= |b1| && n <= |b2|
    ensures b1[..n] == b2[..n]
  {
    if n > 0 {
      SameBlocks(b1, b2, pieces, size, n - 1);
      assert Inside(b1[n - 1], pieces, size) && Inside(b2[n - 1], pieces, size);
      if n > 1 {
        assert b1[n - 2] == b1[..n - 1][n - 2] && b2[n - 2] == b2[..n - 1][n - 2];
        assert Follows(b1[n - 2], b1[n - 1], pieces) && Follows(b2[n - 2], b2[n - 1], pieces);
      }
      assert b1[..n] == b1[..n - 1] + [b1[n - 1]] && b2[..n] == b2[..n - 1] + [b2[n - 1]];
    }
  }

  /** A block that is followed by another is not the end of the payload. */
  lemma NotLast(blocks: seq<PieceBlock>, pieces: seq<PieceLayout>, size: nat, j: nat)
    requires BlockRun(blocks, pieces, size) && j + 1 < |blocks|
    ensures blocks[j].piece < |pieces| - 1 || blocks[j].End() < pieces[blocks[j].piece].End()
  {
    assert Follows(blocks[j], blocks[j + 1], pieces);
    assert Inside(blocks[j + 1], pieces, size);
  }

  /** Across the cap the index-only check accepts a foreign geometry: a 1,992,294-byte payload
      planned for one worker and for two has the same block keys, but block (0, 3) ends 52,429
      bytes later in the first layout. */
  lemma IndexOnlyMatchAcceptsOtherGeometry() returns (m1: Manifest, m2: Manifest)
    ensures PreparedFor(m1, 1_992_294, 1) && PreparedFor(m2, 1_992_294, 2)
    ensures BlockStateLayoutMatches(InitializeBlockStates(m1.blocks), InitializeBlockStates(m2.blocks))
    ensures |m1.blocks| == 8 && m1.blocks[3].End() == m2.blocks[3].End() + 52_429
  {
    OneWorkerGeometry();
    TwoWorkerGeometry();
    var none := SourceSet(None, []);
    m1 := Manifest(1_992_294, true, 1_048_576, 262_144, [], OneWorkerPieces(), OneWorkerBlocks(), none);
    m2 := Manifest(1_992_294, true, 996_147, 262_144, [], TwoWorkerPieces(), TwoWorkerBlocks(), none);
  }

  function OneWorkerPieces(): seq<PieceLayout> {
    [PieceLayout(0, 0, 1_048_576), PieceLayout(1, 1_048_576, 943_718)]
  }

  function OneWorkerBlocks(): seq<PieceBlock> {
    [PieceBlock(0, 0, 0, 262_144), PieceBlock(0, 1, 262_144, 262_144),
     PieceBlock(0, 2, 524_288, 262_144), PieceBlock(0, 3, 786_432, 262_144),
     PieceBlock(1, 0, 1_048_576, 262_144), PieceBlock(1, 1, 1_310_720, 262_144),
     PieceBlock(1, 2, 1_572_864, 262_144), PieceBlock(1, 3, 1_835_008, 157_286)]
  }

  function TwoWorkerPieces(): seq<PieceLayout> {
    [PieceLayout(0, 0, 996_147), PieceLayout(1, 996_147, 996_147)]
  }

  function TwoWorkerBlocks(): seq<PieceBlock> {
    [PieceBlock(0, 0, 0, 262_144), PieceBlock(0, 1, 262_144, 262_144),
     PieceBlock(0, 2, 524_288, 262_144), PieceBlock(0, 3, 786_432, 209_715),
     PieceBlock(1, 0, 996_147, 262_144), PieceBlock(1, 1, 1_258_291, 262_144),
     PieceBlock(1, 2, 1_520_435, 262_144), PieceBlock(1, 3, 1_782_579, 209_715)]
  }

  lemma OneWorkerGeometry()
    ensures Geometry(OneWorkerPieces(), OneWorkerBlocks(), 1_048_576, 262_144, 1_992_294)
  {
    assert CutsPayload(OneWorkerPieces(), 1_048_576, 1_992_294);
    EightBlocksRun(OneWorkerBlocks(), OneWorkerPieces());
  }

  lemma TwoWorkerGeometry()
    ensures Geometry(TwoWorkerPieces(), TwoWorkerBlocks(), 996_147, 262_144, 1_992_294)
  {
    assert CutsPayload(TwoWorkerPieces(), 996_147, 1_992_294);
    EightBlocksRun(TwoWorkerBlocks(), TwoWorkerPieces());
  }

  /** Two pieces of four blocks each, checked block by block. */
  lemma EightBlocksRun(blocks: seq<PieceBlock>, pieces: seq<PieceLayout>)
    requires |blocks| == 8 && |pieces| == 2 && forall j :: 0 <= j < 8 ==> blocks[j].piece < 2
    requires Inside(blocks[0], pieces, 262_144) && Inside(blocks[1], pieces, 262_144)
    requires Inside(blocks[2], pieces, 262_144) && Inside(blocks[3], pieces, 262_144)
    requires Inside(blocks[4], pieces, 262_144) && Inside(blocks[5], pieces, 262_144)
    requires Inside(blocks[6], pieces, 262_144) && Inside(blocks[7], pieces, 262_144)
    requires blocks[0].piece == 0 && blocks[0].block == 0 && blocks[0].offset == pieces[0].offset
    requires Follows(blocks[0], blocks[1], pieces) && Follows(blocks[1], blocks[2], pieces)
    requires Follows(blocks[2], blocks[3], pieces) && Follows(blocks[3], blocks[4], pieces)
    requires Follows(blocks[4], blocks[5], pieces) && Follows(blocks[5], blocks[6], pieces)
    requires Follows(blocks[6], blocks[7], pieces)
    ensures BlockRun(blocks, pieces, 262_144)
  {
  }
}
