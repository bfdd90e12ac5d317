/** Transfer sources and their registry (src/domain/source.rs). */
module Sources {
  import opened Wrappers
  import opened Lists

  datatype Source = Source(id: string, metadataOnly: bool)

  /** `primaryId` is a wish: it may name no member of `sources`. */
  datatype SourceSet = SourceSet(primaryId: Option<string>, sources: seq<Source>) {

    function Get(id: string): Option<Source> {
      Find(sources, id)
    }

    function Primary(): Option<Source> {
      match primaryId
      case Some(id) => if Get(id).Some? then Get(id) else First(sources)
      case None => First(sources)
    }

    function ActiveTransferSources(): seq<Source> {
      Filter(sources, CanTransfer)
    }

    function PushUnique(source: Source): SourceSet {
      if Get(source.id).Some? then this else this.(sources := sources + [source])
    }

    function ReplacePrimary(source: Source): SourceSet {
      SourceSet(Some(source.id),
                if Get(source.id).Some? then ReplaceFirst(sources, source) else [source] + sources)
    }

    predicate DistinctIds() {
      IdsDistinct(sources)
    }

    predicate PrimaryPresent() {
      primaryId.Some? && Get(primaryId.value).Some?
    }
  }

  /** The source that the set names as primary, or the first one when the name is none of theirs. */
  ghost predicate IsPrimary(sources: SourceSet, s: Source) {
    if exists t :: t in sources.sources && sources.primaryId == Some(t.id) then sources.primaryId == Some(s.id)
    else sources.sources != [] && s.id == sources.sources[0].id
  }

  lemma PrimaryMeaning(sources: SourceSet, s: Source)
    ensures sources.Primary().Some? && sources.Primary().value.id == s.id <==> IsPrimary(sources, s)
    ensures sources.Primary().Some? ==> sources.Primary().value in sources.sources
  {
  }

  predicate IdsDistinct(sources: seq<Source>) {
    forall i, j :: 0 <= i < j < |sources| ==> sources[i].id != sources[j].id
  }

  function CanTransfer(s: Source): bool { !s.metadataOnly }

  function First(sources: seq<Source>): Option<Source> {
    if sources == [] then None else Some(sources[0])
  }

  /** The first source with this id. */
  function Find(sources: seq<Source>, id: string): (r: Option<Source>)
    ensures r.Some? ==> r.value in sources && r.value.id == id
    ensures r.None? ==> forall s :: s in sources ==> s.id != id
  {
    if sources == [] then None
    else if sources[0].id == id then Some(sources[0])
    else Find(sources[1..], id)
  }

  function ReplaceFirst(sources: seq<Source>, source: Source): (r: seq<Source>)
    ensures |r| == |sources|
  {
    if sources == [] then []
    else if sources[0].id == source.id then [source] + sources[1..]
    else [sources[0]] + ReplaceFirst(sources[1..], source)
  }

  lemma {:induction false} ReplaceFirstKeepsIds(sources: seq<Source>, source: Source)
    ensures forall i :: 0 <= i < |sources| ==> ReplaceFirst(sources, source)[i].id == sources[i].id
    ensures Find(sources, source.id).Some? ==> source in ReplaceFirst(sources, source)
  {
    if sources != [] && sources[0].id != source.id {
      ReplaceFirstKeepsIds(sources[1..], source);
      var r := ReplaceFirst(sources, source);
      assert r == [sources[0]] + r[1..];
    }
  }

  /** Both registry updates keep ids distinct; `ReplacePrimary` also leaves the primary in the set. */
  lemma UpdatesKeepIdsDistinct(set0: SourceSet, source: Source)
    requires set0.DistinctIds()
    ensures set0.PushUnique(source).DistinctIds()
    ensures set0.PushUnique(source).Get(source.id).Some?
    ensures set0.PrimaryPresent() ==> set0.PushUnique(source).PrimaryPresent()
    ensures set0.ReplacePrimary(source).DistinctIds()
    ensures set0.ReplacePrimary(source).PrimaryPresent()
    ensures set0.ReplacePrimary(source).Get(source.id) == Some(source)
  {
    var pushed, replaced := set0.PushUnique(source), set0.ReplacePrimary(source);
    ReplaceFirstKeepsIds(set0.sources, source);
    assert set0.Get(source.id).None? ==> source == pushed.sources[|set0.sources|];
    assert forall s :: s in set0.sources ==> s in pushed.sources;
    assert source in replaced.sources;
    FindDistinct(replaced.sources, source);
  }

  /** Which sources there are after an update, and where: a new id goes to the end of the list, a new primary
      to the front; a known id is left as it is by the one and replaced in its place by the other. */
  lemma UpdatesBySource(set0: SourceSet, source: Source)
    requires set0.DistinctIds()
    ensures var known, pushed := (exists s :: s in set0.sources && s.id == source.id), set0.PushUnique(source);
            pushed.primaryId == set0.primaryId
            && pushed.sources == if known then set0.sources else set0.sources + [source]
    ensures var known, replaced := (exists s :: s in set0.sources && s.id == source.id), set0.ReplacePrimary(source);
            && replaced.primaryId == Some(source.id)
            && (!known ==> replaced.sources == [source] + set0.sources)
            && (known ==>
                  && |replaced.sources| == |set0.sources|
                  && forall i :: 0 <= i < |set0.sources| ==>
                       replaced.sources[i] == if set0.sources[i].id == source.id then source else set0.sources[i])
  {
    ReplacedInPlace(set0.sources, source);
  }

  lemma {:induction false} ReplacedInPlace(sources: seq<Source>, source: Source)
    requires IdsDistinct(sources)
    ensures forall i :: 0 <= i < |sources| ==>
              ReplaceFirst(sources, source)[i] == if sources[i].id == source.id then source else sources[i]
  {
    if sources != [] && sources[0].id != source.id {
      ReplacedInPlace(sources[1..], source);
      var r := ReplaceFirst(sources, source);
      assert r == [sources[0]] + r[1..];
    }
  }

  lemma {:induction false} FindDistinct(sources: seq<Source>, s: Source)
    requires s in sources
    requires IdsDistinct(sources)
    ensures Find(sources, s.id) == Some(s)
  {
    if sources[0].id != s.id {
      FindDistinct(sources[1..], s);
    } else {
      var i :| 0 <= i < |sources| && sources[i] == s;
    }
  }
}
