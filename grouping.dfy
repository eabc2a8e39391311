/**
 * Grouping of a batch of record references by backend: the sources in the
 * order each is first seen, and for each source the ids requested from it
 * in input order.
 */
module Grouping {
  import opened Records

  /** The distinct sources of `refs`, in the order each is first seen. */
  function Sources(refs: seq<RecordRef>): seq<string> {
    if refs == [] then []
    else
      var s := refs[|refs| - 1].source;
      var earlier := Sources(refs[..|refs| - 1]);
      if s in earlier then earlier else earlier + [s]
  }

  /** Each source occurs once, and exactly the sources of the input occur. */
  lemma {:induction false} SourcesDistinct(refs: seq<RecordRef>)
    ensures forall i, j :: 0 <= i < j < |Sources(refs)| ==> Sources(refs)[i] != Sources(refs)[j]
    ensures forall s :: s in Sources(refs) <==> exists k :: 0 <= k < |refs| && refs[k].source == s
  {
    if refs != [] {
      var init := refs[..|refs| - 1];
      SourcesDistinct(init);
      assert forall k :: 0 <= k < |init| ==> init[k] == refs[k];
    }
  }

  /** The source of every request has a group. */
  lemma SourcesListed(refs: seq<RecordRef>, k: nat)
    requires k < |refs|
    ensures refs[k].source in Sources(refs)
  {
    SourcesDistinct(refs);
  }

  /** The ids requested from `source`, in input order. */
  function IdsFor(refs: seq<RecordRef>, source: string): seq<string> {
    if refs == [] then []
    else
      var last := refs[|refs| - 1];
      IdsFor(refs[..|refs| - 1], source) + if last.source == source then [last.id] else []
  }

  /** A source has ids exactly when some request names it. */
  lemma {:induction false} IdsForEmpty(refs: seq<RecordRef>, source: string)
    ensures IdsFor(refs, source) == [] <==> forall k :: 0 <= k < |refs| ==> refs[k].source != source
  {
    if refs != [] {
      var init := refs[..|refs| - 1];
      IdsForEmpty(init, source);
      assert forall k :: 0 <= k < |init| ==> init[k] == refs[k];
    }
  }

  /** How one more request extends the grouping. */
  lemma GroupStep(refs: seq<RecordRef>, ref: RecordRef)
    ensures Sources(refs + [ref]) ==
      if ref.source in Sources(refs) then Sources(refs) else Sources(refs) + [ref.source]
    ensures forall s ::
      IdsFor(refs + [ref], s) == IdsFor(refs, s) + (if ref.source == s then [ref.id] else [])
    ensures ref.source !in Sources(refs) ==> IdsFor(refs, ref.source) == []
  {
    assert (refs + [ref])[..|refs|] == refs;
    if ref.source !in Sources(refs) {
      SourcesDistinct(refs);
      IdsForEmpty(refs, ref.source);
    }
  }

  /**
   * First-seen order: wherever a later group's source occurs in the input,
   * an earlier group's source has already occurred before it.
   */
  lemma {:induction false} SourcesFirstSeen(refs: seq<RecordRef>, i: nat, j: nat, k: nat)
    requires i < j < |Sources(refs)|
    requires k < |refs| && refs[k].source == Sources(refs)[j]
    ensures exists m :: 0 <= m < k && refs[m].source == Sources(refs)[i]
  {
    var init := refs[..|refs| - 1];
    var s := refs[|refs| - 1].source;
    var earlier := Sources(init);
    SourcesDistinct(init);
    if s in earlier {
      assert Sources(refs) == earlier;
      var k' := k;
      if k == |refs| - 1 {
        k' :| 0 <= k' < |init| && init[k'].source == s;
      }
      assert init[k'].source == earlier[j];
      SourcesFirstSeen(init, i, j, k');
      var m :| 0 <= m < k' && init[m].source == earlier[i];
      assert refs[m] == init[m];
    } else if j < |earlier| {
      assert Sources(refs) == earlier + [s];
      assert earlier[j] in earlier;
      assert k < |init|;
      assert init[k] == refs[k];
      SourcesFirstSeen(init, i, j, k);
      var m :| 0 <= m < k && init[m].source == earlier[i];
      assert refs[m] == init[m];
    } else {
      assert Sources(refs) == earlier + [s];
      assert earlier[i] in earlier;
      var m :| 0 <= m < |init| && init[m].source == earlier[i];
      assert refs[m] == init[m];
      assert forall t :: 0 <= t < |init| ==> init[t] == refs[t];
      assert k == |refs| - 1;
    }
  }

  /** Total number of ids in the groups of `sources`. */
  function GroupedCount(refs: seq<RecordRef>, sources: seq<string>): nat {
    if sources == [] then 0
    else GroupedCount(refs, sources[..|sources| - 1]) + |IdsFor(refs, sources[|sources| - 1])|
  }

  /** Appending one reference adds one id to exactly the group of its source. */
  lemma {:induction false} GroupedCountAppend(refs: seq<RecordRef>, ref: RecordRef, sources: seq<string>)
    requires forall i, j :: 0 <= i < j < |sources| ==> sources[i] != sources[j]
    ensures GroupedCount(refs + [ref], sources) ==
      GroupedCount(refs, sources) + if ref.source in sources then 1 else 0
  {
    assert (refs + [ref])[..|refs|] == refs;
    if sources != [] {
      var init := sources[..|sources| - 1];
      GroupedCountAppend(refs, ref, init);
      assert ref.source in sources <==> ref.source in init || ref.source == sources[|sources| - 1];
      assert ref.source == sources[|sources| - 1] ==> ref.source !in init;
    }
  }

  /** Every requested reference belongs to exactly one group. */
  lemma {:induction false} GroupsPartition(refs: seq<RecordRef>)
    ensures GroupedCount(refs, Sources(refs)) == |refs|
  {
    if refs != [] {
      var init := refs[..|refs| - 1];
      var last := refs[|refs| - 1];
      assert refs == init + [last];
      GroupsPartition(init);
      var earlier := Sources(init);
      SourcesDistinct(init);
      GroupedCountAppend(init, last, earlier);
      if last.source !in earlier {
        var all := earlier + [last.source];
        assert all[..|all| - 1] == earlier;
        IdsForEmpty(init, last.source);
      }
    }
  }
}
