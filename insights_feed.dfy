/**
 * The insights feed: the pinned insights first under a "Pinned" header,
 * then the others, under a "Recent" header only when there are pinned
 * ones, and an empty-state message for an empty list.
 */
module InsightsFeed {
  import opened Lists
  import opened Types

  /** `i => i.pinned`. */
  function IsPinned(): Insight -> bool {
    (i: Insight) => i.pinned
  }

  function Pinned(insights: seq<Insight>): (r: seq<Insight>)
    ensures forall x :: x in r <==> x in insights && x.pinned
  {
    Filter(insights, IsPinned())
  }

  function Unpinned(insights: seq<Insight>): (r: seq<Insight>)
    ensures forall x :: x in r <==> x in insights && !x.pinned
  {
    Filter(insights, Not(IsPinned()))
  }

  /** The two groups share no insight, and their lengths add up to the list's. */
  lemma GroupsPartition(insights: seq<Insight>)
    ensures forall x :: !(x in Pinned(insights) && x in Unpinned(insights))
    ensures |Pinned(insights)| + |Unpinned(insights)| == |insights|
    ensures multiset(Pinned(insights)) + multiset(Unpinned(insights)) == multiset(insights)
  {
    FilterPartition(insights, IsPinned());
  }

  /**
   * The rendering order: the pinned group in list order, then the unpinned
   * group in list order; a rearrangement of the list with no pinned
   * insight after an unpinned one.
   */
  function DisplayOrder(insights: seq<Insight>): (r: seq<Insight>)
    ensures r == Pinned(insights) + Unpinned(insights)
    ensures multiset(r) == multiset(insights)
    ensures forall i, j :: 0 <= i < j < |r| && !r[i].pinned ==> !r[j].pinned
  {
    GroupsPartition(insights);
    Pinned(insights) + Unpinned(insights)
  }

  /**
   * Within each group the order is the list's: a list already shown pinned
   * first (a pinned run followed by an unpinned run) is displayed as it is.
   */
  lemma DisplayOrderKeepsGroupOrder(pinned: seq<Insight>, unpinned: seq<Insight>)
    requires forall i :: 0 <= i < |pinned| ==> pinned[i].pinned
    requires forall i :: 0 <= i < |unpinned| ==> !unpinned[i].pinned
    ensures DisplayOrder(pinned + unpinned) == pinned + unpinned
  {
    assert Pinned(pinned + unpinned) == pinned by {
      FilterConcat(pinned, unpinned, IsPinned());
      FilterAll(pinned, IsPinned());
      FilterNone(unpinned, IsPinned());
    }
    assert Unpinned(pinned + unpinned) == unpinned by {
      FilterConcat(pinned, unpinned, Not(IsPinned()));
      FilterNone(pinned, Not(IsPinned()));
      FilterAll(unpinned, Not(IsPinned()));
    }
  }

  /** Which parts of the feed are rendered. */
  datatype Sections = Sections(pinnedSection: bool, recentHeader: bool, unpinnedSection: bool, emptyMessage: bool)

  function Layout(insights: seq<Insight>): (r: Sections)
    ensures r.pinnedSection <==> exists i :: 0 <= i < |insights| && insights[i].pinned
    ensures r.unpinnedSection <==> exists i :: 0 <= i < |insights| && !insights[i].pinned
    ensures r.recentHeader <==> r.pinnedSection && r.unpinnedSection
    ensures r.emptyMessage <==> |insights| == 0
  {
    var p := |Pinned(insights)| > 0;
    var u := |Unpinned(insights)| > 0;
    assert p ==> exists i :: 0 <= i < |insights| && insights[i].pinned by {
      if p { assert Pinned(insights)[0] in insights; }
    }
    assert u ==> exists i :: 0 <= i < |insights| && !insights[i].pinned by {
      if u { assert Unpinned(insights)[0] in insights; }
    }
    Sections(p, u && p, u, |insights| == 0)
  }
}
