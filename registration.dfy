/**
 * Registration of link and division hypotheses with the segmentation hypotheses
 * at their endpoints. A segmentation hypothesis keeps lists of the links and
 * divisions it takes part in; registration appends to those lists in the
 * hypotheses that the endpoint ids name in the map of all segmentations.
 */
module Registration {
  import opened Wrappers
  import Segmentation
  import ConservationSegmentation
  import Links
  import BinaryLinks
  import Divisions

  /** The list `d` repeated `n` times. */
  function Repeat<T>(d: T, n: nat): (r: seq<T>)
    ensures |r| == n
    ensures forall k :: 0 <= k < n ==> r[k] == d
  {
    seq(n, _ => d)
  }

  /** Different keys hold different hypothesis objects, as in a map that stores hypotheses by value. */
  predicate Injective(segs: map<int, Segmentation.SegmentationHypothesis>)
  {
    forall a, b :: a in segs && b in segs && a != b ==> segs[a] != segs[b]
  }

  /**
   * Registers a link as outgoing at its source and then as incoming at its
   * target. Each step fails, as the segmentation hypothesis does, once that
   * hypothesis' detection has been materialised; a failure at the target leaves
   * the append at the source in place.
   */
  method RegisterLink(link: Links.LinkingHypothesis, segs: map<int, Segmentation.SegmentationHypothesis>) returns (r: Outcome)
    requires link.srcId in segs && link.destId in segs
    modifies segs[link.srcId], segs[link.destId]
    ensures r.Pass? <==> segs[link.srcId].detection.id < 0 && segs[link.destId].detection.id < 0
    ensures segs[link.srcId].outgoingLinks ==
      if segs[link.srcId].detection.id < 0 then old(segs[link.srcId].outgoingLinks) + [link] else old(segs[link.srcId].outgoingLinks)
    ensures segs[link.destId].incomingLinks ==
      if r.Pass? then old(segs[link.destId].incomingLinks) + [link] else old(segs[link.destId].incomingLinks)
    ensures segs[link.srcId] != segs[link.destId] ==>
      segs[link.srcId].incomingLinks == old(segs[link.srcId].incomingLinks) &&
      segs[link.destId].outgoingLinks == old(segs[link.destId].outgoingLinks)
    ensures segs[link.srcId].incomingDivisions == old(segs[link.srcId].incomingDivisions) &&
            segs[link.srcId].outgoingDivisions == old(segs[link.srcId].outgoingDivisions)
    ensures segs[link.destId].incomingDivisions == old(segs[link.destId].incomingDivisions) &&
            segs[link.destId].outgoingDivisions == old(segs[link.destId].outgoingDivisions)
    ensures segs[link.srcId].id == old(segs[link.srcId].id) && segs[link.destId].id == old(segs[link.destId].id)
  {
    var source := segs[link.srcId];
    var target := segs[link.destId];
    r := source.AddOutgoingLink(link);
    if r.Fail? {
      return;
    }
    r := target.AddIncomingLink(link);
  }

  /** The same registration for the binary links of the older revision. */
  method RegisterBinaryLink(link: BinaryLinks.LinkingHypothesis, segs: map<int, ConservationSegmentation.SegmentationHypothesis>) returns (r: Outcome)
    requires link.srcId in segs && link.destId in segs
    modifies segs[link.srcId], segs[link.destId]
    ensures r.Pass? <==> segs[link.srcId].detection.id < 0 && segs[link.destId].detection.id < 0
    ensures segs[link.srcId].outgoingLinks ==
      if segs[link.srcId].detection.id < 0 then old(segs[link.srcId].outgoingLinks) + [link] else old(segs[link.srcId].outgoingLinks)
    ensures segs[link.destId].incomingLinks ==
      if r.Pass? then old(segs[link.destId].incomingLinks) + [link] else old(segs[link.destId].incomingLinks)
    ensures segs[link.srcId] != segs[link.destId] ==>
      segs[link.srcId].incomingLinks == old(segs[link.srcId].incomingLinks) &&
      segs[link.destId].outgoingLinks == old(segs[link.destId].outgoingLinks)
    ensures segs[link.srcId].id == old(segs[link.srcId].id) && segs[link.destId].id == old(segs[link.destId].id)
  {
    var source := segs[link.srcId];
    var target := segs[link.destId];
    r := source.AddOutgoingLink(link);
    if r.Fail? {
      return;
    }
    r := target.AddIncomingLink(link);
  }

  /** The incoming-division lists of all hypotheses, by key. */
  ghost function IncomingDivisions(segs: map<int, Segmentation.SegmentationHypothesis>): (r: map<int, seq<Divisions.DivisionHypothesis>>)
    reads segs.Values
    ensures r.Keys == segs.Keys
  {
    map key | key in segs :: segs[key].incomingDivisions
  }

  /** The outgoing-division lists of all hypotheses, by key. */
  ghost function OutgoingDivisions(segs: map<int, Segmentation.SegmentationHypothesis>): (r: map<int, seq<Divisions.DivisionHypothesis>>)
    reads segs.Values
    ensures r.Keys == segs.Keys
  {
    map key | key in segs :: segs[key].outgoingDivisions
  }

  /** Everything else registration may not touch: each hypothesis' id and link lists, by key. */
  ghost function LinkState(segs: map<int, Segmentation.SegmentationHypothesis>): (r: map<int, (int, seq<Links.LinkingHypothesis>, seq<Links.LinkingHypothesis>)>)
    reads segs.Values
    ensures r.Keys == segs.Keys
  {
    map key | key in segs :: (segs[key].id, segs[key].incomingLinks, segs[key].outgoingLinks)
  }

  /** The division lists after appending `d` at every key of `children`, in list order. */
  function AppendAt(lists: map<int, seq<Divisions.DivisionHypothesis>>, d: Divisions.DivisionHypothesis, children: seq<int>): (r: map<int, seq<Divisions.DivisionHypothesis>>)
    requires forall k :: 0 <= k < |children| ==> children[k] in lists
    ensures r.Keys == lists.Keys
  {
    if |children| == 0 then lists
    else
      var before := AppendAt(lists, d, children[..|children| - 1]);
      before[children[|children| - 1] := before[children[|children| - 1]] + [d]]
  }

  /** Each key receives one entry per occurrence among the children. */
  lemma {:induction false} AppendAtCount(lists: map<int, seq<Divisions.DivisionHypothesis>>, d: Divisions.DivisionHypothesis, children: seq<int>, key: int)
    requires forall k :: 0 <= k < |children| ==> children[k] in lists
    requires key in lists
    ensures AppendAt(lists, d, children)[key] == lists[key] + Repeat(d, multiset(children)[key])
  {
    if |children| > 0 {
      var init := children[..|children| - 1];
      assert children == init + [children[|children| - 1]];
      AppendAtCount(lists, d, init, key);
    }
  }

  /** One incoming-division entry at one key; every other hypothesis is untouched. */
  method AddIncomingAt(d: Divisions.DivisionHypothesis, key: int, segs: map<int, Segmentation.SegmentationHypothesis>)
    requires key in segs && Injective(segs)
    modifies segs[key]
    ensures IncomingDivisions(segs) == old(IncomingDivisions(segs))[key := old(IncomingDivisions(segs))[key] + [d]]
    ensures OutgoingDivisions(segs) == old(OutgoingDivisions(segs))
    ensures LinkState(segs) == old(LinkState(segs))
  {
    segs[key].AddIncomingDivision(d);
    forall k | k in segs && k != key
      ensures segs[k].incomingDivisions == old(segs[k].incomingDivisions)
      ensures segs[k].outgoingDivisions == old(segs[k].outgoingDivisions)
      ensures segs[k].id == old(segs[k].id)
      ensures segs[k].incomingLinks == old(segs[k].incomingLinks) && segs[k].outgoingLinks == old(segs[k].outgoingLinks)
    {
      assert segs[k] != segs[key];
    }
  }

  /** The outgoing-division entry at the parent; every other hypothesis is untouched. */
  method AddOutgoingAt(d: Divisions.DivisionHypothesis, key: int, segs: map<int, Segmentation.SegmentationHypothesis>)
    requires key in segs && Injective(segs)
    modifies segs[key]
    ensures OutgoingDivisions(segs) == old(OutgoingDivisions(segs))[key := old(OutgoingDivisions(segs))[key] + [d]]
    ensures IncomingDivisions(segs) == old(IncomingDivisions(segs))
    ensures LinkState(segs) == old(LinkState(segs))
  {
    segs[key].AddOutgoingDivision(d);
    forall k | k in segs && k != key
      ensures segs[k].incomingDivisions == old(segs[k].incomingDivisions)
      ensures segs[k].outgoingDivisions == old(segs[k].outgoingDivisions)
      ensures segs[k].id == old(segs[k].id)
      ensures segs[k].incomingLinks == old(segs[k].incomingLinks) && segs[k].outgoingLinks == old(segs[k].outgoingLinks)
    {
      assert segs[k] != segs[key];
    }
  }

  /**
   * Registers a division as outgoing at its parent and as incoming at each child,
   * in list order: every hypothesis receives one incoming entry per occurrence of
   * its key among the children and one outgoing entry if it is the parent.
   */
  method RegisterDivision(d: Divisions.DivisionHypothesis, segs: map<int, Segmentation.SegmentationHypothesis>)
    requires d.parentId in segs
    requires forall k :: 0 <= k < |d.childrenIds| ==> d.childrenIds[k] in segs
    requires Injective(segs)
    modifies segs.Values
    ensures forall key :: key in segs ==>
      segs[key].outgoingDivisions == old(segs[key].outgoingDivisions) + (if key == d.parentId then [d] else [])
    ensures forall key :: key in segs ==>
      segs[key].incomingDivisions == old(segs[key].incomingDivisions) + Repeat(d, multiset(d.childrenIds)[key])
    ensures forall key :: key in segs ==>
      segs[key].id == old(segs[key].id) &&
      segs[key].incomingLinks == old(segs[key].incomingLinks) && segs[key].outgoingLinks == old(segs[key].outgoingLinks)
  {
    var parent := d.parentId;
    var children := d.childrenIds;
    ghost var incoming := IncomingDivisions(segs);
    ghost var outgoing := OutgoingDivisions(segs);
    ghost var links := LinkState(segs);
    AddOutgoingAt(d, parent, segs);
    AddIncomingAll(d, children, segs);
    forall key | key in segs
      ensures segs[key].incomingDivisions == incoming[key] + Repeat(d, multiset(children)[key])
    {
      AppendAtCount(incoming, d, children, key);
      assert IncomingDivisions(segs)[key] == segs[key].incomingDivisions;
    }
    forall key | key in segs
      ensures segs[key].outgoingDivisions == outgoing[key] + (if key == parent then [d] else [])
      ensures (segs[key].id, segs[key].incomingLinks, segs[key].outgoingLinks) == links[key]
    {
      assert OutgoingDivisions(segs)[key] == segs[key].outgoingDivisions;
      assert LinkState(segs)[key] == (segs[key].id, segs[key].incomingLinks, segs[key].outgoingLinks);
    }
  }

  /** The incoming-division entries of a division, one per child in list order. */
  method AddIncomingAll(d: Divisions.DivisionHypothesis, children: seq<int>, segs: map<int, Segmentation.SegmentationHypothesis>)
    requires forall k :: 0 <= k < |children| ==> children[k] in segs
    requires Injective(segs)
    modifies segs.Values
    ensures IncomingDivisions(segs) == AppendAt(old(IncomingDivisions(segs)), d, children)
    ensures OutgoingDivisions(segs) == old(OutgoingDivisions(segs))
    ensures LinkState(segs) == old(LinkState(segs))
  {
    var i := 0;
    while i < |children|
      invariant 0 <= i <= |children|
      invariant IncomingDivisions(segs) == AppendAt(old(IncomingDivisions(segs)), d, children[..i])
      invariant OutgoingDivisions(segs) == old(OutgoingDivisions(segs))
      invariant LinkState(segs) == old(LinkState(segs))
    {
      assert children[..i + 1][..i] == children[..i];
      AddIncomingAt(d, children[i], segs);
      i := i + 1;
    }
    assert children[..i] == children;
  }
}
