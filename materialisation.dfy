/**
 * Materialising lists of link and division hypotheses in list order: the label
 * counts, the ids and the unaries the model gains, as functions of the variables'
 * features and the number of variables the model held before.
 */
module Materialisation {
  import opened Wrappers
  import opened GraphModel
  import opened Variables
  import Links
  import Divisions
  import Segmentation
  import ConservationVariables

  /** The features of the links' variables, in list order. */
  function LinkFeatures(links: seq<Links.LinkingHypothesis>): (r: seq<seq<seq<real>>>)
    ensures |r| == |links| && forall k :: 0 <= k < |links| ==> r[k] == links[k].variable.features
  {
    seq(|links|, k requires 0 <= k < |links| => links[k].variable.features)
  }

  /**
   * The features of the divisions' variables, in list order. It mirrors LinkFeatures:
   * link and division hypotheses are separate classes with no common supertype, so each
   * list type has its own accessor.
   */
  function DivisionFeatures(divisions: seq<Divisions.DivisionHypothesis>): (r: seq<seq<seq<real>>>)
    ensures |r| == |divisions| && forall k :: 0 <= k < |divisions| ==> r[k] == divisions[k].variable.features
  {
    seq(|divisions|, k requires 0 <= k < |divisions| => divisions[k].variable.features)
  }

  /** The label counts the first n variables of a list add to the model: one entry per variable with features. */
  function Labels(fs: seq<seq<seq<real>>>, n: nat): seq<nat>
    requires n <= |fs|
  {
    if n == 0 then [] else Labels(fs, n - 1) + LabelsOf(fs[n - 1])
  }

  /**
   * The ids the first n variables of a list hold after being materialised one by one,
   * when the model held `base` variables before: a variable with features takes the
   * next id, the others keep their old id.
   */
  function IdsAfter(fs: seq<seq<seq<real>>>, base: nat, oldIds: seq<int>, n: nat): (r: seq<int>)
    requires |oldIds| == |fs| && n <= |fs|
    ensures |r| == n
  {
    if n == 0 then [] else IdsAfter(fs, base, oldIds, n - 1) + [IdAfter(fs[n - 1], base + |Labels(fs, n - 1)|, oldIds[n - 1])]
  }

  /** The unaries the first n links with features add, when the model held `base` variables before them. */
  function LinkUnaries(fs: seq<seq<seq<real>>>, base: nat, shared: bool, weightIds: seq<nat>, n: nat): seq<Factor>
    requires n <= |fs|
    requires forall k :: 0 <= k < |fs| && HasFeatures(fs[k]) ==> NumWeights(fs[k], shared) == Ok(|weightIds|)
  {
    if n == 0 then []
    else LinkUnaries(fs, base, shared, weightIds, n - 1) + ConservationVariables.UnariesOf(fs[n - 1], base + |Labels(fs, n - 1)|, shared, weightIds)
  }

  /** The unaries the first n divisions with features add, when the model held `base` variables before them. */
  function DivisionUnaries(fs: seq<seq<seq<real>>>, base: nat, shared: bool, weightIds: seq<nat>, n: nat): seq<Factor>
    requires n <= |fs|
    requires forall k :: 0 <= k < |fs| && HasFeatures(fs[k]) ==> NumWeights(fs[k], shared) == Ok(|weightIds|)
  {
    if n == 0 then []
    else DivisionUnaries(fs, base, shared, weightIds, n - 1) + UnariesOf(fs[n - 1], base + |Labels(fs, n - 1)|, shared, weightIds)
  }

  /**
   * The model ids of the divisions' variables, in list order. It mirrors Segmentation.LinkIds
   * for the division class, which shares no supertype with the link class.
   */
  function DivisionIds(divisions: seq<Divisions.DivisionHypothesis>): (r: seq<int>)
    reads set d | d in divisions :: d.variable
    ensures |r| == |divisions|
    ensures forall k :: 0 <= k < |divisions| ==> r[k] == divisions[k].variable.id
  {
    if |divisions| == 0 then [] else DivisionIds(divisions[..|divisions| - 1]) + [divisions[|divisions| - 1].variable.id]
  }

  /** A variable with features gets an id in the range the list's labels occupy. */
  lemma {:induction false} IdsAfterInRange(fs: seq<seq<seq<real>>>, base: nat, oldIds: seq<int>, n: nat, k: nat)
    requires |oldIds| == |fs| && k < n <= |fs| && HasFeatures(fs[k])
    ensures base <= IdsAfter(fs, base, oldIds, n)[k] < base + |Labels(fs, n)|
  {
    if k < n - 1 {
      IdsAfterInRange(fs, base, oldIds, n - 1, k);
    }
  }

  /** One more variable of a list: how the label counts, the ids and both kinds of unaries grow. */
  lemma ListStep(fs: seq<seq<seq<real>>>, base: nat, shared: bool, weightIds: seq<nat>, i: nat, oldIds: seq<int>)
    requires i < |fs| == |oldIds|
    requires forall k :: 0 <= k < |fs| && HasFeatures(fs[k]) ==> NumWeights(fs[k], shared) == Ok(|weightIds|)
    ensures Labels(fs, i + 1) == Labels(fs, i) + LabelsOf(fs[i])
    ensures IdsAfter(fs, base, oldIds, i + 1) == IdsAfter(fs, base, oldIds, i) + [IdAfter(fs[i], base + |Labels(fs, i)|, oldIds[i])]
    ensures LinkUnaries(fs, base, shared, weightIds, i + 1) == LinkUnaries(fs, base, shared, weightIds, i) +
      ConservationVariables.UnariesOf(fs[i], base + |Labels(fs, i)|, shared, weightIds)
    ensures DivisionUnaries(fs, base, shared, weightIds, i + 1) == DivisionUnaries(fs, base, shared, weightIds, i) +
      UnariesOf(fs[i], base + |Labels(fs, i)|, shared, weightIds)
  {
  }

  lemma Concat<T>(a: seq<T>, b: seq<T>, c: seq<T>)
    ensures (a + b) + c == a + (b + c)
  {
  }

  /** The links from lo up to hi hold the given ids. */
  ghost predicate LinkIdsAre(links: seq<Links.LinkingHypothesis>, ids: seq<int>, lo: nat, hi: nat)
    requires lo <= hi <= |links| && hi <= |ids|
    reads set k | 0 <= k < |links| :: links[k].variable
  {
    forall k :: lo <= k < hi ==> links[k].variable.id == ids[k]
  }

  /** The label counts and factors of the model once the first i variables of a list have been materialised. */
  function LinkTarget(fs: seq<seq<seq<real>>>, labels0: seq<nat>, factors0: seq<Factor>,
                      shared: bool, weightIds: seq<nat>, i: nat): (seq<nat>, seq<Factor>)
    requires i <= |fs|
    requires forall k :: 0 <= k < |fs| && HasFeatures(fs[k]) ==> NumWeights(fs[k], shared) == Ok(|weightIds|)
  {
    (labels0 + Labels(fs, i), factors0 + LinkUnaries(fs, |labels0|, shared, weightIds, i))
  }

  lemma LinksAddedEnd(links: seq<Links.LinkingHypothesis>, ids: seq<int>)
    requires |ids| == |links| && LinkIdsAre(links, ids, 0, |links|)
    ensures Segmentation.LinkIds(links) == ids
  {
  }

  /** Materialises the i-th link; no other link changes. */
  method AddLinkAt(links: seq<Links.LinkingHypothesis>, model: Model, shared: bool, weightIds: seq<nat>, i: nat,
                   ghost fs: seq<seq<seq<real>>>, ghost labels0: seq<nat>, ghost factors0: seq<Factor>, ghost oldIds: seq<int>)
    requires i < |links| == |oldIds| && fs == LinkFeatures(links)
    requires forall k :: 0 <= k < |fs| && HasFeatures(fs[k]) ==> NumWeights(fs[k], shared) == Ok(|weightIds|)
    requires forall i, j :: 0 <= i < j < |links| ==> links[i].variable != links[j].variable
    requires (model.numLabels, model.factors) == LinkTarget(fs, labels0, factors0, shared, weightIds, i)
    requires LinkIdsAre(links, IdsAfter(fs, |labels0|, oldIds, i), 0, i) && LinkIdsAre(links, oldIds, i, |links|)
    modifies model, links[i].variable
    ensures (model.numLabels, model.factors) == LinkTarget(fs, labels0, factors0, shared, weightIds, i + 1)
    ensures LinkIdsAre(links, IdsAfter(fs, |labels0|, oldIds, i + 1), 0, i + 1) && LinkIdsAre(links, oldIds, i + 1, |links|)
  {
    LinkTargetStep(fs, labels0, factors0, shared, weightIds, i, oldIds);
    links[i].AddToModel(model, shared, weightIds);
  }

  /** One more link in the target: its label count and its unary (at the next id) are appended. */
  lemma LinkTargetStep(fs: seq<seq<seq<real>>>, labels0: seq<nat>, factors0: seq<Factor>,
                       shared: bool, weightIds: seq<nat>, i: nat, oldIds: seq<int>)
    requires i < |fs| == |oldIds|
    requires forall k :: 0 <= k < |fs| && HasFeatures(fs[k]) ==> NumWeights(fs[k], shared) == Ok(|weightIds|)
    ensures LinkTarget(fs, labels0, factors0, shared, weightIds, i + 1).0 ==
      LinkTarget(fs, labels0, factors0, shared, weightIds, i).0 + LabelsOf(fs[i])
    ensures LinkTarget(fs, labels0, factors0, shared, weightIds, i + 1).1 ==
      LinkTarget(fs, labels0, factors0, shared, weightIds, i).1 +
      ConservationVariables.UnariesOf(fs[i], |LinkTarget(fs, labels0, factors0, shared, weightIds, i).0|, shared, weightIds)
    ensures IdsAfter(fs, |labels0|, oldIds, i + 1) == IdsAfter(fs, |labels0|, oldIds, i) +
      [IdAfter(fs[i], |LinkTarget(fs, labels0, factors0, shared, weightIds, i).0|, oldIds[i])]
  {
    ghost var base := |labels0|;
    ListStep(fs, base, shared, weightIds, i, oldIds);
    Concat(labels0, Labels(fs, i), LabelsOf(fs[i]));
    Concat(factors0, LinkUnaries(fs, base, shared, weightIds, i),
      ConservationVariables.UnariesOf(fs[i], base + |Labels(fs, i)|, shared, weightIds));
  }

  /** The divisions from lo up to hi hold the given ids. */
  ghost predicate DivisionIdsAre(divisions: seq<Divisions.DivisionHypothesis>, ids: seq<int>, lo: nat, hi: nat)
    requires lo <= hi <= |divisions| && hi <= |ids|
    reads set k | 0 <= k < |divisions| :: divisions[k].variable
  {
    forall k :: lo <= k < hi ==> divisions[k].variable.id == ids[k]
  }

  /** The label counts and factors of the model once the first i divisions of a list have been materialised. */
  function DivisionTarget(fs: seq<seq<seq<real>>>, labels0: seq<nat>, factors0: seq<Factor>,
                          shared: bool, weightIds: seq<nat>, i: nat): (seq<nat>, seq<Factor>)
    requires i <= |fs|
    requires forall k :: 0 <= k < |fs| && HasFeatures(fs[k]) ==> NumWeights(fs[k], shared) == Ok(|weightIds|)
  {
    (labels0 + Labels(fs, i), factors0 + DivisionUnaries(fs, |labels0|, shared, weightIds, i))
  }

  lemma DivisionsAddedEnd(divisions: seq<Divisions.DivisionHypothesis>, ids: seq<int>)
    requires |ids| == |divisions| && DivisionIdsAre(divisions, ids, 0, |divisions|)
    ensures DivisionIds(divisions) == ids
  {
  }

  /** Materialises the i-th division; no other division changes. */
  method AddDivisionAt(divisions: seq<Divisions.DivisionHypothesis>, model: Model, shared: bool, weightIds: seq<nat>, i: nat,
                       ghost fs: seq<seq<seq<real>>>, ghost labels0: seq<nat>, ghost factors0: seq<Factor>, ghost oldIds: seq<int>)
    requires i < |divisions| == |oldIds| && fs == DivisionFeatures(divisions)
    requires forall k :: 0 <= k < |fs| && HasFeatures(fs[k]) ==> NumWeights(fs[k], shared) == Ok(|weightIds|)
    requires forall i, j :: 0 <= i < j < |divisions| ==> divisions[i].variable != divisions[j].variable
    requires (model.numLabels, model.factors) == DivisionTarget(fs, labels0, factors0, shared, weightIds, i)
    requires DivisionIdsAre(divisions, IdsAfter(fs, |labels0|, oldIds, i), 0, i) && DivisionIdsAre(divisions, oldIds, i, |divisions|)
    modifies model, divisions[i].variable
    ensures (model.numLabels, model.factors) == DivisionTarget(fs, labels0, factors0, shared, weightIds, i + 1)
    ensures DivisionIdsAre(divisions, IdsAfter(fs, |labels0|, oldIds, i + 1), 0, i + 1) && DivisionIdsAre(divisions, oldIds, i + 1, |divisions|)
  {
    DivisionTargetStep(fs, labels0, factors0, shared, weightIds, i, oldIds);
    divisions[i].AddToModel(model, shared, weightIds);
  }

  /** One more division in the target: its label count and its unary (at the next id) are appended. */
  lemma DivisionTargetStep(fs: seq<seq<seq<real>>>, labels0: seq<nat>, factors0: seq<Factor>,
                           shared: bool, weightIds: seq<nat>, i: nat, oldIds: seq<int>)
    requires i < |fs| == |oldIds|
    requires forall k :: 0 <= k < |fs| && HasFeatures(fs[k]) ==> NumWeights(fs[k], shared) == Ok(|weightIds|)
    ensures DivisionTarget(fs, labels0, factors0, shared, weightIds, i + 1).0 ==
      DivisionTarget(fs, labels0, factors0, shared, weightIds, i).0 + LabelsOf(fs[i])
    ensures DivisionTarget(fs, labels0, factors0, shared, weightIds, i + 1).1 ==
      DivisionTarget(fs, labels0, factors0, shared, weightIds, i).1 +
      UnariesOf(fs[i], |DivisionTarget(fs, labels0, factors0, shared, weightIds, i).0|, shared, weightIds)
    ensures IdsAfter(fs, |labels0|, oldIds, i + 1) == IdsAfter(fs, |labels0|, oldIds, i) +
      [IdAfter(fs[i], |DivisionTarget(fs, labels0, factors0, shared, weightIds, i).0|, oldIds[i])]
  {
    ghost var base := |labels0|;
    ListStep(fs, base, shared, weightIds, i, oldIds);
    Concat(labels0, Labels(fs, i), LabelsOf(fs[i]));
    Concat(factors0, DivisionUnaries(fs, base, shared, weightIds, i),
      UnariesOf(fs[i], base + |Labels(fs, i)|, shared, weightIds));
  }

  /** Materialises the links in list order, each taking the given weight ids. */
  method AddLinkList(links: seq<Links.LinkingHypothesis>, model: Model, shared: bool, weightIds: seq<nat>)
    requires forall k :: 0 <= k < |links| && HasFeatures(links[k].variable.features) ==>
      NumWeights(links[k].variable.features, shared) == Ok(|weightIds|)
    requires forall i, j :: 0 <= i < j < |links| ==> links[i].variable != links[j].variable
    modifies model, set k | 0 <= k < |links| :: links[k].variable
    ensures model.numLabels == old(model.numLabels) + Labels(LinkFeatures(links), |links|)
    ensures model.factors == old(model.factors) + LinkUnaries(LinkFeatures(links), |old(model.numLabels)|, shared, weightIds, |links|)
    ensures Segmentation.LinkIds(links) == IdsAfter(LinkFeatures(links), |old(model.numLabels)|, old(Segmentation.LinkIds(links)), |links|)
  {
    ghost var fs := LinkFeatures(links);
    ghost var oldIds := Segmentation.LinkIds(links);
    ghost var labels0 := model.numLabels;
    ghost var factors0 := model.factors;
    assert LinkIdsAre(links, oldIds, 0, |links|);
    assert labels0 + Labels(fs, 0) == labels0 && factors0 + LinkUnaries(fs, |labels0|, shared, weightIds, 0) == factors0;
    var i := 0;
    while i < |links|
      invariant i <= |links|
      invariant (model.numLabels, model.factors) == LinkTarget(fs, labels0, factors0, shared, weightIds, i)
      invariant LinkIdsAre(links, IdsAfter(fs, |labels0|, oldIds, i), 0, i) && LinkIdsAre(links, oldIds, i, |links|)
    {
      AddLinkAt(links, model, shared, weightIds, i, fs, labels0, factors0, oldIds);
      i := i + 1;
    }
    LinksAddedEnd(links, IdsAfter(fs, |labels0|, oldIds, i));
  }

  /** Materialises the divisions in list order, each taking the given weight ids. */
  method AddDivisionList(divisions: seq<Divisions.DivisionHypothesis>, model: Model, shared: bool, weightIds: seq<nat>)
    requires forall k :: 0 <= k < |divisions| && HasFeatures(divisions[k].variable.features) ==>
      NumWeights(divisions[k].variable.features, shared) == Ok(|weightIds|)
    requires forall i, j :: 0 <= i < j < |divisions| ==> divisions[i].variable != divisions[j].variable
    modifies model, set k | 0 <= k < |divisions| :: divisions[k].variable
    ensures model.numLabels == old(model.numLabels) + Labels(DivisionFeatures(divisions), |divisions|)
    ensures model.factors == old(model.factors) + DivisionUnaries(DivisionFeatures(divisions), |old(model.numLabels)|, shared, weightIds, |divisions|)
    ensures DivisionIds(divisions) == IdsAfter(DivisionFeatures(divisions), |old(model.numLabels)|, old(DivisionIds(divisions)), |divisions|)
  {
    ghost var fs := DivisionFeatures(divisions);
    ghost var oldIds := DivisionIds(divisions);
    ghost var labels0 := model.numLabels;
    ghost var factors0 := model.factors;
    assert DivisionIdsAre(divisions, oldIds, 0, |divisions|);
    assert labels0 + Labels(fs, 0) == labels0 && factors0 + DivisionUnaries(fs, |labels0|, shared, weightIds, 0) == factors0;
    var i := 0;
    while i < |divisions|
      invariant i <= |divisions|
      invariant (model.numLabels, model.factors) == DivisionTarget(fs, labels0, factors0, shared, weightIds, i)
      invariant DivisionIdsAre(divisions, IdsAfter(fs, |labels0|, oldIds, i), 0, i) && DivisionIdsAre(divisions, oldIds, i, |divisions|)
    {
      AddDivisionAt(divisions, model, shared, weightIds, i, fs, labels0, factors0, oldIds);
      i := i + 1;
    }
    DivisionsAddedEnd(divisions, IdsAfter(fs, |labels0|, oldIds, i));
  }
}
