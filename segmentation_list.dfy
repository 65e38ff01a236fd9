/**
 * Materialising the segmentation hypotheses one after the other: the label counts,
 * ids and factors the model gains, as functions of what the hypotheses held before
 * (the features and ids of their four variables and the ids of their links).
 */
module SegmentationList {
  import opened Wrappers
  import opened GraphModel
  import opened Variables
  import opened FlowConstraints
  import Segmentation

  type Hypothesis = Segmentation.SegmentationHypothesis

  /** The features of the detection, division, appearance and disappearance variables. */
  datatype Features = Features(detection: seq<seq<real>>, division: seq<seq<real>>,
                               appearance: seq<seq<real>>, disappearance: seq<seq<real>>)

  /** The model ids of the four variables. */
  datatype Ids = Ids(detection: int, division: int, appearance: int, disappearance: int)

  /** The weight ids handed to each of the four kinds of variable. */
  datatype WeightIds = WeightIds(detection: seq<nat>, division: seq<nat>, appearance: seq<nat>, disappearance: seq<nat>)

  /** What materialising a hypothesis depends on. */
  datatype View = View(features: Features, ids: Ids, inIds: seq<int>, outIds: seq<int>)

  function FeaturesOf(h: Hypothesis): Features
  {
    Features(h.detection.features, h.division.features, h.appearance.features, h.disappearance.features)
  }

  /** The four variables of a hypothesis. */
  function Own(h: Hypothesis): set<Variable>
  {
    {h.detection, h.division, h.appearance, h.disappearance}
  }

  function IdsOf(h: Hypothesis): Ids
    reads Own(h)
  {
    Ids(h.detection.id, h.division.id, h.appearance.id, h.disappearance.id)
  }

  /** The ids of the incoming and of the outgoing links. */
  function LinkIdsOf(h: Hypothesis): (seq<int>, seq<int>)
    reads h, h.LinkVariables()
  {
    (Segmentation.LinkIds(h.incomingLinks), Segmentation.LinkIds(h.outgoingLinks))
  }

  function ViewOf(h: Hypothesis): View
    reads h, h.LinkVariables(), Own(h)
  {
    View(FeaturesOf(h), IdsOf(h), LinkIdsOf(h).0, LinkIdsOf(h).1)
  }

  /** The variables of all hypotheses. */
  function AllOwn(hyps: seq<Hypothesis>): (r: set<Variable>)
    ensures forall k :: 0 <= k < |hyps| ==> Own(hyps[k]) <= r
  {
    if |hyps| == 0 then {} else AllOwn(hyps[..|hyps| - 1]) + Own(hyps[|hyps| - 1])
  }

  /** The variables of the links of all hypotheses. */
  function AllLinkVariables(hyps: seq<Hypothesis>): (r: set<Variable>)
    reads set h | h in hyps
    ensures forall k :: 0 <= k < |hyps| ==> hyps[k].LinkVariables() <= r
  {
    if |hyps| == 0 then {} else AllLinkVariables(hyps[..|hyps| - 1]) + hyps[|hyps| - 1].LinkVariables()
  }

  function Views(hyps: seq<Hypothesis>): (r: seq<View>)
    reads (set h | h in hyps), AllOwn(hyps), AllLinkVariables(hyps)
    ensures |r| == |hyps|
    ensures forall k :: 0 <= k < |hyps| ==> r[k] == ViewOf(hyps[k])
  {
    if |hyps| == 0 then [] else Views(hyps[..|hyps| - 1]) + [ViewOf(hyps[|hyps| - 1])]
  }

  /** The ids the hypotheses' variables hold, in list order. */
  function CurrentIds(hyps: seq<Hypothesis>): (r: seq<Ids>)
    reads AllOwn(hyps)
    ensures |r| == |hyps|
    ensures forall k :: 0 <= k < |hyps| ==> r[k] == IdsOf(hyps[k])
  {
    if |hyps| == 0 then [] else CurrentIds(hyps[..|hyps| - 1]) + [IdsOf(hyps[|hyps| - 1])]
  }

  /**
   * Every hypothesis is valid, no two hypotheses share a variable, and the links'
   * variables, all among linkVars, are none of the hypotheses' own.
   */
  ghost predicate Owned(hyps: seq<Hypothesis>, linkVars: set<Variable>)
    reads set h | h in hyps
  {
    (forall k :: 0 <= k < |hyps| ==> hyps[k].Valid() && hyps[k].LinkVariables() <= linkVars && Own(hyps[k]) !! linkVars) &&
    (forall i, j :: 0 <= i < j < |hyps| ==> Own(hyps[i]) !! Own(hyps[j]))
  }

  /** The weights each variable with features needs match the ids handed to its kind. */
  predicate WeightsFit(f: Features, shared: bool, w: WeightIds)
  {
    (HasFeatures(f.detection) ==> NumWeights(f.detection, shared) == Ok(|w.detection|)) &&
    (HasFeatures(f.division) ==> NumWeights(f.division, shared) == Ok(|w.division|)) &&
    (HasFeatures(f.appearance) ==> NumWeights(f.appearance, shared) == Ok(|w.appearance|)) &&
    (HasFeatures(f.disappearance) ==> NumWeights(f.disappearance, shared) == Ok(|w.disappearance|))
  }

  /** In a model with n variables: the links are materialised and no own id lies beyond the model. */
  predicate Fits(v: View, n: nat)
  {
    AllIn(v.inIds, n) && AllIn(v.outIds, n) &&
    AbsentOrIn(v.ids.detection, n) && AbsentOrIn(v.ids.division, n) &&
    AbsentOrIn(v.ids.appearance, n) && AbsentOrIn(v.ids.disappearance, n)
  }

  predicate AllFit(vs: seq<View>, n: nat, shared: bool, w: WeightIds)
  {
    forall k :: 0 <= k < |vs| ==> WeightsFit(vs[k].features, shared, w) && Fits(vs[k], n)
  }

  /** The detection ends up with an id: it has features or was materialised before. */
  predicate Succeeds(v: View)
  {
    HasFeatures(v.features.detection) || v.ids.detection >= 0
  }

  /** The first n hypotheses succeed. */
  predicate SucceedUpTo(vs: seq<View>, n: nat)
    requires n <= |vs|
  {
    forall k :: 0 <= k < n ==> Succeeds(vs[k])
  }

  /** The first hypothesis from i on that fails, or |vs| when none does. */
  function FirstFailureFrom(vs: seq<View>, i: nat): (j: nat)
    requires i <= |vs| && SucceedUpTo(vs, i)
    ensures i <= j <= |vs| && SucceedUpTo(vs, j)
    ensures j < |vs| ==> !Succeeds(vs[j])
    decreases |vs| - i
  {
    if i == |vs| || !Succeeds(vs[i]) then i else FirstFailureFrom(vs, i + 1)
  }

  /** The index of the first hypothesis that fails, or |vs| when every one succeeds. */
  function FirstFailure(vs: seq<View>): (j: nat)
    ensures j <= |vs| && SucceedUpTo(vs, j)
    ensures j < |vs| ==> !Succeeds(vs[j])
    ensures SucceedUpTo(vs, |vs|) <==> j == |vs|
  {
    FirstFailureFrom(vs, 0)
  }

  /** A hypothesis that fails after only successes is the first failure. */
  lemma {:induction false} FirstFailureAt(vs: seq<View>, k: nat, i: nat)
    requires k <= i < |vs| && SucceedUpTo(vs, i) && !Succeeds(vs[i])
    ensures FirstFailureFrom(vs, k) == i
    decreases i - k
  {
    if k < i {
      FirstFailureAt(vs, k + 1, i);
    }
  }

  lemma FitsGrow(v: View, n: nat, m: nat)
    requires Fits(v, n) && n <= m
    ensures Fits(v, m)
  {
  }

  /** The label counts one hypothesis adds: detection, division, appearance, disappearance. */
  function HypothesisLabels(f: Features): seq<nat>
  {
    LabelsOf(f.detection) + LabelsOf(f.division) + LabelsOf(f.appearance) + LabelsOf(f.disappearance)
  }

  /** The ids the four variables hold once the hypothesis is added to a model of `base` variables. */
  function IdsAfter(f: Features, base: nat, prior: Ids): Ids
  {
    Ids(IdAfter(f.detection, base, prior.detection),
        IdAfter(f.division, base + |LabelsOf(f.detection)|, prior.division),
        IdAfter(f.appearance, base + |LabelsOf(f.detection)| + |LabelsOf(f.division)|, prior.appearance),
        IdAfter(f.disappearance, base + |LabelsOf(f.detection)| + |LabelsOf(f.division)| + |LabelsOf(f.appearance)|, prior.disappearance))
  }

  /** The unaries of the variables with features, then the hypothesis' constraints, over the grown model. */
  function HypothesisFactors(v: View, labels: seq<nat>, shared: bool, w: WeightIds): seq<Factor>
    requires WeightsFit(v.features, shared, w) && Fits(v, |labels|) && Succeeds(v)
  {
    var ids := IdsAfter(v.features, |labels|, v.ids);
    UnariesOf(v.features.detection, ids.detection, shared, w.detection) +
    UnariesOf(v.features.division, ids.division, shared, w.division) +
    UnariesOf(v.features.appearance, ids.appearance, shared, w.appearance) +
    UnariesOf(v.features.disappearance, ids.disappearance, shared, w.disappearance) +
    HypothesisConstraints(labels + HypothesisLabels(v.features), v.inIds, v.outIds,
                          ids.detection, ids.division, ids.appearance, ids.disappearance)
  }

  /** The label counts the first n hypotheses add. */
  function Labels(vs: seq<View>, n: nat): seq<nat>
    requires n <= |vs|
    decreases n, 2
  {
    if n == 0 then [] else LabelsThrough(vs, n)
  }

  /** The label counts through the n-th hypothesis. */
  function LabelsThrough(vs: seq<View>, n: nat): seq<nat>
    requires 0 < n <= |vs|
    decreases n, 1
  {
    LabelsBefore(vs, n)
  }

  /** The label counts of the hypotheses before the n-th, then its own. */
  function LabelsBefore(vs: seq<View>, n: nat): seq<nat>
    requires 0 < n <= |vs|
    decreases n, 0
  {
    Labels(vs, n - 1) + HypothesisLabels(vs[n - 1].features)
  }

  /** The ids of the first n hypotheses once they are materialised in list order after `base` variables. */
  function IdsAfterAll(vs: seq<View>, base: nat, n: nat): (r: seq<Ids>)
    requires n <= |vs|
    ensures |r| == n
    decreases n, 2
  {
    if n == 0 then [] else IdsThrough(vs, base, n)
  }

  /** The ids through the n-th hypothesis. */
  function IdsThrough(vs: seq<View>, base: nat, n: nat): (r: seq<Ids>)
    requires 0 < n <= |vs|
    ensures |r| == n
    decreases n, 1
  {
    IdsBefore(vs, base, n)
  }

  /** The ids of the hypotheses before the n-th, then its own after the labels before it. */
  function IdsBefore(vs: seq<View>, base: nat, n: nat): (r: seq<Ids>)
    requires 0 < n <= |vs|
    ensures |r| == n
    decreases n, 0
  {
    IdsAfterAll(vs, base, n - 1) + [IdsAfter(vs[n - 1].features, base + |Labels(vs, n - 1)|, vs[n - 1].ids)]
  }

  /** The factors the first n hypotheses add to a model whose label counts were labels0. */
  function Factors(vs: seq<View>, labels0: seq<nat>, shared: bool, w: WeightIds, n: nat): seq<Factor>
    requires n <= |vs| && AllFit(vs, |labels0|, shared, w)
    requires SucceedUpTo(vs, n)
    decreases n, 1
  {
    if n == 0 then [] else FactorsThrough(vs, labels0, shared, w, n)
  }

  /** The factors through the n-th hypothesis: those before it, then its own over the labels before it. */
  function FactorsThrough(vs: seq<View>, labels0: seq<nat>, shared: bool, w: WeightIds, n: nat): seq<Factor>
    requires 0 < n <= |vs| && AllFit(vs, |labels0|, shared, w)
    requires SucceedUpTo(vs, n)
    decreases n, 0
  {
    FitsGrow(vs[n - 1], |labels0|, |labels0 + Labels(vs, n - 1)|);
    Factors(vs, labels0, shared, w, n - 1) + HypothesisFactors(vs[n - 1], labels0 + Labels(vs, n - 1), shared, w)
  }

  /** The label counts and factors of the model once the first i hypotheses are materialised. */
  function Target(vs: seq<View>, labels0: seq<nat>, factors0: seq<Factor>, shared: bool, w: WeightIds, i: nat): (seq<nat>, seq<Factor>)
    requires i <= |vs| && AllFit(vs, |labels0|, shared, w)
    requires SucceedUpTo(vs, i)
  {
    (labels0 + Labels(vs, i), factors0 + Factors(vs, labels0, shared, w, i))
  }

  /** The hypotheses from lo up to hi hold the given ids. */
  ghost predicate IdsAre(hyps: seq<Hypothesis>, ids: seq<Ids>, lo: nat, hi: nat)
    requires lo <= hi <= |hyps| && hi <= |ids|
    reads AllOwn(hyps)
  {
    forall k :: lo <= k < hi ==> IdsOf(hyps[k]) == ids[k]
  }

  /** The hypotheses from lo on are as their views say. */
  ghost predicate ViewsFrom(hyps: seq<Hypothesis>, vs: seq<View>, lo: nat)
    requires lo <= |hyps| == |vs|
    reads (set h | h in hyps), AllOwn(hyps), AllLinkVariables(hyps)
  {
    forall k :: lo <= k < |hyps| ==> ViewOf(hyps[k]) == vs[k]
  }

  lemma Append4<T>(s: seq<T>, a: seq<T>, b: seq<T>, c: seq<T>, d: seq<T>)
    ensures s + a + b + c + d == s + (a + b + c + d)
  {
  }

  lemma Append5<T>(s: seq<T>, a: seq<T>, b: seq<T>, c: seq<T>, d: seq<T>, e: seq<T>)
    ensures s + a + b + c + d + e == s + (a + b + c + d + e)
  {
  }

  lemma Append2<T>(s: seq<T>, a: seq<T>, b: seq<T>)
    ensures s + a + b == s + (a + b)
  {
  }

  /** One more hypothesis: its label counts are appended. */
  lemma LabelsStep(vs: seq<View>, labels0: seq<nat>, i: nat)
    requires i < |vs|
    ensures labels0 + Labels(vs, i + 1) == labels0 + Labels(vs, i) + HypothesisLabels(vs[i].features)
  {
    assert Labels(vs, i + 1) == LabelsBefore(vs, i + 1);
    Append2(labels0, Labels(vs, i), HypothesisLabels(vs[i].features));
  }

  /** One more hypothesis: its unaries and constraints are appended, over the labels of the hypotheses before it. */
  lemma FactorsStep(vs: seq<View>, labels0: seq<nat>, factors0: seq<Factor>, shared: bool, w: WeightIds, i: nat)
    requires i < |vs| && AllFit(vs, |labels0|, shared, w)
    requires SucceedUpTo(vs, i + 1)
    ensures Fits(vs[i], |labels0 + Labels(vs, i)|)
    ensures factors0 + Factors(vs, labels0, shared, w, i + 1) ==
      factors0 + Factors(vs, labels0, shared, w, i) + HypothesisFactors(vs[i], labels0 + Labels(vs, i), shared, w)
  {
    FitsGrow(vs[i], |labels0|, |labels0 + Labels(vs, i)|);
    Append2(factors0, Factors(vs, labels0, shared, w, i), HypothesisFactors(vs[i], labels0 + Labels(vs, i), shared, w));
  }

  /** The ids a successful materialisation leaves, written one by one, are the ones the view predicts. */
  lemma IdsAdded(v: View, labels: seq<nat>, ids: Ids)
    requires ids.detection == IdAfter(v.features.detection, |labels|, v.ids.detection)
    requires ids.division == IdAfter(v.features.division, |labels + LabelsOf(v.features.detection)|, v.ids.division)
    requires ids.appearance == IdAfter(v.features.appearance,
      |labels + LabelsOf(v.features.detection) + LabelsOf(v.features.division)|, v.ids.appearance)
    requires ids.disappearance == IdAfter(v.features.disappearance,
      |labels + LabelsOf(v.features.detection) + LabelsOf(v.features.division) + LabelsOf(v.features.appearance)|, v.ids.disappearance)
    ensures ids == IdsAfter(v.features, |labels|, v.ids)
  {
  }

  /** The model a successful materialisation leaves, written piece by piece, is the one the view predicts. */
  lemma HypothesisAdded(v: View, labels: seq<nat>, factors: seq<Factor>, labels': seq<nat>, factors': seq<Factor>,
                        ids: Ids, shared: bool, w: WeightIds)
    requires WeightsFit(v.features, shared, w) && Fits(v, |labels|) && Succeeds(v)
    requires ids == IdsAfter(v.features, |labels|, v.ids)
    requires labels' == labels + LabelsOf(v.features.detection) + LabelsOf(v.features.division) +
                        LabelsOf(v.features.appearance) + LabelsOf(v.features.disappearance)
    requires factors' == factors +
      UnariesOf(v.features.detection, ids.detection, shared, w.detection) +
      UnariesOf(v.features.division, ids.division, shared, w.division) +
      UnariesOf(v.features.appearance, ids.appearance, shared, w.appearance) +
      UnariesOf(v.features.disappearance, ids.disappearance, shared, w.disappearance) +
      HypothesisConstraints(labels', v.inIds, v.outIds, ids.detection, ids.division, ids.appearance, ids.disappearance)
    ensures labels' == labels + HypothesisLabels(v.features)
    ensures factors' == factors + HypothesisFactors(v, labels, shared, w)
  {
    var f := v.features;
    Append4(labels, LabelsOf(f.detection), LabelsOf(f.division), LabelsOf(f.appearance), LabelsOf(f.disappearance));
    var u1 := UnariesOf(f.detection, ids.detection, shared, w.detection);
    var u2 := UnariesOf(f.division, ids.division, shared, w.division);
    var u3 := UnariesOf(f.appearance, ids.appearance, shared, w.appearance);
    var u4 := UnariesOf(f.disappearance, ids.disappearance, shared, w.disappearance);
    var hc := HypothesisConstraints(labels', v.inIds, v.outIds, ids.detection, ids.division, ids.appearance, ids.disappearance);
    assert HypothesisFactors(v, labels, shared, w) == u1 + u2 + u3 + u4 + hc;
    Append5(factors, u1, u2, u3, u4, hc);
  }

  /** Materialises one hypothesis: what it adds is what its view says. */
  method AddHypothesis(h: Hypothesis, model: Model, shared: bool, w: WeightIds, ghost v: View) returns (r: Outcome)
    requires h.Valid() && v == ViewOf(h)
    requires WeightsFit(v.features, shared, w) && Fits(v, |model.numLabels|)
    modifies model, Own(h)
    ensures r.Fail? <==> !Succeeds(v)
    ensures r.Fail? ==> model.numLabels == old(model.numLabels) && model.factors == old(model.factors)
    ensures r.Pass? ==> Succeeds(v) && model.numLabels == old(model.numLabels) + HypothesisLabels(v.features)
    ensures r.Pass? ==> model.factors == old(model.factors) + HypothesisFactors(v, old(model.numLabels), shared, w)
    ensures r.Pass? ==> IdsOf(h) == IdsAfter(v.features, |old(model.numLabels)|, v.ids)
  {
    ghost var labels := model.numLabels;
    ghost var factors := model.factors;
    r := h.AddToModel(model, shared, w.detection, w.division, w.appearance, w.disappearance);
    if r.Pass? {
      IdsAdded(v, labels, IdsOf(h));
      HypothesisAdded(v, labels, factors, model.numLabels, model.factors, IdsOf(h), shared, w);
    }
  }

  /** Below the last of the first n hypotheses, their ids are those of the first n - 1. */
  lemma IdsAfterAllPrefix(vs: seq<View>, base: nat, n: nat, k: nat)
    requires k + 1 < n <= |vs|
    ensures IdsAfterAll(vs, base, n)[k] == IdsAfterAll(vs, base, n - 1)[k]
  {
    assert IdsAfterAll(vs, base, n) == IdsBefore(vs, base, n);
  }

  /** The last of the first n hypotheses takes its ids after the labels of those before it. */
  lemma IdsAfterAllLast(vs: seq<View>, base: nat, n: nat)
    requires 0 < n <= |vs|
    ensures IdsAfterAll(vs, base, n)[n - 1] == IdsAfter(vs[n - 1].features, base + |Labels(vs, n - 1)|, vs[n - 1].ids)
  {
    assert IdsAfterAll(vs, base, n) == IdsBefore(vs, base, n);
  }

  /** Each hypothesis takes its ids after the labels of the hypotheses before it. */
  lemma {:induction false} IdsAfterAllAt(vs: seq<View>, base: nat, n: nat, k: nat)
    requires k < n <= |vs|
    ensures IdsAfterAll(vs, base, n)[k] == IdsAfter(vs[k].features, base + |Labels(vs, k)|, vs[k].ids)
  {
    if k + 1 < n {
      IdsAfterAllPrefix(vs, base, n, k);
      IdsAfterAllAt(vs, base, n - 1, k);
    } else {
      assert k == n - 1;
      IdsAfterAllLast(vs, base, n);
    }
  }

  /** The i-th hypothesis takes its ids after the label counts the model has once those before it are added. */
  lemma IdsAfterAllOver(vs: seq<View>, labels0: seq<nat>, i: nat, labels: seq<nat>)
    requires i < |vs| && labels == labels0 + Labels(vs, i)
    ensures IdsAfterAll(vs, |labels0|, |vs|)[i] == IdsAfter(vs[i].features, |labels|, vs[i].ids)
  {
    IdsAfterAllAt(vs, |labels0|, |vs|, i);
    assert |labels| == |labels0| + |Labels(vs, i)|;
  }

  /** A successful i-th hypothesis takes the model from the target at i to the target at i + 1. */
  lemma TargetAdvance(vs: seq<View>, labels0: seq<nat>, factors0: seq<Factor>, shared: bool, w: WeightIds, i: nat,
                      labels: seq<nat>, factors: seq<Factor>)
    requires i < |vs| && AllFit(vs, |labels0|, shared, w) && SucceedUpTo(vs, i) && Succeeds(vs[i])
    requires labels == labels0 + Labels(vs, i) + HypothesisLabels(vs[i].features)
    requires Fits(vs[i], |labels0 + Labels(vs, i)|)
    requires factors == factors0 + Factors(vs, labels0, shared, w, i) + HypothesisFactors(vs[i], labels0 + Labels(vs, i), shared, w)
    ensures SucceedUpTo(vs, i + 1)
    ensures (labels, factors) == Target(vs, labels0, factors0, shared, w, i + 1)
  {
    LabelsStep(vs, labels0, i);
    FactorsStep(vs, labels0, factors0, shared, w, i);
  }

  /** Materialises the i-th hypothesis: the other hypotheses' variables and all links keep their ids. */
  method AddHypothesisIn(hyps: seq<Hypothesis>, model: Model, shared: bool, w: WeightIds, i: nat,
                         ghost vs: seq<View>, ghost ids: seq<Ids>, ghost linkVars: set<Variable>) returns (r: Outcome)
    requires i < |hyps| == |vs| == |ids| && Owned(hyps, linkVars)
    requires WeightsFit(vs[i].features, shared, w) && Fits(vs[i], |model.numLabels|)
    requires IdsAre(hyps, ids, 0, i) && ViewsFrom(hyps, vs, i)
    modifies model, Own(hyps[i])
    ensures r.Fail? <==> !Succeeds(vs[i])
    ensures r.Fail? ==> model.numLabels == old(model.numLabels) && model.factors == old(model.factors)
    ensures r.Pass? ==> model.numLabels == old(model.numLabels) + HypothesisLabels(vs[i].features)
    ensures r.Pass? ==> model.factors == old(model.factors) + HypothesisFactors(vs[i], old(model.numLabels), shared, w)
    ensures r.Pass? ==> IdsOf(hyps[i]) == IdsAfter(vs[i].features, |old(model.numLabels)|, vs[i].ids)
    ensures IdsAre(hyps, ids, 0, i) && ViewsFrom(hyps, vs, i + 1)
  {
    var h := hyps[i];
    r := AddHypothesis(h, model, shared, w, vs[i]);
    forall k | 0 <= k < i
      ensures IdsOf(hyps[k]) == old(IdsOf(hyps[k]))
    {
      assert Own(hyps[k]) !! Own(h);
    }
    forall k | i < k < |hyps|
      ensures ViewOf(hyps[k]) == old(ViewOf(hyps[k]))
    {
      assert Own(hyps[k]) !! Own(h) && hyps[k].LinkVariables() !! Own(h);
    }
  }

  /**
   * After the first i hypotheses: the model is their target, they hold the ids their
   * turns predict (ids, planned for all of them) and the hypotheses after them are as
   * their views say.
   */
  ghost predicate Progress(hyps: seq<Hypothesis>, model: Model, vs: seq<View>, labels0: seq<nat>, factors0: seq<Factor>,
                           shared: bool, w: WeightIds, ids: seq<Ids>, i: nat)
    reads (set h | h in hyps), AllOwn(hyps), AllLinkVariables(hyps), model
  {
    i <= |hyps| == |vs| && AllFit(vs, |labels0|, shared, w) && SucceedUpTo(vs, i) &&
    (model.numLabels, model.factors) == Target(vs, labels0, factors0, shared, w, i) &&
    ids == IdsAfterAll(vs, |labels0|, |vs|) && IdsAre(hyps, ids, 0, i) && ViewsFrom(hyps, vs, i)
  }

  /** Materialises the i-th hypothesis; success takes the progress one hypothesis further. */
  method AddHypothesisAt(hyps: seq<Hypothesis>, model: Model, shared: bool, w: WeightIds, i: nat,
                         ghost vs: seq<View>, ghost labels0: seq<nat>, ghost factors0: seq<Factor>,
                         ghost linkVars: set<Variable>, ghost ids: seq<Ids>) returns (r: Outcome)
    requires i < |hyps| == |vs| && Owned(hyps, linkVars)
    requires Progress(hyps, model, vs, labels0, factors0, shared, w, ids, i)
    modifies model, Own(hyps[i])
    ensures r.Fail? <==> !Succeeds(vs[i])
    ensures r.Fail? ==> SucceedUpTo(vs, i) && (model.numLabels, model.factors) == Target(vs, labels0, factors0, shared, w, i)
    ensures r.Pass? ==> Progress(hyps, model, vs, labels0, factors0, shared, w, ids, i + 1)
  {
    FitsGrow(vs[i], |labels0|, |model.numLabels|);
    IdsAfterAllOver(vs, labels0, i, model.numLabels);
    r := AddHypothesisIn(hyps, model, shared, w, i, vs, ids, linkVars);
    if r.Pass? {
      TargetAdvance(vs, labels0, factors0, shared, w, i, model.numLabels, model.factors);
    }
  }

  /** Before any hypothesis, the target is the model as it was. */
  lemma TargetStart(vs: seq<View>, labels0: seq<nat>, factors0: seq<Factor>, shared: bool, w: WeightIds)
    requires AllFit(vs, |labels0|, shared, w)
    ensures SucceedUpTo(vs, 0) && Target(vs, labels0, factors0, shared, w, 0) == (labels0, factors0)
  {
    assert labels0 + [] == labels0 && factors0 + [] == factors0;
  }

  /** Before any hypothesis, the model is as it was and the hypotheses are as their views say. */
  lemma ProgressStart(hyps: seq<Hypothesis>, model: Model, shared: bool, w: WeightIds)
    requires AllFit(Views(hyps), |model.numLabels|, shared, w)
    ensures Progress(hyps, model, Views(hyps), model.numLabels, model.factors, shared, w,
                     IdsAfterAll(Views(hyps), |model.numLabels|, |Views(hyps)|), 0)
  {
    TargetStart(Views(hyps), model.numLabels, model.factors, shared, w);
  }

  /** One hypothesis that fails makes the list fail. */
  lemma FailsAt(vs: seq<View>, i: nat)
    requires i < |vs| && !Succeeds(vs[i])
    ensures !SucceedUpTo(vs, |vs|)
  {
  }

  /** Progress over every hypothesis: the model is the full target and the ids are all as predicted. */
  lemma ProgressDone(hyps: seq<Hypothesis>, model: Model, vs: seq<View>, labels0: seq<nat>, factors0: seq<Factor>,
                     shared: bool, w: WeightIds, ids: seq<Ids>, i: nat)
    requires i == |hyps| && Progress(hyps, model, vs, labels0, factors0, shared, w, ids, i)
    ensures SucceedUpTo(vs, |vs|) && AllFit(vs, |labels0|, shared, w)
    ensures (model.numLabels, model.factors) == Target(vs, labels0, factors0, shared, w, |vs|)
    ensures CurrentIds(hyps) == IdsAfterAll(vs, |labels0|, |vs|)
  {
    assert CurrentIds(hyps) == ids;
  }

  /**
   * The loop over the hypotheses from the first on: it stops at the first failure,
   * and when none fails the progress covers every hypothesis.
   */
  method AddHypothesesFrom(hyps: seq<Hypothesis>, model: Model, shared: bool, w: WeightIds, ghost vs: seq<View>,
                           ghost labels0: seq<nat>, ghost factors0: seq<Factor>, ghost linkVars: set<Variable>,
                           ghost vars: set<Variable>, ghost ids: seq<Ids>)
    returns (r: Outcome)
    requires Owned(hyps, linkVars) && Progress(hyps, model, vs, labels0, factors0, shared, w, ids, 0)
    requires forall k :: 0 <= k < |hyps| ==> Own(hyps[k]) <= vars
    modifies model, vars
    ensures r.Fail? ==> |vs| == |hyps| && !SucceedUpTo(vs, |vs|)
    ensures r.Fail? ==> (model.numLabels, model.factors) == Target(vs, labels0, factors0, shared, w, FirstFailure(vs))
    ensures r.Pass? ==> Progress(hyps, model, vs, labels0, factors0, shared, w, ids, |hyps|)
  {
    r := Pass;
    var i := 0;
    while i < |hyps|
      invariant i <= |hyps| && r.Pass?
      invariant Progress(hyps, model, vs, labels0, factors0, shared, w, ids, i)
    {
      r := AddHypothesisAt(hyps, model, shared, w, i, vs, labels0, factors0, linkVars, ids);
      if r.Fail? {
        FailsAt(vs, i);
        FirstFailureAt(vs, 0, i);
        return;
      }
      i := i + 1;
    }
  }

  /**
   * Materialises the hypotheses in list order. It fails exactly when one of them has a
   * detection that neither has features nor was materialised before, and stops there;
   * otherwise the model gains, hypothesis after hypothesis, the label counts and factors
   * of each, and every variable holds the id its turn predicts.
   */
  method AddHypotheses(hyps: seq<Hypothesis>, model: Model, shared: bool, w: WeightIds,
                       ghost linkVars: set<Variable>) returns (r: Outcome)
    requires Owned(hyps, linkVars)
    requires AllFit(Views(hyps), |model.numLabels|, shared, w)
    modifies model, AllOwn(hyps)
    ensures r.Fail? <==> !SucceedUpTo(old(Views(hyps)), |hyps|)
    ensures r.Pass? ==> (SucceedUpTo(old(Views(hyps)), |hyps|) &&
      (model.numLabels, model.factors) == Target(old(Views(hyps)), old(model.numLabels), old(model.factors), shared, w, |hyps|))
    ensures r.Fail? ==>
      (model.numLabels, model.factors) == Target(old(Views(hyps)), old(model.numLabels), old(model.factors), shared, w, FirstFailure(old(Views(hyps))))
    ensures r.Pass? ==> CurrentIds(hyps) == IdsAfterAll(old(Views(hyps)), |old(model.numLabels)|, |hyps|)
  {
    ghost var vs := Views(hyps);
    ghost var labels0 := model.numLabels;
    ghost var factors0 := model.factors;
    ghost var ids := IdsAfterAll(vs, |labels0|, |vs|);
    ProgressStart(hyps, model, shared, w);
    r := AddHypothesesFrom(hyps, model, shared, w, vs, labels0, factors0, linkVars, AllOwn(hyps), ids);
    if r.Pass? {
      ProgressDone(hyps, model, vs, labels0, factors0, shared, w, ids, |hyps|);
    }
  }
}
