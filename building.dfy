/**
 * The assembly of the whole graphical model from the hypotheses of a data set: all
 * links first (the segmentation hypotheses' constraints refer to them), then the
 * external divisions, then the segmentation hypotheses in key order, and last one
 * factor per exclusion constraint. Each kind of variable takes its weight ids from
 * its own block of the weight vector.
 */
module Building {
  import opened Wrappers
  import opened GraphModel
  import opened Variables
  import opened FlowConstraints
  import Weights
  import Segmentation
  import Links
  import Divisions
  import Exclusions
  import Materialisation
  import SegmentationList

  /** The variables of the links. */
  function LinkVars(links: seq<Links.LinkingHypothesis>): set<Variable>
  {
    set k | 0 <= k < |links| :: links[k].variable
  }

  /** The variables of the external division hypotheses. */
  function DivisionVars(divisions: seq<Divisions.DivisionHypothesis>): set<Variable>
  {
    set k | 0 <= k < |divisions| :: divisions[k].variable
  }

  /** The weight ids of the four kinds of variable a segmentation hypothesis holds. */
  function SegmentationWeightIds(c: Weights.WeightCounts): SegmentationList.WeightIds
  {
    SegmentationList.WeightIds(Weights.Block(c, Weights.DetectionKind), Weights.Block(c, Weights.DivisionKind),
                               Weights.Block(c, Weights.AppearanceKind), Weights.Block(c, Weights.DisappearanceKind))
  }

  /** No two links share a variable. */
  predicate LinksDistinct(links: seq<Links.LinkingHypothesis>)
  {
    |links| == 0 ||
    (LinksDistinct(links[..|links| - 1]) && forall k :: 0 <= k < |links| - 1 ==> links[k].variable != links[|links| - 1].variable)
  }

  /** No two external divisions share a variable. */
  predicate DivisionsDistinct(divisions: seq<Divisions.DivisionHypothesis>)
  {
    |divisions| == 0 ||
    (DivisionsDistinct(divisions[..|divisions| - 1]) &&
     forall k :: 0 <= k < |divisions| - 1 ==> divisions[k].variable != divisions[|divisions| - 1].variable)
  }

  lemma {:induction false} LinksDistinctPairwise(links: seq<Links.LinkingHypothesis>)
    requires LinksDistinct(links)
    ensures forall i, j :: 0 <= i < j < |links| ==> links[i].variable != links[j].variable
  {
    if |links| > 0 {
      var init := links[..|links| - 1];
      LinksDistinctPairwise(init);
      forall i, j | 0 <= i < j < |links|
        ensures links[i].variable != links[j].variable
      {
        if j < |links| - 1 {
          assert links[i] == init[i] && links[j] == init[j];
        }
      }
    }
  }

  lemma {:induction false} DivisionsDistinctPairwise(divisions: seq<Divisions.DivisionHypothesis>)
    requires DivisionsDistinct(divisions)
    ensures forall i, j :: 0 <= i < j < |divisions| ==> divisions[i].variable != divisions[j].variable
  {
    if |divisions| > 0 {
      var init := divisions[..|divisions| - 1];
      DivisionsDistinctPairwise(init);
      forall i, j | 0 <= i < j < |divisions|
        ensures divisions[i].variable != divisions[j].variable
      {
        if j < |divisions| - 1 {
          assert divisions[i] == init[i] && divisions[j] == init[j];
        }
      }
    }
  }

  /** Every variable of a list that has features needs count weights. */
  predicate ListAgrees(fs: seq<seq<seq<real>>>, shared: bool, count: nat)
  {
    forall k :: 0 <= k < |fs| && HasFeatures(fs[k]) ==> NumWeights(fs[k], shared) == Ok(count)
  }

  /** Every variable with features needs as many weights as its kind's block holds. */
  predicate WeightsAgree(links: seq<Links.LinkingHypothesis>, divisions: seq<Divisions.DivisionHypothesis>,
                         hyps: seq<SegmentationList.Hypothesis>, shared: bool, c: Weights.WeightCounts)
  {
    ListAgrees(Materialisation.LinkFeatures(links), shared, c.link) &&
    ListAgrees(Materialisation.DivisionFeatures(divisions), shared, c.externalDivision) &&
    (forall k :: 0 <= k < |hyps| ==> SegmentationList.WeightsFit(SegmentationList.FeaturesOf(hyps[k]), shared, SegmentationWeightIds(c)))
  }

  /** How many variables the members of a list with the given features add to the model. */
  function LabelCount(fs: seq<seq<seq<real>>>): nat
  {
    |Materialisation.Labels(fs, |fs|)|
  }

  /** The label counts the links, then the divisions add. */
  function ListLabels(fsL: seq<seq<seq<real>>>, fsD: seq<seq<seq<real>>>): seq<nat>
  {
    Materialisation.Labels(fsL, |fsL|) + Materialisation.Labels(fsD, |fsD|)
  }

  /** The unaries the links, then the divisions add to a model of `base` variables, from their kinds' blocks. */
  function ListUnaries(fsL: seq<seq<seq<real>>>, fsD: seq<seq<seq<real>>>, base: nat, shared: bool, c: Weights.WeightCounts): seq<Factor>
    requires ListAgrees(fsL, shared, c.link) && ListAgrees(fsD, shared, c.externalDivision)
  {
    Materialisation.LinkUnaries(fsL, base, shared, Weights.Block(c, Weights.LinkKind), |fsL|) +
    Materialisation.DivisionUnaries(fsD, base + |Materialisation.Labels(fsL, |fsL|)|, shared, Weights.Block(c, Weights.ExternalDivisionKind), |fsD|)
  }

  /** The hypotheses are the map's values in the order of the keys, and every key is listed. */
  predicate KeyedBy(hyps: seq<SegmentationList.Hypothesis>, order: seq<int>, segs: map<int, Segmentation.SegmentationHypothesis>)
  {
    |hyps| == |order| && (forall k :: 0 <= k < |order| ==> order[k] in segs && segs[order[k]] == hyps[k]) &&
    (forall key :: key in segs ==> key in order)
  }

  /** Every member of every exclusion is a key of the map. */
  predicate MembersKnown(excls: seq<Exclusions.ExclusionConstraint>, segs: map<int, Segmentation.SegmentationHypothesis>)
    reads set e | e in excls
  {
    forall j :: 0 <= j < |excls| ==> forall k :: 0 <= k < |excls[j].ids| ==> excls[j].ids[k] in segs
  }

  /**
   * What the assembly assumes of the hypotheses: each link, division and hypothesis owns
   * its variables; a link without features is materialised already; no own variable of a
   * hypothesis holds an id beyond the model; and the exclusions name known hypotheses.
   */
  ghost predicate Ready(links: seq<Links.LinkingHypothesis>, divisions: seq<Divisions.DivisionHypothesis>,
                        hyps: seq<SegmentationList.Hypothesis>, order: seq<int>,
                        segs: map<int, Segmentation.SegmentationHypothesis>, excls: seq<Exclusions.ExclusionConstraint>, n: nat)
    reads (set e | e in excls), (set h | h in hyps), LinkVars(links), SegmentationList.AllOwn(hyps)
  {
    SegmentationList.Owned(hyps, LinkVars(links)) &&
    LinksDistinct(links) && DivisionsDistinct(divisions) &&
    DivisionVars(divisions) !! LinkVars(links) && DivisionVars(divisions) !! SegmentationList.AllOwn(hyps) &&
    (forall k :: 0 <= k < |links| ==> HasFeatures(links[k].variable.features) || 0 <= links[k].variable.id < n) &&
    (forall k :: 0 <= k < |hyps| ==> OwnIdsBelow(SegmentationList.IdsOf(hyps[k]), n)) &&
    KeyedBy(hyps, order, segs) && MembersKnown(excls, segs)
  }

  /** The four own ids are absent or name variables of a model with n variables. */
  predicate OwnIdsBelow(ids: SegmentationList.Ids, n: nat)
  {
    AbsentOrIn(ids.detection, n) && AbsentOrIn(ids.division, n) && AbsentOrIn(ids.appearance, n) && AbsentOrIn(ids.disappearance, n)
  }

  /** The views with the own ids replaced: what the hypotheses looked like before their own materialisation. */
  function WithIds(vs: seq<SegmentationList.View>, ids: seq<SegmentationList.Ids>): (r: seq<SegmentationList.View>)
    requires |ids| == |vs|
    ensures |r| == |vs| && forall k :: 0 <= k < |vs| ==> r[k] == vs[k].(ids := ids[k])
  {
    seq(|vs|, k requires 0 <= k < |vs| => vs[k].(ids := ids[k]))
  }

  /** The member lists of the exclusions, in list order. */
  function MemberLists(excls: seq<Exclusions.ExclusionConstraint>): (r: seq<seq<int>>)
    reads set e | e in excls
    ensures |r| == |excls| && forall j :: 0 <= j < |excls| ==> r[j] == excls[j].ids
  {
    if |excls| == 0 then [] else MemberLists(excls[..|excls| - 1]) + [excls[|excls| - 1].ids]
  }

  /** The id of every hypothesis' detection variable, by key. */
  function DetectionMap(segs: map<int, Segmentation.SegmentationHypothesis>): (r: map<int, int>)
    reads Exclusions.Detections(segs)
    ensures r.Keys == segs.Keys && forall key :: key in segs ==> r[key] == segs[key].detection.id
  {
    map key | key in segs :: segs[key].detection.id
  }

  /** The detection ids of the listed keys. */
  function Lookup(ids: seq<int>, dets: map<int, int>): (r: seq<int>)
    requires forall k :: 0 <= k < |ids| ==> ids[k] in dets
    ensures |r| == |ids| && forall k :: 0 <= k < |ids| ==> r[k] == dets[ids[k]]
  {
    seq(|ids|, k requires 0 <= k < |ids| => dets[ids[k]])
  }

  /** Every listed member has a detection id. */
  predicate Known(idss: seq<seq<int>>, dets: map<int, int>)
  {
    forall j, k :: 0 <= j < |idss| && 0 <= k < |idss[j]| ==> idss[j][k] in dets
  }

  /** One exclusion factor per member list, over the members' detection ids, for the first n lists. */
  function Stack(idss: seq<seq<int>>, dets: map<int, int>, n: nat): (r: seq<Factor>)
    requires n <= |idss| && Known(idss, dets)
    ensures |r| == n
  {
    if n == 0 then [] else Stack(idss, dets, n - 1) + [Exclusions.ExclusionFactor(Lookup(idss[n - 1], dets))]
  }

  /** The factors of the exclusions in list order, one each, over the members' detection variables. */
  function ExclusionFactors(excls: seq<Exclusions.ExclusionConstraint>, segs: map<int, Segmentation.SegmentationHypothesis>): (r: seq<Factor>)
    reads (set e | e in excls), Exclusions.Detections(segs)
    requires MembersKnown(excls, segs)
  {
    Stack(MemberLists(excls), DetectionMap(segs), |excls|)
  }

  /** The detections of known hypotheses are looked up by key. */
  lemma DetectionIdsByKey(ids: seq<int>, segs: map<int, Segmentation.SegmentationHypothesis>)
    requires forall k :: 0 <= k < |ids| ==> ids[k] in segs
    ensures Exclusions.DetectionIds(ids, segs) == Lookup(ids, DetectionMap(segs))
  {
  }

  /** The detections of known hypotheses that all have ids in the model have ids in the model. */
  lemma DetectionsIn(ids: seq<int>, segs: map<int, Segmentation.SegmentationHypothesis>, n: nat)
    requires forall k :: 0 <= k < |ids| ==> ids[k] in segs
    requires forall key :: key in segs ==> 0 <= segs[key].detection.id < n
    ensures AllIn(Exclusions.DetectionIds(ids, segs), n)
  {
    var r := Exclusions.DetectionIds(ids, segs);
    forall k | 0 <= k < |r|
      ensures 0 <= r[k] < n
    {
      var key := ids[k];
      assert r[k] == segs[key].detection.id;
    }
  }

  /** Adds one factor per exclusion, in list order; nothing else changes. */
  method AddExclusions(excls: seq<Exclusions.ExclusionConstraint>, model: Model, segs: map<int, Segmentation.SegmentationHypothesis>)
    requires MembersKnown(excls, segs)
    requires forall key :: key in segs ==> 0 <= segs[key].detection.id < |model.numLabels|
    modifies model
    ensures model.numLabels == old(model.numLabels)
    ensures model.factors == old(model.factors) + ExclusionFactors(excls, segs)
  {
    ghost var idss := MemberLists(excls);
    ghost var dets := DetectionMap(segs);
    ghost var factors0 := model.factors;
    var i := 0;
    while i < |excls|
      invariant i <= |excls| && model.numLabels == old(model.numLabels)
      invariant forall j :: 0 <= j < |excls| ==> excls[j].ids == idss[j]
      invariant forall key :: key in segs ==> segs[key].detection.id == dets[key]
      invariant model.factors == factors0 + Stack(idss, dets, i)
    {
      assert AllIn(Exclusions.DetectionIds(excls[i].ids, segs), |model.numLabels|) &&
             Exclusions.DetectionIds(excls[i].ids, segs) == Lookup(idss[i], dets) by {
        DetectionsIn(excls[i].ids, segs, |model.numLabels|);
        DetectionIdsByKey(excls[i].ids, segs);
        assert DetectionMap(segs) == dets;
      }
      excls[i].AddToModel(model, segs);
      i := i + 1;
    }
    assert MemberLists(excls) == idss && DetectionMap(segs) == dets;
  }

  /** A list's variables with features take ids in the range its labels occupy; the others keep theirs. */
  lemma {:induction false} IdsAfterIn(fs: seq<seq<seq<real>>>, base: nat, oldIds: seq<int>, n: nat)
    requires |oldIds| == |fs| && n <= |fs|
    requires forall k :: 0 <= k < |fs| ==> HasFeatures(fs[k]) || 0 <= oldIds[k] < base
    ensures forall k :: 0 <= k < n ==> 0 <= Materialisation.IdsAfter(fs, base, oldIds, n)[k] < base + |Materialisation.Labels(fs, n)|
  {
    if n > 0 {
      IdsAfterIn(fs, base, oldIds, n - 1);
      assert Materialisation.IdsAfter(fs, base, oldIds, n) == Materialisation.IdsAfter(fs, base, oldIds, n - 1) +
        [IdAfter(fs[n - 1], base + |Materialisation.Labels(fs, n - 1)|, oldIds[n - 1])];
    }
  }

  /** The label counts of more hypotheses are at least as many. */
  lemma {:induction false} LabelsGrow(vs: seq<SegmentationList.View>, k: nat, n: nat)
    requires k <= n <= |vs|
    ensures |SegmentationList.Labels(vs, k)| <= |SegmentationList.Labels(vs, n)|
    decreases n
  {
    if k < n {
      LabelsGrow(vs, k, n - 1);
      SegmentationList.LabelsStep(vs, [], n - 1);
      assert [] + SegmentationList.Labels(vs, n) == SegmentationList.Labels(vs, n);
      assert [] + SegmentationList.Labels(vs, n - 1) == SegmentationList.Labels(vs, n - 1);
    }
  }

  /** A hypothesis that succeeds has its detection in the grown model: a new one, or the one it had. */
  lemma DetectionPlaced(vs: seq<SegmentationList.View>, base: nat, k: nat)
    requires k < |vs| && SegmentationList.Succeeds(vs[k]) && vs[k].ids.detection < base
    ensures 0 <= SegmentationList.IdsAfterAll(vs, base, |vs|)[k].detection < base + |SegmentationList.Labels(vs, |vs|)|
  {
    SegmentationList.IdsAfterAllAt(vs, base, |vs|, k);
    var before := |SegmentationList.Labels(vs, k)|;
    assert |SegmentationList.Labels(vs, k + 1)| == before + |SegmentationList.HypothesisLabels(vs[k].features)| by {
      SegmentationList.LabelsStep(vs, [], k);
      assert [] + SegmentationList.Labels(vs, k + 1) == SegmentationList.Labels(vs, k + 1);
    }
    LabelsGrow(vs, k + 1, |vs|);
  }

  /** The hypotheses' variables are none of the links'. */
  lemma {:induction false} OwnApart(hyps: seq<SegmentationList.Hypothesis>, linkVars: set<Variable>)
    requires forall k :: 0 <= k < |hyps| ==> SegmentationList.Own(hyps[k]) !! linkVars
    ensures SegmentationList.AllOwn(hyps) !! linkVars
  {
    if |hyps| > 0 {
      OwnApart(hyps[..|hyps| - 1], linkVars);
    }
  }

  /**
   * With every link materialised and the own ids within the model, each hypothesis fits
   * the model and needs the weights its kinds' blocks hold.
   */
  lemma ViewsFit(links: seq<Links.LinkingHypothesis>, hyps: seq<SegmentationList.Hypothesis>, shared: bool,
                 c: Weights.WeightCounts, n: nat)
    requires SegmentationList.Owned(hyps, LinkVars(links))
    requires forall k :: 0 <= k < |links| ==> 0 <= links[k].variable.id < n
    requires forall k :: 0 <= k < |hyps| ==> OwnIdsBelow(SegmentationList.IdsOf(hyps[k]), n)
    requires forall k :: 0 <= k < |hyps| ==> SegmentationList.WeightsFit(SegmentationList.FeaturesOf(hyps[k]), shared, SegmentationWeightIds(c))
    ensures SegmentationList.AllFit(SegmentationList.Views(hyps), n, shared, SegmentationWeightIds(c))
  {
    var vs := SegmentationList.Views(hyps);
    forall k | 0 <= k < |hyps|
      ensures SegmentationList.Fits(vs[k], n)
    {
      var h := hyps[k];
      assert h.LinkVariables() <= LinkVars(links);
      forall j | 0 <= j < |h.incomingLinks|
        ensures 0 <= vs[k].inIds[j] < n
      {
        assert h.incomingLinks[j].variable in LinkVars(links);
      }
      forall j | 0 <= j < |h.outgoingLinks|
        ensures 0 <= vs[k].outIds[j] < n
      {
        assert h.outgoingLinks[j].variable in LinkVars(links);
      }
    }
  }


  /** When a hypothesis and the variables of its links are untouched, its view keeps all but its own ids. */
  twostate lemma ViewKept(h: SegmentationList.Hypothesis)
    requires unchanged(h)
    requires forall j :: 0 <= j < |old(h.incomingLinks)| ==> unchanged(old(h.incomingLinks[j].variable))
    requires forall j :: 0 <= j < |old(h.outgoingLinks)| ==> unchanged(old(h.outgoingLinks[j].variable))
    ensures SegmentationList.ViewOf(h) == old(SegmentationList.ViewOf(h)).(ids := SegmentationList.IdsOf(h))
  {
    forall j | 0 <= j < |h.incomingLinks|
      ensures h.incomingLinks[j].variable.id == old(h.incomingLinks[j].variable.id)
    {
      assert unchanged(old(h.incomingLinks[j].variable));
    }
    forall j | 0 <= j < |h.outgoingLinks|
      ensures h.outgoingLinks[j].variable.id == old(h.outgoingLinks[j].variable.id)
    {
      assert unchanged(old(h.outgoingLinks[j].variable));
    }
    assert Segmentation.LinkIds(h.incomingLinks) == old(Segmentation.LinkIds(h.incomingLinks));
    assert Segmentation.LinkIds(h.outgoingLinks) == old(Segmentation.LinkIds(h.outgoingLinks));
  }

  /** When nothing but the hypotheses' own variables changed, their views differ only in the own ids. */
  twostate lemma ViewsKept(hyps: seq<SegmentationList.Hypothesis>)
    requires forall h :: h in hyps ==> unchanged(h)
    requires forall k, j :: 0 <= k < |hyps| && 0 <= j < |old(hyps[k].incomingLinks)| ==> unchanged(old(hyps[k].incomingLinks[j].variable))
    requires forall k, j :: 0 <= k < |hyps| && 0 <= j < |old(hyps[k].outgoingLinks)| ==> unchanged(old(hyps[k].outgoingLinks[j].variable))
    ensures WithIds(SegmentationList.Views(hyps), old(SegmentationList.CurrentIds(hyps))) == old(SegmentationList.Views(hyps))
  {
    forall k | 0 <= k < |hyps|
      ensures SegmentationList.ViewOf(hyps[k]) == old(SegmentationList.ViewOf(hyps[k])).(ids := SegmentationList.IdsOf(hyps[k]))
    {
      var h := hyps[k];
      assert h in hyps;
      ViewKept(h);
    }
  }

  /** No link variable lies in a set apart from all of them. */
  lemma LinksApart(links: seq<Links.LinkingHypothesis>, vars: set<Variable>)
    requires LinkVars(links) !! vars
    ensures forall k :: 0 <= k < |links| ==> links[k].variable !in vars
  {
    forall k | 0 <= k < |links|
      ensures links[k].variable !in vars
    {
      assert links[k].variable in LinkVars(links);
    }
  }

  /** No division variable lies in a set apart from all of them. */
  lemma DivisionsApart(divisions: seq<Divisions.DivisionHypothesis>, vars: set<Variable>)
    requires DivisionVars(divisions) !! vars
    ensures forall k :: 0 <= k < |divisions| ==> divisions[k].variable !in vars
  {
    forall k | 0 <= k < |divisions|
      ensures divisions[k].variable !in vars
    {
      assert divisions[k].variable in DivisionVars(divisions);
    }
  }

  /** The links of hypotheses whose link variables are among linkVars lie apart from a set apart from linkVars. */
  lemma HypothesisLinksApart(hyps: seq<SegmentationList.Hypothesis>, linkVars: set<Variable>, vars: set<Variable>)
    requires forall k :: 0 <= k < |hyps| ==> hyps[k].LinkVariables() <= linkVars
    requires linkVars !! vars
    ensures forall k, j :: 0 <= k < |hyps| && 0 <= j < |hyps[k].incomingLinks| ==> hyps[k].incomingLinks[j].variable !in vars
    ensures forall k, j :: 0 <= k < |hyps| && 0 <= j < |hyps[k].outgoingLinks| ==> hyps[k].outgoingLinks[j].variable !in vars
  {
    forall k, j | 0 <= k < |hyps| && 0 <= j < |hyps[k].incomingLinks|
      ensures hyps[k].incomingLinks[j].variable !in vars
    {
      assert hyps[k].incomingLinks[j].variable in hyps[k].LinkVariables();
    }
    forall k, j | 0 <= k < |hyps| && 0 <= j < |hyps[k].outgoingLinks|
      ensures hyps[k].outgoingLinks[j].variable !in vars
    {
      assert hyps[k].outgoingLinks[j].variable in hyps[k].LinkVariables();
    }
  }

  /** Links whose variables are untouched keep their ids. */
  twostate lemma LinkIdsKept(links: seq<Links.LinkingHypothesis>)
    requires forall k :: 0 <= k < |links| ==> unchanged(links[k].variable)
    ensures Segmentation.LinkIds(links) == old(Segmentation.LinkIds(links))
  {
  }

  /** Divisions whose variables are untouched keep their ids. */
  twostate lemma DivisionIdsKept(divisions: seq<Divisions.DivisionHypothesis>)
    requires forall k :: 0 <= k < |divisions| ==> unchanged(divisions[k].variable)
    ensures Materialisation.DivisionIds(divisions) == old(Materialisation.DivisionIds(divisions))
  {
  }

  /** Once the hypotheses succeeded, each holds its detection in the grown model. */
  lemma DetectionsPlaced(hyps: seq<SegmentationList.Hypothesis>, vs: seq<SegmentationList.View>, base: nat)
    requires |vs| == |hyps| && SegmentationList.SucceedUpTo(vs, |vs|)
    requires forall k :: 0 <= k < |vs| ==> vs[k].ids.detection < base
    requires SegmentationList.CurrentIds(hyps) == SegmentationList.IdsAfterAll(vs, base, |vs|)
    ensures forall k :: 0 <= k < |hyps| ==> 0 <= hyps[k].detection.id < base + |SegmentationList.Labels(vs, |vs|)|
  {
    forall k | 0 <= k < |hyps|
      ensures 0 <= hyps[k].detection.id < base + |SegmentationList.Labels(vs, |vs|)|
    {
      DetectionPlaced(vs, base, k);
      assert SegmentationList.CurrentIds(hyps)[k] == SegmentationList.IdsOf(hyps[k]);
    }
  }

  /** What holds of every hypothesis in the list holds of every value of the map. */
  lemma KeysPlaced(hyps: seq<SegmentationList.Hypothesis>, order: seq<int>, segs: map<int, Segmentation.SegmentationHypothesis>, n: nat)
    requires KeyedBy(hyps, order, segs)
    requires forall k :: 0 <= k < |hyps| ==> 0 <= hyps[k].detection.id < n
    ensures forall key :: key in segs ==> 0 <= segs[key].detection.id < n
  {
    forall key | key in segs
      ensures 0 <= segs[key].detection.id < n
    {
      assert key in order;
    }
  }

  /** Materialises the hypotheses in key order; on success every keyed hypothesis holds its detection. */
  method PlaceOwn(hyps: seq<SegmentationList.Hypothesis>, order: seq<int>, segs: map<int, Segmentation.SegmentationHypothesis>,
                  shared: bool, c: Weights.WeightCounts, model: Model, ghost linkVars: set<Variable>) returns (r: Outcome)
    requires SegmentationList.Owned(hyps, linkVars) && KeyedBy(hyps, order, segs)
    requires SegmentationList.AllFit(SegmentationList.Views(hyps), |model.numLabels|, shared, SegmentationWeightIds(c))
    requires forall k :: 0 <= k < |hyps| ==> SegmentationList.IdsOf(hyps[k]).detection < |model.numLabels|
    modifies model, SegmentationList.AllOwn(hyps)
    ensures r.Fail? <==> !SegmentationList.SucceedUpTo(old(SegmentationList.Views(hyps)), |hyps|)
    ensures r.Fail? ==>
      (model.numLabels, model.factors) == SegmentationList.Target(old(SegmentationList.Views(hyps)), old(model.numLabels), old(model.factors),
                                                                  shared, SegmentationWeightIds(c), SegmentationList.FirstFailure(old(SegmentationList.Views(hyps))))
    ensures r.Pass? ==> (SegmentationList.SucceedUpTo(old(SegmentationList.Views(hyps)), |hyps|) &&
      (model.numLabels, model.factors) == SegmentationList.Target(old(SegmentationList.Views(hyps)), old(model.numLabels), old(model.factors),
                                                                  shared, SegmentationWeightIds(c), |hyps|))
    ensures r.Pass? ==> SegmentationList.CurrentIds(hyps) == SegmentationList.IdsAfterAll(old(SegmentationList.Views(hyps)), |old(model.numLabels)|, |hyps|)
    ensures r.Pass? ==> forall key :: key in segs ==> 0 <= segs[key].detection.id < |model.numLabels|
  {
    ghost var vs := SegmentationList.Views(hyps);
    ghost var base := |model.numLabels|;
    r := SegmentationList.AddHypotheses(hyps, model, shared, SegmentationWeightIds(c), linkVars);
    if r.Pass? {
      ghost var n := base + |SegmentationList.Labels(vs, |vs|)|;
      assert |model.numLabels| == n;
      DetectionsPlaced(hyps, vs, base);
      KeysPlaced(hyps, order, segs, n);
    }
  }

  /** Materialises the hypotheses; each hypothesis' view changes in its own ids only. */
  method PlaceViews(hyps: seq<SegmentationList.Hypothesis>, order: seq<int>, segs: map<int, Segmentation.SegmentationHypothesis>,
                    shared: bool, c: Weights.WeightCounts, model: Model, ghost linkVars: set<Variable>) returns (r: Outcome)
    requires SegmentationList.Owned(hyps, linkVars) && KeyedBy(hyps, order, segs)
    requires SegmentationList.AllOwn(hyps) !! linkVars
    requires SegmentationList.AllFit(SegmentationList.Views(hyps), |model.numLabels|, shared, SegmentationWeightIds(c))
    requires forall k :: 0 <= k < |hyps| ==> SegmentationList.IdsOf(hyps[k]).detection < |model.numLabels|
    modifies model, SegmentationList.AllOwn(hyps)
    ensures r.Fail? <==> !SegmentationList.SucceedUpTo(old(SegmentationList.Views(hyps)), |hyps|)
    ensures r.Fail? ==>
      (model.numLabels, model.factors) == SegmentationList.Target(old(SegmentationList.Views(hyps)), old(model.numLabels), old(model.factors),
                                                                  shared, SegmentationWeightIds(c), SegmentationList.FirstFailure(old(SegmentationList.Views(hyps))))
    ensures r.Pass? ==> (SegmentationList.SucceedUpTo(old(SegmentationList.Views(hyps)), |hyps|) &&
      (model.numLabels, model.factors) == SegmentationList.Target(old(SegmentationList.Views(hyps)), old(model.numLabels), old(model.factors),
                                                                  shared, SegmentationWeightIds(c), |hyps|))
    ensures r.Pass? ==> SegmentationList.CurrentIds(hyps) == SegmentationList.IdsAfterAll(old(SegmentationList.Views(hyps)), |old(model.numLabels)|, |hyps|)
    ensures r.Pass? ==> forall key :: key in segs ==> 0 <= segs[key].detection.id < |model.numLabels|
    ensures WithIds(SegmentationList.Views(hyps), old(SegmentationList.CurrentIds(hyps))) == old(SegmentationList.Views(hyps))
  {
    HypothesisLinksApart(hyps, linkVars, SegmentationList.AllOwn(hyps));
    r := PlaceOwn(hyps, order, segs, shared, c, model, linkVars);
    ViewsKept(hyps);
  }

  /**
   * Materialises the hypotheses after the links and divisions: the links and divisions keep
   * their ids, and each hypothesis' view changes in its own ids only.
   */
  method PlaceHypotheses(links: seq<Links.LinkingHypothesis>, divisions: seq<Divisions.DivisionHypothesis>,
                         hyps: seq<SegmentationList.Hypothesis>, order: seq<int>, segs: map<int, Segmentation.SegmentationHypothesis>,
                         shared: bool, c: Weights.WeightCounts, model: Model) returns (r: Outcome)
    requires SegmentationList.Owned(hyps, LinkVars(links)) && KeyedBy(hyps, order, segs)
    requires forall k :: 0 <= k < |hyps| ==> SegmentationList.Own(hyps[k]) !! DivisionVars(divisions)
    requires SegmentationList.AllFit(SegmentationList.Views(hyps), |model.numLabels|, shared, SegmentationWeightIds(c))
    requires forall k :: 0 <= k < |hyps| ==> SegmentationList.IdsOf(hyps[k]).detection < |model.numLabels|
    modifies model, SegmentationList.AllOwn(hyps)
    ensures r.Fail? <==> !SegmentationList.SucceedUpTo(old(SegmentationList.Views(hyps)), |hyps|)
    ensures r.Fail? ==>
      (model.numLabels, model.factors) == SegmentationList.Target(old(SegmentationList.Views(hyps)), old(model.numLabels), old(model.factors),
                                                                  shared, SegmentationWeightIds(c), SegmentationList.FirstFailure(old(SegmentationList.Views(hyps))))
    ensures r.Pass? ==> (SegmentationList.SucceedUpTo(old(SegmentationList.Views(hyps)), |hyps|) &&
      (model.numLabels, model.factors) == SegmentationList.Target(old(SegmentationList.Views(hyps)), old(model.numLabels), old(model.factors),
                                                                  shared, SegmentationWeightIds(c), |hyps|))
    ensures r.Pass? ==> SegmentationList.CurrentIds(hyps) == SegmentationList.IdsAfterAll(old(SegmentationList.Views(hyps)), |old(model.numLabels)|, |hyps|)
    ensures r.Pass? ==> forall key :: key in segs ==> 0 <= segs[key].detection.id < |model.numLabels|
    ensures WithIds(SegmentationList.Views(hyps), old(SegmentationList.CurrentIds(hyps))) == old(SegmentationList.Views(hyps))
    ensures Segmentation.LinkIds(links) == old(Segmentation.LinkIds(links))
    ensures Materialisation.DivisionIds(divisions) == old(Materialisation.DivisionIds(divisions))
  {
    OwnApart(hyps, LinkVars(links));
    LinksApart(links, SegmentationList.AllOwn(hyps));
    OwnApart(hyps, DivisionVars(divisions));
    DivisionsApart(divisions, SegmentationList.AllOwn(hyps));
    r := PlaceViews(hyps, order, segs, shared, c, model, LinkVars(links));
    LinkIdsKept(links);
    DivisionIdsKept(divisions);
  }

  /**
   * Materialises the links in list order from the link block of weights: the links take
   * the next ids, every link ends up with one, and no division or hypothesis changes.
   */
  method PlaceLinks(links: seq<Links.LinkingHypothesis>, divisions: seq<Divisions.DivisionHypothesis>,
                    hyps: seq<SegmentationList.Hypothesis>, shared: bool, c: Weights.WeightCounts, model: Model)
    requires ListAgrees(Materialisation.LinkFeatures(links), shared, c.link)
    requires LinksDistinct(links)
    requires DivisionVars(divisions) !! LinkVars(links)
    requires forall k :: 0 <= k < |hyps| ==> SegmentationList.Own(hyps[k]) !! LinkVars(links)
    requires forall k :: 0 <= k < |links| ==> HasFeatures(links[k].variable.features) || 0 <= links[k].variable.id < |model.numLabels|
    modifies model, LinkVars(links)
    ensures model.numLabels == old(model.numLabels) + Materialisation.Labels(Materialisation.LinkFeatures(links), |links|)
    ensures model.factors == old(model.factors) + Materialisation.LinkUnaries(Materialisation.LinkFeatures(links), |old(model.numLabels)|,
                                                                              shared, Weights.Block(c, Weights.LinkKind), |links|)
    ensures Segmentation.LinkIds(links) == Materialisation.IdsAfter(Materialisation.LinkFeatures(links), |old(model.numLabels)|,
                                                                     old(Segmentation.LinkIds(links)), |links|)
    ensures forall k :: 0 <= k < |links| ==> 0 <= links[k].variable.id < |model.numLabels|
    ensures Materialisation.DivisionIds(divisions) == old(Materialisation.DivisionIds(divisions))
    ensures SegmentationList.CurrentIds(hyps) == old(SegmentationList.CurrentIds(hyps))
  {
    ghost var divisionIds0 := Materialisation.DivisionIds(divisions);
    ghost var ids0 := SegmentationList.CurrentIds(hyps);
    forall k | 0 <= k < |divisions|
      ensures divisions[k].variable !in LinkVars(links)
    {
      assert divisions[k].variable in DivisionVars(divisions);
    }
    LinksDistinctPairwise(links);
    Materialisation.AddLinkList(links, model, shared, Weights.Block(c, Weights.LinkKind));
    assert forall k :: 0 <= k < |divisions| ==> divisions[k].variable.id == divisionIds0[k];
    assert forall k :: 0 <= k < |hyps| ==> SegmentationList.IdsOf(hyps[k]) == ids0[k];
    assert forall k :: 0 <= k < |links| ==> 0 <= links[k].variable.id < |model.numLabels| by {
      IdsAfterIn(Materialisation.LinkFeatures(links), |old(model.numLabels)|, old(Segmentation.LinkIds(links)), |links|);
    }
  }

  /**
   * Materialises the external divisions in list order from their block of weights: the
   * divisions take the next ids, and no link or hypothesis changes.
   */
  method PlaceDivisions(links: seq<Links.LinkingHypothesis>, divisions: seq<Divisions.DivisionHypothesis>,
                        hyps: seq<SegmentationList.Hypothesis>, shared: bool, c: Weights.WeightCounts, model: Model)
    requires ListAgrees(Materialisation.DivisionFeatures(divisions), shared, c.externalDivision)
    requires DivisionsDistinct(divisions)
    requires DivisionVars(divisions) !! LinkVars(links)
    requires forall k :: 0 <= k < |hyps| ==> SegmentationList.Own(hyps[k]) !! DivisionVars(divisions)
    modifies model, DivisionVars(divisions)
    ensures model.numLabels == old(model.numLabels) + Materialisation.Labels(Materialisation.DivisionFeatures(divisions), |divisions|)
    ensures model.factors == old(model.factors) +
      Materialisation.DivisionUnaries(Materialisation.DivisionFeatures(divisions), |old(model.numLabels)|,
                                      shared, Weights.Block(c, Weights.ExternalDivisionKind), |divisions|)
    ensures Materialisation.DivisionIds(divisions) == Materialisation.IdsAfter(Materialisation.DivisionFeatures(divisions), |old(model.numLabels)|,
                                                                                old(Materialisation.DivisionIds(divisions)), |divisions|)
    ensures Segmentation.LinkIds(links) == old(Segmentation.LinkIds(links))
    ensures SegmentationList.CurrentIds(hyps) == old(SegmentationList.CurrentIds(hyps))
  {
    ghost var linkIds0 := Segmentation.LinkIds(links);
    ghost var ids0 := SegmentationList.CurrentIds(hyps);
    forall k | 0 <= k < |links|
      ensures links[k].variable !in DivisionVars(divisions)
    {
      assert links[k].variable in LinkVars(links);
    }
    DivisionsDistinctPairwise(divisions);
    Materialisation.AddDivisionList(divisions, model, shared, Weights.Block(c, Weights.ExternalDivisionKind));
    assert forall k :: 0 <= k < |links| ==> links[k].variable.id == linkIds0[k];
    assert forall k :: 0 <= k < |hyps| ==> SegmentationList.IdsOf(hyps[k]) == ids0[k];
  }

  /** The label counts of the links, then the divisions, appended one after the other. */
  lemma LabelsCombine(fsL: seq<seq<seq<real>>>, fsD: seq<seq<seq<real>>>, labels0: seq<nat>, labels1: seq<nat>, labels2: seq<nat>)
    requires labels1 == labels0 + Materialisation.Labels(fsL, |fsL|)
    requires labels2 == labels1 + Materialisation.Labels(fsD, |fsD|)
    ensures labels2 == labels0 + ListLabels(fsL, fsD)
  {
    Materialisation.Concat(labels0, Materialisation.Labels(fsL, |fsL|), Materialisation.Labels(fsD, |fsD|));
  }

  /** The unaries of the links, then the divisions, appended one after the other. */
  lemma FactorsCombine(fsL: seq<seq<seq<real>>>, fsD: seq<seq<seq<real>>>, factors0: seq<Factor>, factors1: seq<Factor>,
                       factors2: seq<Factor>, shared: bool, c: Weights.WeightCounts, base: nat, base1: nat)
    requires ListAgrees(fsL, shared, c.link) && ListAgrees(fsD, shared, c.externalDivision)
    requires base1 == base + |Materialisation.Labels(fsL, |fsL|)|
    requires factors1 == factors0 + Materialisation.LinkUnaries(fsL, base, shared, Weights.Block(c, Weights.LinkKind), |fsL|)
    requires factors2 == factors1 + Materialisation.DivisionUnaries(fsD, base1, shared, Weights.Block(c, Weights.ExternalDivisionKind), |fsD|)
    ensures factors2 == factors0 + ListUnaries(fsL, fsD, base, shared, c)
  {
    Materialisation.Concat(factors0, Materialisation.LinkUnaries(fsL, base, shared, Weights.Block(c, Weights.LinkKind), |fsL|),
                           Materialisation.DivisionUnaries(fsD, base1, shared, Weights.Block(c, Weights.ExternalDivisionKind), |fsD|));
  }

  /**
   * Materialises the external divisions after the links: the model then holds the labels
   * and unaries of both lists in turn, and the links keep their ids.
   */
  method PlaceDivisionsAfter(links: seq<Links.LinkingHypothesis>, divisions: seq<Divisions.DivisionHypothesis>,
                             hyps: seq<SegmentationList.Hypothesis>, shared: bool, c: Weights.WeightCounts, model: Model,
                             ghost labels0: seq<nat>, ghost factors0: seq<Factor>, ghost base1: nat)
    requires ListAgrees(Materialisation.LinkFeatures(links), shared, c.link)
    requires ListAgrees(Materialisation.DivisionFeatures(divisions), shared, c.externalDivision)
    requires DivisionsDistinct(divisions)
    requires DivisionVars(divisions) !! LinkVars(links)
    requires forall k :: 0 <= k < |hyps| ==> SegmentationList.Own(hyps[k]) !! DivisionVars(divisions)
    requires model.numLabels == labels0 + Materialisation.Labels(Materialisation.LinkFeatures(links), |links|)
    requires model.factors == factors0 + Materialisation.LinkUnaries(Materialisation.LinkFeatures(links), |labels0|,
                                                                     shared, Weights.Block(c, Weights.LinkKind), |links|)
    requires forall k :: 0 <= k < |links| ==> 0 <= links[k].variable.id < |model.numLabels|
    requires |model.numLabels| == base1
    modifies model, DivisionVars(divisions)
    ensures model.numLabels == labels0 + ListLabels(Materialisation.LinkFeatures(links), Materialisation.DivisionFeatures(divisions))
    ensures model.factors == factors0 + ListUnaries(Materialisation.LinkFeatures(links), Materialisation.DivisionFeatures(divisions),
                                                    |labels0|, shared, c)
    ensures Materialisation.DivisionIds(divisions) ==
      Materialisation.IdsAfter(Materialisation.DivisionFeatures(divisions), base1, old(Materialisation.DivisionIds(divisions)), |divisions|)
    ensures Segmentation.LinkIds(links) == old(Segmentation.LinkIds(links))
    ensures forall k :: 0 <= k < |links| ==> 0 <= links[k].variable.id < |model.numLabels|
    ensures SegmentationList.CurrentIds(hyps) == old(SegmentationList.CurrentIds(hyps))
  {
    ghost var labels1 := model.numLabels;
    ghost var factors1 := model.factors;
    ghost var linkIds := Segmentation.LinkIds(links);
    PlaceDivisions(links, divisions, hyps, shared, c, model);
    LabelsCombine(Materialisation.LinkFeatures(links), Materialisation.DivisionFeatures(divisions), labels0, labels1, model.numLabels);
    FactorsCombine(Materialisation.LinkFeatures(links), Materialisation.DivisionFeatures(divisions), factors0, factors1, model.factors,
                   shared, c, |labels0|, |labels1|);
    assert forall k :: 0 <= k < |links| ==> links[k].variable.id == linkIds[k];
  }

  /**
   * Materialises the links in list order, then the external divisions: each list takes
   * the next ids and its kind's block of weights, every link ends up with an id, and the
   * hypotheses keep their own ids.
   */
  method PlaceLists(links: seq<Links.LinkingHypothesis>, divisions: seq<Divisions.DivisionHypothesis>,
                    hyps: seq<SegmentationList.Hypothesis>, shared: bool, c: Weights.WeightCounts, model: Model)
    requires ListAgrees(Materialisation.LinkFeatures(links), shared, c.link)
    requires ListAgrees(Materialisation.DivisionFeatures(divisions), shared, c.externalDivision)
    requires LinksDistinct(links)
    requires DivisionsDistinct(divisions)
    requires DivisionVars(divisions) !! LinkVars(links)
    requires forall k :: 0 <= k < |hyps| ==> SegmentationList.Own(hyps[k]) !! LinkVars(links)
    requires forall k :: 0 <= k < |hyps| ==> SegmentationList.Own(hyps[k]) !! DivisionVars(divisions)
    requires forall k :: 0 <= k < |links| ==> HasFeatures(links[k].variable.features) || 0 <= links[k].variable.id < |model.numLabels|
    modifies model, LinkVars(links), DivisionVars(divisions)
    ensures model.numLabels == old(model.numLabels) + ListLabels(Materialisation.LinkFeatures(links), Materialisation.DivisionFeatures(divisions))
    ensures model.factors == old(model.factors) + ListUnaries(Materialisation.LinkFeatures(links), Materialisation.DivisionFeatures(divisions),
                                                              |old(model.numLabels)|, shared, c)
    ensures Segmentation.LinkIds(links) == Materialisation.IdsAfter(Materialisation.LinkFeatures(links), |old(model.numLabels)|,
                                                                     old(Segmentation.LinkIds(links)), |links|)
    ensures Materialisation.DivisionIds(divisions) ==
      Materialisation.IdsAfter(Materialisation.DivisionFeatures(divisions),
                               |old(model.numLabels)| + LabelCount(Materialisation.LinkFeatures(links)),
                               old(Materialisation.DivisionIds(divisions)), |divisions|)
    ensures forall k :: 0 <= k < |links| ==> 0 <= links[k].variable.id < |model.numLabels|
    ensures SegmentationList.CurrentIds(hyps) == old(SegmentationList.CurrentIds(hyps))
  {
    PlaceLinks(links, divisions, hyps, shared, c, model);
    PlaceDivisionsAfter(links, divisions, hyps, shared, c, model, old(model.numLabels), old(model.factors),
                        |old(model.numLabels)| + LabelCount(Materialisation.LinkFeatures(links)));
  }

  /** Places the lists; the exclusions keep naming known hypotheses. */
  method PlaceListsKept(links: seq<Links.LinkingHypothesis>, divisions: seq<Divisions.DivisionHypothesis>,
                    hyps: seq<SegmentationList.Hypothesis>, segs: map<int, Segmentation.SegmentationHypothesis>,
                    excls: seq<Exclusions.ExclusionConstraint>, shared: bool, c: Weights.WeightCounts, model: Model)
    requires ListAgrees(Materialisation.LinkFeatures(links), shared, c.link)
    requires ListAgrees(Materialisation.DivisionFeatures(divisions), shared, c.externalDivision)
    requires LinksDistinct(links)
    requires DivisionsDistinct(divisions)
    requires DivisionVars(divisions) !! LinkVars(links)
    requires forall k :: 0 <= k < |hyps| ==> SegmentationList.Own(hyps[k]) !! LinkVars(links)
    requires forall k :: 0 <= k < |hyps| ==> SegmentationList.Own(hyps[k]) !! DivisionVars(divisions)
    requires forall k :: 0 <= k < |links| ==> HasFeatures(links[k].variable.features) || 0 <= links[k].variable.id < |model.numLabels|
    requires SegmentationList.Owned(hyps, LinkVars(links)) && MembersKnown(excls, segs)
    modifies model, LinkVars(links), DivisionVars(divisions)
    ensures SegmentationList.Owned(hyps, LinkVars(links)) && MembersKnown(excls, segs)
    ensures model.numLabels == old(model.numLabels) + ListLabels(Materialisation.LinkFeatures(links), Materialisation.DivisionFeatures(divisions))
    ensures model.factors == old(model.factors) + ListUnaries(Materialisation.LinkFeatures(links), Materialisation.DivisionFeatures(divisions),
                                                              |old(model.numLabels)|, shared, c)
    ensures Segmentation.LinkIds(links) == Materialisation.IdsAfter(Materialisation.LinkFeatures(links), |old(model.numLabels)|,
                                                                     old(Segmentation.LinkIds(links)), |links|)
    ensures Materialisation.DivisionIds(divisions) ==
      Materialisation.IdsAfter(Materialisation.DivisionFeatures(divisions),
                               |old(model.numLabels)| + LabelCount(Materialisation.LinkFeatures(links)),
                               old(Materialisation.DivisionIds(divisions)), |divisions|)
    ensures forall k :: 0 <= k < |links| ==> 0 <= links[k].variable.id < |model.numLabels|
    ensures SegmentationList.CurrentIds(hyps) == old(SegmentationList.CurrentIds(hyps))
  {
    PlaceLists(links, divisions, hyps, shared, c, model);
  }

  /** Places the lists of a ready model: what the hypotheses and exclusions need then holds. */
  method PlaceListsReady(links: seq<Links.LinkingHypothesis>, divisions: seq<Divisions.DivisionHypothesis>,
                         hyps: seq<SegmentationList.Hypothesis>, order: seq<int>, segs: map<int, Segmentation.SegmentationHypothesis>,
                         excls: seq<Exclusions.ExclusionConstraint>, shared: bool, c: Weights.WeightCounts, model: Model)
    requires Ready(links, divisions, hyps, order, segs, excls, |model.numLabels|)
    requires WeightsAgree(links, divisions, hyps, shared, c)
    modifies model, LinkVars(links), DivisionVars(divisions)
    ensures ListsPlaced(links, divisions, hyps, order, segs, excls, shared, c, model, old(model.numLabels), old(model.factors),
                        old(Segmentation.LinkIds(links)), old(Materialisation.DivisionIds(divisions)),
                        old(SegmentationList.CurrentIds(hyps))) == true
  {
    OwnsApart(hyps, DivisionVars(divisions));
    PlaceListsKept(links, divisions, hyps, segs, excls, shared, c, model);
  }

  /** The model after the hypotheses and then the exclusions: the hypotheses' labels, their factors, then the exclusions'. */
  function Placed(vs: seq<SegmentationList.View>, labels0: seq<nat>, factors0: seq<Factor>, shared: bool,
                  w: SegmentationList.WeightIds, excl: seq<Factor>): (seq<nat>, seq<Factor>)
    requires SegmentationList.AllFit(vs, |labels0|, shared, w) && SegmentationList.SucceedUpTo(vs, |vs|)
  {
    var t := SegmentationList.Target(vs, labels0, factors0, shared, w, |vs|);
    (t.0, t.1 + excl)
  }

  /** Adds the exclusions; no link, division or hypothesis changes. */
  method PlaceExclusions(links: seq<Links.LinkingHypothesis>, divisions: seq<Divisions.DivisionHypothesis>,
                         hyps: seq<SegmentationList.Hypothesis>, segs: map<int, Segmentation.SegmentationHypothesis>,
                         excls: seq<Exclusions.ExclusionConstraint>, model: Model)
    requires MembersKnown(excls, segs)
    requires forall key :: key in segs ==> 0 <= segs[key].detection.id < |model.numLabels|
    modifies model
    ensures model.numLabels == old(model.numLabels)
    ensures model.factors == old(model.factors) + ExclusionFactors(excls, segs)
    ensures SegmentationList.CurrentIds(hyps) == old(SegmentationList.CurrentIds(hyps))
    ensures SegmentationList.Views(hyps) == old(SegmentationList.Views(hyps))
    ensures Segmentation.LinkIds(links) == old(Segmentation.LinkIds(links))
    ensures Materialisation.DivisionIds(divisions) == old(Materialisation.DivisionIds(divisions))
  {
    AddExclusions(excls, model, segs);
    ViewsKept(hyps);
  }

  /**
   * Materialises the hypotheses and, when every detection got a variable, adds the
   * exclusions: the links and divisions keep their ids throughout.
   */
  method PlaceAll(links: seq<Links.LinkingHypothesis>, divisions: seq<Divisions.DivisionHypothesis>,
                  hyps: seq<SegmentationList.Hypothesis>, order: seq<int>, segs: map<int, Segmentation.SegmentationHypothesis>,
                  excls: seq<Exclusions.ExclusionConstraint>, shared: bool, c: Weights.WeightCounts, model: Model) returns (r: Outcome)
    requires SegmentationList.Owned(hyps, LinkVars(links)) && KeyedBy(hyps, order, segs) && MembersKnown(excls, segs)
    requires forall k :: 0 <= k < |hyps| ==> SegmentationList.Own(hyps[k]) !! DivisionVars(divisions)
    requires SegmentationList.AllFit(SegmentationList.Views(hyps), |model.numLabels|, shared, SegmentationWeightIds(c))
    requires forall k :: 0 <= k < |hyps| ==> SegmentationList.IdsOf(hyps[k]).detection < |model.numLabels|
    modifies model, SegmentationList.AllOwn(hyps)
    ensures r.Fail? <==> !SegmentationList.SucceedUpTo(old(SegmentationList.Views(hyps)), |hyps|)
    ensures r.Fail? ==>
      (model.numLabels, model.factors) == SegmentationList.Target(old(SegmentationList.Views(hyps)), old(model.numLabels), old(model.factors),
                                                                  shared, SegmentationWeightIds(c), SegmentationList.FirstFailure(old(SegmentationList.Views(hyps))))
    ensures r.Pass? ==> (SegmentationList.SucceedUpTo(old(SegmentationList.Views(hyps)), |hyps|) &&
      (model.numLabels, model.factors) == Placed(old(SegmentationList.Views(hyps)), old(model.numLabels), old(model.factors),
                                                 shared, SegmentationWeightIds(c), ExclusionFactors(excls, segs)))
    ensures r.Pass? ==> SegmentationList.CurrentIds(hyps) == SegmentationList.IdsAfterAll(old(SegmentationList.Views(hyps)), |old(model.numLabels)|, |hyps|)
    ensures WithIds(SegmentationList.Views(hyps), old(SegmentationList.CurrentIds(hyps))) == old(SegmentationList.Views(hyps))
    ensures Segmentation.LinkIds(links) == old(Segmentation.LinkIds(links))
    ensures Materialisation.DivisionIds(divisions) == old(Materialisation.DivisionIds(divisions))
  {
    r := PlaceHypotheses(links, divisions, hyps, order, segs, shared, c, model);
    if r.Pass? {
      PlaceExclusions(links, divisions, hyps, segs, excls, model);
    }
  }

  /** Checks that the hypotheses fit the model the lists left, then places them and the exclusions. */
  method PlaceRest(links: seq<Links.LinkingHypothesis>, divisions: seq<Divisions.DivisionHypothesis>,
                   hyps: seq<SegmentationList.Hypothesis>, order: seq<int>, segs: map<int, Segmentation.SegmentationHypothesis>,
                   excls: seq<Exclusions.ExclusionConstraint>, shared: bool, c: Weights.WeightCounts, model: Model) returns (r: Outcome)
    requires SegmentationList.Owned(hyps, LinkVars(links)) && KeyedBy(hyps, order, segs) && MembersKnown(excls, segs)
    requires forall k :: 0 <= k < |hyps| ==> SegmentationList.Own(hyps[k]) !! DivisionVars(divisions)
    requires forall k :: 0 <= k < |links| ==> 0 <= links[k].variable.id < |model.numLabels|
    requires forall k :: 0 <= k < |hyps| ==> OwnIdsBelow(SegmentationList.IdsOf(hyps[k]), |model.numLabels|)
    requires forall k :: 0 <= k < |hyps| ==> SegmentationList.WeightsFit(SegmentationList.FeaturesOf(hyps[k]), shared, SegmentationWeightIds(c))
    modifies model, SegmentationList.AllOwn(hyps)
    ensures SegmentationList.AllFit(old(SegmentationList.Views(hyps)), |old(model.numLabels)|, shared, SegmentationWeightIds(c))
    ensures r.Fail? <==> !SegmentationList.SucceedUpTo(old(SegmentationList.Views(hyps)), |hyps|)
    ensures r.Fail? ==>
      (model.numLabels, model.factors) == SegmentationList.Target(old(SegmentationList.Views(hyps)), old(model.numLabels), old(model.factors),
                                                                  shared, SegmentationWeightIds(c), SegmentationList.FirstFailure(old(SegmentationList.Views(hyps))))
    ensures r.Pass? ==> (SegmentationList.SucceedUpTo(old(SegmentationList.Views(hyps)), |hyps|) &&
      (model.numLabels, model.factors) == Placed(old(SegmentationList.Views(hyps)), old(model.numLabels), old(model.factors),
                                                 shared, SegmentationWeightIds(c), ExclusionFactors(excls, segs)))
    ensures r.Pass? ==> SegmentationList.CurrentIds(hyps) == SegmentationList.IdsAfterAll(old(SegmentationList.Views(hyps)), |old(model.numLabels)|, |hyps|)
    ensures WithIds(SegmentationList.Views(hyps), old(SegmentationList.CurrentIds(hyps))) == old(SegmentationList.Views(hyps))
    ensures Segmentation.LinkIds(links) == old(Segmentation.LinkIds(links))
    ensures Materialisation.DivisionIds(divisions) == old(Materialisation.DivisionIds(divisions))
  {
    ViewsFit(links, hyps, shared, c, |model.numLabels|);
    r := PlaceAll(links, divisions, hyps, order, segs, excls, shared, c, model);
  }

  /**
   * The model after the assembly, given the model and the ids before it: the links, then
   * the divisions took the next ids and their unaries; the hypotheses fit the model the
   * lists left; the assembly failed exactly when some detection has neither features nor
   * a variable, and then the model holds the lists' unaries and the factors of the hypotheses
   * before the first failing one, and no exclusion; on success the hypotheses took the next
   * ids, the hypotheses' factors followed the lists' unaries, and one factor per exclusion
   * came last.
   */
  ghost predicate Built(links: seq<Links.LinkingHypothesis>, divisions: seq<Divisions.DivisionHypothesis>,
                        hyps: seq<SegmentationList.Hypothesis>, segs: map<int, Segmentation.SegmentationHypothesis>,
                        excls: seq<Exclusions.ExclusionConstraint>, shared: bool, c: Weights.WeightCounts,
                        labels0: seq<nat>, factors0: seq<Factor>, linkIds0: seq<int>, divisionIds0: seq<int>,
                        ids0: seq<SegmentationList.Ids>, model: Model, r: Outcome)
    reads model, Links.VariablesOf(links), DivisionVars(divisions), (set h | h in hyps),
          SegmentationList.AllOwn(hyps), SegmentationList.AllLinkVariables(hyps), (set e | e in excls), Exclusions.Detections(segs)
  {
    WeightsAgree(links, divisions, hyps, shared, c) && MembersKnown(excls, segs) &&
    |linkIds0| == |links| && |divisionIds0| == |divisions| && |ids0| == |hyps| &&
    var fsL := Materialisation.LinkFeatures(links);
    var fsD := Materialisation.DivisionFeatures(divisions);
    var labels := labels0 + ListLabels(fsL, fsD);
    var vs := WithIds(SegmentationList.Views(hyps), ids0);
    Segmentation.LinkIds(links) == Materialisation.IdsAfter(fsL, |labels0|, linkIds0, |links|) &&
    Materialisation.DivisionIds(divisions) == Materialisation.IdsAfter(fsD, |labels0| + LabelCount(fsL), divisionIds0, |divisions|) &&
    SegmentationList.AllFit(vs, |labels|, shared, SegmentationWeightIds(c)) &&
    (r.Fail? <==> !SegmentationList.SucceedUpTo(vs, |vs|)) &&
    (r.Fail? ==>
      (model.numLabels, model.factors) ==
        SegmentationList.Target(vs, labels, factors0 + ListUnaries(fsL, fsD, |labels0|, shared, c), shared, SegmentationWeightIds(c),
                                SegmentationList.FirstFailure(vs))) &&
    (r.Pass? ==>
      SegmentationList.CurrentIds(hyps) == SegmentationList.IdsAfterAll(vs, |labels|, |vs|) &&
      (model.numLabels, model.factors) ==
        Placed(vs, labels, factors0 + ListUnaries(fsL, fsD, |labels0|, shared, c), shared, SegmentationWeightIds(c), ExclusionFactors(excls, segs)))
  }

  /** A variable of no hypothesis in a set apart from all of them. */
  lemma OwnsApart(hyps: seq<SegmentationList.Hypothesis>, vars: set<Variable>)
    requires SegmentationList.AllOwn(hyps) !! vars
    ensures forall k :: 0 <= k < |hyps| ==> SegmentationList.Own(hyps[k]) !! vars
  {
  }

  /**
   * Where the lists leave things, given the model and ids before them: the model holds
   * the lists' labels and unaries after its own, the links and divisions took the next
   * ids, and the hypotheses still own apart variables whose ids fall below the old size.
   */
  ghost predicate ListsPlaced(links: seq<Links.LinkingHypothesis>, divisions: seq<Divisions.DivisionHypothesis>,
                              hyps: seq<SegmentationList.Hypothesis>, order: seq<int>, segs: map<int, Segmentation.SegmentationHypothesis>,
                              excls: seq<Exclusions.ExclusionConstraint>, shared: bool, c: Weights.WeightCounts, model: Model,
                              labels0: seq<nat>, factors0: seq<Factor>, linkIds0: seq<int>, divisionIds0: seq<int>,
                              ids0: seq<SegmentationList.Ids>)
    reads model, Links.VariablesOf(links), DivisionVars(divisions), (set h | h in hyps), SegmentationList.AllOwn(hyps),
          (set e | e in excls)
  {
    WeightsAgree(links, divisions, hyps, shared, c) &&
    SegmentationList.Owned(hyps, LinkVars(links)) && KeyedBy(hyps, order, segs) && MembersKnown(excls, segs) &&
    (forall k :: 0 <= k < |hyps| ==> SegmentationList.Own(hyps[k]) !! DivisionVars(divisions)) &&
    |linkIds0| == |links| && |divisionIds0| == |divisions| && |ids0| == |hyps| &&
    (forall k :: 0 <= k < |hyps| ==> OwnIdsBelow(ids0[k], |labels0|)) &&
    model.numLabels == labels0 + ListLabels(Materialisation.LinkFeatures(links), Materialisation.DivisionFeatures(divisions)) &&
    model.factors == factors0 + ListUnaries(Materialisation.LinkFeatures(links), Materialisation.DivisionFeatures(divisions),
                                       |labels0|, shared, c) &&
    Segmentation.LinkIds(links) == Materialisation.IdsAfter(Materialisation.LinkFeatures(links), |labels0|, linkIds0, |links|) &&
    Materialisation.DivisionIds(divisions) ==
      Materialisation.IdsAfter(Materialisation.DivisionFeatures(divisions), |labels0| + LabelCount(Materialisation.LinkFeatures(links)),
                               divisionIds0, |divisions|) &&
    (forall k :: 0 <= k < |links| ==> 0 <= links[k].variable.id < |model.numLabels|) &&
    SegmentationList.CurrentIds(hyps) == ids0
  }

  /**
   * Once the lists are placed: places the hypotheses and the exclusions, and the model
   * is then the one built from the model and ids given.
   */
  method PlaceAfterLists(links: seq<Links.LinkingHypothesis>, divisions: seq<Divisions.DivisionHypothesis>,
                         hyps: seq<SegmentationList.Hypothesis>, order: seq<int>, segs: map<int, Segmentation.SegmentationHypothesis>,
                         excls: seq<Exclusions.ExclusionConstraint>, shared: bool, c: Weights.WeightCounts, model: Model,
                         ghost labels0: seq<nat>, ghost factors0: seq<Factor>, ghost linkIds0: seq<int>, ghost divisionIds0: seq<int>,
                         ghost ids0: seq<SegmentationList.Ids>)
    returns (r: Outcome)
    requires ListsPlaced(links, divisions, hyps, order, segs, excls, shared, c, model, labels0, factors0, linkIds0, divisionIds0, ids0) == true
    modifies model, SegmentationList.AllOwn(hyps)
    ensures Built(links, divisions, hyps, segs, excls, shared, c, labels0, factors0, linkIds0, divisionIds0, ids0, model, r)
  {
    forall k | 0 <= k < |hyps|
      ensures OwnIdsBelow(SegmentationList.IdsOf(hyps[k]), |model.numLabels|)
    {
      assert SegmentationList.IdsOf(hyps[k]) == ids0[k];
    }
    r := PlaceRest(links, divisions, hyps, order, segs, excls, shared, c, model);
  }

  /**
   * Builds the graphical model: the links, the external divisions, the segmentation
   * hypotheses in key order, and, when every detection got a variable, the exclusions.
   */
  method Materialise(links: seq<Links.LinkingHypothesis>, divisions: seq<Divisions.DivisionHypothesis>,
                     hyps: seq<SegmentationList.Hypothesis>, order: seq<int>, segs: map<int, Segmentation.SegmentationHypothesis>,
                     excls: seq<Exclusions.ExclusionConstraint>, shared: bool, c: Weights.WeightCounts, model: Model)
    returns (r: Outcome)
    requires Ready(links, divisions, hyps, order, segs, excls, |model.numLabels|)
    requires WeightsAgree(links, divisions, hyps, shared, c)
    modifies model, LinkVars(links), DivisionVars(divisions), SegmentationList.AllOwn(hyps)
    ensures Built(links, divisions, hyps, segs, excls, shared, c, old(model.numLabels), old(model.factors),
                  old(Segmentation.LinkIds(links)), old(Materialisation.DivisionIds(divisions)),
                  old(SegmentationList.CurrentIds(hyps)), model, r) == true
  {
    PlaceListsReady(links, divisions, hyps, order, segs, excls, shared, c, model);
    r := PlaceAfterLists(links, divisions, hyps, order, segs, excls, shared, c, model, old(model.numLabels), old(model.factors),
                         old(Segmentation.LinkIds(links)), old(Materialisation.DivisionIds(divisions)), old(SegmentationList.CurrentIds(hyps)));
  }
}
