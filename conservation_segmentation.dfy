/**
 * The segmentation hypothesis of the older (conservation-tracking) revision: the
 * same flow, division and exclusion constraints as the multi-hypotheses revision,
 * over binary variables with one flat feature list each, and links that carry
 * their own variable id. Its check of a labelling reads the division value
 * unconditionally and takes no exclusion into account except division versus
 * disappearance.
 */
module ConservationSegmentation {
  import opened Wrappers
  import opened GraphModel
  import opened FlowConstraints
  import opened BinaryVariables
  import BinaryLinks

  const LINK_AFTER_MATERIALISATION := "Links must be added before the segmentation hypothesis is added to the OpenGM model"
  const DETECTION_WITHOUT_FEATURES := "Detection variable must have some features!"

  /** The model ids of the links, in list order. */
  function BinaryLinkIds(links: seq<BinaryLinks.LinkingHypothesis>): (r: seq<int>)
    reads set l | l in links
    ensures |r| == |links|
    ensures forall k :: 0 <= k < |links| ==> r[k] == links[k].id
  {
    if |links| == 0 then [] else BinaryLinkIds(links[..|links| - 1]) + [links[|links| - 1].id]
  }

  /**
   * The check of a labelling against the rules of one hypothesis, in the order the
   * checks are made. The division value is read at the division id whether or not
   * the hypothesis has a division variable, so a materialised division is required.
   */
  function Verify(sol: seq<nat>, inIds: seq<int>, outIds: seq<int>, det: int, div: int, app: int, dis: int): (r: Result<bool>)
    requires forall k :: 0 <= k < |inIds| ==> inIds[k] < |sol|
    requires forall k :: 0 <= k < |outIds| ==> outIds[k] < |sol|
    requires 0 <= det < |sol| && 0 <= div < |sol| && AbsentOrIn(app, |sol|) && AbsentOrIn(dis, |sol|)
    ensures r.Err? ==> (exists k :: 0 <= k < |inIds| && inIds[k] < 0) || (exists k :: 0 <= k < |outIds| && outIds[k] < 0)
    ensures AllIn(inIds, |sol|) && AllIn(outIds, |sol|) ==> r.Ok?
    ensures r.Ok? ==> AllIn(inIds, |sol|)
    ensures r == Ok(true) ==> AllIn(outIds, |sol|)
  {
    var ownValue := sol[det];
    var divisionValue := sol[div];
    match ActiveSum(inIds, sol)
    case Err(e) => Err(e)
    case Ok(activeIncoming) =>
      var sumIncoming := activeIncoming + LabelOrZero(sol, app);
      if |inIds| > 0 && sumIncoming != ownValue then Ok(false)
      else
        match ActiveSum(outIds, sol)
        case Err(e) => Err(e)
        case Ok(activeOutgoing) =>
          var sumOutgoing := activeOutgoing + LabelOrZero(sol, dis);
          if |outIds| > 0 && sumOutgoing != ownValue + divisionValue then Ok(false)
          else if divisionValue > ownValue then Ok(false)
          else if dis >= 0 && divisionValue + sol[dis] > 1 then Ok(false)
          else Ok(true)
  }

  /** Every variable of the labelling takes label 0 or 1. */
  predicate Binary(sol: seq<nat>)
  {
    forall v :: 0 <= v < |sol| ==> sol[v] <= 1
  }

  /** A binary labelling that meets every emitted constraint passes the check. */
  lemma ConstraintsImplyVerified(numLabels: seq<nat>, sol: seq<nat>, inIds: seq<int>, outIds: seq<int>,
                                 det: int, div: int, app: int, dis: int)
    requires AllIn(inIds, |numLabels|) && AllIn(outIds, |numLabels|) && 0 <= det < |numLabels|
    requires 0 <= div < |numLabels| && AbsentOrIn(app, |numLabels|) && AbsentOrIn(dis, |numLabels|)
    requires |sol| == |numLabels| && Binary(sol)
    requires AllSatisfied(HypothesisConstraints(numLabels, inIds, outIds, det, div, app, dis), sol)
    ensures Verify(sol, inIds, outIds, det, div, app, dis) == Ok(true)
  {
    HypothesisConstraintsMeaning(numLabels, inIds, outIds, det, div, app, dis, sol);
    assert sol[div] <= 1 && sol[det] <= 1;
    assert sol[div] <= sol[det];
    assert dis >= 0 ==> sol[div] + sol[dis] <= 1;
    assert ActiveSum(inIds, sol) == Ok(SumAt(sol, inIds));
    assert ActiveSum(outIds, sol) == Ok(SumAt(sol, outIds));
  }

  /**
   * Conversely, a binary labelling that passes the check meets every emitted
   * constraint, provided a flow constraint exists only where the check compares
   * sums: links on that side, or no appearance / disappearance variable.
   */
  lemma VerifiedImpliesConstraints(numLabels: seq<nat>, sol: seq<nat>, inIds: seq<int>, outIds: seq<int>,
                                   det: int, div: int, app: int, dis: int)
    requires AllIn(inIds, |numLabels|) && AllIn(outIds, |numLabels|) && 0 <= det < |numLabels|
    requires 0 <= div < |numLabels| && AbsentOrIn(app, |numLabels|) && AbsentOrIn(dis, |numLabels|)
    requires |sol| == |numLabels| && Binary(sol)
    requires Verify(sol, inIds, outIds, det, div, app, dis) == Ok(true)
    requires |inIds| > 0 || app < 0
    requires |outIds| > 0 || dis < 0
    ensures AllSatisfied(HypothesisConstraints(numLabels, inIds, outIds, det, div, app, dis), sol)
  {
    assert ActiveSum(inIds, sol) == Ok(SumAt(sol, inIds));
    assert ActiveSum(outIds, sol) == Ok(SumAt(sol, outIds));
    assert sol[div] <= 1 && sol[det] <= 1;
    assert IncomingRule(sol, inIds, det, app);
    assert OutgoingRule(sol, outIds, det, div, dis);
    assert ExcludesAll(sol, app, inIds) by {
      SumAtZero(sol, inIds);
    }
    assert ExcludesAll(sol, dis, outIds) by {
      SumAtZero(sol, outIds);
    }
    HypothesisConstraintsMeaning(numLabels, inIds, outIds, det, div, app, dis, sol);
  }

  class SegmentationHypothesis {
    var id: int
    const detection: BinaryVariable
    const division: BinaryVariable
    const appearance: BinaryVariable
    const disappearance: BinaryVariable
    var incomingLinks: seq<BinaryLinks.LinkingHypothesis>
    var outgoingLinks: seq<BinaryLinks.LinkingHypothesis>

    /** The four variables are distinct objects. */
    predicate Valid()
      reads this
    {
      detection != division && detection != appearance && detection != disappearance &&
      division != appearance && division != disappearance && appearance != disappearance
    }

    /** No variable is materialised yet, and there are no links. */
    constructor (id: int, detectionFeatures: seq<real>, divisionFeatures: seq<real>,
                 appearanceFeatures: seq<real>, disappearanceFeatures: seq<real>)
      ensures this.id == id && Valid()
      ensures fresh(detection) && detection.features == detectionFeatures && detection.id == -1
      ensures fresh(division) && division.features == divisionFeatures && division.id == -1
      ensures fresh(appearance) && appearance.features == appearanceFeatures && appearance.id == -1
      ensures fresh(disappearance) && disappearance.features == disappearanceFeatures && disappearance.id == -1
      ensures incomingLinks == [] && outgoingLinks == []
    {
      this.id := id;
      detection := new BinaryVariable(detectionFeatures);
      division := new BinaryVariable(divisionFeatures);
      appearance := new BinaryVariable(appearanceFeatures);
      disappearance := new BinaryVariable(disappearanceFeatures);
      incomingLinks := [];
      outgoingLinks := [];
    }

    /** Links can only be added before the detection is materialised; a missing link is ignored. */
    method AddIncomingLink(link: BinaryLinks.LinkingHypothesis?) returns (r: Outcome)
      modifies this
      ensures detection.id >= 0 ==> r.Fail? && incomingLinks == old(incomingLinks)
      ensures detection.id < 0 ==> r == Pass
      ensures detection.id < 0 && link != null ==> incomingLinks == old(incomingLinks) + [link]
      ensures detection.id < 0 && link == null ==> incomingLinks == old(incomingLinks)
      ensures id == old(id) && outgoingLinks == old(outgoingLinks)
    {
      if detection.id >= 0 {
        return Fail(LINK_AFTER_MATERIALISATION);
      }
      if link != null {
        incomingLinks := incomingLinks + [link];
      }
      return Pass;
    }

    method AddOutgoingLink(link: BinaryLinks.LinkingHypothesis?) returns (r: Outcome)
      modifies this
      ensures detection.id >= 0 ==> r.Fail? && outgoingLinks == old(outgoingLinks)
      ensures detection.id < 0 ==> r == Pass
      ensures detection.id < 0 && link != null ==> outgoingLinks == old(outgoingLinks) + [link]
      ensures detection.id < 0 && link == null ==> outgoingLinks == old(outgoingLinks)
      ensures id == old(id) && incomingLinks == old(incomingLinks)
    {
      if detection.id >= 0 {
        return Fail(LINK_AFTER_MATERIALISATION);
      }
      if link != null {
        outgoingLinks := outgoingLinks + [link];
      }
      return Pass;
    }

    /**
     * Materialises detection, division, appearance and disappearance, in that order,
     * then emits the hypothesis' constraints over the (already materialised) links.
     * Fails, having added nothing, when the detection has no features and no id.
     * The link ids are read first; the links are not among the hypothesis' own
     * variables, so materialising those does not change them.
     */
    method AddToModel(model: Model, detectionIds: seq<nat>, divisionIds: seq<nat>,
                      appearanceIds: seq<nat>, disappearanceIds: seq<nat>) returns (r: Outcome)
      requires Valid()
      requires AllIn(BinaryLinkIds(incomingLinks), |model.numLabels|) && AllIn(BinaryLinkIds(outgoingLinks), |model.numLabels|)
      requires AbsentOrIn(detection.id, |model.numLabels|) && AbsentOrIn(division.id, |model.numLabels|)
      requires AbsentOrIn(appearance.id, |model.numLabels|) && AbsentOrIn(disappearance.id, |model.numLabels|)
      requires |detection.features| > 0 ==> |detectionIds| == 2 * |detection.features|
      requires |division.features| > 0 ==> |divisionIds| == 2 * |division.features|
      requires |appearance.features| > 0 ==> |appearanceIds| == 2 * |appearance.features|
      requires |disappearance.features| > 0 ==> |disappearanceIds| == 2 * |disappearance.features|
      modifies detection, division, appearance, disappearance, model
      ensures detection.features == old(detection.features) && division.features == old(division.features)
      ensures appearance.features == old(appearance.features) && disappearance.features == old(disappearance.features)
      ensures r.Fail? <==> |detection.features| == 0 && old(detection.id) < 0
      ensures r.Fail? ==>
        detection.id == old(detection.id) && division.id == old(division.id) &&
        appearance.id == old(appearance.id) && disappearance.id == old(disappearance.id) &&
        model.numLabels == old(model.numLabels) && model.factors == old(model.factors)
      ensures r.Pass? ==>
        model.numLabels == old(model.numLabels) + BinaryLabelsOf(detection.features) + BinaryLabelsOf(division.features) +
                           BinaryLabelsOf(appearance.features) + BinaryLabelsOf(disappearance.features)
      ensures r.Pass? ==> detection.id == BinaryIdAfter(detection.features, |old(model.numLabels)|, old(detection.id))
      ensures r.Pass? ==> division.id == BinaryIdAfter(division.features, |old(model.numLabels) + BinaryLabelsOf(detection.features)|, old(division.id))
      ensures r.Pass? ==> appearance.id == BinaryIdAfter(appearance.features, |old(model.numLabels) + BinaryLabelsOf(detection.features) + BinaryLabelsOf(division.features)|, old(appearance.id))
      ensures r.Pass? ==> disappearance.id == BinaryIdAfter(disappearance.features, |old(model.numLabels) + BinaryLabelsOf(detection.features) + BinaryLabelsOf(division.features) + BinaryLabelsOf(appearance.features)|, old(disappearance.id))
      ensures r.Pass? ==>
        0 <= detection.id < |model.numLabels| && AbsentOrIn(division.id, |model.numLabels|) &&
        AbsentOrIn(appearance.id, |model.numLabels|) && AbsentOrIn(disappearance.id, |model.numLabels|) &&
        (|division.features| > 0 ==> division.id >= 0) &&
        (|appearance.features| > 0 ==> appearance.id >= 0) &&
        (|disappearance.features| > 0 ==> disappearance.id >= 0)
      ensures r.Pass? ==>
        model.factors == old(model.factors) +
          BinaryUnariesOf(detection.features, detection.id, detectionIds) +
          BinaryUnariesOf(division.features, division.id, divisionIds) +
          BinaryUnariesOf(appearance.features, appearance.id, appearanceIds) +
          BinaryUnariesOf(disappearance.features, disappearance.id, disappearanceIds) +
          HypothesisConstraints(model.numLabels, old(BinaryLinkIds(incomingLinks)), old(BinaryLinkIds(outgoingLinks)),
                                detection.id, division.id, appearance.id, disappearance.id)
    {
      var inIds := BinaryLinkIds(incomingLinks);
      var outIds := BinaryLinkIds(outgoingLinks);
      r := AddVariablesToModel(model, detectionIds, divisionIds, appearanceIds, disappearanceIds);
      if r.Fail? {
        return;
      }
      AllInGrows(inIds, |old(model.numLabels)|, |model.numLabels|);
      AllInGrows(outIds, |old(model.numLabels)|, |model.numLabels|);
      AddHypothesisConstraints(model, inIds, outIds, detection.id, division.id, appearance.id, disappearance.id);
    }

    /** The materialisation steps of AddToModel, up to and including the check on the detection. */
    method AddVariablesToModel(model: Model, detectionIds: seq<nat>, divisionIds: seq<nat>,
                               appearanceIds: seq<nat>, disappearanceIds: seq<nat>) returns (r: Outcome)
      requires Valid()
      requires AbsentOrIn(detection.id, |model.numLabels|) && AbsentOrIn(division.id, |model.numLabels|)
      requires AbsentOrIn(appearance.id, |model.numLabels|) && AbsentOrIn(disappearance.id, |model.numLabels|)
      requires |detection.features| > 0 ==> |detectionIds| == 2 * |detection.features|
      requires |division.features| > 0 ==> |divisionIds| == 2 * |division.features|
      requires |appearance.features| > 0 ==> |appearanceIds| == 2 * |appearance.features|
      requires |disappearance.features| > 0 ==> |disappearanceIds| == 2 * |disappearance.features|
      modifies detection, division, appearance, disappearance, model
      ensures detection.features == old(detection.features) && division.features == old(division.features)
      ensures appearance.features == old(appearance.features) && disappearance.features == old(disappearance.features)
      ensures r.Fail? <==> |detection.features| == 0 && old(detection.id) < 0
      ensures r.Fail? ==>
        detection.id == old(detection.id) && division.id == old(division.id) &&
        appearance.id == old(appearance.id) && disappearance.id == old(disappearance.id) &&
        model.numLabels == old(model.numLabels) && model.factors == old(model.factors)
      ensures r.Pass? ==>
        model.numLabels == old(model.numLabels) + BinaryLabelsOf(detection.features) + BinaryLabelsOf(division.features) +
                           BinaryLabelsOf(appearance.features) + BinaryLabelsOf(disappearance.features)
      ensures r.Pass? ==> detection.id == BinaryIdAfter(detection.features, |old(model.numLabels)|, old(detection.id))
      ensures r.Pass? ==> division.id == BinaryIdAfter(division.features, |old(model.numLabels) + BinaryLabelsOf(detection.features)|, old(division.id))
      ensures r.Pass? ==> appearance.id == BinaryIdAfter(appearance.features, |old(model.numLabels) + BinaryLabelsOf(detection.features) + BinaryLabelsOf(division.features)|, old(appearance.id))
      ensures r.Pass? ==> disappearance.id == BinaryIdAfter(disappearance.features, |old(model.numLabels) + BinaryLabelsOf(detection.features) + BinaryLabelsOf(division.features) + BinaryLabelsOf(appearance.features)|, old(disappearance.id))
      ensures r.Pass? ==>
        0 <= detection.id < |model.numLabels| && AbsentOrIn(division.id, |model.numLabels|) &&
        AbsentOrIn(appearance.id, |model.numLabels|) && AbsentOrIn(disappearance.id, |model.numLabels|) &&
        (|division.features| > 0 ==> division.id >= 0) &&
        (|appearance.features| > 0 ==> appearance.id >= 0) &&
        (|disappearance.features| > 0 ==> disappearance.id >= 0)
      ensures r.Pass? ==>
        model.factors == old(model.factors) +
          BinaryUnariesOf(detection.features, detection.id, detectionIds) +
          BinaryUnariesOf(division.features, division.id, divisionIds) +
          BinaryUnariesOf(appearance.features, appearance.id, appearanceIds) +
          BinaryUnariesOf(disappearance.features, disappearance.id, disappearanceIds)
    {
      detection.AddToModel(model, detectionIds);
      if detection.id < 0 {
        return Fail(DETECTION_WITHOUT_FEATURES);
      }
      AddOptionalVariables(model, divisionIds, appearanceIds, disappearanceIds);
      return Pass;
    }

    /** Materialises division, appearance and disappearance, in that order. */
    method AddOptionalVariables(model: Model, divisionIds: seq<nat>, appearanceIds: seq<nat>, disappearanceIds: seq<nat>)
      requires Valid()
      requires AbsentOrIn(division.id, |model.numLabels|)
      requires AbsentOrIn(appearance.id, |model.numLabels|) && AbsentOrIn(disappearance.id, |model.numLabels|)
      requires |division.features| > 0 ==> |divisionIds| == 2 * |division.features|
      requires |appearance.features| > 0 ==> |appearanceIds| == 2 * |appearance.features|
      requires |disappearance.features| > 0 ==> |disappearanceIds| == 2 * |disappearance.features|
      modifies division, appearance, disappearance, model
      ensures division.features == old(division.features)
      ensures appearance.features == old(appearance.features) && disappearance.features == old(disappearance.features)
      ensures model.numLabels == old(model.numLabels) + BinaryLabelsOf(division.features) +
                                 BinaryLabelsOf(appearance.features) + BinaryLabelsOf(disappearance.features)
      ensures division.id == BinaryIdAfter(division.features, |old(model.numLabels)|, old(division.id))
      ensures appearance.id == BinaryIdAfter(appearance.features, |old(model.numLabels) + BinaryLabelsOf(division.features)|, old(appearance.id))
      ensures disappearance.id == BinaryIdAfter(disappearance.features, |old(model.numLabels) + BinaryLabelsOf(division.features) + BinaryLabelsOf(appearance.features)|, old(disappearance.id))
      ensures AbsentOrIn(division.id, |model.numLabels|) &&
        AbsentOrIn(appearance.id, |model.numLabels|) && AbsentOrIn(disappearance.id, |model.numLabels|) &&
        (|division.features| > 0 ==> division.id >= 0) &&
        (|appearance.features| > 0 ==> appearance.id >= 0) &&
        (|disappearance.features| > 0 ==> disappearance.id >= 0)
      ensures model.factors == old(model.factors) +
          BinaryUnariesOf(division.features, division.id, divisionIds) +
          BinaryUnariesOf(appearance.features, appearance.id, appearanceIds) +
          BinaryUnariesOf(disappearance.features, disappearance.id, disappearanceIds)
    {
      division.AddToModel(model, divisionIds);
      AddBoundaryVariables(model, appearanceIds, disappearanceIds);
    }

    /** Materialises appearance and disappearance, in that order. */
    method AddBoundaryVariables(model: Model, appearanceIds: seq<nat>, disappearanceIds: seq<nat>)
      requires appearance != disappearance
      requires AbsentOrIn(appearance.id, |model.numLabels|) && AbsentOrIn(disappearance.id, |model.numLabels|)
      requires |appearance.features| > 0 ==> |appearanceIds| == 2 * |appearance.features|
      requires |disappearance.features| > 0 ==> |disappearanceIds| == 2 * |disappearance.features|
      modifies appearance, disappearance, model
      ensures appearance.features == old(appearance.features) && disappearance.features == old(disappearance.features)
      ensures model.numLabels == old(model.numLabels) + BinaryLabelsOf(appearance.features) + BinaryLabelsOf(disappearance.features)
      ensures appearance.id == BinaryIdAfter(appearance.features, |old(model.numLabels)|, old(appearance.id))
      ensures disappearance.id == BinaryIdAfter(disappearance.features, |old(model.numLabels) + BinaryLabelsOf(appearance.features)|, old(disappearance.id))
      ensures AbsentOrIn(appearance.id, |model.numLabels|) && AbsentOrIn(disappearance.id, |model.numLabels|) &&
        (|appearance.features| > 0 ==> appearance.id >= 0) &&
        (|disappearance.features| > 0 ==> disappearance.id >= 0)
      ensures model.factors == old(model.factors) +
          BinaryUnariesOf(appearance.features, appearance.id, appearanceIds) +
          BinaryUnariesOf(disappearance.features, disappearance.id, disappearanceIds)
    {
      appearance.AddToModel(model, appearanceIds);
      disappearance.AddToModel(model, disappearanceIds);
    }
  }
}
