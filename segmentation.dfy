/**
 * The segmentation hypothesis of the multi-hypotheses revision: a detection with
 * optional division, appearance and disappearance variables, the links into and
 * out of it, and the flow, division and exclusion constraints it imposes.
 */
module Segmentation {
  import opened Wrappers
  import opened GraphModel
  import opened Variables
  import opened FlowConstraints
  import Links
  import Divisions

  const LINK_AFTER_MATERIALISATION := "Links must be added before the segmentation hypothesis is added to the OpenGM model"
  const DETECTION_WITHOUT_FEATURES := "Detection variable must have some features!"

  /** The model ids of the links' variables, in list order. */
  function LinkIds(links: seq<Links.LinkingHypothesis>): (r: seq<int>)
    reads Links.VariablesOf(links)
    ensures |r| == |links|
    ensures forall k :: 0 <= k < |links| ==> r[k] == links[k].variable.id
  {
    if |links| == 0 then [] else LinkIds(links[..|links| - 1]) + [links[|links| - 1].variable.id]
  }

  /**
   * The check of a labelling against the rules of one hypothesis, in the order the
   * checks are made: an unmaterialised link (negative id) fails the sum it is part of;
   * a check that fails answers false before any later sum is taken.
   */
  function Verify(sol: seq<nat>, inIds: seq<int>, outIds: seq<int>, det: int, div: int, app: int, dis: int): (r: Result<bool>)
    requires forall k :: 0 <= k < |inIds| ==> inIds[k] < |sol|
    requires forall k :: 0 <= k < |outIds| ==> outIds[k] < |sol|
    requires 0 <= det < |sol| && AbsentOrIn(div, |sol|) && AbsentOrIn(app, |sol|) && AbsentOrIn(dis, |sol|)
    ensures r.Err? ==> (exists k :: 0 <= k < |inIds| && inIds[k] < 0) || (exists k :: 0 <= k < |outIds| && outIds[k] < 0)
    ensures AllIn(inIds, |sol|) && AllIn(outIds, |sol|) ==> r.Ok?
    ensures r.Ok? ==> AllIn(inIds, |sol|)
    ensures r == Ok(true) ==> AllIn(outIds, |sol|)
  {
    var ownValue := sol[det];
    var divisionValue := LabelOrZero(sol, div);
    match ActiveSum(inIds, sol)
    case Err(e) => Err(e)
    case Ok(sumIncoming) =>
      if app >= 0 && sol[app] > 0 && sumIncoming > 0 then Ok(false)
      else if |inIds| > 0 && sumIncoming + LabelOrZero(sol, app) != ownValue then Ok(false)
      else VerifyOutgoing(sol, outIds, det, div, dis)
  }

  /** The checks of Verify from the outgoing sum on. */
  function VerifyOutgoing(sol: seq<nat>, outIds: seq<int>, det: int, div: int, dis: int): Result<bool>
    requires forall k :: 0 <= k < |outIds| ==> outIds[k] < |sol|
    requires 0 <= det < |sol| && AbsentOrIn(div, |sol|) && AbsentOrIn(dis, |sol|)
  {
    var ownValue := sol[det];
    var divisionValue := LabelOrZero(sol, div);
    match ActiveSum(outIds, sol)
    case Err(e) => Err(e)
    case Ok(sumOutgoing) =>
      if dis >= 0 && sol[dis] > 0 && sumOutgoing > 0 then Ok(false)
      else if |outIds| > 0 && sumOutgoing + LabelOrZero(sol, dis) != ownValue + divisionValue then Ok(false)
      else if divisionValue > ownValue then Ok(false)
      else if dis >= 0 && divisionValue > 0 && sol[dis] > 0 then Ok(false)
      else Ok(true)
  }

  /**
   * A labelling that meets every constraint the hypothesis emits passes the check,
   * provided the division variable (if any) takes label 0 or 1.
   */
  lemma ConstraintsImplyVerified(numLabels: seq<nat>, sol: seq<nat>, inIds: seq<int>, outIds: seq<int>,
                                 det: int, div: int, app: int, dis: int)
    requires AllIn(inIds, |numLabels|) && AllIn(outIds, |numLabels|) && 0 <= det < |numLabels|
    requires AbsentOrIn(div, |numLabels|) && AbsentOrIn(app, |numLabels|) && AbsentOrIn(dis, |numLabels|)
    requires |sol| == |numLabels|
    requires AllSatisfied(HypothesisConstraints(numLabels, inIds, outIds, det, div, app, dis), sol)
    requires div >= 0 ==> sol[div] <= 1
    ensures Verify(sol, inIds, outIds, det, div, app, dis) == Ok(true)
  {
    HypothesisConstraintsMeaning(numLabels, inIds, outIds, det, div, app, dis, sol);
    assert FlowRules(sol, inIds, outIds, det, div, app, dis);
    assert ActiveSum(inIds, sol) == Ok(SumAt(sol, inIds));
    assert ActiveSum(outIds, sol) == Ok(SumAt(sol, outIds));
    assert app >= 0 && sol[app] > 0 ==> SumAt(sol, inIds) == 0 by {
      SumAtZero(sol, inIds);
    }
    assert dis >= 0 && sol[dis] > 0 ==> SumAt(sol, outIds) == 0 by {
      SumAtZero(sol, outIds);
    }
    assert VerifyOutgoing(sol, outIds, det, div, dis) == Ok(true);
  }

  /**
   * Conversely, a labelling that passes the check meets every emitted constraint when
   * a flow constraint exists only where the check compares sums (links on that side,
   * or no appearance / disappearance variable) and a dividing detection is binary.
   */
  lemma VerifiedImpliesConstraints(numLabels: seq<nat>, sol: seq<nat>, inIds: seq<int>, outIds: seq<int>,
                                   det: int, div: int, app: int, dis: int)
    requires AllIn(inIds, |numLabels|) && AllIn(outIds, |numLabels|) && 0 <= det < |numLabels|
    requires AbsentOrIn(div, |numLabels|) && AbsentOrIn(app, |numLabels|) && AbsentOrIn(dis, |numLabels|)
    requires |sol| == |numLabels|
    requires Verify(sol, inIds, outIds, det, div, app, dis) == Ok(true)
    requires |inIds| > 0 || app < 0
    requires |outIds| > 0 || dis < 0
    requires div >= 0 ==> sol[det] <= 1 && sol[div] <= 1
    ensures AllSatisfied(HypothesisConstraints(numLabels, inIds, outIds, det, div, app, dis), sol)
  {
    assert ActiveSum(inIds, sol) == Ok(SumAt(sol, inIds));
    assert ActiveSum(outIds, sol) == Ok(SumAt(sol, outIds));
    assert IncomingRule(sol, inIds, det, app);
    assert OutgoingRule(sol, outIds, det, div, dis);
    assert ExcludesAll(sol, app, inIds) by {
      SumAtZero(sol, inIds);
    }
    assert ExcludesAll(sol, dis, outIds) by {
      SumAtZero(sol, outIds);
    }
    HypothesisConstraintsMeaning(numLabels, inIds, outIds, det, div, app, dis, sol);
  }

  /**
   * The check is weaker than the constraints: an active detection with an appearance
   * variable in state 0 and no incoming links passes, although its incoming constraint
   * (appearance = detection) is violated.
   */
  lemma VerifyAcceptsUnfedDetection()
    ensures Verify([1, 0], [], [], 0, -1, 1, -1) == Ok(true)
    ensures !AllSatisfied(HypothesisConstraints([2, 2], [], [], 0, -1, 1, -1), [1, 0])
  {
    HypothesisConstraintsMeaning([2, 2], [], [], 0, -1, 1, -1, [1, 0]);
  }

  /**
   * The number of active links: the labels of the links' variables added up in
   * list order; the first link without a variable id throws.
   */
  method SumActiveLinks(links: seq<Links.LinkingHypothesis>, sol: seq<nat>) returns (r: Result<nat>)
    requires forall k :: 0 <= k < |links| ==> links[k].variable.id < |sol|
    ensures r == ActiveSum(LinkIds(links), sol)
  {
    var ids := LinkIds(links);
    var sum := 0;
    var i := 0;
    while i < |links|
      invariant 0 <= i <= |links|
      invariant AllIn(ids[..i], |sol|)
      invariant sum == SumAt(sol, ids[..i])
    {
      var id := links[i].variable.id;
      if id < 0 {
        return Err(UNMATERIALISED_LINK);
      }
      assert ids[..i + 1][..i] == ids[..i];
      sum := sum + sol[id];
      i := i + 1;
    }
    assert ids[..i] == ids;
    return Ok(sum);
  }

  class SegmentationHypothesis {
    var id: int
    const detection: Variable
    const division: Variable
    const appearance: Variable
    const disappearance: Variable
    var incomingLinks: seq<Links.LinkingHypothesis>
    var outgoingLinks: seq<Links.LinkingHypothesis>
    var incomingDivisions: seq<Divisions.DivisionHypothesis>
    var outgoingDivisions: seq<Divisions.DivisionHypothesis>

    /** The four variables are distinct, and no link shares a variable with them. */
    predicate Valid()
      reads this
    {
      detection != division && detection != appearance && detection != disappearance &&
      division != appearance && division != disappearance && appearance != disappearance &&
      (forall k :: 0 <= k < |incomingLinks| ==> incomingLinks[k].variable !in {detection, division, appearance, disappearance}) &&
      (forall k :: 0 <= k < |outgoingLinks| ==> outgoingLinks[k].variable !in {detection, division, appearance, disappearance})
    }

    /** No variable is materialised yet, and there are no links or divisions. */
    constructor (id: int, detectionFeatures: seq<seq<real>>, divisionFeatures: seq<seq<real>>,
                 appearanceFeatures: seq<seq<real>>, disappearanceFeatures: seq<seq<real>>)
      ensures this.id == id && Valid()
      ensures fresh(detection) && detection.features == detectionFeatures && detection.id == -1
      ensures fresh(division) && division.features == divisionFeatures && division.id == -1
      ensures fresh(appearance) && appearance.features == appearanceFeatures && appearance.id == -1
      ensures fresh(disappearance) && disappearance.features == disappearanceFeatures && disappearance.id == -1
      ensures incomingLinks == [] && outgoingLinks == [] && incomingDivisions == [] && outgoingDivisions == []
    {
      this.id := id;
      detection := new Variable(detectionFeatures);
      division := new Variable(divisionFeatures);
      appearance := new Variable(appearanceFeatures);
      disappearance := new Variable(disappearanceFeatures);
      incomingLinks := [];
      outgoingLinks := [];
      incomingDivisions := [];
      outgoingDivisions := [];
    }

    /** Links can only be added before the detection is materialised; a missing link is ignored. */
    method AddIncomingLink(link: Links.LinkingHypothesis?) returns (r: Outcome)
      modifies this
      ensures detection.id >= 0 ==> r.Fail? && incomingLinks == old(incomingLinks)
      ensures detection.id < 0 ==> r == Pass
      ensures detection.id < 0 && link != null ==> incomingLinks == old(incomingLinks) + [link]
      ensures detection.id < 0 && link == null ==> incomingLinks == old(incomingLinks)
      ensures id == old(id) && outgoingLinks == old(outgoingLinks)
      ensures incomingDivisions == old(incomingDivisions) && outgoingDivisions == old(outgoingDivisions)
    {
      if detection.id >= 0 {
        return Fail(LINK_AFTER_MATERIALISATION);
      }
      if link != null {
        incomingLinks := incomingLinks + [link];
      }
      return Pass;
    }

    method AddOutgoingLink(link: Links.LinkingHypothesis?) returns (r: Outcome)
      modifies this
      ensures detection.id >= 0 ==> r.Fail? && outgoingLinks == old(outgoingLinks)
      ensures detection.id < 0 ==> r == Pass
      ensures detection.id < 0 && link != null ==> outgoingLinks == old(outgoingLinks) + [link]
      ensures detection.id < 0 && link == null ==> outgoingLinks == old(outgoingLinks)
      ensures id == old(id) && incomingLinks == old(incomingLinks)
      ensures incomingDivisions == old(incomingDivisions) && outgoingDivisions == old(outgoingDivisions)
    {
      if detection.id >= 0 {
        return Fail(LINK_AFTER_MATERIALISATION);
      }
      if link != null {
        outgoingLinks := outgoingLinks + [link];
      }
      return Pass;
    }

    /** The variables of all links into and out of the hypothesis. */
    function LinkVariables(): set<Variable>
      reads this
    {
      Links.VariablesOf(incomingLinks) + Links.VariablesOf(outgoingLinks)
    }

    /** Every link variable and every materialised own variable has an id below n. */
    predicate IdsBelow(n: nat)
      reads this, LinkVariables(), detection, division, appearance, disappearance
    {
      (forall k :: 0 <= k < |incomingLinks| ==> incomingLinks[k].variable.id < n) &&
      (forall k :: 0 <= k < |outgoingLinks| ==> outgoingLinks[k].variable.id < n) &&
      0 <= detection.id < n && AbsentOrIn(division.id, n) && AbsentOrIn(appearance.id, n) && AbsentOrIn(disappearance.id, n)
    }

    /** The check of a labelling, on the current ids of the hypothesis' variables and links. */
    function Check(sol: seq<nat>): Result<bool>
      requires IdsBelow(|sol|)
      reads this, LinkVariables(), detection, division, appearance, disappearance
    {
      Verify(sol, LinkIds(incomingLinks), LinkIds(outgoingLinks), detection.id, division.id, appearance.id, disappearance.id)
    }

    method NumActiveIncomingLinks(sol: seq<nat>) returns (r: Result<nat>)
      requires forall k :: 0 <= k < |incomingLinks| ==> incomingLinks[k].variable.id < |sol|
      ensures r == ActiveSum(LinkIds(incomingLinks), sol)
    {
      r := SumActiveLinks(incomingLinks, sol);
    }

    method NumActiveOutgoingLinks(sol: seq<nat>) returns (r: Result<nat>)
      requires forall k :: 0 <= k < |outgoingLinks| ==> outgoingLinks[k].variable.id < |sol|
      ensures r == ActiveSum(LinkIds(outgoingLinks), sol)
    {
      r := SumActiveLinks(outgoingLinks, sol);
    }

    /**
     * The check of a labelling as the hypothesis makes it: the sums are taken
     * through the link loops, and the first failed comparison answers false.
     */
    method VerifySolution(sol: seq<nat>) returns (r: Result<bool>)
      requires IdsBelow(|sol|)
      ensures r == Check(sol)
    {
      var incoming := NumActiveIncomingLinks(sol);
      if incoming.Err? {
        return Err(incoming.message);
      }
      r := VerifyIncomingSum(sol, incoming.value);
    }

    /** The part of VerifySolution from the incoming sum on, given that sum. */
    method VerifyIncomingSum(sol: seq<nat>, sum: nat) returns (r: Result<bool>)
      requires IdsBelow(|sol|) && ActiveSum(LinkIds(incomingLinks), sol) == Ok(sum)
      ensures r == Check(sol)
    {
      var det, app := detection.id, appearance.id;
      ghost var inIds, outIds := LinkIds(incomingLinks), LinkIds(outgoingLinks);
      var sumIncoming := sum;
      if app >= 0 {
        if sol[app] > 0 && sumIncoming > 0 {
          return Ok(false);
        }
        sumIncoming := sumIncoming + sol[app];
      }
      if |incomingLinks| > 0 && sumIncoming != sol[det] {
        return Ok(false);
      }
      r := VerifyOutgoingLinks(sol);
      assert LinkIds(incomingLinks) == inIds && LinkIds(outgoingLinks) == outIds;
    }

    /** The part of VerifySolution from the outgoing sum on. */
    method VerifyOutgoingLinks(sol: seq<nat>) returns (r: Result<bool>)
      requires IdsBelow(|sol|)
      ensures r == VerifyOutgoing(sol, LinkIds(outgoingLinks), detection.id, division.id, disappearance.id)
    {
      var det, div, dis := detection.id, division.id, disappearance.id;
      var ownValue := sol[det];
      var divisionValue := 0;
      if div >= 0 {
        divisionValue := sol[div];
      }
      var outgoing := NumActiveOutgoingLinks(sol);
      if outgoing.Err? {
        return Err(outgoing.message);
      }
      var sumOutgoing := outgoing.value;
      if dis >= 0 {
        if sol[dis] > 0 && sumOutgoing > 0 {
          return Ok(false);
        }
        sumOutgoing := sumOutgoing + sol[dis];
      }
      if |outgoingLinks| > 0 && sumOutgoing != ownValue + divisionValue {
        return Ok(false);
      }
      if divisionValue > ownValue {
        return Ok(false);
      }
      if dis >= 0 && divisionValue > 0 && sol[dis] > 0 {
        return Ok(false);
      }
      return Ok(true);
    }

    /** Records a division into this detection (appended like a link, without a check). */
    method AddIncomingDivision(d: Divisions.DivisionHypothesis)
      modifies this
      ensures incomingDivisions == old(incomingDivisions) + [d]
      ensures id == old(id) && incomingLinks == old(incomingLinks) && outgoingLinks == old(outgoingLinks)
      ensures outgoingDivisions == old(outgoingDivisions)
    {
      incomingDivisions := incomingDivisions + [d];
    }

    /** Records a division of this detection (appended like a link, without a check). */
    method AddOutgoingDivision(d: Divisions.DivisionHypothesis)
      modifies this
      ensures outgoingDivisions == old(outgoingDivisions) + [d]
      ensures id == old(id) && incomingLinks == old(incomingLinks) && outgoingLinks == old(outgoingLinks)
      ensures incomingDivisions == old(incomingDivisions)
    {
      outgoingDivisions := outgoingDivisions + [d];
    }

    /**
     * Materialises detection, division, appearance and disappearance, in that order,
     * then emits the hypothesis' constraints over the (already materialised) links.
     * Fails, having added nothing, when the detection has no features and no id.
     * The link ids are read first: the links own their variables, so materialising
     * the hypothesis' own four variables does not change them.
     */
    method AddToModel(model: Model, shared: bool, detectionIds: seq<nat>, divisionIds: seq<nat>,
                      appearanceIds: seq<nat>, disappearanceIds: seq<nat>) returns (r: Outcome)
      requires Valid()
      requires AllIn(LinkIds(incomingLinks), |model.numLabels|) && AllIn(LinkIds(outgoingLinks), |model.numLabels|)
      requires AbsentOrIn(detection.id, |model.numLabels|) && AbsentOrIn(division.id, |model.numLabels|)
      requires AbsentOrIn(appearance.id, |model.numLabels|) && AbsentOrIn(disappearance.id, |model.numLabels|)
      requires HasFeatures(detection.features) ==> NumWeights(detection.features, shared) == Ok(|detectionIds|)
      requires HasFeatures(division.features) ==> NumWeights(division.features, shared) == Ok(|divisionIds|)
      requires HasFeatures(appearance.features) ==> NumWeights(appearance.features, shared) == Ok(|appearanceIds|)
      requires HasFeatures(disappearance.features) ==> NumWeights(disappearance.features, shared) == Ok(|disappearanceIds|)
      modifies detection, division, appearance, disappearance, model
      ensures r.Fail? <==> !HasFeatures(detection.features) && old(detection.id) < 0
      ensures r.Fail? ==>
        detection.id == old(detection.id) && division.id == old(division.id) &&
        appearance.id == old(appearance.id) && disappearance.id == old(disappearance.id) &&
        model.numLabels == old(model.numLabels) && model.factors == old(model.factors)
      ensures r.Pass? ==>
        model.numLabels == old(model.numLabels) + LabelsOf(detection.features) + LabelsOf(division.features) +
                           LabelsOf(appearance.features) + LabelsOf(disappearance.features)
      ensures r.Pass? ==> detection.id == IdAfter(detection.features, |old(model.numLabels)|, old(detection.id))
      ensures r.Pass? ==> division.id == IdAfter(division.features, |old(model.numLabels) + LabelsOf(detection.features)|, old(division.id))
      ensures r.Pass? ==> appearance.id == IdAfter(appearance.features, |old(model.numLabels) + LabelsOf(detection.features) + LabelsOf(division.features)|, old(appearance.id))
      ensures r.Pass? ==> disappearance.id == IdAfter(disappearance.features, |old(model.numLabels) + LabelsOf(detection.features) + LabelsOf(division.features) + LabelsOf(appearance.features)|, old(disappearance.id))
      ensures r.Pass? ==>
        0 <= detection.id < |model.numLabels| && AbsentOrIn(division.id, |model.numLabels|) &&
        AbsentOrIn(appearance.id, |model.numLabels|) && AbsentOrIn(disappearance.id, |model.numLabels|) &&
        (HasFeatures(division.features) ==> division.id >= 0) &&
        (HasFeatures(appearance.features) ==> appearance.id >= 0) &&
        (HasFeatures(disappearance.features) ==> disappearance.id >= 0)
      ensures r.Pass? ==>
        model.factors == old(model.factors) +
          UnariesOf(detection.features, detection.id, shared, detectionIds) +
          UnariesOf(division.features, division.id, shared, divisionIds) +
          UnariesOf(appearance.features, appearance.id, shared, appearanceIds) +
          UnariesOf(disappearance.features, disappearance.id, shared, disappearanceIds) +
          HypothesisConstraints(model.numLabels, old(LinkIds(incomingLinks)), old(LinkIds(outgoingLinks)),
                                detection.id, division.id, appearance.id, disappearance.id)
    {
      var inIds := LinkIds(incomingLinks);
      var outIds := LinkIds(outgoingLinks);
      r := AddVariablesToModel(model, shared, detectionIds, divisionIds, appearanceIds, disappearanceIds);
      if r.Fail? {
        return;
      }
      AllInGrows(inIds, |old(model.numLabels)|, |model.numLabels|);
      AllInGrows(outIds, |old(model.numLabels)|, |model.numLabels|);
      AddHypothesisConstraints(model, inIds, outIds, detection.id, division.id, appearance.id, disappearance.id);
    }

    /** The materialisation steps of AddToModel, up to and including the check on the detection. */
    method AddVariablesToModel(model: Model, shared: bool, detectionIds: seq<nat>, divisionIds: seq<nat>,
                               appearanceIds: seq<nat>, disappearanceIds: seq<nat>) returns (r: Outcome)
      requires Valid()
      requires AbsentOrIn(detection.id, |model.numLabels|) && AbsentOrIn(division.id, |model.numLabels|)
      requires AbsentOrIn(appearance.id, |model.numLabels|) && AbsentOrIn(disappearance.id, |model.numLabels|)
      requires HasFeatures(detection.features) ==> NumWeights(detection.features, shared) == Ok(|detectionIds|)
      requires HasFeatures(division.features) ==> NumWeights(division.features, shared) == Ok(|divisionIds|)
      requires HasFeatures(appearance.features) ==> NumWeights(appearance.features, shared) == Ok(|appearanceIds|)
      requires HasFeatures(disappearance.features) ==> NumWeights(disappearance.features, shared) == Ok(|disappearanceIds|)
      modifies detection, division, appearance, disappearance, model
      ensures r.Fail? <==> !HasFeatures(detection.features) && old(detection.id) < 0
      ensures r.Fail? ==>
        detection.id == old(detection.id) && division.id == old(division.id) &&
        appearance.id == old(appearance.id) && disappearance.id == old(disappearance.id) &&
        model.numLabels == old(model.numLabels) && model.factors == old(model.factors)
      ensures r.Pass? ==>
        model.numLabels == old(model.numLabels) + LabelsOf(detection.features) + LabelsOf(division.features) +
                           LabelsOf(appearance.features) + LabelsOf(disappearance.features)
      ensures r.Pass? ==> detection.id == IdAfter(detection.features, |old(model.numLabels)|, old(detection.id))
      ensures r.Pass? ==> division.id == IdAfter(division.features, |old(model.numLabels) + LabelsOf(detection.features)|, old(division.id))
      ensures r.Pass? ==> appearance.id == IdAfter(appearance.features, |old(model.numLabels) + LabelsOf(detection.features) + LabelsOf(division.features)|, old(appearance.id))
      ensures r.Pass? ==> disappearance.id == IdAfter(disappearance.features, |old(model.numLabels) + LabelsOf(detection.features) + LabelsOf(division.features) + LabelsOf(appearance.features)|, old(disappearance.id))
      ensures r.Pass? ==>
        0 <= detection.id < |model.numLabels| && AbsentOrIn(division.id, |model.numLabels|) &&
        AbsentOrIn(appearance.id, |model.numLabels|) && AbsentOrIn(disappearance.id, |model.numLabels|) &&
        (HasFeatures(division.features) ==> division.id >= 0) &&
        (HasFeatures(appearance.features) ==> appearance.id >= 0) &&
        (HasFeatures(disappearance.features) ==> disappearance.id >= 0)
      ensures r.Pass? ==>
        model.factors == old(model.factors) +
          UnariesOf(detection.features, detection.id, shared, detectionIds) +
          UnariesOf(division.features, division.id, shared, divisionIds) +
          UnariesOf(appearance.features, appearance.id, shared, appearanceIds) +
          UnariesOf(disappearance.features, disappearance.id, shared, disappearanceIds)
    {
      detection.AddToModel(model, shared, detectionIds);
      if detection.id < 0 {
        return Fail(DETECTION_WITHOUT_FEATURES);
      }
      AddOptionalVariables(model, shared, divisionIds, appearanceIds, disappearanceIds);
      return Pass;
    }

    /** Materialises division, appearance and disappearance, in that order. */
    method AddOptionalVariables(model: Model, shared: bool, divisionIds: seq<nat>,
                                appearanceIds: seq<nat>, disappearanceIds: seq<nat>)
      requires Valid()
      requires AbsentOrIn(division.id, |model.numLabels|)
      requires AbsentOrIn(appearance.id, |model.numLabels|) && AbsentOrIn(disappearance.id, |model.numLabels|)
      requires HasFeatures(division.features) ==> NumWeights(division.features, shared) == Ok(|divisionIds|)
      requires HasFeatures(appearance.features) ==> NumWeights(appearance.features, shared) == Ok(|appearanceIds|)
      requires HasFeatures(disappearance.features) ==> NumWeights(disappearance.features, shared) == Ok(|disappearanceIds|)
      modifies division, appearance, disappearance, model
      ensures model.numLabels == old(model.numLabels) + LabelsOf(division.features) +
                                 LabelsOf(appearance.features) + LabelsOf(disappearance.features)
      ensures division.id == IdAfter(division.features, |old(model.numLabels)|, old(division.id))
      ensures appearance.id == IdAfter(appearance.features, |old(model.numLabels) + LabelsOf(division.features)|, old(appearance.id))
      ensures disappearance.id == IdAfter(disappearance.features, |old(model.numLabels) + LabelsOf(division.features) + LabelsOf(appearance.features)|, old(disappearance.id))
      ensures AbsentOrIn(division.id, |model.numLabels|) &&
        AbsentOrIn(appearance.id, |model.numLabels|) && AbsentOrIn(disappearance.id, |model.numLabels|) &&
        (HasFeatures(division.features) ==> division.id >= 0) &&
        (HasFeatures(appearance.features) ==> appearance.id >= 0) &&
        (HasFeatures(disappearance.features) ==> disappearance.id >= 0)
      ensures model.factors == old(model.factors) +
          UnariesOf(division.features, division.id, shared, divisionIds) +
          UnariesOf(appearance.features, appearance.id, shared, appearanceIds) +
          UnariesOf(disappearance.features, disappearance.id, shared, disappearanceIds)
    {
      division.AddToModel(model, shared, divisionIds);
      AddBoundaryVariables(model, shared, appearanceIds, disappearanceIds);
    }

    /** Materialises appearance and disappearance, in that order. */
    method AddBoundaryVariables(model: Model, shared: bool, appearanceIds: seq<nat>, disappearanceIds: seq<nat>)
      requires appearance != disappearance
      requires AbsentOrIn(appearance.id, |model.numLabels|) && AbsentOrIn(disappearance.id, |model.numLabels|)
      requires HasFeatures(appearance.features) ==> NumWeights(appearance.features, shared) == Ok(|appearanceIds|)
      requires HasFeatures(disappearance.features) ==> NumWeights(disappearance.features, shared) == Ok(|disappearanceIds|)
      modifies appearance, disappearance, model
      ensures model.numLabels == old(model.numLabels) + LabelsOf(appearance.features) + LabelsOf(disappearance.features)
      ensures appearance.id == IdAfter(appearance.features, |old(model.numLabels)|, old(appearance.id))
      ensures disappearance.id == IdAfter(disappearance.features, |old(model.numLabels) + LabelsOf(appearance.features)|, old(disappearance.id))
      ensures AbsentOrIn(appearance.id, |model.numLabels|) && AbsentOrIn(disappearance.id, |model.numLabels|) &&
        (HasFeatures(appearance.features) ==> appearance.id >= 0) &&
        (HasFeatures(disappearance.features) ==> disappearance.id >= 0)
      ensures model.factors == old(model.factors) +
          UnariesOf(appearance.features, appearance.id, shared, appearanceIds) +
          UnariesOf(disappearance.features, disappearance.id, shared, disappearanceIds)
    {
      appearance.AddToModel(model, shared, appearanceIds);
      disappearance.AddToModel(model, shared, disappearanceIds);
    }
  }
}
