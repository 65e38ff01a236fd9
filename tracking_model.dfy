/**
 * The tracking model: the segmentation, link, division and exclusion hypotheses of
 * one data set, the number of weights each kind of variable needs (computed once and
 * cached), the assembly of the graphical model, the check of a labelling against the
 * hypotheses and the deduction of appearance and disappearance labels.
 */
module Tracking {
  import opened Wrappers
  import opened GraphModel
  import opened Variables
  import opened FlowConstraints
  import Weights
  import Segmentation
  import Links
  import Divisions
  import Exclusions
  import Settings
  import ConservationVariables
  import opened Materialisation
  import SegmentationList
  import Deduction
  import Building

  const WRONG_WEIGHT_LENGTH := "Provided length of vector with initial weights has wrong length!"

  /** The keys of the map, each once, in ascending order: the order in which the map is walked. */
  predicate AscendingKeys(order: seq<int>, segmentations: map<int, Segmentation.SegmentationHypothesis>)
  {
    (forall i, j :: 0 <= i < j < |order| ==> order[i] < order[j]) &&
    KeysIn(order, segmentations) &&
    (forall key :: key in segmentations ==> key in order)
  }

  /** Every entry of the order is a key of the map. */
  predicate KeysIn(order: seq<int>, segmentations: map<int, Segmentation.SegmentationHypothesis>)
  {
    forall k :: 0 <= k < |order| ==> order[k] in segmentations
  }

  /** The weight counts the four variables of a hypothesis report. */
  function CountsOf(h: Segmentation.SegmentationHypothesis, shared: bool): Weights.SegmentationCounts
  {
    Weights.SegmentationCounts(NumWeights(h.detection.features, shared), NumWeights(h.division.features, shared),
                               NumWeights(h.appearance.features, shared), NumWeights(h.disappearance.features, shared))
  }

  function SegmentationCounts(hyps: seq<Segmentation.SegmentationHypothesis>, shared: bool): seq<Weights.SegmentationCounts>
  {
    seq(|hyps|, k requires 0 <= k < |hyps| => CountsOf(hyps[k], shared))
  }

  function DivisionCounts(divisions: seq<Divisions.DivisionHypothesis>, shared: bool): seq<Result<int>>
  {
    seq(|divisions|, k requires 0 <= k < |divisions| => NumWeights(divisions[k].variable.features, shared))
  }

  function LinkCounts(links: seq<Links.LinkingHypothesis>, shared: bool): seq<Result<int>>
  {
    seq(|links|, k requires 0 <= k < |links| => NumWeights(links[k].variable.features, shared))
  }

  /**
   * The fold of the labelling checks: every check is made in turn; a check that
   * throws ends the fold with its error, a false answer does not.
   */
  function Conjoin(start: Result<bool>, checks: seq<Result<bool>>): Result<bool>
  {
    if |checks| == 0 then start
    else
      match Conjoin(start, checks[..|checks| - 1])
      case Err(e) => Err(e)
      case Ok(valid) =>
        match checks[|checks| - 1]
        case Err(e) => Err(e)
        case Ok(b) => Ok(valid && b)
  }

  /** One of the checks throws; defined on the last check, as the fold is. */
  predicate Throws(checks: seq<Result<bool>>)
  {
    |checks| > 0 && (Throws(checks[..|checks| - 1]) || checks[|checks| - 1].Err?)
  }

  /** Every check answers true; defined on the last check, as the fold is. */
  predicate AllTrue(checks: seq<Result<bool>>)
  {
    |checks| == 0 || (AllTrue(checks[..|checks| - 1]) && checks[|checks| - 1] == Ok(true))
  }

  /** Throws and AllTrue say what their names say. */
  lemma {:induction false} ChecksMeaning(checks: seq<Result<bool>>)
    ensures Throws(checks) <==> exists k :: 0 <= k < |checks| && checks[k].Err?
    ensures AllTrue(checks) <==> forall k :: 0 <= k < |checks| ==> checks[k] == Ok(true)
  {
    if |checks| > 0 {
      var init := checks[..|checks| - 1];
      ChecksMeaning(init);
      assert forall k :: 0 <= k < |init| ==> init[k] == checks[k];
    }
  }

  /**
   * Starting from an answer, the fold throws exactly when one of the checks throws
   * (also after a false answer), and otherwise answers the start and all the answers.
   */
  lemma {:induction false} ConjoinMeaning(start: bool, checks: seq<Result<bool>>)
    ensures Conjoin(Ok(start), checks).Err? <==> Throws(checks)
    ensures Conjoin(Ok(start), checks) == Ok(true) <==> start && AllTrue(checks)
  {
    if |checks| > 0 {
      ConjoinMeaning(start, checks[..|checks| - 1]);
    }
  }

  /** A fold that has thrown stays thrown. */
  lemma {:induction false} ConjoinErr(e: string, checks: seq<Result<bool>>)
    ensures Conjoin(Err(e), checks) == Err(e)
  {
    if |checks| > 0 {
      ConjoinErr(e, checks[..|checks| - 1]);
    }
  }

  /** Once the fold has thrown at the i-th check, the later checks do not change the answer. */
  lemma ConjoinStopsAt(start: Result<bool>, checks: seq<Result<bool>>, i: nat)
    requires i < |checks| && Conjoin(start, checks[..i + 1]).Err?
    ensures Conjoin(start, checks) == Conjoin(start, checks[..i + 1])
  {
    ConjoinAppend(start, checks[..i + 1], checks[i + 1..]);
    ConjoinErr(Conjoin(start, checks[..i + 1]).message, checks[i + 1..]);
    assert checks[..i + 1] + checks[i + 1..] == checks;
  }

  /** One more check: a false answer is folded in, an error ends the fold. */
  lemma ConjoinStep(start: Result<bool>, checks: seq<Result<bool>>, i: nat, valid: bool)
    requires i < |checks| && Conjoin(start, checks[..i]) == Ok(valid)
    ensures checks[i].Ok? ==> Conjoin(start, checks[..i + 1]) == Ok(valid && checks[i].value)
    ensures checks[i].Err? ==> Conjoin(start, checks) == Err(checks[i].message)
  {
    assert checks[..i + 1][..i] == checks[..i];
    if checks[i].Err? {
      ConjoinStopsAt(start, checks, i);
    }
  }

  /** When no check before the i-th throws and the i-th does, the fold throws the i-th's error. */
  lemma ConjoinFirstErr(start: bool, checks: seq<Result<bool>>, i: nat)
    requires i < |checks| && !Throws(checks[..i]) && checks[i].Err?
    ensures Conjoin(Ok(start), checks) == checks[i]
  {
    ConjoinMeaning(start, checks[..i]);
    ConjoinStep(Ok(start), checks, i, Conjoin(Ok(start), checks[..i]).value);
  }

  /** When no check throws, the fold answers whether the start and all the checks answered true. */
  lemma ConjoinAllOk(start: bool, checks: seq<Result<bool>>)
    requires !Throws(checks)
    ensures Conjoin(Ok(start), checks) == Ok(start && AllTrue(checks))
  {
    ConjoinMeaning(start, checks);
  }

  /** One check more on a prefix: it throws, or answers true, as the prefix and the new check do. */
  lemma PrefixStep(checks: seq<Result<bool>>, i: nat)
    requires i < |checks|
    ensures Throws(checks[..i + 1]) <==> Throws(checks[..i]) || checks[i].Err?
    ensures AllTrue(checks[..i + 1]) <==> AllTrue(checks[..i]) && checks[i] == Ok(true)
  {
    assert checks[..i + 1][..i] == checks[..i];
  }

  /** Folding two lists of checks one after the other is folding their concatenation. */
  lemma {:induction false} ConjoinAppend(start: Result<bool>, a: seq<Result<bool>>, b: seq<Result<bool>>)
    ensures Conjoin(Conjoin(start, a), b) == Conjoin(start, a + b)
  {
    if |b| == 0 {
      assert a + b == a;
    } else {
      ConjoinAppend(start, a, b[..|b| - 1]);
      assert (a + b)[..|a + b| - 1] == a + b[..|b| - 1];
      assert (a + b)[|a + b| - 1] == b[|b| - 1];
    }
  }

  /** The answers of the exclusion checks, in list order. */
  function ExclusionChecks(sol: seq<nat>, excls: seq<Exclusions.ExclusionConstraint>,
                           segs: map<int, Segmentation.SegmentationHypothesis>): (r: seq<Result<bool>>)
    reads (set e | e in excls), Exclusions.Detections(segs)
    requires forall j :: 0 <= j < |excls| ==> Exclusions.Covered(sol, excls[j].ids, segs)
    ensures |r| == |excls|
    ensures forall k :: 0 <= k < |excls| ==> r[k] == Exclusions.Check(sol, excls[k].ids, segs)
  {
    if |excls| == 0 then []
    else ExclusionChecks(sol, excls[..|excls| - 1], segs) + [Exclusions.Check(sol, excls[|excls| - 1].ids, segs)]
  }

  /** The links of a hypothesis and its variables have ids below n, and the detection has one. */
  predicate Checkable(v: SegmentationList.View, n: nat)
  {
    (forall k :: 0 <= k < |v.inIds| ==> v.inIds[k] < n) && (forall k :: 0 <= k < |v.outIds| ==> v.outIds[k] < n) &&
    0 <= v.ids.detection < n &&
    AbsentOrIn(v.ids.division, n) && AbsentOrIn(v.ids.appearance, n) && AbsentOrIn(v.ids.disappearance, n)
  }

  /** The check of a labelling against one hypothesis, on the ids it holds. */
  function HypothesisCheck(sol: seq<nat>, v: SegmentationList.View): Result<bool>
    requires Checkable(v, |sol|)
  {
    Segmentation.Verify(sol, v.inIds, v.outIds, v.ids.detection, v.ids.division, v.ids.appearance, v.ids.disappearance)
  }

  /** The answers of the segmentation checks, in list order. */
  function SegmentationChecks(sol: seq<nat>, vs: seq<SegmentationList.View>): (r: seq<Result<bool>>)
    requires forall k :: 0 <= k < |vs| ==> Checkable(vs[k], |sol|)
    ensures |r| == |vs|
  {
    seq(|vs|, k requires 0 <= k < |vs| => HypothesisCheck(sol, vs[k]))
  }

  /**
   * The counts of a successful scan fit every variable: a link, an external division
   * or one of a hypothesis' four variables that has features needs exactly as many
   * weights as the block of its kind holds.
   */
  lemma ScanAgrees(links: seq<Links.LinkingHypothesis>, divisions: seq<Divisions.DivisionHypothesis>,
                   hyps: seq<Segmentation.SegmentationHypothesis>, shared: bool, c: Weights.WeightCounts)
    requires Weights.Scan(SegmentationCounts(hyps, shared), DivisionCounts(divisions, shared), LinkCounts(links, shared)) == Ok(c)
    ensures Building.WeightsAgree(links, divisions, hyps, shared, c)
  {
    var cs := SegmentationCounts(hyps, shared);
    var ds := DivisionCounts(divisions, shared);
    var ls := LinkCounts(links, shared);
    Weights.ScanFits(cs, ds, ls);
    forall k | 0 <= k < |hyps|
      ensures SegmentationList.WeightsFit(SegmentationList.FeaturesOf(hyps[k]), shared, Building.SegmentationWeightIds(c))
    {
      assert cs[k] == CountsOf(hyps[k], shared);
    }
    forall k | 0 <= k < |links| && HasFeatures(links[k].variable.features)
      ensures NumWeights(links[k].variable.features, shared) == Ok(c.link)
    {
      assert ls[k] == NumWeights(links[k].variable.features, shared);
    }
    forall k | 0 <= k < |divisions| && HasFeatures(divisions[k].variable.features)
      ensures NumWeights(divisions[k].variable.features, shared) == Ok(c.externalDivision)
    {
      assert ds[k] == NumWeights(divisions[k].variable.features, shared);
    }
  }

  class TrackingModel {
    const settings: Settings.Settings
    const segmentations: map<int, Segmentation.SegmentationHypothesis>
    const order: seq<int>
    const links: seq<Links.LinkingHypothesis>
    const divisions: seq<Divisions.DivisionHypothesis>
    const exclusions: seq<Exclusions.ExclusionConstraint>
    var numLinkWeights: nat
    var numDetectionWeights: nat
    var numDivisionWeights: nat
    var numAppearanceWeights: nat
    var numDisappearanceWeights: nat
    var numExternalDivisionWeights: nat

    /** The segmentation hypotheses in the order of their keys. */
    function Hypotheses(): (r: seq<Segmentation.SegmentationHypothesis>)
      requires KeysIn(order, segmentations)
      ensures |r| == |order|
    {
      seq(|order|, k requires 0 <= k < |order| => segmentations[order[k]])
    }

    /** The cached weight counts. */
    function Counts(): Weights.WeightCounts
      reads this
    {
      Weights.WeightCounts(numLinkWeights, numDetectionWeights, numDivisionWeights, numAppearanceWeights,
                           numDisappearanceWeights, numExternalDivisionWeights)
    }

    /** The counts a scan of the hypotheses yields. */
    function Scan(): Result<Weights.WeightCounts>
      requires AscendingKeys(order, segmentations)
    {
      Weights.Scan(SegmentationCounts(Hypotheses(), settings.statesShareWeights),
                   DivisionCounts(divisions, settings.statesShareWeights),
                   LinkCounts(links, settings.statesShareWeights))
    }

    /** The hypotheses are walked in key order, and counts that are cached are the counts of the hypotheses. */
    predicate Valid()
      reads this
    {
      AscendingKeys(order, segmentations) &&
      (numDetectionWeights != 0 ==> Scan() == Ok(Counts()))
    }

    /** Nothing is counted yet. */
    constructor (settings: Settings.Settings, segmentations: map<int, Segmentation.SegmentationHypothesis>,
                 order: seq<int>, links: seq<Links.LinkingHypothesis>, divisions: seq<Divisions.DivisionHypothesis>,
                 exclusions: seq<Exclusions.ExclusionConstraint>)
      requires AscendingKeys(order, segmentations)
      ensures this.settings == settings && this.segmentations == segmentations && this.order == order
      ensures this.links == links && this.divisions == divisions && this.exclusions == exclusions
      ensures Counts() == Weights.WeightCounts(0, 0, 0, 0, 0, 0)
      ensures Valid()
    {
      this.settings := settings;
      this.segmentations := segmentations;
      this.order := order;
      this.links := links;
      this.divisions := divisions;
      this.exclusions := exclusions;
      numLinkWeights := 0;
      numDetectionWeights := 0;
      numDivisionWeights := 0;
      numAppearanceWeights := 0;
      numDisappearanceWeights := 0;
      numExternalDivisionWeights := 0;
    }

    /**
     * The number of weights: when the detection count is cached, the cached total;
     * otherwise the hypotheses are scanned, the clamped counts are cached, and the
     * call throws when both division kinds need weights. A successful call leaves
     * the counts of the hypotheses in the cache.
     */
    method ComputeNumWeights() returns (r: Result<nat>)
      requires Valid()
      modifies this
      ensures Valid()
      ensures r == Weights.CountWeights(old(Counts()), Scan()).0
      ensures Counts() == Weights.CountWeights(old(Counts()), Scan()).1
      ensures r.Ok? ==> Scan() == Ok(Counts()) && r.value == Weights.Total(Counts())
    {
      if numDetectionWeights != 0 {
        return Ok(numDetectionWeights + numDivisionWeights + numAppearanceWeights + numDisappearanceWeights +
                  numExternalDivisionWeights + numLinkWeights);
      }
      var scan := ScanAll();
      Weights.CountWeightsFresh(Counts(), scan);
      if scan.Err? {
        return Err(scan.message);
      }
      SetCounts(scan.value);
      if numDivisionWeights != 0 && numExternalDivisionWeights != 0 {
        return Err(Weights.BOTH_DIVISION_KINDS);
      }
      return Ok(numDetectionWeights + numDivisionWeights + numAppearanceWeights + numDisappearanceWeights +
                numExternalDivisionWeights + numLinkWeights);
    }

    /**
     * The descriptions of all weights: the counts are made sure of first (a failing count
     * throws), then one description per weight, kind by kind in the order of the id blocks.
     */
    method WeightDescriptions() returns (r: Result<seq<string>>)
      requires Valid()
      modifies this
      ensures Valid()
      ensures Counts() == Weights.CountWeights(old(Counts()), Scan()).1
      ensures r.Err? <==> Weights.CountWeights(old(Counts()), Scan()).0.Err?
      ensures r.Err? ==> r.message == Weights.CountWeights(old(Counts()), Scan()).0.message
      ensures r.Ok? ==> r.value == Weights.Descriptions(Counts())
      ensures r.Ok? ==> |r.value| == Weights.CountWeights(old(Counts()), Scan()).0.value
    {
      var total := ComputeNumWeights();
      if total.Err? {
        return Err(total.message);
      }
      var descs := Weights.DescribeAll(Counts());
      return Ok(descs);
    }

    /**
     * Builds the graphical model: the weight counts are made sure of first (a failing
     * count throws before anything is added); then the links, the external divisions,
     * the hypotheses in key order and the exclusions are added, each kind of variable
     * with the block of weight ids the counts give it.
     */
    method InitializeModel(model: Model) returns (r: Result<Outcome>)
      requires Valid()
      requires Building.Ready(links, divisions, Hypotheses(), order, segmentations, exclusions, |model.numLabels|)
      modifies this, model, Building.LinkVars(links), Building.DivisionVars(divisions), SegmentationList.AllOwn(Hypotheses())
      ensures Valid()
      ensures Counts() == Weights.CountWeights(old(Counts()), Scan()).1
      ensures r.Err? <==> Weights.CountWeights(old(Counts()), Scan()).0.Err?
      ensures r.Err? ==> r.message == Weights.CountWeights(old(Counts()), Scan()).0.message &&
                         model.numLabels == old(model.numLabels) && model.factors == old(model.factors)
      ensures r.Ok? ==>
        Building.Built(links, divisions, Hypotheses(), segmentations, exclusions, settings.statesShareWeights, Counts(),
                       old(model.numLabels), old(model.factors), old(Segmentation.LinkIds(links)), old(DivisionIds(divisions)),
                       old(SegmentationList.CurrentIds(Hypotheses())), model, r.value) == true
    {
      var total := CountBeforeAssembly(model);
      if total.Err? {
        return Err(total.message);
      }
      var outcome := Assemble(model);
      return Ok(outcome);
    }

    /** The count made before the assembly; it leaves the model and the hypotheses' variables alone. */
    method CountBeforeAssembly(model: Model) returns (r: Result<nat>)
      requires Valid()
      requires Building.Ready(links, divisions, Hypotheses(), order, segmentations, exclusions, |model.numLabels|)
      modifies this
      ensures Valid()
      ensures r == Weights.CountWeights(old(Counts()), Scan()).0
      ensures Counts() == Weights.CountWeights(old(Counts()), Scan()).1
      ensures r.Ok? ==> Scan() == Ok(Counts())
      ensures model.numLabels == old(model.numLabels) && model.factors == old(model.factors)
      ensures Segmentation.LinkIds(links) == old(Segmentation.LinkIds(links))
      ensures DivisionIds(divisions) == old(DivisionIds(divisions))
      ensures SegmentationList.CurrentIds(Hypotheses()) == old(SegmentationList.CurrentIds(Hypotheses()))
      ensures Building.Ready(links, divisions, Hypotheses(), order, segmentations, exclusions, |model.numLabels|) == true
    {
      r := CountKeepingOwners(model);
      ghost var hyps := Hypotheses();
      forall k | 0 <= k < |links|
        ensures HasFeatures(links[k].variable.features) || 0 <= links[k].variable.id < |model.numLabels|
      {
        assert Segmentation.LinkIds(links)[k] == old(Segmentation.LinkIds(links))[k];
      }
      forall k | 0 <= k < |hyps|
        ensures Building.OwnIdsBelow(SegmentationList.IdsOf(hyps[k]), |model.numLabels|)
      {
        assert SegmentationList.CurrentIds(hyps)[k] == old(SegmentationList.CurrentIds(hyps))[k];
      }
    }

    /** The count leaves the hypotheses' ownership of their variables and the exclusions' members alone. */
    method CountKeepingOwners(model: Model) returns (r: Result<nat>)
      requires Valid()
      requires SegmentationList.Owned(Hypotheses(), Building.LinkVars(links))
      requires Building.MembersKnown(exclusions, segmentations)
      modifies this
      ensures Valid()
      ensures r == Weights.CountWeights(old(Counts()), Scan()).0
      ensures Counts() == Weights.CountWeights(old(Counts()), Scan()).1
      ensures r.Ok? ==> Scan() == Ok(Counts())
      ensures model.numLabels == old(model.numLabels) && model.factors == old(model.factors)
      ensures Segmentation.LinkIds(links) == old(Segmentation.LinkIds(links))
      ensures DivisionIds(divisions) == old(DivisionIds(divisions))
      ensures SegmentationList.CurrentIds(Hypotheses()) == old(SegmentationList.CurrentIds(Hypotheses()))
      ensures SegmentationList.Owned(Hypotheses(), Building.LinkVars(links)) == true
      ensures Building.MembersKnown(exclusions, segmentations) == true
    {
      r := CountKeepingModel(model);
    }

    /** The count leaves the model, the links, the external divisions and the hypotheses' variables alone. */
    method CountKeepingModel(model: Model) returns (r: Result<nat>)
      requires Valid()
      modifies this
      ensures Valid()
      ensures r == Weights.CountWeights(old(Counts()), Scan()).0
      ensures Counts() == Weights.CountWeights(old(Counts()), Scan()).1
      ensures r.Ok? ==> Scan() == Ok(Counts())
      ensures model.numLabels == old(model.numLabels) && model.factors == old(model.factors)
      ensures Segmentation.LinkIds(links) == old(Segmentation.LinkIds(links))
      ensures DivisionIds(divisions) == old(DivisionIds(divisions))
      ensures SegmentationList.CurrentIds(Hypotheses()) == old(SegmentationList.CurrentIds(Hypotheses()))
    {
      r := CountKeepingIds();
    }

    /** The count leaves the ids of the hypotheses' variables alone. */
    method CountKeepingIds() returns (r: Result<nat>)
      requires Valid()
      modifies this
      ensures Valid()
      ensures r == Weights.CountWeights(old(Counts()), Scan()).0
      ensures Counts() == Weights.CountWeights(old(Counts()), Scan()).1
      ensures r.Ok? ==> Scan() == Ok(Counts())
      ensures SegmentationList.CurrentIds(Hypotheses()) == old(SegmentationList.CurrentIds(Hypotheses()))
    {
      r := ComputeNumWeights();
    }

    /** The assembly once the counts of the hypotheses are cached. */
    method Assemble(model: Model) returns (r: Outcome)
      requires AscendingKeys(order, segmentations) && Scan() == Ok(Counts())
      requires Building.Ready(links, divisions, Hypotheses(), order, segmentations, exclusions, |model.numLabels|) == true
      modifies model, Building.LinkVars(links), Building.DivisionVars(divisions), SegmentationList.AllOwn(Hypotheses())
      ensures Counts() == old(Counts())
      ensures Building.Built(links, divisions, Hypotheses(), segmentations, exclusions, settings.statesShareWeights, Counts(),
                             old(model.numLabels), old(model.factors), old(Segmentation.LinkIds(links)), old(DivisionIds(divisions)),
                             old(SegmentationList.CurrentIds(Hypotheses())), model, r) == true
    {
      ScanAgrees(links, divisions, Hypotheses(), settings.statesShareWeights, Counts());
      r := Building.Materialise(links, divisions, Hypotheses(), order, segmentations, exclusions,
                                settings.statesShareWeights, Counts(), model);
    }

    /**
     * What inference and learning with given weights do before the solver runs: a
     * failing count throws; a weight vector whose length is not the number of weights
     * throws; otherwise the graphical model is built.
     */
    method SetUpWithWeights(weights: seq<real>, model: Model) returns (r: Result<Outcome>)
      requires Valid()
      requires Building.Ready(links, divisions, Hypotheses(), order, segmentations, exclusions, |model.numLabels|)
      modifies this, model, Building.LinkVars(links), Building.DivisionVars(divisions), SegmentationList.AllOwn(Hypotheses())
      ensures Valid()
      ensures Counts() == Weights.CountWeights(old(Counts()), Scan()).1
      ensures Weights.CountWeights(old(Counts()), Scan()).0.Err? ==> r == Err(Weights.CountWeights(old(Counts()), Scan()).0.message)
      ensures Weights.CountWeights(old(Counts()), Scan()).0.Ok? && Weights.CountWeights(old(Counts()), Scan()).0.value != |weights| ==>
        r == Err(WRONG_WEIGHT_LENGTH)
      ensures r.Err? ==> model.numLabels == old(model.numLabels) && model.factors == old(model.factors)
      ensures Weights.CountWeights(old(Counts()), Scan()).0 == Ok(|weights|) ==>
        r.Ok? &&
        Building.Built(links, divisions, Hypotheses(), segmentations, exclusions, settings.statesShareWeights, Counts(),
                       old(model.numLabels), old(model.factors), old(Segmentation.LinkIds(links)), old(DivisionIds(divisions)),
                       old(SegmentationList.CurrentIds(Hypotheses())), model, r.value) == true
    {
      var n := CountBeforeAssembly(model);
      if n.Err? {
        return Err(n.message);
      }
      if |weights| != n.value {
        return Err(WRONG_WEIGHT_LENGTH);
      }
      Weights.CountWeightsRepeat(old(Counts()), Scan());
      r := InitializeModel(model);
    }

    /**
     * Learning without initial weights starts from the zero vector with one entry per
     * weight, so the length check cannot fail: the call throws only when the count does.
     */
    method SetUpFromZero(model: Model) returns (r: Result<Outcome>, initial: seq<real>)
      requires Valid()
      requires Building.Ready(links, divisions, Hypotheses(), order, segmentations, exclusions, |model.numLabels|)
      modifies this, model, Building.LinkVars(links), Building.DivisionVars(divisions), SegmentationList.AllOwn(Hypotheses())
      ensures Valid()
      ensures Counts() == Weights.CountWeights(old(Counts()), Scan()).1
      ensures r.Err? <==> Weights.CountWeights(old(Counts()), Scan()).0.Err?
      ensures r.Err? ==> r.message == Weights.CountWeights(old(Counts()), Scan()).0.message
      ensures r.Ok? ==> initial == Weights.Zeros(Weights.Total(Counts()))
      ensures r.Ok? ==>
        Building.Built(links, divisions, Hypotheses(), segmentations, exclusions, settings.statesShareWeights, Counts(),
                       old(model.numLabels), old(model.factors), old(Segmentation.LinkIds(links)), old(DivisionIds(divisions)),
                       old(SegmentationList.CurrentIds(Hypotheses())), model, r.value) == true
    {
      var n := CountBeforeAssembly(model);
      if n.Err? {
        return Err(n.message), [];
      }
      initial := Weights.Zeros(n.value);
      Weights.CountWeightsRepeat(old(Counts()), Scan());
      r := SetUpWithWeights(initial, model);
    }

    /** Caches the counts, clamped already, one field per kind. */
    method SetCounts(c: Weights.WeightCounts)
      modifies this
      ensures Counts() == c
    {
      numDetectionWeights := c.detection;
      numDivisionWeights := c.division;
      numAppearanceWeights := c.appearance;
      numDisappearanceWeights := c.disappearance;
      numExternalDivisionWeights := c.externalDivision;
      numLinkWeights := c.link;
    }

    /** The three loops (segmentation hypotheses, divisions, links) and the clamping of their counts at 0. */
    method ScanAll() returns (r: Result<Weights.WeightCounts>)
      requires AscendingKeys(order, segmentations)
      ensures r == Scan()
    {
      var segs := ScanSegmentations();
      if segs.Err? {
        return Err(segs.message);
      }
      var external := ScanDivisions();
      if external.Err? {
        return Err(external.message);
      }
      var link := ScanLinks();
      if link.Err? {
        return Err(link.message);
      }
      return Ok(Weights.WeightCounts(Weights.Clamp(link.value), Weights.Clamp(segs.value.detection),
                                     Weights.Clamp(segs.value.division), Weights.Clamp(segs.value.appearance),
                                     Weights.Clamp(segs.value.disappearance), Weights.Clamp(external.value)));
    }

    /** The four checks for one hypothesis, detection first. */
    method CheckHypothesis(acc: Weights.Running, h: Segmentation.SegmentationHypothesis) returns (r: Result<Weights.Running>)
      ensures r == Weights.SegmentationStep(acc, CountsOf(h, settings.statesShareWeights))
    {
      var shared := settings.statesShareWeights;
      var det := Weights.CheckStep(acc.detection, NumWeights(h.detection.features, shared), "Detections");
      if det.Err? {
        return Err(det.message);
      }
      var div := Weights.CheckStep(acc.division, NumWeights(h.division.features, shared), "Divisions");
      if div.Err? {
        return Err(div.message);
      }
      var app := Weights.CheckStep(acc.appearance, NumWeights(h.appearance.features, shared), "Appearances");
      if app.Err? {
        return Err(app.message);
      }
      var dis := Weights.CheckStep(acc.disappearance, NumWeights(h.disappearance.features, shared), "Disappearances");
      if dis.Err? {
        return Err(dis.message);
      }
      return Ok(Weights.Running(det.value, div.value, app.value, dis.value));
    }

    /** The loop over the segmentation hypotheses in key order. */
    method ScanSegmentations() returns (r: Result<Weights.Running>)
      requires AscendingKeys(order, segmentations)
      ensures r == Weights.SegmentationScan(SegmentationCounts(Hypotheses(), settings.statesShareWeights))
    {
      ghost var cs := SegmentationCounts(Hypotheses(), settings.statesShareWeights);
      var acc := Weights.Running(-1, -1, -1, -1);
      var i := 0;
      while i < |order|
        invariant 0 <= i <= |order|
        invariant Weights.SegmentationScan(cs[..i]) == Ok(acc)
      {
        var step := CheckHypothesis(acc, segmentations[order[i]]);
        assert cs[..i + 1][..i] == cs[..i];
        if step.Err? {
          Weights.SegmentationScanPrefixErr(cs, i + 1);
          return Err(step.message);
        }
        acc := step.value;
        i := i + 1;
      }
      assert cs[..i] == cs;
      return Ok(acc);
    }

    /** The loop over the division hypotheses. */
    method ScanDivisions() returns (r: Result<int>)
      ensures r == Weights.KindCount(DivisionCounts(divisions, settings.statesShareWeights), Weights.EXTERNAL_DIVISIONS)
    {
      ghost var counts := DivisionCounts(divisions, settings.statesShareWeights);
      var external := -1;
      var i := 0;
      while i < |divisions|
        invariant 0 <= i <= |divisions|
        invariant Weights.KindCount(counts[..i], Weights.EXTERNAL_DIVISIONS) == Ok(external)
      {
        var step := Weights.CheckStep(external, NumWeights(divisions[i].variable.features, settings.statesShareWeights),
                                      Weights.EXTERNAL_DIVISIONS);
        Weights.KindCountNext(counts, Weights.EXTERNAL_DIVISIONS, i);
        if step.Err? {
          Weights.KindCountPrefixErr(counts, Weights.EXTERNAL_DIVISIONS, i + 1);
          return Err(step.message);
        }
        external := step.value;
        i := i + 1;
      }
      assert counts[..i] == counts;
      return Ok(external);
    }

    /**
     * The loop over the links: the first link count is taken as it is, and every
     * later link must report the same count once the count is non-negative.
     */
    method ScanLinks() returns (r: Result<int>)
      ensures r == Weights.LinkCount(LinkCounts(links, settings.statesShareWeights))
    {
      ghost var counts := LinkCounts(links, settings.statesShareWeights);
      var link := -1;
      var i := 0;
      while i < |links|
        invariant 0 <= i <= |links|
        invariant Weights.LinkCount(counts[..i]) == Ok(link)
      {
        var n := NumWeights(links[i].variable.features, settings.statesShareWeights);
        Weights.LinkCountNext(counts, i);
        if n.Err? {
          Weights.LinkCountPrefixErr(counts, i + 1);
          return Err(n.message);
        }
        if link < 0 {
          link := n.value;
        } else if n.value != link {
          Weights.LinkCountPrefixErr(counts, i + 1);
          return Err(Weights.LINK_MISMATCH);
        }
        i := i + 1;
      }
      assert counts[..i] == counts;
      return Ok(link);
    }

    /**
     * The check of a labelling: every exclusion in list order, then every segmentation
     * hypothesis in key order, each checked even after one has answered false; a check
     * that throws (an unknown exclusion member, an unmaterialised link) makes the call throw.
     */
    method VerifySolution(sol: seq<nat>) returns (r: Result<bool>)
      requires KeysIn(order, segmentations)
      requires forall j :: 0 <= j < |exclusions| ==> Exclusions.Covered(sol, exclusions[j].ids, segmentations)
      requires forall k :: 0 <= k < |order| ==> segmentations[order[k]].IdsBelow(|sol|)
      ensures forall j :: 0 <= j < |exclusions| ==> Exclusions.Covered(sol, exclusions[j].ids, segmentations)
      ensures forall k :: 0 <= k < |order| ==> Checkable(SegmentationList.Views(Hypotheses())[k], |sol|)
      ensures r == Conjoin(Conjoin(Ok(true), ExclusionChecks(sol, exclusions, segmentations)),
                           SegmentationChecks(sol, SegmentationList.Views(Hypotheses())))
    {
      var excls, segs, hyps := exclusions, segmentations, Hypotheses();
      ghost var exclusionChecks := ExclusionChecks(sol, excls, segs);
      ghost var vs := SegmentationList.Views(hyps);
      assert forall k :: 0 <= k < |hyps| ==> Checkable(vs[k], |sol|) by {
        forall k | 0 <= k < |hyps| {
          ViewCheck(hyps[k], sol);
        }
      }
      ghost var segmentationChecks := SegmentationChecks(sol, vs);
      var valid := true;
      var i := 0;
      while i < |excls|
        invariant 0 <= i <= |excls|
        invariant !Throws(exclusionChecks[..i]) && valid == AllTrue(exclusionChecks[..i])
      {
        var ok := Exclusions.Check(sol, excls[i].ids, segs);
        assert Throws(exclusionChecks[..i + 1]) == (Throws(exclusionChecks[..i]) || exclusionChecks[i].Err?) &&
               AllTrue(exclusionChecks[..i + 1]) == (AllTrue(exclusionChecks[..i]) && exclusionChecks[i] == Ok(true)) by {
          PrefixStep(exclusionChecks, i);
        }
        if ok.Err? {
          r := Err(ok.message);
          assert r == Conjoin(Conjoin(Ok(true), exclusionChecks), segmentationChecks) by {
            ConjoinFirstErr(true, exclusionChecks, i);
            ConjoinErr(ok.message, segmentationChecks);
          }
          return;
        }
        if !ok.value {
          valid := false;
        }
        i := i + 1;
      }
      assert Conjoin(Ok(true), exclusionChecks) == Ok(valid) by {
        assert exclusionChecks[..i] == exclusionChecks;
        ConjoinAllOk(true, exclusionChecks);
      }
      ghost var start := valid;
      i := 0;
      while i < |hyps|
        invariant 0 <= i <= |hyps|
        invariant !Throws(segmentationChecks[..i]) && valid == (start && AllTrue(segmentationChecks[..i]))
      {
        var h := hyps[i];
        assert h.Check(sol) == segmentationChecks[i] by {
          CheckAt(hyps, sol, i);
        }
        var ok := h.Check(sol);
        assert Throws(segmentationChecks[..i + 1]) == (Throws(segmentationChecks[..i]) || segmentationChecks[i].Err?) &&
               AllTrue(segmentationChecks[..i + 1]) == (AllTrue(segmentationChecks[..i]) && segmentationChecks[i] == Ok(true)) by {
          PrefixStep(segmentationChecks, i);
        }
        if ok.Err? {
          r := Err(ok.message);
          assert r == Conjoin(Ok(start), segmentationChecks) by {
            ConjoinFirstErr(start, segmentationChecks, i);
          }
          return;
        }
        if !ok.value {
          valid := false;
        }
        i := i + 1;
      }
      r := Ok(valid);
      assert r == Conjoin(Ok(start), segmentationChecks) by {
        assert segmentationChecks[..i] == segmentationChecks;
        ConjoinAllOk(start, segmentationChecks);
      }
    }

    /**
     * Deduces the appearance and disappearance labels of a ground-truth labelling in place,
     * hypothesis by hypothesis in key order. A hypothesis that throws ends the deduction and
     * leaves the entries set so far.
     */
    method DeduceAppearanceDisappearance(solution: array<nat>) returns (r: Outcome)
      requires KeysIn(order, segmentations)
      requires Deduction.AllDeducible(SegmentationList.Views(Hypotheses()), solution.Length)
      modifies solution
      ensures (solution[..], r) == Deduction.DeduceAll(old(solution[..]), order, old(SegmentationList.Views(Hypotheses())))
    {
      var vs := SegmentationList.Views(Hypotheses());
      ghost var sol0 := solution[..];
      assert order[..0] == [] && vs[..0] == [];
      var i := 0;
      while i < |vs|
        invariant 0 <= i <= |vs|
        invariant (solution[..], Pass) == Deduction.DeduceAll(sol0, order[..i], vs[..i])
      {
        r := Deduction.DeduceFor(vs[i], order[i], solution);
        assert (solution[..], r) == Deduction.DeduceAll(sol0, order[..i + 1], vs[..i + 1]) by {
          Deduction.DeduceAllStep(sol0, order, vs, i);
        }
        if r.Fail? {
          assert Deduction.DeduceAll(sol0, order, vs) == Deduction.DeduceAll(sol0, order[..i + 1], vs[..i + 1]) by {
            Deduction.DeduceAllStops(sol0, order, vs, i + 1);
          }
          return;
        }
        i := i + 1;
      }
      assert order[..i] == order && vs[..i] == vs by {
        Deduction.PrefixOfPrefix(order, i, i);
        Deduction.PrefixOfPrefix(vs, i, i);
      }
      r := Pass;
    }
  }

  /** The check of a hypothesis, on its current ids, is the check on its view. */
  lemma ViewCheck(h: Segmentation.SegmentationHypothesis, sol: seq<nat>)
    requires h.IdsBelow(|sol|)
    ensures Checkable(SegmentationList.ViewOf(h), |sol|)
    ensures h.Check(sol) == HypothesisCheck(sol, SegmentationList.ViewOf(h))
  {
  }

  /** The check of the k-th hypothesis, on its current ids, is the check on its view. */
  lemma CheckAt(hyps: seq<Segmentation.SegmentationHypothesis>, sol: seq<nat>, k: nat)
    requires k < |hyps| && hyps[k].IdsBelow(|sol|)
    ensures Checkable(SegmentationList.Views(hyps)[k], |sol|)
    ensures hyps[k].Check(sol) == HypothesisCheck(sol, SegmentationList.Views(hyps)[k])
  {
    ViewCheck(hyps[k], sol);
  }

  /**
   * r is the answer of the fold over the checks a, then the checks b: it throws exactly
   * when one of the checks throws, and it is true exactly when every check answers true.
   */
  predicate Answers(r: Result<bool>, a: seq<Result<bool>>, b: seq<Result<bool>>)
  {
    r == Conjoin(Conjoin(Ok(true), a), b) &&
    (r.Err? <==> Throws(a) || Throws(b)) &&
    (r == Ok(true) <==> AllTrue(a) && AllTrue(b))
  }

  /**
   * The fold over the checks a, then the checks b, throws exactly when one of them throws
   * (the first error wins, a false answer does not stop it) and is true exactly when all are.
   */
  lemma FoldAnswers(a: seq<Result<bool>>, b: seq<Result<bool>>)
    ensures Answers(Conjoin(Conjoin(Ok(true), a), b), a, b)
  {
    ConjoinMeaning(true, a);
    var first := Conjoin(Ok(true), a);
    if first.Err? {
      ConjoinErr(first.message, b);
    } else {
      ConjoinMeaning(first.value, b);
    }
  }

}
