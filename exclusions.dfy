/**
 * An exclusion constraint: among the listed segmentation hypotheses at most one
 * detection may be active. It is read from a JSON array of hypothesis ids, which
 * are kept in ascending order, becomes one linear factor over the detection
 * variables, and is checked against a labelling by summing their labels.
 */
module Exclusions {
  import opened Wrappers
  import opened GraphModel
  import opened FlowConstraints
  import opened Json
  import Segmentation
  import opened Variables

  const NON_ARRAY_ENTRY := "Cannot extract Constraint from non-array JSON entry"
  const UNKNOWN_MEMBER := "map::at"

  predicate Sorted(s: seq<int>)
  {
    forall i, j :: 0 <= i < j < |s| ==> s[i] <= s[j]
  }

  /** Inserts x into a sorted list before the first larger-or-equal element. */
  function Insert(x: int, s: seq<int>): (r: seq<int>)
    requires Sorted(s)
    ensures |r| == |s| + 1
    ensures r[0] == x || (|s| > 0 && r[0] == s[0])
    ensures Sorted(r)
    ensures multiset(r) == multiset(s) + multiset{x}
  {
    if |s| == 0 then [x]
    else if x <= s[0] then [x] + s
    else
      assert s == [s[0]] + s[1..];
      [s[0]] + Insert(x, s[1..])
  }

  /** The ascending arrangement of a list of ids (the effect of sorting it). */
  function Sort(s: seq<int>): (r: seq<int>)
    ensures Sorted(r)
    ensures multiset(r) == multiset(s)
  {
    if |s| == 0 then []
    else
      assert s == s[..|s| - 1] + [s[|s| - 1]];
      Insert(s[|s| - 1], Sort(s[..|s| - 1]))
  }

  /** Two sorted lists with the same elements are equal, so Sort gives the only sorted permutation. */
  lemma {:induction false} SortedPermutationUnique(a: seq<int>, b: seq<int>)
    requires Sorted(a) && Sorted(b) && multiset(a) == multiset(b)
    ensures a == b
    decreases |a|
  {
    if |a| == 0 {
      assert |multiset(b)| == 0;
    } else {
      assert |b| == |multiset(b)| == |multiset(a)| == |a|;
      assert a[0] in multiset(b) && b[0] in multiset(a);
      assert a == [a[0]] + a[1..] && b == [b[0]] + b[1..];
      assert a[0] <= b[0] by {
        var k :| 0 <= k < |a| && a[k] == b[0];
      }
      assert b[0] <= a[0] by {
        var k :| 0 <= k < |b| && b[k] == a[0];
      }
      assert multiset(a[1..]) == multiset(a) - multiset{a[0]};
      assert multiset(b[1..]) == multiset(b) - multiset{b[0]};
      SortedPermutationUnique(a[1..], b[1..]);
    }
  }

  /** The entries converted to integers; fails at the first entry that does not convert. */
  function ConvertAll(items: seq<JsonValue>): (r: Result<seq<int>>)
    ensures r.Ok? <==> Convertible(items)
    ensures r.Ok? ==> |r.value| == |items| && forall k :: 0 <= k < |items| ==> AsInt(items[k]) == Ok(r.value[k])
  {
    if |items| == 0 then Ok([])
    else
      match AsInt(items[0])
      case Err(e) => Err(e)
      case Ok(i) =>
        match ConvertAll(items[1..])
        case Err(e) =>
          assert !Convertible(items);
          Err(e)
        case Ok(rest) => Ok([i] + rest)
  }

  /** Every entry converts to an integer. */
  predicate Convertible(items: seq<JsonValue>)
  {
    forall k :: 0 <= k < |items| ==> AsInt(items[k]).Ok?
  }

  /** The detection variables of all hypotheses. */
  function Detections(segs: map<int, Segmentation.SegmentationHypothesis>): (r: set<Variable>)
    ensures forall k :: k in segs ==> segs[k].detection in r
  {
    set k | k in segs :: segs[k].detection
  }

  /** The detection variable ids of the listed hypotheses. */
  function DetectionIds(ids: seq<int>, segs: map<int, Segmentation.SegmentationHypothesis>): (r: seq<int>)
    requires forall k :: 0 <= k < |ids| ==> ids[k] in segs
    reads Detections(segs)
    ensures |r| == |ids|
    ensures forall k :: 0 <= k < |ids| ==> r[k] == segs[ids[k]].detection.id
  {
    if |ids| == 0 then [] else DetectionIds(ids[..|ids| - 1], segs) + [segs[ids[|ids| - 1]].detection.id]
  }

  /** One indicator of state 1 with coefficient 1 per detection variable. */
  function IndicatorTerms(dets: seq<int>): (r: seq<Term>)
    ensures |r| == |dets|
    ensures forall k :: 0 <= k < |dets| ==> r[k] == Indicator(dets[k], 1, 1)
  {
    seq(|dets|, k requires 0 <= k < |dets| => Indicator(dets[k], 1, 1))
  }

  /** At most one of the detection variables is in state 1; every argument is declared with 2 labels. */
  function ExclusionFactor(dets: seq<int>): (f: Factor)
    ensures f.Constraint? && f.op == LessEqual && f.bound == 1
    ensures f.terms == IndicatorTerms(dets)
    ensures |f.shape| == |dets| && forall k :: 0 <= k < |dets| ==> f.shape[k] == 2
  {
    Constraint(IndicatorTerms(dets), seq(|dets|, _ => 2), LessEqual, 1)
  }

  /** How many of the listed variables are in state s. */
  function CountInState(sol: seq<nat>, ids: seq<int>, s: nat): nat
    requires AllIn(ids, |sol|)
  {
    if |ids| == 0 then 0
    else CountInState(sol, ids[..|ids| - 1], s) + (if sol[ids[|ids| - 1]] == s then 1 else 0)
  }

  /** The indicator terms add up to the number of variables in state 1. */
  lemma {:induction false} IndicatorTermsCount(dets: seq<int>, sol: seq<nat>)
    requires AllIn(dets, |sol|)
    ensures TermsInRange(IndicatorTerms(dets), |sol|)
    ensures LeftHandSide(IndicatorTerms(dets), sol) == CountInState(sol, dets, 1)
    decreases |dets|
  {
    if |dets| > 0 {
      var t := IndicatorTerms(dets);
      assert t[..|t| - 1] == IndicatorTerms(dets[..|dets| - 1]);
      IndicatorTermsCount(dets[..|dets| - 1], sol);
    }
  }

  /** The factor holds exactly when at most one listed detection is in state 1. */
  lemma ExclusionFactorMeaning(dets: seq<int>, sol: seq<nat>)
    requires AllIn(dets, |sol|)
    ensures Satisfied(ExclusionFactor(dets), sol) <==> CountInState(sol, dets, 1) <= 1
  {
    IndicatorTermsCount(dets, sol);
  }

  /** In a binary labelling the sum of the labels is the number of variables in state 1. */
  lemma {:induction false} BinarySumIsCount(dets: seq<int>, sol: seq<nat>)
    requires AllIn(dets, |sol|)
    requires forall k :: 0 <= k < |dets| ==> sol[dets[k]] <= 1
    ensures SumAt(sol, dets) == CountInState(sol, dets, 1)
    decreases |dets|
  {
    if |dets| > 0 {
      BinarySumIsCount(dets[..|dets| - 1], sol);
    }
  }

  /** The check of a labelling: the labels of the detections sum to less than 2. */
  function Verify(sol: seq<nat>, dets: seq<int>): bool
    requires AllIn(dets, |sol|)
  {
    SumAt(sol, dets) < 2
  }

  /** On detections in states 0 and 1 the check and the factor agree. */
  lemma VerifyMatchesFactor(dets: seq<int>, sol: seq<nat>)
    requires AllIn(dets, |sol|)
    requires forall k :: 0 <= k < |dets| ==> sol[dets[k]] <= 1
    ensures Verify(sol, dets) <==> Satisfied(ExclusionFactor(dets), sol)
  {
    BinarySumIsCount(dets, sol);
    ExclusionFactorMeaning(dets, sol);
  }

  /** A single member in state 2 meets the factor (no indicator of state 1 fires) but fails the check. */
  lemma SingleMemberInStateTwo()
    ensures !Verify([2], [0])
    ensures Satisfied(ExclusionFactor([0]), [2])
  {
    ExclusionFactorMeaning([0], [2]);
    assert [0][..0] == [];
  }

  /** Every member that is a known hypothesis has a detection with a label in sol. */
  predicate Covered(sol: seq<nat>, ids: seq<int>, segs: map<int, Segmentation.SegmentationHypothesis>)
    reads Detections(segs)
  {
    forall k :: 0 <= k < |ids| && ids[k] in segs ==> 0 <= segs[ids[k]].detection.id < |sol|
  }

  /** The check of a labelling over the members' detections; a member that is not a known hypothesis throws. */
  function Check(sol: seq<nat>, ids: seq<int>, segs: map<int, Segmentation.SegmentationHypothesis>): Result<bool>
    reads Detections(segs), set k | 0 <= k < |ids| && ids[k] in segs :: segs[ids[k]].detection
    requires Covered(sol, ids, segs)
  {
    if forall k :: 0 <= k < |ids| ==> ids[k] in segs then Ok(Verify(sol, DetectionIds(ids, segs)))
    else Err(UNKNOWN_MEMBER)
  }

  class ExclusionConstraint {
    var ids: seq<int>

    /** The ids are kept exactly as given, in the given order. */
    constructor (ids: seq<int>)
      ensures this.ids == ids
    {
      this.ids := ids;
    }

    /**
     * Replaces the ids by the entries of a JSON array, converted one by one and
     * then sorted ascending. A non-array entry fails before anything changes; an
     * entry that does not convert fails with the ids converted before it in place.
     */
    method ReadFromJson(entry: JsonValue) returns (r: Outcome)
      modifies this
      ensures !entry.Array? ==> r.Fail? && ids == old(ids)
      ensures entry.Array? ==> (r.Pass? <==> Convertible(entry.items))
      ensures entry.Array? && r.Pass? ==> Sorted(ids) && multiset(ids) == multiset(ConvertAll(entry.items).value)
      ensures entry.Array? && r.Fail? ==>
        |ids| < |entry.items| && AsInt(entry.items[|ids|]).Err? &&
        forall k :: 0 <= k < |ids| ==> AsInt(entry.items[k]) == Ok(ids[k])
    {
      if !entry.Array? {
        return Fail(NON_ARRAY_ENTRY);
      }
      var items := entry.items;
      ids := [];
      var i := 0;
      while i < |items|
        invariant 0 <= i <= |items| && |ids| == i
        invariant forall k :: 0 <= k < i ==> AsInt(items[k]) == Ok(ids[k])
      {
        var converted := AsInt(items[i]);
        if converted.Err? {
          return Fail(converted.message);
        }
        ids := ids + [converted.value];
        i := i + 1;
      }
      assert ids == ConvertAll(items).value;
      ids := Sort(ids);
      return Pass;
    }

    /** One factor over the members' detection variables, in the order of the ids. */
    method AddToModel(model: Model, segs: map<int, Segmentation.SegmentationHypothesis>)
      requires forall k :: 0 <= k < |ids| ==> ids[k] in segs
      requires AllIn(DetectionIds(ids, segs), |model.numLabels|)
      modifies model
      ensures model.numLabels == old(model.numLabels)
      ensures model.factors == old(model.factors) + [ExclusionFactor(old(DetectionIds(ids, segs)))]
    {
      model.AddFactor(ExclusionFactor(DetectionIds(ids, segs)));
    }

    /**
     * The check of a labelling: sums the detection labels of the members in list
     * order; a member that is not a known hypothesis throws.
     */
    method VerifySolution(sol: seq<nat>, segs: map<int, Segmentation.SegmentationHypothesis>) returns (r: Result<bool>)
      requires Covered(sol, ids, segs)
      ensures r.Err? <==> exists k :: 0 <= k < |ids| && ids[k] !in segs
      ensures r.Ok? ==> AllIn(DetectionIds(ids, segs), |sol|) && r.value == Verify(sol, DetectionIds(ids, segs))
      ensures r == Check(sol, ids, segs)
    {
      var sum := 0;
      var i := 0;
      while i < |ids|
        invariant 0 <= i <= |ids|
        invariant forall k :: 0 <= k < i ==> ids[k] in segs
        invariant AllIn(DetectionIds(ids[..i], segs), |sol|)
        invariant sum == SumAt(sol, DetectionIds(ids[..i], segs))
      {
        if ids[i] !in segs {
          return Err(UNKNOWN_MEMBER);
        }
        assert ids[..i + 1][..i] == ids[..i];
        sum := sum + sol[segs[ids[i]].detection.id];
        i := i + 1;
      }
      assert ids[..i] == ids;
      return Ok(sum < 2);
    }
  }
}
