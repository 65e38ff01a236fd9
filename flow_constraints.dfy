/**
 * The hard constraints a segmentation hypothesis adds to the graphical model
 * (flow conservation, division, pairwise exclusion), the link sums it reads back
 * from a labelling, and what each constraint means for a labelling.
 * Both revisions of the segmentation hypothesis build exactly these constraints.
 */
module FlowConstraints {
  import opened Wrappers
  import opened GraphModel

  /** Every id of the list names one of the first n variables. */
  predicate AllIn(ids: seq<int>, n: nat)
  {
    forall k :: 0 <= k < |ids| ==> 0 <= ids[k] < n
  }

  /** Ids that name variables of a model still name variables once the model has grown. */
  lemma AllInGrows(ids: seq<int>, n: nat, m: nat)
    requires AllIn(ids, n) && n <= m
    ensures AllIn(ids, m)
  {
  }

  /** An optional id (negative: absent) is absent or names one of the first n variables. */
  predicate AbsentOrIn(id: int, n: nat)
  {
    id < n
  }

  const UNMATERIALISED_LINK := "Cannot compute sum of active links if they have not been added to opengm"

  /** Sum of the labels of the listed variables. */
  function SumAt(sol: seq<nat>, ids: seq<int>): nat
    requires AllIn(ids, |sol|)
  {
    if |ids| == 0 then 0 else SumAt(sol, ids[..|ids| - 1]) + sol[ids[|ids| - 1]]
  }

  lemma {:induction false} SumAtAppend(sol: seq<nat>, a: seq<int>, b: seq<int>)
    requires AllIn(a, |sol|) && AllIn(b, |sol|)
    ensures AllIn(a + b, |sol|)
    ensures SumAt(sol, a + b) == SumAt(sol, a) + SumAt(sol, b)
    decreases |b|
  {
    if |b| > 0 {
      assert (a + b)[..|a + b| - 1] == a + b[..|b| - 1];
      SumAtAppend(sol, a, b[..|b| - 1]);
    } else {
      assert a + b == a;
    }
  }

  /**
   * The number of active links: the sum of the link labels; a link that has no
   * variable yet (negative id) makes it throw.
   */
  function ActiveSum(linkIds: seq<int>, sol: seq<nat>): (r: Result<nat>)
    requires forall k :: 0 <= k < |linkIds| ==> linkIds[k] < |sol|
    ensures r.Err? <==> exists k :: 0 <= k < |linkIds| && linkIds[k] < 0
    ensures r.Err? ==> r == Err(UNMATERIALISED_LINK)
    ensures r.Ok? ==> AllIn(linkIds, |sol|) && r.value == SumAt(sol, linkIds)
  {
    if |linkIds| == 0 then Ok(0)
    else if linkIds[0] < 0 then
      var e: Result<nat> := Err(UNMATERIALISED_LINK);
      e
    else
      match ActiveSum(linkIds[1..], sol)
      case Err(e) => Err(e)
      case Ok(rest) =>
        assert linkIds == [linkIds[0]] + linkIds[1..];
        SumAtAppend(sol, [linkIds[0]], linkIds[1..]);
        assert [linkIds[0]][..0] == [];
        Ok(sol[linkIds[0]] + rest)
  }

  /** One value term per id, all with the same coefficient. */
  function ValueTerms(ids: seq<int>, coefficient: int): (r: seq<Term>)
    ensures |r| == |ids|
    ensures forall k :: 0 <= k < |ids| ==> r[k] == Value(ids[k], coefficient)
  {
    seq(|ids|, k requires 0 <= k < |ids| => Value(ids[k], coefficient))
  }

  /** Value terms sum to the coefficient times the sum of the labels. */
  lemma {:induction false} ValueTermsSum(ids: seq<int>, coefficient: int, sol: seq<nat>)
    requires AllIn(ids, |sol|)
    ensures TermsInRange(ValueTerms(ids, coefficient), |sol|)
    ensures LeftHandSide(ValueTerms(ids, coefficient), sol) == coefficient * SumAt(sol, ids)
    decreases |ids|
  {
    if |ids| > 0 {
      var t := ValueTerms(ids, coefficient);
      assert t[..|t| - 1] == ValueTerms(ids[..|ids| - 1], coefficient);
      ValueTermsSum(ids[..|ids| - 1], coefficient, sol);
    }
  }

  /** Each argument of a constraint built by the helpers declares the label count of its variable. */
  function LabelShape(numLabels: seq<nat>, terms: seq<Term>): (shape: seq<nat>)
    requires TermsInRange(terms, |numLabels|)
    ensures |shape| == |terms|
    ensures forall k :: 0 <= k < |terms| ==> shape[k] == numLabels[terms[k].variable]
  {
    seq(|terms|, k requires 0 <= k < |terms| => numLabels[terms[k].variable])
  }

  function OptionalValue(id: int, coefficient: int): seq<Term>
  {
    if id >= 0 then [Value(id, coefficient)] else []
  }

  function LabelOrZero(sol: seq<nat>, id: int): nat
    requires id < |sol|
  {
    if id >= 0 then sol[id] else 0
  }

  lemma OptionalValueSum(id: int, coefficient: int, sol: seq<nat>)
    requires id < |sol|
    ensures TermsInRange(OptionalValue(id, coefficient), |sol|)
    ensures LeftHandSide(OptionalValue(id, coefficient), sol) == coefficient * LabelOrZero(sol, id)
  {
    if id >= 0 {
      assert [Value(id, coefficient)][..0] == [];
    }
  }

  function IncomingTerms(linkIds: seq<int>, det: int, app: int): seq<Term>
  {
    ValueTerms(linkIds, 1) + [Value(det, -1)] + OptionalValue(app, 1)
  }

  function OutgoingTerms(linkIds: seq<int>, det: int, div: int, dis: int): seq<Term>
  {
    ValueTerms(linkIds, 1) + [Value(det, -1)] + OptionalValue(div, -1) + OptionalValue(dis, 1)
  }

  lemma IncomingLeftHandSide(linkIds: seq<int>, det: int, app: int, sol: seq<nat>)
    requires AllIn(linkIds, |sol|) && 0 <= det < |sol| && app < |sol|
    ensures TermsInRange(IncomingTerms(linkIds, det, app), |sol|)
    ensures LeftHandSide(IncomingTerms(linkIds, det, app), sol) == SumAt(sol, linkIds) - sol[det] + LabelOrZero(sol, app)
  {
    ValueTermsSum(linkIds, 1, sol);
    OptionalValueSum(app, 1, sol);
    assert [Value(det, -1)][..0] == [];
    LeftHandSideAppend(ValueTerms(linkIds, 1), [Value(det, -1)], sol);
    LeftHandSideAppend(ValueTerms(linkIds, 1) + [Value(det, -1)], OptionalValue(app, 1), sol);
  }

  lemma OutgoingLeftHandSide(linkIds: seq<int>, det: int, div: int, dis: int, sol: seq<nat>)
    requires AllIn(linkIds, |sol|) && 0 <= det < |sol| && div < |sol| && dis < |sol|
    ensures TermsInRange(OutgoingTerms(linkIds, det, div, dis), |sol|)
    ensures LeftHandSide(OutgoingTerms(linkIds, det, div, dis), sol) ==
            SumAt(sol, linkIds) - sol[det] - LabelOrZero(sol, div) + LabelOrZero(sol, dis)
  {
    ValueTermsSum(linkIds, 1, sol);
    OptionalValueSum(div, -1, sol);
    OptionalValueSum(dis, 1, sol);
    assert [Value(det, -1)][..0] == [];
    var t1 := ValueTerms(linkIds, 1) + [Value(det, -1)];
    LeftHandSideAppend(ValueTerms(linkIds, 1), [Value(det, -1)], sol);
    LeftHandSideAppend(t1, OptionalValue(div, -1), sol);
    LeftHandSideAppend(t1 + OptionalValue(div, -1), OptionalValue(dis, 1), sol);
  }

  /**
   * Incoming flow conservation: incoming link labels plus appearance minus detection equal 0.
   * Omitted when there are no incoming links and no appearance variable.
   */
  function IncomingConstraint(numLabels: seq<nat>, linkIds: seq<int>, det: int, app: int): (r: Option<Factor>)
    requires AllIn(linkIds, |numLabels|) && 0 <= det < |numLabels| && AbsentOrIn(app, |numLabels|)
    ensures r.None? <==> |linkIds| == 0 && app < 0
    ensures r.Some? ==> r.value.Constraint? && r.value.op == Equal && r.value.bound == 0 &&
                        r.value.terms == IncomingTerms(linkIds, det, app)
  {
    if |linkIds| == 0 && app < 0 then None
    else
      var terms := IncomingTerms(linkIds, det, app);
      IncomingLeftHandSide(linkIds, det, app, numLabels);
      Some(Constraint(terms, LabelShape(numLabels, terms), Equal, 0))
  }

  /**
   * Outgoing flow conservation: outgoing link labels plus disappearance minus detection
   * minus division equal 0. Omitted when there are no outgoing links and no disappearance.
   */
  function OutgoingConstraint(numLabels: seq<nat>, linkIds: seq<int>, det: int, div: int, dis: int): (r: Option<Factor>)
    requires AllIn(linkIds, |numLabels|) && 0 <= det < |numLabels|
    requires AbsentOrIn(div, |numLabels|) && AbsentOrIn(dis, |numLabels|)
    ensures r.None? <==> |linkIds| == 0 && dis < 0
    ensures r.Some? ==> r.value.Constraint? && r.value.op == Equal && r.value.bound == 0 &&
                        r.value.terms == OutgoingTerms(linkIds, det, div, dis)
  {
    if |linkIds| == 0 && dis < 0 then None
    else
      var terms := OutgoingTerms(linkIds, det, div, dis);
      OutgoingLeftHandSide(linkIds, det, div, dis, numLabels);
      Some(Constraint(terms, LabelShape(numLabels, terms), Equal, 0))
  }

  /** Division needs detection: [division in state 1] - [detection in state 1] <= 0. */
  function DivisionConstraint(numLabels: seq<nat>, det: int, div: int): (r: Option<Factor>)
    requires 0 <= det < |numLabels| && AbsentOrIn(div, |numLabels|)
    ensures r.None? <==> div < 0
  {
    if div < 0 then None
    else
      var terms := [Indicator(det, 1, -1), Indicator(div, 1, 1)];
      Some(Constraint(terms, LabelShape(numLabels, terms), LessEqual, 0))
  }

  /**
   * At least one of two variables is in state 0: A[0] + B[0] >= 1 with A <= B.
   * Omitted when either variable is absent.
   */
  function PairExclusion(numLabels: seq<nat>, a: int, b: int): (r: Option<Factor>)
    requires AbsentOrIn(a, |numLabels|) && AbsentOrIn(b, |numLabels|)
    ensures r.None? <==> a < 0 || b < 0
    ensures r.Some? ==> (r.value.Constraint? && |r.value.terms| == 2 &&
      r.value.terms[0].variable <= r.value.terms[1].variable &&
      {r.value.terms[0].variable, r.value.terms[1].variable} == {a, b})
  {
    if a < 0 || b < 0 then None
    else
      var lo := if a > b then b else a;
      var hi := if a > b then a else b;
      var terms := [Indicator(lo, 0, 1), Indicator(hi, 0, 1)];
      Some(Constraint(terms, LabelShape(numLabels, terms), GreaterEqual, 1))
  }

  function OptionList(f: Option<Factor>): seq<Factor>
  {
    if f.Some? then [f.value] else []
  }

  /** The exclusions between one variable and each variable of a list, in list order. */
  function PairExclusions(numLabels: seq<nat>, a: int, ids: seq<int>): seq<Factor>
    requires AbsentOrIn(a, |numLabels|) && AllIn(ids, |numLabels|)
  {
    if |ids| == 0 then []
    else PairExclusions(numLabels, a, ids[..|ids| - 1]) + OptionList(PairExclusion(numLabels, a, ids[|ids| - 1]))
  }

  /**
   * All constraints of one segmentation hypothesis, in the order they are added:
   * incoming, outgoing, division, then appearance x incoming links,
   * disappearance x outgoing links and disappearance x division.
   */
  function HypothesisConstraints(numLabels: seq<nat>, inIds: seq<int>, outIds: seq<int>,
                                 det: int, div: int, app: int, dis: int): seq<Factor>
    requires AllIn(inIds, |numLabels|) && AllIn(outIds, |numLabels|) && 0 <= det < |numLabels|
    requires AbsentOrIn(div, |numLabels|) && AbsentOrIn(app, |numLabels|) && AbsentOrIn(dis, |numLabels|)
  {
    FlowFactors(numLabels, inIds, outIds, det, div, app, dis) + ExclusionFactors(numLabels, inIds, outIds, div, app, dis)
  }

  /** The incoming, outgoing and division constraints, each when present. */
  function FlowFactors(numLabels: seq<nat>, inIds: seq<int>, outIds: seq<int>,
                       det: int, div: int, app: int, dis: int): seq<Factor>
    requires AllIn(inIds, |numLabels|) && AllIn(outIds, |numLabels|) && 0 <= det < |numLabels|
    requires AbsentOrIn(div, |numLabels|) && AbsentOrIn(app, |numLabels|) && AbsentOrIn(dis, |numLabels|)
  {
    OptionList(IncomingConstraint(numLabels, inIds, det, app)) +
    OptionList(OutgoingConstraint(numLabels, outIds, det, div, dis)) +
    OptionList(DivisionConstraint(numLabels, det, div))
  }

  /** Appearance x incoming links, then disappearance x outgoing links and disappearance x division. */
  function ExclusionFactors(numLabels: seq<nat>, inIds: seq<int>, outIds: seq<int>,
                            div: int, app: int, dis: int): seq<Factor>
    requires AllIn(inIds, |numLabels|) && AllIn(outIds, |numLabels|)
    requires AbsentOrIn(div, |numLabels|) && AbsentOrIn(app, |numLabels|) && AbsentOrIn(dis, |numLabels|)
  {
    (if app >= 0 then PairExclusions(numLabels, app, inIds) else []) +
    (if dis >= 0 then PairExclusions(numLabels, dis, outIds) + OptionList(PairExclusion(numLabels, dis, div)) else [])
  }

  /** What the incoming constraint requires of a labelling. */
  lemma IncomingMeaning(numLabels: seq<nat>, linkIds: seq<int>, det: int, app: int, sol: seq<nat>)
    requires AllIn(linkIds, |numLabels|) && 0 <= det < |numLabels| && AbsentOrIn(app, |numLabels|)
    requires |sol| == |numLabels|
    requires IncomingConstraint(numLabels, linkIds, det, app).Some?
    ensures Satisfied(IncomingConstraint(numLabels, linkIds, det, app).value, sol) <==>
            SumAt(sol, linkIds) + LabelOrZero(sol, app) == sol[det]
  {
    IncomingLeftHandSide(linkIds, det, app, sol);
  }

  /** What the outgoing constraint requires of a labelling. */
  lemma OutgoingMeaning(numLabels: seq<nat>, linkIds: seq<int>, det: int, div: int, dis: int, sol: seq<nat>)
    requires AllIn(linkIds, |numLabels|) && 0 <= det < |numLabels|
    requires AbsentOrIn(div, |numLabels|) && AbsentOrIn(dis, |numLabels|)
    requires |sol| == |numLabels|
    requires OutgoingConstraint(numLabels, linkIds, det, div, dis).Some?
    ensures Satisfied(OutgoingConstraint(numLabels, linkIds, det, div, dis).value, sol) <==>
            SumAt(sol, linkIds) + LabelOrZero(sol, dis) == sol[det] + LabelOrZero(sol, div)
  {
    OutgoingLeftHandSide(linkIds, det, div, dis, sol);
  }

  /** What the division constraint requires: a dividing detection (division in state 1) is in state 1. */
  lemma DivisionMeaning(numLabels: seq<nat>, det: int, div: int, sol: seq<nat>)
    requires 0 <= det < |numLabels| && 0 <= div < |numLabels| && |sol| == |numLabels|
    ensures Satisfied(DivisionConstraint(numLabels, det, div).value, sol) <==> (sol[div] == 1 ==> sol[det] == 1)
  {
    LeftHandSidePair(Indicator(det, 1, -1), Indicator(div, 1, 1), sol);
  }

  /** What a pairwise exclusion requires: one of the two variables is in state 0. */
  lemma PairExclusionMeaning(numLabels: seq<nat>, a: int, b: int, sol: seq<nat>)
    requires 0 <= a < |numLabels| && 0 <= b < |numLabels| && |sol| == |numLabels|
    ensures Satisfied(PairExclusion(numLabels, a, b).value, sol) <==> (sol[a] == 0 || sol[b] == 0)
  {
    var f := PairExclusion(numLabels, a, b).value;
    LeftHandSidePair(f.terms[0], f.terms[1], sol);
    assert f.terms == [f.terms[0], f.terms[1]];
  }

  /** The exclusions against a list are all met exactly when no listed variable is active together with `a`. */
  lemma {:induction false} PairExclusionsMeaning(numLabels: seq<nat>, a: int, ids: seq<int>, sol: seq<nat>)
    requires 0 <= a < |numLabels| && AllIn(ids, |numLabels|) && |sol| == |numLabels|
    ensures (forall f :: f in PairExclusions(numLabels, a, ids) ==> f.Constraint? && Satisfied(f, sol)) <==>
            (sol[a] == 0 || forall k :: 0 <= k < |ids| ==> sol[ids[k]] == 0)
    decreases |ids|
  {
    if |ids| > 0 {
      var last := ids[|ids| - 1];
      PairExclusionsMeaning(numLabels, a, ids[..|ids| - 1], sol);
      PairExclusionMeaning(numLabels, a, last, sol);
      var rest := PairExclusions(numLabels, a, ids[..|ids| - 1]);
      assert PairExclusions(numLabels, a, ids) == rest + [PairExclusion(numLabels, a, last).value];
      if sol[a] != 0 && (forall k :: 0 <= k < |ids| - 1 ==> sol[ids[k]] == 0) && sol[last] == 0 {
        forall k | 0 <= k < |ids| ensures sol[ids[k]] == 0 {
          if k < |ids| - 1 {
            assert sol[ids[..|ids| - 1][k]] == 0;
          }
        }
      }
    }
  }

  /** The sum of the labels is zero exactly when every listed label is zero. */
  lemma {:induction false} SumAtZero(sol: seq<nat>, ids: seq<int>)
    requires AllIn(ids, |sol|)
    ensures SumAt(sol, ids) == 0 <==> forall k :: 0 <= k < |ids| ==> sol[ids[k]] == 0
    decreases |ids|
  {
    if |ids| > 0 {
      var init := ids[..|ids| - 1];
      SumAtZero(sol, init);
      assert forall k :: 0 <= k < |init| ==> init[k] == ids[k];
    }
  }

  /** Every factor of the list is a constraint that the labelling meets. */
  predicate AllSatisfied(fs: seq<Factor>, sol: seq<nat>)
  {
    forall f :: f in fs ==> f.Constraint? && Satisfied(f, sol)
  }

  lemma AllSatisfiedAppend(a: seq<Factor>, b: seq<Factor>, sol: seq<nat>)
    ensures AllSatisfied(a + b, sol) <==> AllSatisfied(a, sol) && AllSatisfied(b, sol)
  {
  }

  /** Incoming flow: links plus appearance carry the detection's label, when there is anything to carry it. */
  predicate IncomingRule(sol: seq<nat>, inIds: seq<int>, det: int, app: int)
    requires AllIn(inIds, |sol|) && 0 <= det < |sol| && AbsentOrIn(app, |sol|)
  {
    (|inIds| > 0 || app >= 0) ==> SumAt(sol, inIds) + LabelOrZero(sol, app) == sol[det]
  }

  /** Outgoing flow: links plus disappearance carry the detection's label plus the division's. */
  predicate OutgoingRule(sol: seq<nat>, outIds: seq<int>, det: int, div: int, dis: int)
    requires AllIn(outIds, |sol|) && 0 <= det < |sol| && AbsentOrIn(div, |sol|) && AbsentOrIn(dis, |sol|)
  {
    (|outIds| > 0 || dis >= 0) ==> SumAt(sol, outIds) + LabelOrZero(sol, dis) == sol[det] + LabelOrZero(sol, div)
  }

  /** A present variable `a` that is active forbids every listed variable from being active. */
  predicate ExcludesAll(sol: seq<nat>, a: int, ids: seq<int>)
    requires AbsentOrIn(a, |sol|) && AllIn(ids, |sol|)
  {
    a >= 0 ==> (sol[a] == 0 || forall k :: 0 <= k < |ids| ==> sol[ids[k]] == 0)
  }

  /**
   * The rules of one segmentation hypothesis, stated on the labelling; a negative
   * id stands for an absent division, appearance or disappearance variable.
   */
  predicate FlowRules(sol: seq<nat>, inIds: seq<int>, outIds: seq<int>, det: int, div: int, app: int, dis: int)
    requires AllIn(inIds, |sol|) && AllIn(outIds, |sol|) && 0 <= det < |sol|
    requires AbsentOrIn(div, |sol|) && AbsentOrIn(app, |sol|) && AbsentOrIn(dis, |sol|)
  {
    IncomingRule(sol, inIds, det, app) &&
    OutgoingRule(sol, outIds, det, div, dis) &&
    (div >= 0 ==> (sol[div] == 1 ==> sol[det] == 1)) &&
    ExcludesAll(sol, app, inIds) &&
    ExcludesAll(sol, dis, outIds) &&
    (dis >= 0 && div >= 0 ==> (sol[dis] == 0 || sol[div] == 0))
  }

  lemma IncomingPartMeaning(numLabels: seq<nat>, inIds: seq<int>, det: int, app: int, sol: seq<nat>)
    requires AllIn(inIds, |numLabels|) && 0 <= det < |numLabels| && AbsentOrIn(app, |numLabels|)
    requires |sol| == |numLabels|
    ensures AllSatisfied(OptionList(IncomingConstraint(numLabels, inIds, det, app)), sol) <==> IncomingRule(sol, inIds, det, app)
  {
    if |inIds| > 0 || app >= 0 {
      IncomingMeaning(numLabels, inIds, det, app, sol);
    }
  }

  lemma OutgoingPartMeaning(numLabels: seq<nat>, outIds: seq<int>, det: int, div: int, dis: int, sol: seq<nat>)
    requires AllIn(outIds, |numLabels|) && 0 <= det < |numLabels|
    requires AbsentOrIn(div, |numLabels|) && AbsentOrIn(dis, |numLabels|)
    requires |sol| == |numLabels|
    ensures AllSatisfied(OptionList(OutgoingConstraint(numLabels, outIds, det, div, dis)), sol) <==> OutgoingRule(sol, outIds, det, div, dis)
  {
    if |outIds| > 0 || dis >= 0 {
      OutgoingMeaning(numLabels, outIds, det, div, dis, sol);
    }
  }

  lemma DivisionPartMeaning(numLabels: seq<nat>, det: int, div: int, sol: seq<nat>)
    requires 0 <= det < |numLabels| && AbsentOrIn(div, |numLabels|) && |sol| == |numLabels|
    ensures AllSatisfied(OptionList(DivisionConstraint(numLabels, det, div)), sol) <==> (div >= 0 ==> (sol[div] == 1 ==> sol[det] == 1))
  {
    if div >= 0 {
      DivisionMeaning(numLabels, det, div, sol);
    }
  }

  lemma ExclusionPartMeaning(numLabels: seq<nat>, a: int, ids: seq<int>, sol: seq<nat>)
    requires AbsentOrIn(a, |numLabels|) && AllIn(ids, |numLabels|) && |sol| == |numLabels|
    ensures AllSatisfied(if a >= 0 then PairExclusions(numLabels, a, ids) else [], sol) <==> ExcludesAll(sol, a, ids)
  {
    if a >= 0 {
      PairExclusionsMeaning(numLabels, a, ids, sol);
    }
  }

  lemma DisappearancePartMeaning(numLabels: seq<nat>, outIds: seq<int>, div: int, dis: int, sol: seq<nat>)
    requires AllIn(outIds, |numLabels|) && AbsentOrIn(div, |numLabels|) && AbsentOrIn(dis, |numLabels|)
    requires |sol| == |numLabels|
    ensures AllSatisfied(if dis >= 0 then PairExclusions(numLabels, dis, outIds) + OptionList(PairExclusion(numLabels, dis, div)) else [], sol) <==>
            ExcludesAll(sol, dis, outIds) && (dis >= 0 && div >= 0 ==> (sol[dis] == 0 || sol[div] == 0))
  {
    if dis >= 0 {
      PairExclusionsMeaning(numLabels, dis, outIds, sol);
      AllSatisfiedAppend(PairExclusions(numLabels, dis, outIds), OptionList(PairExclusion(numLabels, dis, div)), sol);
      if div >= 0 {
        PairExclusionMeaning(numLabels, dis, div, sol);
      }
    }
  }

  /** A labelling meets all constraints of a hypothesis exactly when it obeys its rules. */
  lemma HypothesisConstraintsMeaning(numLabels: seq<nat>, inIds: seq<int>, outIds: seq<int>,
                                     det: int, div: int, app: int, dis: int, sol: seq<nat>)
    requires AllIn(inIds, |numLabels|) && AllIn(outIds, |numLabels|) && 0 <= det < |numLabels|
    requires AbsentOrIn(div, |numLabels|) && AbsentOrIn(app, |numLabels|) && AbsentOrIn(dis, |numLabels|)
    requires |sol| == |numLabels|
    ensures AllSatisfied(HypothesisConstraints(numLabels, inIds, outIds, det, div, app, dis), sol) <==>
            FlowRules(sol, inIds, outIds, det, div, app, dis)
  {
    var inc := OptionList(IncomingConstraint(numLabels, inIds, det, app));
    var out := OptionList(OutgoingConstraint(numLabels, outIds, det, div, dis));
    var dvc := OptionList(DivisionConstraint(numLabels, det, div));
    var appEx := if app >= 0 then PairExclusions(numLabels, app, inIds) else [];
    var disEx := if dis >= 0 then PairExclusions(numLabels, dis, outIds) + OptionList(PairExclusion(numLabels, dis, div)) else [];
    assert HypothesisConstraints(numLabels, inIds, outIds, det, div, app, dis) == inc + out + dvc + appEx + disEx;
    AllSatisfiedAppend(inc, out, sol);
    AllSatisfiedAppend(inc + out, dvc, sol);
    AllSatisfiedAppend(inc + out + dvc, appEx, sol);
    AllSatisfiedAppend(inc + out + dvc + appEx, disEx, sol);
    IncomingPartMeaning(numLabels, inIds, det, app, sol);
    OutgoingPartMeaning(numLabels, outIds, det, div, dis, sol);
    DivisionPartMeaning(numLabels, det, div, sol);
    ExclusionPartMeaning(numLabels, app, inIds, sol);
    DisappearancePartMeaning(numLabels, outIds, div, dis, sol);
  }

  /**
   * Emits the constraints of one segmentation hypothesis, one factor at a time and
   * in the order of HypothesisConstraints.
   */
  method AddHypothesisConstraints(model: Model, inIds: seq<int>, outIds: seq<int>, det: int, div: int, app: int, dis: int)
    requires AllIn(inIds, |model.numLabels|) && AllIn(outIds, |model.numLabels|) && 0 <= det < |model.numLabels|
    requires AbsentOrIn(div, |model.numLabels|) && AbsentOrIn(app, |model.numLabels|) && AbsentOrIn(dis, |model.numLabels|)
    modifies model
    ensures model.numLabels == old(model.numLabels)
    ensures model.factors == old(model.factors) + HypothesisConstraints(model.numLabels, inIds, outIds, det, div, app, dis)
  {
    AddFlowConstraints(model, inIds, outIds, det, div, app, dis);
    AddExclusionConstraints(model, inIds, outIds, div, app, dis);
  }

  method AddFlowConstraints(model: Model, inIds: seq<int>, outIds: seq<int>, det: int, div: int, app: int, dis: int)
    requires AllIn(inIds, |model.numLabels|) && AllIn(outIds, |model.numLabels|) && 0 <= det < |model.numLabels|
    requires AbsentOrIn(div, |model.numLabels|) && AbsentOrIn(app, |model.numLabels|) && AbsentOrIn(dis, |model.numLabels|)
    modifies model
    ensures model.numLabels == old(model.numLabels)
    ensures model.factors == old(model.factors) + FlowFactors(model.numLabels, inIds, outIds, det, div, app, dis)
  {
    var n := model.numLabels;
    AddOptional(model, IncomingConstraint(n, inIds, det, app));
    AddOptional(model, OutgoingConstraint(n, outIds, det, div, dis));
    AddOptional(model, DivisionConstraint(n, det, div));
  }

  method AddExclusionConstraints(model: Model, inIds: seq<int>, outIds: seq<int>, div: int, app: int, dis: int)
    requires AllIn(inIds, |model.numLabels|) && AllIn(outIds, |model.numLabels|)
    requires AbsentOrIn(div, |model.numLabels|) && AbsentOrIn(app, |model.numLabels|) && AbsentOrIn(dis, |model.numLabels|)
    modifies model
    ensures model.numLabels == old(model.numLabels)
    ensures model.factors == old(model.factors) + ExclusionFactors(model.numLabels, inIds, outIds, div, app, dis)
  {
    if app >= 0 {
      AddPairExclusions(model, app, inIds);
    }
    if dis >= 0 {
      AddPairExclusions(model, dis, outIds);
      AddOptional(model, PairExclusion(model.numLabels, dis, div));
    }
  }

  /** Adds the factor when there is one. */
  method AddOptional(model: Model, f: Option<Factor>)
    modifies model
    ensures model.numLabels == old(model.numLabels)
    ensures model.factors == old(model.factors) + OptionList(f)
  {
    if f.Some? {
      model.AddFactor(f.value);
    }
  }

  /** The loop that excludes `a` against every listed variable. */
  method AddPairExclusions(model: Model, a: int, ids: seq<int>)
    requires AbsentOrIn(a, |model.numLabels|) && AllIn(ids, |model.numLabels|)
    modifies model
    ensures model.numLabels == old(model.numLabels)
    ensures model.factors == old(model.factors) + PairExclusions(model.numLabels, a, ids)
  {
    var i := 0;
    while i < |ids|
      invariant 0 <= i <= |ids| && model.numLabels == old(model.numLabels)
      invariant model.factors == old(model.factors) + PairExclusions(model.numLabels, a, ids[..i])
    {
      assert ids[..i + 1][..i] == ids[..i];
      var exclusion := PairExclusion(model.numLabels, a, ids[i]);
      if exclusion.Some? {
        model.AddFactor(exclusion.value);
      }
      i := i + 1;
    }
    assert ids[..i] == ids;
  }
}
