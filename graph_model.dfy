/**
 * An abstract graphical model: an append-only list of discrete variables,
 * each with its number of labels, and a list of factors over them.
 * A labelling ("solution") gives one label per variable, indexed by variable id.
 */
module GraphModel {

  /** The features of one state together with the ids of the weights that multiply them. */
  datatype FeaturesAndIds = FeaturesAndIds(features: seq<real>, weightIds: seq<nat>)

  datatype Operator = Equal | LessEqual | GreaterEqual

  /**
   * One summand of a linear constraint.
   * Indicator: the coefficient times [variable is in `state`].
   * Value: the coefficient times the label of the variable, i.e. the sum over s of s * [variable is in s].
   */
  datatype Term =
    | Indicator(variable: int, state: nat, coefficient: int)
    | Value(variable: int, coefficient: int)

  /**
   * Unary: a learnable unary whose energy in state s combines perState[s].features with the
   * weights perState[s].weightIds.
   * WeightedSum: a learnable weighted sum of functions over one variable with `numStates` labels;
   * column i holds the value of feature i in every state and is multiplied by weight weightIds[i].
   * Constraint: a hard linear constraint; shape[k] is the label count declared for argument k.
   */
  datatype Factor =
    | Unary(variable: nat, perState: seq<FeaturesAndIds>)
    | WeightedSum(variable: nat, numStates: nat, weightIds: seq<nat>, columns: seq<seq<real>>)
    | Constraint(terms: seq<Term>, shape: seq<nat>, op: Operator, bound: int)

  class Model {
    var numLabels: seq<nat>
    var factors: seq<Factor>

    constructor ()
      ensures numLabels == [] && factors == []
    {
      numLabels := [];
      factors := [];
    }

    /** Adds a variable with `labels` labels; its id is the number of variables before the call. */
    method AddVariable(labels: nat) returns (id: nat)
      modifies this
      ensures numLabels == old(numLabels) + [labels] && factors == old(factors)
      ensures id == |old(numLabels)| && id == |numLabels| - 1
    {
      id := |numLabels|;
      numLabels := numLabels + [labels];
    }

    method AddFactor(f: Factor)
      modifies this
      ensures factors == old(factors) + [f] && numLabels == old(numLabels)
    {
      factors := factors + [f];
    }
  }

  /** The variables the terms refer to exist in a labelling of length n. */
  predicate TermsInRange(terms: seq<Term>, n: nat)
  {
    forall k :: 0 <= k < |terms| ==> 0 <= terms[k].variable < n
  }

  function TermValue(t: Term, sol: seq<nat>): int
    requires 0 <= t.variable < |sol|
  {
    match t
    case Indicator(v, s, c) => if sol[v] == s then c else 0
    case Value(v, c) => c * sol[v]
  }

  /** The left-hand side of a linear constraint under a labelling. */
  function LeftHandSide(terms: seq<Term>, sol: seq<nat>): int
    requires TermsInRange(terms, |sol|)
  {
    if |terms| == 0 then 0
    else LeftHandSide(terms[..|terms| - 1], sol) + TermValue(terms[|terms| - 1], sol)
  }

  predicate Holds(lhs: int, op: Operator, bound: int)
  {
    match op
    case Equal => lhs == bound
    case LessEqual => lhs <= bound
    case GreaterEqual => lhs >= bound
  }

  /** A constraint factor is met by a labelling that covers all its variables. */
  predicate Satisfied(f: Factor, sol: seq<nat>)
    requires f.Constraint?
  {
    TermsInRange(f.terms, |sol|) &&
    Holds(LeftHandSide(f.terms, sol), f.op, f.bound)
  }

  /** The left-hand side is additive over a split of the term list. */
  lemma {:induction false} LeftHandSideAppend(a: seq<Term>, b: seq<Term>, sol: seq<nat>)
    requires TermsInRange(a, |sol|) && TermsInRange(b, |sol|)
    ensures TermsInRange(a + b, |sol|)
    ensures LeftHandSide(a + b, sol) == LeftHandSide(a, sol) + LeftHandSide(b, sol)
    decreases |b|
  {
    if |b| > 0 {
      var b' := b[..|b| - 1];
      assert (a + b)[..|a + b| - 1] == a + b';
      LeftHandSideAppend(a, b', sol);
    } else {
      assert a + b == a;
    }
  }

  /** A two-term left-hand side is the sum of its two terms. */
  lemma LeftHandSidePair(t0: Term, t1: Term, sol: seq<nat>)
    requires 0 <= t0.variable < |sol| && 0 <= t1.variable < |sol|
    ensures TermsInRange([t0, t1], |sol|)
    ensures LeftHandSide([t0, t1], sol) == TermValue(t0, sol) + TermValue(t1, sol)
  {
    var pair := [t0, t1];
    assert pair[..1] == [t0];
    assert [t0][..0] == [];
    assert LeftHandSide([t0], sol) == TermValue(t0, sol);
    assert LeftHandSide(pair, sol) == LeftHandSide(pair[..1], sol) + TermValue(t1, sol);
  }
}
