/**
 * A multi-state variable of the tracking model (detection, division, appearance,
 * disappearance or a link): one feature list per state, and the id the variable
 * receives in the graphical model once it is materialised (-1 before).
 */
module Variables {
  import opened Wrappers
  import opened GraphModel

  /** A variable is materialised only when it has a first state with at least one feature. */
  predicate HasFeatures(features: seq<seq<real>>)
  {
    |features| > 0 && |features[0]| > 0
  }

  /** Number of features summed over all states. */
  function TotalFeatures(features: seq<seq<real>>): nat
  {
    if |features| == 0 then 0
    else TotalFeatures(features[..|features| - 1]) + |features[|features| - 1]|
  }

  /** The total is additive over any split of the list of states. */
  lemma {:induction false} TotalFeaturesSplit(a: seq<seq<real>>, b: seq<seq<real>>)
    ensures TotalFeatures(a + b) == TotalFeatures(a) + TotalFeatures(b)
    decreases |b|
  {
    if |b| > 0 {
      assert (a + b)[..|a + b| - 1] == a + b[..|b| - 1];
      TotalFeaturesSplit(a, b[..|b| - 1]);
    } else {
      assert a + b == a;
    }
  }

  /** Every state contributes its own count to the total. */
  lemma StateFeaturesWithinTotal(features: seq<seq<real>>, s: nat)
    requires s < |features|
    ensures |features[s]| <= TotalFeatures(features)
    ensures TotalFeatures(features) == TotalFeatures(features[..s]) + |features[s]| + TotalFeatures(features[s + 1..])
  {
    assert features == features[..s] + [features[s]] + features[s + 1..];
    TotalFeaturesSplit(features[..s] + [features[s]], features[s + 1..]);
    TotalFeaturesSplit(features[..s], [features[s]]);
    assert TotalFeatures([features[s]]) == |features[s]| by {
      assert [features[s]][..0] == [];
    }
  }

  /** Number of features of one state; a state out of range throws. */
  function NumFeaturesAt(features: seq<seq<real>>, state: nat): (r: Result<nat>)
    ensures r.Ok? <==> state < |features|
    ensures r.Ok? ==> r.value == |features[state]| && r.value <= TotalFeatures(features)
  {
    if state < |features| then
      StateFeaturesWithinTotal(features, state);
      Ok(|features[state]|)
    else Err("state out of range")
  }

  /** The sanity scan over states i, i+1, ... of the shared-weights count. */
  function SameCountFrom(features: seq<seq<real>>, i: nat): (ok: bool)
    requires 1 <= i <= |features|
    ensures ok <==> forall s :: i <= s < |features| ==> |features[s]| == |features[0]|
    decreases |features| - i
  {
    if i == |features| then true
    else |features[i]| == |features[0]| && SameCountFrom(features, i + 1)
  }

  /**
   * Number of learnable weights the variable needs: -1 when it has no features;
   * with shared weights the feature count of state 0, which every state must match;
   * otherwise one weight per (state, feature) pair.
   */
  function NumWeights(features: seq<seq<real>>, shared: bool): (r: Result<int>)
    ensures !HasFeatures(features) ==> r == Ok(-1)
    ensures HasFeatures(features) && shared ==>
      (r.Ok? <==> forall s :: 0 <= s < |features| ==> |features[s]| == |features[0]|) &&
      (r.Ok? ==> r.value == |features[0]| > 0)
    ensures HasFeatures(features) && !shared ==> r == Ok(TotalFeatures(features)) && r.value > 0
  {
    if !HasFeatures(features) then Ok(-1)
    else if shared then
      if SameCountFrom(features, 1) then Ok(|features[0]|)
      else Err("Number of features must be equal for all states!")
    else
      StateFeaturesWithinTotal(features, 0);
      Ok(TotalFeatures(features))
  }

  /** First weight id of state s when weight ids are consumed state after state. */
  function Offset(features: seq<seq<real>>, s: nat): nat
    requires s <= |features|
  {
    TotalFeatures(features[..s])
  }

  /**
   * Unshared weights: the per-state lists obtained by handing out the weight ids
   * in order, |features[s]| of them to state s.
   */
  function UnsharedLists(features: seq<seq<real>>, weightIds: seq<nat>): (r: seq<FeaturesAndIds>)
    requires |weightIds| == TotalFeatures(features)
    ensures |r| == |features|
  {
    if |features| == 0 then []
    else
      var k := |features| - 1;
      var cut := |weightIds| - |features[k]|;
      UnsharedLists(features[..k], weightIds[..cut]) + [FeaturesAndIds(features[k], weightIds[cut..])]
  }

  /** Feature i of state s uses weight id number Offset(s) + i, and the state keeps its features. */
  lemma {:induction false} UnsharedListsAt(features: seq<seq<real>>, weightIds: seq<nat>, s: nat)
    requires |weightIds| == TotalFeatures(features)
    requires s < |features|
    ensures Offset(features, s) + |features[s]| <= |weightIds|
    ensures UnsharedLists(features, weightIds)[s] ==
            FeaturesAndIds(features[s], weightIds[Offset(features, s)..Offset(features, s) + |features[s]|])
    decreases |features|
  {
    var k := |features| - 1;
    var cut := |weightIds| - |features[k]|;
    assert features[..k + 1] == features;
    if s < k {
      assert features[..k][..s] == features[..s];
      UnsharedListsAt(features[..k], weightIds[..cut], s);
    } else {
      assert features[..s] == features[..k];
    }
  }

  function Flatten(lists: seq<FeaturesAndIds>): seq<nat>
  {
    if |lists| == 0 then [] else Flatten(lists[..|lists| - 1]) + lists[|lists| - 1].weightIds
  }

  /** Unshared weights: every weight id is used exactly once, in the order given. */
  lemma {:induction false} UnsharedListsUseEveryId(features: seq<seq<real>>, weightIds: seq<nat>)
    requires |weightIds| == TotalFeatures(features)
    ensures Flatten(UnsharedLists(features, weightIds)) == weightIds
    decreases |features|
  {
    if |features| > 0 {
      var k := |features| - 1;
      var cut := |weightIds| - |features[k]|;
      var r := UnsharedLists(features, weightIds);
      assert r[..|r| - 1] == UnsharedLists(features[..k], weightIds[..cut]);
      UnsharedListsUseEveryId(features[..k], weightIds[..cut]);
      assert weightIds[..cut] + weightIds[cut..] == weightIds;
    }
  }

  /** Shared weights: column i collects feature i of every state. */
  function Transposed(features: seq<seq<real>>, numFeatures: nat): (columns: seq<seq<real>>)
    requires forall s :: 0 <= s < |features| ==> numFeatures <= |features[s]|
    ensures |columns| == numFeatures
    ensures forall i :: 0 <= i < numFeatures ==> |columns[i]| == |features|
    ensures forall i, s :: 0 <= i < numFeatures && 0 <= s < |features| ==> columns[i][s] == features[s][i]
  {
    seq(numFeatures, i requires 0 <= i < numFeatures =>
      seq(|features|, s requires 0 <= s < |features| => features[s][i]))
  }

  /** The unary factor a materialised variable receives. */
  function UnaryFactor(variable: nat, features: seq<seq<real>>, shared: bool, weightIds: seq<nat>): Factor
    requires HasFeatures(features) && NumWeights(features, shared) == Ok(|weightIds|)
  {
    if shared then WeightedSum(variable, |features|, weightIds, Transposed(features, |features[0]|))
    else Unary(variable, UnsharedLists(features, weightIds))
  }

  /** The id a variable holds after materialisation, when the model had `base` variables before. */
  function IdAfter(features: seq<seq<real>>, base: nat, oldId: int): (r: int)
    ensures HasFeatures(features) ==> r == base
    ensures !HasFeatures(features) ==> r == oldId
  {
    if HasFeatures(features) then base else oldId
  }

  /** The label counts a variable contributes to the model: one entry when it has features. */
  function LabelsOf(features: seq<seq<real>>): (r: seq<nat>)
    ensures |r| == (if HasFeatures(features) then 1 else 0)
  {
    if HasFeatures(features) then [|features|] else []
  }

  /** The unaries a variable contributes to the model: one when it has features. */
  function UnariesOf(features: seq<seq<real>>, id: int, shared: bool, weightIds: seq<nat>): (r: seq<Factor>)
    requires HasFeatures(features) ==> id >= 0 && NumWeights(features, shared) == Ok(|weightIds|)
    ensures |r| == (if HasFeatures(features) then 1 else 0)
  {
    if HasFeatures(features) then [UnaryFactor(id, features, shared, weightIds)] else []
  }

  /** The loop over states that builds the unshared per-state lists with a running weight index. */
  method BuildUnsharedLists(features: seq<seq<real>>, weightIds: seq<nat>) returns (perState: seq<FeaturesAndIds>)
    requires |weightIds| == TotalFeatures(features)
    ensures perState == UnsharedLists(features, weightIds)
  {
    perState := [];
    var weightIdx := 0;
    var state := 0;
    while state < |features|
      invariant 0 <= state <= |features|
      invariant weightIdx == TotalFeatures(features[..state]) <= |weightIds|
      invariant perState == UnsharedLists(features[..state], weightIds[..weightIdx])
    {
      StateFeaturesWithinTotal(features, state);
      assert features[..state + 1][..state] == features[..state];
      assert TotalFeatures(features[..state + 1]) == weightIdx + |features[state]|;
      TotalFeaturesSplit(features[..state + 1], features[state + 1..]);
      assert features[..state + 1] + features[state + 1..] == features;
      var ids: seq<nat> := [];
      var i := 0;
      while i < |features[state]|
        invariant 0 <= i <= |features[state]|
        invariant weightIdx + |features[state]| <= |weightIds|
        invariant ids == weightIds[weightIdx..weightIdx + i]
      {
        ids := ids + [weightIds[weightIdx + i]];
        i := i + 1;
      }
      var next := weightIdx + |features[state]|;
      assert weightIds[..next][..weightIdx] == weightIds[..weightIdx];
      assert weightIds[..next][weightIdx..] == ids;
      perState := perState + [FeaturesAndIds(features[state], ids)];
      weightIdx := next;
      state := state + 1;
    }
    assert features[..state] == features;
    assert weightIds[..weightIdx] == weightIds;
  }

  /** The nested loops that build one feature column per feature for shared weights. */
  method BuildColumns(features: seq<seq<real>>, numFeatures: nat) returns (columns: seq<seq<real>>)
    requires forall s :: 0 <= s < |features| ==> numFeatures <= |features[s]|
    ensures |columns| == numFeatures
    ensures forall i :: 0 <= i < numFeatures ==> |columns[i]| == |features|
    ensures forall i, s :: 0 <= i < numFeatures && 0 <= s < |features| ==> columns[i][s] == features[s][i]
  {
    columns := [];
    var i := 0;
    while i < numFeatures
      invariant 0 <= i <= numFeatures && |columns| == i
      invariant forall j :: 0 <= j < i ==> |columns[j]| == |features|
      invariant forall j, s :: 0 <= j < i && 0 <= s < |features| ==> columns[j][s] == features[s][j]
    {
      var column: seq<real> := [];
      var state := 0;
      while state < |features|
        invariant 0 <= state <= |features| && |column| == state
        invariant forall s :: 0 <= s < state ==> column[s] == features[s][i]
      {
        column := column + [features[state][i]];
        state := state + 1;
      }
      columns := columns + [column];
      i := i + 1;
    }
  }

  class Variable {
    const features: seq<seq<real>>
    var id: int

    /** A new variable is not materialised: its id is -1. */
    constructor (features: seq<seq<real>>)
      ensures this.features == features && id == -1
    {
      this.features := features;
      id := -1;
    }

    /**
     * Adds the variable and its unary to the model, unless it has no features.
     * The caller must hand over exactly as many weight ids as NumWeights asks for.
     */
    method AddToModel(model: Model, shared: bool, weightIds: seq<nat>)
      requires HasFeatures(features) ==> NumWeights(features, shared) == Ok(|weightIds|)
      modifies this, model
      ensures id == IdAfter(features, |old(model.numLabels)|, old(id))
      ensures model.numLabels == old(model.numLabels) + LabelsOf(features)
      ensures model.factors == old(model.factors) + UnariesOf(features, id, shared, weightIds)
    {
      if |features| == 0 || |features[0]| == 0 {
        return;
      }
      var numStates := |features|;
      var v := model.AddVariable(numStates);
      id := v;
      if shared {
        var columns := BuildColumns(features, |features[0]|);
        var expected := Transposed(features, |features[0]|);
        forall i | 0 <= i < |columns| ensures columns[i] == expected[i] {
          assert |columns[i]| == |expected[i]|;
        }
        assert columns == expected;
        model.AddFactor(WeightedSum(v, numStates, weightIds, columns));
      } else {
        var perState := BuildUnsharedLists(features, weightIds);
        model.AddFactor(Unary(v, perState));
      }
    }
  }
}
