/**
 * The older ("conservation tracking") revision of the variable operations. Both
 * the shared and the unshared mode build one weight-id list per state; the
 * shared mode reuses the first ids in every state.
 */
module ConservationVariables {
  import opened Wrappers
  import opened GraphModel
  import opened Variables

  /**
   * The weight count as this revision computes it: the unshared accumulator starts
   * at the sentinel -1 instead of 0, so the count comes out one short.
   */
  function NumWeightsAsWritten(features: seq<seq<real>>, shared: bool): (r: Result<int>)
    ensures !HasFeatures(features) ==> r == Ok(-1)
    ensures HasFeatures(features) && shared ==> r == NumWeights(features, true)
    ensures HasFeatures(features) && !shared ==> r == Ok(TotalFeatures(features) - 1)
  {
    if !HasFeatures(features) then Ok(-1)
    else if shared then
      if SameCountFrom(features, 1) then Ok(|features[0]|)
      else Err("Number of features must be equal for all states!")
    else Ok(-1 + TotalFeatures(features))
  }

  /**
   * Two states with one feature each: the count is 1, but state 1 reads weight id
   * number Offset(1) = 1, which a list of one id does not have.
   */
  lemma AsWrittenTwoStatesExample()
    ensures NumWeightsAsWritten([[1.0], [2.0]], false) == Ok(1)
    ensures Offset([[1.0], [2.0]], 1) == 1
    ensures NumWeights([[1.0], [2.0]], false) == Ok(2)
  {
    var f: seq<seq<real>> := [[1.0], [2.0]];
    assert f[..1] == [[1.0]];
    assert f[..1][..0] == [];
    assert f[..|f| - 1] == [[1.0]];
    assert TotalFeatures([[1.0]]) == 1 by {
      assert [[1.0]][..0] == [];
    }
    assert TotalFeatures(f) == 2;
  }

  /** The per-state weight-id lists this revision builds. */
  function PerStateLists(features: seq<seq<real>>, shared: bool, weightIds: seq<nat>): (r: seq<FeaturesAndIds>)
    requires HasFeatures(features) && NumWeights(features, shared) == Ok(|weightIds|)
    ensures |r| == |features|
  {
    if shared then
      seq(|features|, s requires 0 <= s < |features| => FeaturesAndIds(features[s], weightIds[..|features[s]|]))
    else UnsharedLists(features, weightIds)
  }

  /**
   * With the corrected count, the construction consumes exactly the ids it is given:
   * shared, every state uses the whole list (feature i always with id i);
   * unshared, state s uses the ids from Offset(s) on and every id is used once, in order.
   */
  lemma CorrectedCountMatchesConsumption(features: seq<seq<real>>, shared: bool, weightIds: seq<nat>)
    requires HasFeatures(features) && NumWeights(features, shared) == Ok(|weightIds|)
    ensures forall s :: 0 <= s < |features| ==> PerStateLists(features, shared, weightIds)[s].features == features[s]
    ensures shared ==> forall s :: 0 <= s < |features| ==> PerStateLists(features, shared, weightIds)[s].weightIds == weightIds
    ensures !shared ==> forall s :: 0 <= s < |features| ==>
      Offset(features, s) + |features[s]| <= |weightIds| &&
      PerStateLists(features, shared, weightIds)[s].weightIds == weightIds[Offset(features, s)..Offset(features, s) + |features[s]|]
    ensures !shared ==> Flatten(PerStateLists(features, shared, weightIds)) == weightIds
  {
    if !shared {
      forall s | 0 <= s < |features|
        ensures Offset(features, s) + |features[s]| <= |weightIds|
        ensures PerStateLists(features, shared, weightIds)[s] ==
          FeaturesAndIds(features[s], weightIds[Offset(features, s)..Offset(features, s) + |features[s]|])
      {
        UnsharedListsAt(features, weightIds, s);
      }
      UnsharedListsUseEveryId(features, weightIds);
    } else {
      forall s | 0 <= s < |features|
        ensures PerStateLists(features, shared, weightIds)[s].weightIds == weightIds
      {
        assert weightIds[..|features[s]|] == weightIds;
      }
    }
  }

  /** The loop over states and features with a running weight index. */
  method BuildPerStateLists(features: seq<seq<real>>, shared: bool, weightIds: seq<nat>)
    returns (perState: seq<FeaturesAndIds>)
    requires HasFeatures(features) && NumWeights(features, shared) == Ok(|weightIds|)
    ensures perState == PerStateLists(features, shared, weightIds)
  {
    if !shared {
      perState := BuildUnsharedLists(features, weightIds);
      return;
    }
    perState := [];
    var state := 0;
    while state < |features|
      invariant 0 <= state <= |features| && |perState| == state
      invariant forall s :: 0 <= s < state ==> perState[s] == FeaturesAndIds(features[s], weightIds[..|features[s]|])
    {
      var ids: seq<nat> := [];
      var i := 0;
      while i < |features[state]|
        invariant 0 <= i <= |features[state]| <= |weightIds|
        invariant ids == weightIds[..i]
      {
        ids := ids + [weightIds[i]];
        i := i + 1;
      }
      perState := perState + [FeaturesAndIds(features[state], ids)];
      state := state + 1;
    }
  }

  /** The unary a variable with features contributes, over its per-state lists. */
  function UnariesOf(features: seq<seq<real>>, id: nat, shared: bool, weightIds: seq<nat>): (r: seq<Factor>)
    requires HasFeatures(features) ==> NumWeights(features, shared) == Ok(|weightIds|)
    ensures |r| == (if HasFeatures(features) then 1 else 0)
  {
    if HasFeatures(features) then [Unary(id, PerStateLists(features, shared, weightIds))] else []
  }

  /**
   * Adds the variable and its unary to the model, unless it has no features.
   * The precondition uses the corrected count.
   */
  method AddToModel(v: Variable, model: Model, shared: bool, weightIds: seq<nat>)
    requires HasFeatures(v.features) ==> NumWeights(v.features, shared) == Ok(|weightIds|)
    modifies v, model
    ensures !HasFeatures(v.features) ==>
      v.id == old(v.id) && model.numLabels == old(model.numLabels) && model.factors == old(model.factors)
    ensures HasFeatures(v.features) ==>
      v.id == |old(model.numLabels)| &&
      model.numLabels == old(model.numLabels) + [|v.features|] &&
      model.factors == old(model.factors) + [Unary(v.id, PerStateLists(v.features, shared, weightIds))]
  {
    if |v.features| == 0 || |v.features[0]| == 0 {
      return;
    }
    var id := model.AddVariable(|v.features|);
    v.id := id;
    var perState := BuildPerStateLists(v.features, shared, weightIds);
    model.AddFactor(Unary(id, perState));
  }
}
