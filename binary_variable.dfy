/**
 * Binary variables with one flat feature list: the link variables of the
 * multi-hypotheses revision and the detection/division/appearance/disappearance
 * variables nested in the older segmentation hypothesis. Label l, feature i
 * is weighted by weight id number l * numFeatures + i.
 */
module BinaryVariables {
  import opened GraphModel
  import opened Variables

  /** The two per-label lists of a binary unary: both carry all features, label l the l-th block of ids. */
  function BinaryWeightLists(features: seq<real>, weightIds: seq<nat>): (r: seq<FeaturesAndIds>)
    requires |weightIds| == 2 * |features|
    ensures |r| == 2
    ensures forall l :: 0 <= l < 2 ==> r[l].features == features && |r[l].weightIds| == |features|
    ensures forall l, i :: 0 <= l < 2 && 0 <= i < |features| ==> r[l].weightIds[i] == weightIds[l * |features| + i]
  {
    var n := |features|;
    [FeaturesAndIds(features, weightIds[..n]), FeaturesAndIds(features, weightIds[n..])]
  }

  /** Every weight id is used by exactly one (label, feature) pair, in the order given. */
  lemma BinaryListsUseEveryId(features: seq<real>, weightIds: seq<nat>)
    requires |weightIds| == 2 * |features|
    ensures Flatten(BinaryWeightLists(features, weightIds)) == weightIds
  {
    var r := BinaryWeightLists(features, weightIds);
    assert r[..1][..0] == [];
    assert r[..1] == [r[0]];
    assert Flatten(r[..1]) == r[0].weightIds;
    assert weightIds[..|features|] + weightIds[|features|..] == weightIds;
  }

  /** The nested loop over labels and features that gathers the weight ids. */
  method BuildBinaryWeightLists(features: seq<real>, weightIds: seq<nat>) returns (perLabel: seq<FeaturesAndIds>)
    requires |weightIds| == 2 * |features|
    ensures perLabel == BinaryWeightLists(features, weightIds)
  {
    var n := |features|;
    perLabel := [];
    var l := 0;
    while l < 2
      invariant 0 <= l <= 2 && |perLabel| == l
      invariant forall k :: 0 <= k < l ==> perLabel[k] == FeaturesAndIds(features, weightIds[k * n..k * n + n])
    {
      var ids: seq<nat> := [];
      var i := 0;
      while i < n
        invariant 0 <= i <= n && ids == weightIds[l * n..l * n + i]
      {
        ids := ids + [weightIds[l * n + i]];
        i := i + 1;
      }
      perLabel := perLabel + [FeaturesAndIds(features, ids)];
      l := l + 1;
    }
    assert weightIds[0 * n..0 * n + n] == weightIds[..n];
    assert weightIds[1 * n..1 * n + n] == weightIds[n..];
  }

  /** The label counts a binary variable contributes: one binary variable when it has features. */
  function BinaryLabelsOf(features: seq<real>): (r: seq<nat>)
    ensures |r| == (if |features| > 0 then 1 else 0)
  {
    if |features| > 0 then [2] else []
  }

  /** The id a binary variable holds after materialisation, when the model had `base` variables before. */
  function BinaryIdAfter(features: seq<real>, base: nat, oldId: int): (r: int)
    ensures |features| > 0 ==> r == base
    ensures |features| == 0 ==> r == oldId
  {
    if |features| > 0 then base else oldId
  }

  /** The unaries a binary variable contributes: one when it has features. */
  function BinaryUnariesOf(features: seq<real>, id: int, weightIds: seq<nat>): (r: seq<Factor>)
    requires |features| > 0 ==> id >= 0 && |weightIds| == 2 * |features|
    ensures |r| == (if |features| > 0 then 1 else 0)
  {
    if |features| > 0 then [Unary(id, BinaryWeightLists(features, weightIds))] else []
  }

  /**
   * The binary variable nested in the older segmentation hypothesis: one flat
   * feature list and the model id it receives (-1 before).
   */
  class BinaryVariable {
    var features: seq<real>
    var id: int

    constructor (features: seq<real>)
      ensures this.features == features && id == -1
    {
      this.features := features;
      id := -1;
    }

    /**
     * Adds a binary variable and its unary unless the feature list is empty;
     * the caller hands over two ids per feature.
     */
    method AddToModel(model: Model, weightIds: seq<nat>)
      requires |features| > 0 ==> |weightIds| == 2 * |features|
      modifies this, model
      ensures features == old(features)
      ensures id == BinaryIdAfter(features, |old(model.numLabels)|, old(id))
      ensures model.numLabels == old(model.numLabels) + BinaryLabelsOf(features)
      ensures model.factors == old(model.factors) + BinaryUnariesOf(features, id, weightIds)
    {
      if |features| == 0 {
        return;
      }
      var variableId := model.AddVariable(2);
      var perLabel := BuildBinaryWeightLists(features, weightIds);
      model.AddFactor(Unary(variableId, perLabel));
      id := variableId;
    }
  }
}
