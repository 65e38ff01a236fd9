/**
 * The link hypothesis of the multi-hypotheses revision: a binary transition
 * variable with one flat feature list, materialised unconditionally.
 */
module BinaryLinks {
  import opened GraphModel
  import opened BinaryVariables

  class LinkingHypothesis {
    var srcId: int
    var destId: int
    var features: seq<real>
    var id: int

    constructor Default()
      ensures srcId == -1 && destId == -1 && features == [] && id == -1
    {
      srcId := -1;
      destId := -1;
      features := [];
      id := -1;
    }

    constructor (srcId: int, destId: int, features: seq<real>)
      ensures this.srcId == srcId && this.destId == destId && this.features == features && id == -1
    {
      this.srcId := srcId;
      this.destId := destId;
      this.features := features;
      id := -1;
    }

    /**
     * Always appends one binary variable, records its id (the last variable of the model)
     * and adds its unary: label l, feature i uses weight id l * |features| + i.
     */
    method AddToModel(model: Model, weightIds: seq<nat>)
      requires |weightIds| == 2 * |features|
      modifies this, model
      ensures srcId == old(srcId) && destId == old(destId) && features == old(features)
      ensures id == |old(model.numLabels)| == |model.numLabels| - 1
      ensures model.numLabels == old(model.numLabels) + [2]
      ensures model.factors == old(model.factors) + [Unary(id, BinaryWeightLists(features, weightIds))]
    {
      var numLabels := 2;
      var variableId := model.AddVariable(numLabels);
      id := variableId;
      var perLabel := BuildBinaryWeightLists(features, weightIds);
      model.AddFactor(Unary(id, perLabel));
    }
  }
}
