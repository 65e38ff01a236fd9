/**
 * An external division hypothesis: a parent detection dividing into children,
 * with one multi-state variable for the division event.
 */
module Divisions {
  import opened Wrappers
  import opened GraphModel
  import opened Variables

  class DivisionHypothesis {
    var parentId: int
    var childrenIds: seq<int>
    const variable: Variable

    /** Parent and children are kept exactly as given; the variable is not yet materialised. */
    constructor (parentId: int, childrenIds: seq<int>, features: seq<seq<real>>)
      ensures this.parentId == parentId && this.childrenIds == childrenIds
      ensures fresh(variable) && variable.features == features && variable.id == -1
    {
      this.parentId := parentId;
      this.childrenIds := childrenIds;
      variable := new Variable(features);
    }

    /** Materialisation is the variable's, with the same sharing flag and weight ids; nothing else changes. */
    method AddToModel(model: Model, shared: bool, weightIds: seq<nat>)
      requires HasFeatures(variable.features) ==> NumWeights(variable.features, shared) == Ok(|weightIds|)
      modifies variable, model
      ensures variable.id == IdAfter(variable.features, |old(model.numLabels)|, old(variable.id))
      ensures model.numLabels == old(model.numLabels) + LabelsOf(variable.features)
      ensures model.factors == old(model.factors) + UnariesOf(variable.features, |old(model.numLabels)|, shared, weightIds)
    {
      variable.AddToModel(model, shared, weightIds);
    }
  }
}
