/**
 * The link hypothesis whose transition is a multi-state variable (the revision
 * in the conservation-tracking namespace): it materialises by delegating to its
 * variable and reports its result as a (src, dest, value) record.
 */
module Links {
  import opened Wrappers
  import opened GraphModel
  import opened Variables
  import ConservationVariables

  /** The record written for a link in a result file. */
  datatype LinkResult = LinkResult(src: int, dest: int, value: nat)

  const UINT32_RANGE: nat := 0x1_0000_0000

  /** The variables of the links; each link's own variable is among them. */
  function VariablesOf(links: seq<LinkingHypothesis>): (r: set<Variable>)
    ensures forall k :: 0 <= k < |links| ==> links[k].variable in r
  {
    if |links| == 0 then {} else VariablesOf(links[..|links| - 1]) + {links[|links| - 1].variable}
  }

  class LinkingHypothesis {
    var srcId: int
    var destId: int
    const variable: Variable

    /** Both endpoint ids are -1 and the variable has no features. */
    constructor Default()
      ensures srcId == -1 && destId == -1
      ensures fresh(variable) && variable.features == [] && variable.id == -1
    {
      srcId := -1;
      destId := -1;
      variable := new Variable([]);
    }

    constructor (srcId: int, destId: int, features: seq<seq<real>>)
      ensures this.srcId == srcId && this.destId == destId
      ensures fresh(variable) && variable.features == features && variable.id == -1
    {
      this.srcId := srcId;
      this.destId := destId;
      variable := new Variable(features);
    }

    /** Materialisation is the variable's, with the sharing flag and weight ids passed on unchanged. */
    method AddToModel(model: Model, shared: bool, weightIds: seq<nat>)
      requires HasFeatures(variable.features) ==> NumWeights(variable.features, shared) == Ok(|weightIds|)
      modifies variable, model
      ensures variable.id == IdAfter(variable.features, |old(model.numLabels)|, old(variable.id))
      ensures model.numLabels == old(model.numLabels) + LabelsOf(variable.features)
      ensures model.factors == old(model.factors) + ConservationVariables.UnariesOf(variable.features, |old(model.numLabels)|, shared, weightIds)
    {
      ConservationVariables.AddToModel(variable, model, shared, weightIds);
    }

    /** The result record names both endpoints and carries the state as a 32-bit unsigned value. */
    function ToJson(state: nat): (r: LinkResult)
      reads this
      ensures r.src == srcId && r.dest == destId
      ensures r.value < UINT32_RANGE
      ensures state < UINT32_RANGE ==> r.value == state
    {
      LinkResult(srcId, destId, state % UINT32_RANGE)
    }
  }
}
