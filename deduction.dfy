/**
 * The deduction of appearance and disappearance labels in a ground-truth labelling:
 * a detection that is on but has no active incoming links appears, one without active
 * outgoing links disappears, and the matching variable takes the detection's label.
 * The hypotheses are taken in key order; each works on the labelling as the earlier
 * ones left it.
 */
module Deduction {
  import opened Wrappers
  import opened FlowConstraints
  import Weights
  import SegmentationList

  const NO_APPEARANCE := " - GT contains appearing variable that has no appearance features set!"
  const NO_DISAPPEARANCE := " - GT contains disappearing variable that has no disappearance features set!"

  /** The decimal notation of a key, with a minus sign when it is negative. */
  function KeyString(key: int): string
  {
    if key < 0 then "-" + Weights.NatToString(-key) else Weights.NatToString(key)
  }

  /** The message for a hypothesis that lacks the variable the labelling needs. */
  function Missing(key: int, what: string): string
  {
    "Segmentation Hypothesis: " + KeyString(key) + what
  }

  /**
   * The ids a step reads and writes lie in the labelling: the link ids, the detection,
   * and the appearance and disappearance, which are absent (-1) or materialised.
   */
  predicate Deducible(v: SegmentationList.View, n: nat)
  {
    (forall k :: 0 <= k < |v.inIds| ==> v.inIds[k] < n) && (forall k :: 0 <= k < |v.outIds| ==> v.outIds[k] < n) &&
    0 <= v.ids.detection < n &&
    -1 <= v.ids.appearance < n && -1 <= v.ids.disappearance < n
  }

  /** The labelling with the entry at id set to value, when the id is materialised. */
  function SetLabel(sol: seq<nat>, id: int, value: nat): (r: seq<nat>)
    requires id < |sol|
    ensures |r| == |sol|
    ensures forall j :: 0 <= j < |sol| && j != id ==> r[j] == sol[j]
    ensures 0 <= id ==> r[id] == value
  {
    if id < 0 then sol else sol[id := value]
  }

  /** Setting an entry that none of the ids name leaves their active sum as it was. */
  lemma {:induction false} ActiveSumKept(ids: seq<int>, sol: seq<nat>, id: int, value: nat)
    requires id < |sol|
    requires forall k :: 0 <= k < |ids| ==> ids[k] < |sol|
    ensures id !in ids ==> ActiveSum(ids, SetLabel(sol, id, value)) == ActiveSum(ids, sol)
    decreases |ids|
  {
    if id !in ids && |ids| > 0 && 0 <= ids[0] {
      ActiveSumKept(ids[1..], sol, id, value);
    }
  }

  /** The disappearance half of a step, on the labelling the appearance half left. */
  function DisappearanceStep(sol: seq<nat>, key: int, v: SegmentationList.View, value: nat): (r: (seq<nat>, Outcome))
    requires Deducible(v, |sol|)
  {
    match ActiveSum(v.outIds, sol)
    case Err(e) => (sol, Fail(e))
    case Ok(outgoing) =>
      if outgoing != 0 then (sol, Pass)
      else if v.ids.disappearance == -1 then (sol, Fail(Missing(key, NO_DISAPPEARANCE)))
      else (SetLabel(sol, v.ids.disappearance, value), Pass)
  }

  /**
   * The deduction for one hypothesis: the labelling as the step leaves it, and whether it
   * threw. Only a detection that is on changes anything; it then sets its appearance when no
   * incoming link is active and its disappearance when no outgoing link is active, to its own
   * label, and throws when the variable to set is absent or a link is not materialised.
   */
  function Step(sol: seq<nat>, key: int, v: SegmentationList.View): (r: (seq<nat>, Outcome))
    requires Deducible(v, |sol|)
    ensures |r.0| == |sol|
    ensures forall j :: 0 <= j < |sol| && j != v.ids.appearance && j != v.ids.disappearance ==> r.0[j] == sol[j]
    ensures sol[v.ids.detection] == 0 ==> r == (sol, Pass)
    ensures sol[v.ids.detection] > 0 && ActiveSum(v.inIds, sol).Err? ==> r == (sol, Fail(UNMATERIALISED_LINK))
    ensures sol[v.ids.detection] > 0 && ActiveSum(v.inIds, sol) == Ok(0) && v.ids.appearance == -1 ==>
      r == (sol, Fail(Missing(key, NO_APPEARANCE)))
    ensures sol[v.ids.detection] > 0 && ActiveSum(v.inIds, sol) == Ok(0) && v.ids.appearance >= 0 ==>
      r.0[v.ids.appearance] == sol[v.ids.detection]
    ensures r.1.Pass? && sol[v.ids.detection] > 0 && ActiveSum(v.outIds, r.0) == Ok(0) ==>
      v.ids.disappearance >= 0 && r.0[v.ids.disappearance] == sol[v.ids.detection]
    ensures (sol[v.ids.detection] > 0 && ActiveSum(v.inIds, sol).Ok? && ActiveSum(v.inIds, sol).value != 0 &&
             v.ids.appearance >= 0 && v.ids.appearance != v.ids.disappearance) ==>
      r.0[v.ids.appearance] == sol[v.ids.appearance]
    ensures (sol[v.ids.detection] > 0 && ActiveSum(v.inIds, sol).Ok? && ActiveSum(v.outIds, sol).Ok? &&
             ActiveSum(v.outIds, sol).value != 0 && v.ids.appearance !in v.outIds &&
             v.ids.disappearance >= 0 && v.ids.disappearance != v.ids.appearance) ==>
      r.0[v.ids.disappearance] == sol[v.ids.disappearance]
    ensures (sol[v.ids.detection] > 0 && ActiveSum(v.inIds, sol).Ok? &&
             (ActiveSum(v.inIds, sol).value == 0 ==> v.ids.appearance >= 0) && ActiveSum(v.outIds, sol).Err?) ==>
      r.1 == Fail(UNMATERIALISED_LINK)
  {
    var value := sol[v.ids.detection];
    if value == 0 then (sol, Pass)
    else
      match ActiveSum(v.inIds, sol)
      case Err(e) => (sol, Fail(e))
      case Ok(incoming) =>
        if incoming == 0 && v.ids.appearance == -1 then (sol, Fail(Missing(key, NO_APPEARANCE)))
        else
          var sol' := if incoming == 0 then SetLabel(sol, v.ids.appearance, value) else sol;
          ActiveSumKept(v.outIds, sol, v.ids.appearance, value);
          DisappearanceStep(sol', key, v, value)
  }

  /**
   * The body of the deduction loop for one hypothesis, on the ids it holds: a detection
   * that is on gives its label to its appearance when no incoming link is active, then to
   * its disappearance when no outgoing link is active.
   */
  method DeduceFor(v: SegmentationList.View, key: int, solution: array<nat>) returns (r: Outcome)
    requires Deducible(v, solution.Length)
    modifies solution
    ensures (solution[..], r) == Step(old(solution[..]), key, v)
  {
    ghost var sol := solution[..];
    var detValue := solution[v.ids.detection];
    if detValue > 0 {
      var incoming := ActiveSum(v.inIds, solution[..]);
      if incoming.Err? {
        return Fail(incoming.message);
      }
      if incoming.value == 0 {
        if v.ids.appearance == -1 {
          return Fail(Missing(key, NO_APPEARANCE));
        }
        solution[v.ids.appearance] := detValue;
      }
      ghost var sol' := solution[..];
      assert sol' == if incoming.value == 0 then SetLabel(sol, v.ids.appearance, detValue) else sol;
      var outgoing := ActiveSum(v.outIds, solution[..]);
      if outgoing.Err? {
        return Fail(outgoing.message);
      }
      if outgoing.value == 0 {
        if v.ids.disappearance == -1 {
          return Fail(Missing(key, NO_DISAPPEARANCE));
        }
        solution[v.ids.disappearance] := detValue;
        assert solution[..] == SetLabel(sol', v.ids.disappearance, detValue);
      }
    }
    return Pass;
  }

  /** Every view's ids lie in a labelling of length n. */
  predicate AllDeducible(vs: seq<SegmentationList.View>, n: nat)
  {
    forall k :: 0 <= k < |vs| ==> Deducible(vs[k], n)
  }

  /** The id is the appearance or the disappearance of one of the views. */
  predicate Boundary(vs: seq<SegmentationList.View>, j: int)
  {
    exists k :: 0 <= k < |vs| && (vs[k].ids.appearance == j || vs[k].ids.disappearance == j)
  }

  /**
   * The deduction over the hypotheses in order: each step works on the labelling the
   * previous one left, and the first step that throws ends it. Only appearance and
   * disappearance entries ever change.
   */
  function DeduceAll(sol: seq<nat>, keys: seq<int>, vs: seq<SegmentationList.View>): (r: (seq<nat>, Outcome))
    requires |keys| == |vs| && AllDeducible(vs, |sol|)
    ensures |r.0| == |sol|
    decreases |vs|
  {
    if |vs| == 0 then (sol, Pass)
    else
      var n := |vs| - 1;
      var prev := DeduceAll(sol, keys[..n], vs[..n]);
      if prev.1.Fail? then prev else Step(prev.0, keys[n], vs[n])
  }

  /** Only appearance and disappearance entries of the hypotheses ever change. */
  lemma {:induction false} DeduceAllKeepsOthers(sol: seq<nat>, keys: seq<int>, vs: seq<SegmentationList.View>, j: nat)
    requires |keys| == |vs| && AllDeducible(vs, |sol|) && j < |sol| && !Boundary(vs, j)
    ensures DeduceAll(sol, keys, vs).0[j] == sol[j]
    decreases |vs|
  {
    if |vs| > 0 {
      var n := |vs| - 1;
      assert !Boundary(vs[..n], j);
      DeduceAllKeepsOthers(sol, keys[..n], vs[..n], j);
      assert j != vs[n].ids.appearance && j != vs[n].ids.disappearance;
    }
  }

  /** Once a step has thrown, the later hypotheses are not looked at. */
  lemma {:induction false} DeduceAllStops(sol: seq<nat>, keys: seq<int>, vs: seq<SegmentationList.View>, i: nat)
    requires |keys| == |vs| && AllDeducible(vs, |sol|) && i <= |vs|
    requires DeduceAll(sol, keys[..i], vs[..i]).1.Fail?
    ensures DeduceAll(sol, keys, vs) == DeduceAll(sol, keys[..i], vs[..i])
    decreases |vs|
  {
    if i < |vs| {
      var n := |vs| - 1;
      PrefixOfPrefix(keys, i, n);
      PrefixOfPrefix(vs, i, n);
      DeduceAllStops(sol, keys[..n], vs[..n], i);
      assert DeduceAll(sol, keys[..n], vs[..n]).1.Fail?;
    } else {
      PrefixOfPrefix(keys, i, i);
      PrefixOfPrefix(vs, i, i);
    }
  }

  /** One hypothesis more: the step for it on the labelling the earlier ones left. */
  lemma DeduceAllStep(sol: seq<nat>, keys: seq<int>, vs: seq<SegmentationList.View>, i: nat)
    requires |keys| == |vs| && AllDeducible(vs, |sol|) && i < |vs|
    requires DeduceAll(sol, keys[..i], vs[..i]).1.Pass?
    ensures DeduceAll(sol, keys[..i + 1], vs[..i + 1]) == Step(DeduceAll(sol, keys[..i], vs[..i]).0, keys[i], vs[i])
  {
    PrefixOfPrefix(keys, i, i + 1);
    PrefixOfPrefix(vs, i, i + 1);
  }

  lemma PrefixOfPrefix<T>(s: seq<T>, i: nat, j: nat)
    requires i <= j <= |s|
    ensures s[..j][..i] == s[..i]
    ensures s[..|s|] == s
  {
  }
}
