# multiHypothesesTracking core, modelled in Dafny

This project models how ilastik's multi-hypotheses tracker turns a set of
tracking hypotheses into a graphical model, and how it checks a labelling of
that model.

The hypotheses are:
- segmentation hypotheses, i.e. detections with optional division, appearance
  and disappearance variables;
- linking hypotheses between two detections;
- external division hypotheses;
- exclusion constraints over groups of detections.

The model covers:
- how many weights each kind of variable needs, and how the weight vector is
  split into one block per kind (`computeNumWeights`, `getWeightDescriptions`);
- how each hypothesis materialises as variables with learnable unaries. Variables
  with several states use one weight per state or a shared weight per feature.
  Binary variables take two weight lists;
- the flow-conservation, division and exclusion constraints each segmentation
  hypothesis adds, and the order in which the whole model is assembled
  (`initializeOpenGMModel`, plus the weight-vector length check of `infer` and
  `learn`);
- the check of a labelling (`verifySolution`) and the deduction of appearance and
  disappearance labels in a ground truth;
- the settings and their JSON round trip, and the cover-tree node.

The graphical model (OpenGM in the source) is `GraphModel.Model`. It is a class
with two fields that only grow: the label count of each variable and the list
of factors. A unary factor records which features are multiplied by which
weight ids. A hard constraint is a linear combination of indicator and value
terms, with an operator and a bound. `GraphModel.Satisfied` gives such a factor
its meaning under a labelling. Hypotheses whose ids the source updates in place
are classes. Materialisation is done by methods whose `modifies` clauses name the
model and the variables they give ids to.

Two revisions are modelled side by side, because the repository carries both:
- The multi-hypotheses revision: `src/segmentationhypothesis.cpp`, `src/variable.cpp`,
  `src/divisionhypothesis.cpp`, `src/exclusionconstraint.cpp` and
  `src/model.cpp`. A segmentation hypothesis reads its links through
  `link->getVariable()`. `src/model.cpp` passes each link the sharing flag and
  the link weight ids. Both of these match the link of
  `src/conservation/linkinghypothesis.cpp`, which wraps a multi-state `Variable`
  of `src/conservation/variable.cpp`. That link is module `Links`, and the
  segmentation hypothesis is module `Segmentation`.
- The conservation-tracking revision: `src/conservation/segmentationhypothesis.cpp`,
  with binary variables (module `BinaryVariables`). It reads its links through
  `link->getOpenGMVariableId()`, which matches the binary link of
  `src/linkinghypothesis.cpp` (module `BinaryLinks`). The result is module
  `ConservationSegmentation`.

Links count and materialise in one revision, the conservation `Variable`. Its
materialisation consumes as many weight ids as the count of `src/variable.cpp`
gives. The conservation `getNumWeights` returns one less when states do not share
weights (see "## Findings"). The model therefore counts with the corrected
number, `Variables.NumWeights`, for links as for every other variable.

The source calls the segmentation hypothesis with the whole settings object
(`src/model.cpp:124`, `src/model.cpp:299`). `src/segmentationhypothesis.cpp`
takes only the sharing flag and the labelling. The model follows the hypothesis
file.

Maps keyed by hypothesis id become a Dafny `map` plus the sequence of its keys in
ascending order, which is the order `std::map` iterates in. Links and divisions
are lists in the order the tracker's maps hand them out. Every thrown exception
becomes an `Err`/`Fail` result. A `std::runtime_error` the source throws carries
the source's own message. Exceptions raised by libraries carry placeholder
messages instead: `std::vector::at` (`Variables.NumFeaturesAt`) and the JSON
library's conversions (`Json.AsInt`, `Json.AsUInt`, `Json.AsBool`, `Json.AsDouble`).

## Model

| member | source | states |
|---|---|---|
| Variables.NumFeaturesAt | include/variable.h:50 | a state's feature count; fails for a state past the last, as `at` throws |
| Variables.TotalFeaturesSplit | include/variable.h:55-61 | the total feature count is additive over a split of the states |
| Variables.NumWeights | src/variable.cpp:80-104 | -1 without features; shared: the first state's count, failing unless every state has that many; unshared: the total over all states, which is positive |
| Variables.UnsharedListsAt | src/variable.cpp:54-77 | unshared: state s takes exactly the weight ids from its offset for as many ids as it has features |
| Variables.UnsharedListsUseEveryId | src/variable.cpp:54-77 | unshared: the per-state lists use every weight id once, in order |
| Variables.BuildUnsharedLists | src/variable.cpp:59-72 | the per-state loop builds exactly the lists `UnsharedLists` specifies |
| Variables.Transposed | src/variable.cpp:34-46 | shared: column i holds feature i of every state |
| Variables.BuildColumns | src/variable.cpp:34-46 | the column loop builds the transposed features, entry by entry |
| Variables.IdAfter | src/variable.cpp:18-24 | a variable with features takes the next id; one without keeps its old id |
| Variables.Variable.constructor | include/variable.h:18-21 | features kept, id -1 |
| Variables.Variable.AddToModel | src/variable.cpp:11-78 | without features nothing changes; otherwise one variable with one label per state, its id the old variable count, and one unary built from the weight ids |
| ConservationVariables.NumWeightsAsWritten | src/conservation/variable.cpp:52-75 | the count as written: unshared it is the total feature count minus one |
| ConservationVariables.AsWrittenTwoStatesExample | src/conservation/variable.cpp:54-71 | two one-feature states: the count as written is 1, the second state's ids start at offset 1, and the corrected count is 2 |
| ConservationVariables.CorrectedCountMatchesConsumption | src/conservation/variable.cpp:31-45 | with the corrected count of weight ids, each state keeps its features; shared states all take every id; unshared states take consecutive slices that use every id once |
| ConservationVariables.BuildPerStateLists | src/conservation/variable.cpp:31-45 | the loop builds exactly the per-state lists `PerStateLists` specifies |
| ConservationVariables.AddToModel | src/conservation/variable.cpp:9-50 | without features nothing changes; otherwise one variable with one label per state and its unary from the per-state lists |
| BinaryVariables.BinaryWeightLists | src/conservation/segmentationhypothesis.cpp:103-116 | two lists, both with all the features; label l, feature i uses weight id l·n+i |
| BinaryVariables.BinaryListsUseEveryId | src/conservation/segmentationhypothesis.cpp:103-116 | the two lists use each of the 2n weight ids once, in order |
| BinaryVariables.BuildBinaryWeightLists | src/conservation/segmentationhypothesis.cpp:108-116 | the label loop builds exactly `BinaryWeightLists` |
| BinaryVariables.BinaryVariable.AddToModel | src/conservation/segmentationhypothesis.cpp:90-124 | without features nothing changes; otherwise one binary variable at the next id with its unary |
| BinaryLinks.LinkingHypothesis.Default | src/linkinghypothesis.cpp:7-11 | both endpoints and the id are -1 |
| BinaryLinks.LinkingHypothesis.constructor | src/linkinghypothesis.cpp:13-18 | endpoints and features as given, id -1 |
| BinaryLinks.LinkingHypothesis.AddToModel | src/linkinghypothesis.cpp:59-90 | always one binary variable, whose id is the last of the model, with its two-label unary; endpoints and features unchanged |
| Links.LinkingHypothesis.Default | src/conservation/linkinghypothesis.cpp:9-12 | both endpoints -1, a variable without features |
| Links.LinkingHypothesis.constructor | src/conservation/linkinghypothesis.cpp:14-18 | endpoints as given, a fresh unmaterialised variable with the features |
| Links.LinkingHypothesis.AddToModel | src/conservation/linkinghypothesis.cpp:60-69 | exactly what the variable's materialisation does, with flag and ids passed on |
| Links.LinkingHypothesis.ToJson | src/conservation/linkinghypothesis.cpp:71-78 | the record names both endpoints; the state is cast to a 32-bit unsigned value |
| Divisions.DivisionHypothesis.constructor | src/divisionhypothesis.cpp:13-19 | parent and children as given, a fresh unmaterialised variable |
| Divisions.DivisionHypothesis.AddToModel | src/divisionhypothesis.cpp:56-65 | exactly what the variable's materialisation does |
| GraphModel.Model.AddVariable | src/linkinghypothesis.cpp:67-69 | one more variable with the given labels; its id is the old count, i.e. the last id |
| GraphModel.Model.AddFactor | src/linkinghypothesis.cpp:87-89 | the factor is appended; the variables are unchanged |
| GraphModel.LeftHandSideAppend | src/segmentationhypothesis.cpp:85-121 | a constraint's left-hand side is additive over a split of its terms |
| FlowConstraints.ActiveSum | src/segmentationhypothesis.cpp:274-296 | fails with the source's message exactly when some link has no id; otherwise the sum of the links' labels |
| FlowConstraints.IncomingConstraint | src/segmentationhypothesis.cpp:85-121 | none exactly when there is no link and no appearance; else links + appearance − detection = 0 |
| FlowConstraints.OutgoingConstraint | src/segmentationhypothesis.cpp:123-166 | none exactly when there is no link and no disappearance; else links + disappearance − detection − division = 0 |
| FlowConstraints.DivisionConstraint | src/segmentationhypothesis.cpp:168-191 | none exactly when there is no division variable |
| FlowConstraints.PairExclusion | src/segmentationhypothesis.cpp:193-219 | none exactly when either id is absent; else a two-term constraint over both ids in ascending order |
| FlowConstraints.IncomingMeaning | src/segmentationhypothesis.cpp:85-121 | the incoming constraint holds iff the incoming link labels plus the appearance label equal the detection label |
| FlowConstraints.OutgoingMeaning | src/segmentationhypothesis.cpp:123-166 | the outgoing constraint holds iff the outgoing link labels plus the disappearance equal the detection plus the division |
| FlowConstraints.DivisionMeaning | src/segmentationhypothesis.cpp:168-191 | the division constraint holds iff a dividing variable implies the detection has label 1 |
| FlowConstraints.PairExclusionMeaning | src/segmentationhypothesis.cpp:193-219 | a pair exclusion holds iff one of the two has label 0 |
| FlowConstraints.PairExclusionsMeaning | src/segmentationhypothesis.cpp:242-255 | the exclusions of a variable against a list hold iff it is off or every listed variable is off |
| FlowConstraints.HypothesisConstraintsMeaning | src/segmentationhypothesis.cpp:221-256 | all constraints a hypothesis emits hold iff the flow, division and exclusion rules hold |
| FlowConstraints.AddHypothesisConstraints | src/segmentationhypothesis.cpp:237-255 | adds exactly the hypothesis' constraints, in emission order, and no variable |
| Segmentation.Verify | src/segmentationhypothesis.cpp:298-363 | throws only for an unmaterialised link; answers whenever every link is materialised |
| Segmentation.ConstraintsImplyVerified | src/segmentationhypothesis.cpp:298-363 | a labelling meeting every emitted constraint passes the check |
| Segmentation.VerifiedImpliesConstraints | src/segmentationhypothesis.cpp:298-363 | a passing labelling meets every emitted constraint, where the check compares the sums the constraints state |
| Segmentation.VerifyAcceptsUnfedDetection | src/segmentationhypothesis.cpp:298-363 | the check is weaker than the constraints: an active detection with no links and an inactive appearance passes |
| Segmentation.SumActiveLinks | src/segmentationhypothesis.cpp:274-284 | the summing loop returns `ActiveSum` of the links' ids |
| Segmentation.SegmentationHypothesis.constructor | src/segmentationhypothesis.cpp:15-26 | features kept, nothing materialised, no links or divisions |
| Segmentation.SegmentationHypothesis.AddIncomingLink | src/segmentationhypothesis.cpp:258-264 | fails once the detection is materialised; otherwise appends a present link and ignores a missing one |
| Segmentation.SegmentationHypothesis.AddOutgoingLink | src/segmentationhypothesis.cpp:266-272 | the same for outgoing links |
| Segmentation.SegmentationHypothesis.NumActiveIncomingLinks | src/segmentationhypothesis.cpp:274-284 | `ActiveSum` over the incoming links |
| Segmentation.SegmentationHypothesis.NumActiveOutgoingLinks | src/segmentationhypothesis.cpp:286-296 | `ActiveSum` over the outgoing links |
| Segmentation.SegmentationHypothesis.VerifySolution | src/segmentationhypothesis.cpp:298-363 | the check as the source makes it equals `Verify` on the current ids |
| Segmentation.SegmentationHypothesis.AddIncomingDivision | src/divisionhypothesis.cpp:52-53 | appends the division; nothing else changes |
| Segmentation.SegmentationHypothesis.AddOutgoingDivision | src/divisionhypothesis.cpp:50 | appends the division; nothing else changes |
| Segmentation.SegmentationHypothesis.AddToModel | src/segmentationhypothesis.cpp:221-256 | fails, adding nothing, iff the detection has no features and no id; otherwise materialises detection, division, appearance and disappearance in order, then adds the constraints over them and the links |
| ConservationSegmentation.Verify | src/conservation/segmentationhypothesis.cpp:338-389 | throws only for an unmaterialised link; always reads the division label |
| ConservationSegmentation.ConstraintsImplyVerified | src/conservation/segmentationhypothesis.cpp:338-389 | a binary labelling meeting every emitted constraint passes the check |
| ConservationSegmentation.VerifiedImpliesConstraints | src/conservation/segmentationhypothesis.cpp:338-389 | a passing binary labelling meets every emitted constraint, where the check compares the sums |
| ConservationSegmentation.SegmentationHypothesis.constructor | src/conservation/segmentationhypothesis.cpp:15-26 | features kept, nothing materialised, no links |
| ConservationSegmentation.SegmentationHypothesis.AddIncomingLink | src/conservation/segmentationhypothesis.cpp:298-304 | fails once the detection is materialised; otherwise appends a present link |
| ConservationSegmentation.SegmentationHypothesis.AddOutgoingLink | src/conservation/segmentationhypothesis.cpp:306-312 | the same for outgoing links |
| ConservationSegmentation.SegmentationHypothesis.AddToModel | src/conservation/segmentationhypothesis.cpp:262-296 | fails, adding nothing, iff the detection has no features and no id; otherwise the four binary variables in order, then the constraints |
| Exclusions.Insert | src/exclusionconstraint.cpp:23 | inserting into a sorted list keeps it sorted and adds exactly one element |
| Exclusions.Sort | src/exclusionconstraint.cpp:23 | the result is sorted and a permutation of the input |
| Exclusions.SortedPermutationUnique | src/exclusionconstraint.cpp:23 | a sorted permutation is unique, so the ids after sorting are determined |
| Exclusions.ConvertAll | src/exclusionconstraint.cpp:16-20 | succeeds iff every entry converts to an int; the result is the converted entries in order |
| Exclusions.ExclusionFactor | src/exclusionconstraint.cpp:26-51 | a less-or-equal-1 constraint with one state-1 indicator per detection, each argument declared binary |
| Exclusions.ExclusionFactorMeaning | src/exclusionconstraint.cpp:33-46 | the factor holds iff at most one listed detection is in state 1 |
| Exclusions.VerifyMatchesFactor | src/exclusionconstraint.cpp:53-66 | on binary detections the check and the factor agree |
| Exclusions.SingleMemberInStateTwo | src/exclusionconstraint.cpp:53-66 | a single member in state 2 meets the factor but fails the check |
| Exclusions.ExclusionConstraint.constructor | src/exclusionconstraint.cpp:7-9 | the ids as given |
| Exclusions.ExclusionConstraint.ReadFromJson | src/exclusionconstraint.cpp:11-24 | a non-array fails with the ids unchanged; an array succeeds iff all entries convert, and the ids are then the sorted entries; on failure the ids converted before the bad entry remain |
| Exclusions.ExclusionConstraint.AddToModel | src/exclusionconstraint.cpp:26-51 | appends the exclusion factor over the members' detection ids; no variable is added |
| Exclusions.ExclusionConstraint.VerifySolution | src/exclusionconstraint.cpp:53-66 | throws iff a member is not a known hypothesis (`map::at`); otherwise true iff the detection labels sum to less than 2 |
| Registration.RegisterLink | src/conservation/linkinghypothesis.cpp:49-58 | outgoing at the source, then incoming at the target, each only while that detection is unmaterialised; nothing else changes |
| Registration.RegisterBinaryLink | src/linkinghypothesis.cpp:48-57 | the same for binary links and conservation hypotheses |
| Registration.RegisterDivision | src/divisionhypothesis.cpp:43-54 | the parent gets one outgoing entry; each hypothesis gets one incoming entry per occurrence of its key among the children; nothing else changes |
| Registration.AppendAtCount | src/divisionhypothesis.cpp:52-53 | appending at each child key gives each key as many entries as it occurs |
| Materialisation.AddLinkList | src/model.cpp:97-100 | the links in list order: the model gains their labels and unaries, and each link with features takes the next id |
| Materialisation.AddDivisionList | src/model.cpp:117-120 | the same for the external divisions |
| SegmentationList.AddHypothesis | src/model.cpp:122-125 | one hypothesis: fails iff its detection has neither features nor id; else the model gains its labels, unaries and constraints, and its ids follow |
| SegmentationList.FirstFailure | src/model.cpp:122-125 | the index of the first hypothesis whose detection gets no id; every one before it succeeds, and it is the length exactly when all succeed |
| SegmentationList.AddHypotheses | src/model.cpp:122-125 | the hypotheses in key order: fails iff some hypothesis fails, and the model then holds exactly what the hypotheses before the first failing one added; on success the model is the specified target and each hypothesis holds the ids the target gives it |
| Weights.KindCount | src/model.cpp:33-41 | with no variables the count stays -1 |
| Weights.KindCountMeaning | src/model.cpp:33-49 | succeeds iff every count succeeds and the positive counts agree; the result is -1 or that common positive count, which some variable has |
| Weights.KindCountNext | src/model.cpp:33-41 | one more variable: a failure stays, else the next check step applies |
| Weights.LinkCount | src/model.cpp:56-63 | with no links the count stays -1 |
| Weights.LinkCountMeaning | src/model.cpp:56-63 | succeeds iff every count succeeds and all counts agree once the first non-negative one is set |
| Weights.LinkCountDependsOnOrder | src/model.cpp:56-63 | a link without features first is accepted, the same link last is rejected |
| Weights.SegmentationScanByKind | src/model.cpp:43-49 | the interleaved scan over hypotheses succeeds iff each kind's own count does, and gives those counts |
| Weights.ScanFits | src/model.cpp:43-71 | after a successful scan every variable with a positive count has exactly its kind's clamped count |
| Weights.CountWeightsRepeat | src/model.cpp:24 | counting again with the cached counts gives the same result; the result is the total of the cached counts |
| Weights.CountWeightsFresh | src/model.cpp:21-84 | succeeds iff the scan does and internal and external divisions do not both need weights; on a scan failure the cache stays |
| Weights.DivisionConflictReportedOnce | src/model.cpp:24-74 | both division kinds: the first count throws, but the counts are cached first, so the second call returns their total |
| Weights.Zeros | src/model.cpp:216 | n zeros |
| Weights.Range | src/model.cpp:93-115 | n consecutive ids from the start |
| Weights.BlocksPartition | src/model.cpp:93-115 | the six blocks in order are exactly the ids 0 to total−1 |
| Weights.BlocksDisjoint | src/model.cpp:102-115 | blocks of different kinds share no id, and every id is below the total |
| Weights.KindDescriptions | src/model.cpp:344-353 | one description per feature, in order |
| Weights.Descriptions | src/model.cpp:339-363 | as many descriptions as weights |
| Weights.AppendDescriptions | src/model.cpp:344-353 | the loop appends exactly one kind's descriptions |
| Weights.DescribeAll | src/model.cpp:355-360 | the descriptions of all kinds in link, detection, division, appearance, disappearance, external division order |
| Weights.DescriptionsLayout | src/model.cpp:339-363 | the description at weight id start(kind)+f names that kind and feature f |
| Tracking.ScanAgrees | src/model.cpp:89-124 | a successful count gives every variable with features exactly its block's number of weight ids |
| Tracking.ConjoinMeaning | src/model.cpp:284-306 | folding the checks throws iff one throws, and is true iff the start and every check are true |
| Tracking.FoldAnswers | src/model.cpp:280-307 | the model check throws iff an exclusion or hypothesis check throws, and is true iff all of them are |
| Tracking.ExclusionChecks | src/model.cpp:287-294 | one check per exclusion, in list order |
| Tracking.SegmentationChecks | src/model.cpp:297-304 | one check per hypothesis, in key order |
| Tracking.TrackingModel.ComputeNumWeights | src/model.cpp:21-84 | result and cached counts are the counting function's; on success the scan equals the cache and the result is its total |
| Tracking.TrackingModel.WeightDescriptions | src/model.cpp:339-363 | fails with the count's error; otherwise the descriptions of the cached counts, as many as weights |
| Tracking.TrackingModel.InitializeModel | src/model.cpp:86-138 | counts first and throws before building; on success the model is the one assembled with those counts |
| Tracking.TrackingModel.CountBeforeAssembly | src/model.cpp:89 | the count runs before anything is built: the graphical model is untouched, and on success the scan equals the cached counts |
| Tracking.TrackingModel.Assemble | src/model.cpp:93-130 | the model built from the cached counts: lists, hypotheses, exclusions |
| Tracking.TrackingModel.SetUpWithWeights | src/model.cpp:140-152 | a count error propagates; a weight vector of the wrong length fails with the source's message, model unchanged; the right length builds the model |
| Tracking.TrackingModel.SetUpFromZero | src/model.cpp:214-218 | the initial weights are zeros, one per counted weight, and the model is built |
| Tracking.TrackingModel.ScanAll | src/model.cpp:43-63 | the three loops compute the scan |
| Tracking.TrackingModel.CheckHypothesis | src/model.cpp:45-48 | one hypothesis' four checks |
| Tracking.TrackingModel.ScanSegmentations | src/model.cpp:43-49 | the segmentation loop computes the interleaved scan |
| Tracking.TrackingModel.ScanDivisions | src/model.cpp:51-54 | the division loop computes the external-division count |
| Tracking.TrackingModel.ScanLinks | src/model.cpp:56-63 | the link loop computes the link count |
| Tracking.TrackingModel.VerifySolution | src/model.cpp:280-307 | the exclusion checks, then the hypothesis checks, folded; every check runs |
| Tracking.TrackingModel.DeduceAppearanceDisappearance | src/model.cpp:365-405 | the array afterwards and the outcome are those of `DeduceAll` over the hypotheses in key order |
| Deduction.SetLabel | src/model.cpp:385 | only the entry at the id changes, to the value |
| Deduction.Step | src/model.cpp:370-403 | an inactive detection changes nothing; an active one with no active incoming link sets the appearance to its label or throws when there is none; the same for disappearance; an active incoming (outgoing) link keeps the appearance (disappearance) entry; an unmaterialised incoming or outgoing link throws |
| Deduction.DeduceFor | src/model.cpp:370-403 | the loop body on the array equals `Step` |
| Deduction.DeduceAllKeepsOthers | src/model.cpp:365-405 | only appearance and disappearance entries ever change |
| Deduction.DeduceAllStops | src/model.cpp:365-405 | once a step throws, later hypotheses are not looked at |
| Deduction.DeduceAllStep | src/model.cpp:368-404 | each hypothesis works on the labelling the earlier ones left |
| Building.AddExclusions | src/model.cpp:127-130 | one factor per exclusion, in list order; no variable added |
| Building.PlaceLinks | src/model.cpp:93-100 | links take the next ids from the link block; every link ends up with an id; divisions and hypotheses unchanged |
| Building.PlaceDivisions | src/model.cpp:114-120 | divisions take the next ids from their block; links and hypotheses unchanged |
| Building.PlaceLists | src/model.cpp:93-120 | links, then divisions, each from its block; hypotheses keep their ids |
| Building.PlaceHypotheses | src/model.cpp:122-125 | hypotheses in key order; links and divisions keep their ids |
| Building.PlaceExclusions | src/model.cpp:127-130 | the exclusion factors are appended after everything else; no label is added and the hypotheses keep their ids |
| Building.PlaceAll | src/model.cpp:122-130 | hypotheses then exclusions |
| Building.Materialise | src/model.cpp:93-130 | the whole assembly: links and divisions take the next ids, then the hypotheses in key order, then the exclusions; when a detection has neither features nor id it fails, and the model keeps the lists and the hypotheses before that one but no exclusion |
| Json.Truncate | src/exclusionconstraint.cpp:19 | rounds toward zero: the result is within one of the value, on the zero side |
| Json.AsBool | src/settings.cpp:20 | null is false, numbers are true unless zero, booleans as is; strings and arrays throw |
| Json.AsInt | src/exclusionconstraint.cpp:19 | a signed 32-bit integer: an integer converts iff it is in range, and is kept; strings and arrays throw |
| Json.AsUInt | src/settings.cpp:50 | an unsigned 32-bit integer: an integer converts iff it is in 0..2^32−1, and is kept; strings and arrays throw |
| Json.AsDouble | src/settings.cpp:40 | converts iff the value is not a string or an array; doubles and integers keep their value |
| Settings.Default | src/settings.cpp:6-15 | the eight default values |
| Settings.BoolMember | src/settings.cpp:19-22 | an absent member gives the default; a present one is converted |
| Settings.FromJson | src/settings.cpp:17-58 | succeeds iff every present member converts; each setting is its member or its default |
| Settings.ToInt32 | src/settings.cpp:69 | the low 32 bits as two's complement; small counts unchanged |
| Settings.Saved | src/settings.cpp:60-70 | all eight members are written |
| Settings.SaveToJson | src/settings.cpp:60-70 | the object then holds exactly the saved members |
| Settings.EmptyEntryGivesDefault | src/settings.cpp:17-58 | an entry without members reads as the defaults |
| Settings.SaveLoadRoundTrip | src/settings.cpp:17-70 | reading back what was saved gives the settings when the thread count fits an int |
| Settings.LargeThreadCountDoesNotReload | src/settings.cpp:49-50 | a thread count of 2^31 is saved as a negative int and no longer reads back |
| CoverTree.NodeVisitor.Visit | src/nodevisitor.cpp:10-13 | records the node |
| CoverTree.CoverTreeNode.constructor | src/covertreenode.cpp:9-16 | takes the counter's value as id and advances the counter modulo 2^64; features as given; no parent, no children; the node joins the registry of all nodes |
| CoverTree.CoverTreeNode.AddChild | src/covertreenode.cpp:45-54 | appends the child and makes this node its parent, in whatever order links are made (a child may already have children, this node may already have a parent); no node ends up below itself |
| CoverTree.CoverTreeNode.SetCoverFeatures | src/covertreenode.cpp:56-59 | sets the cover features |
| CoverTree.CoverTreeNode.SetAddFeatures | src/covertreenode.cpp:61-64 | sets the add features |
| CoverTree.CoverTreeNode.SetCoverLabel | src/covertreenode.cpp:66-69 | sets the cover label |
| CoverTree.CoverTreeNode.AddLabel | src/covertreenode.cpp:76-83 | the label plus the children's labels is the cover label modulo 2^64, exactly when they do not exceed it |
| CoverTree.CoverTreeNode.Accept | src/covertreenode.cpp:35-43 | the visitor sees this node, then each child's subtree, in pre-order; any registered node can accept |
| CoverTree.CoverTreeNode.AcceptChildren | src/covertreenode.cpp:38-42 | the children accept the visitor one after the other, in list order |
| CoverTree.Forest.BelowClosed | src/covertreenode.cpp:35-43 | the nodes below a node include the children of each of them, so a visit from a node stays below it |
| CoverTree.SizeToFeatureVectorAsWritten | test/simplest_example.cpp:15-28 | the test's size feature as written: six entries, the bin size / 10 and the constant last entry on, every other size bin off; the clamp to bin 4 has no effect |
| CoverTree.AsWrittenSizeLosesBin | test/simplest_example.cpp:20-23 | as written, a size of 55 turns on none of the five size bins |
| CoverTree.SizeToFeatureVector | test/simplest_example.cpp:15-28 | with the clamp in effect: exactly the size's bin (4 from a size of 40 on) among the first five entries is on, the last is the constant 1, and below 50 it equals the as-written vector |
| CoverTree.TestFeatureVectors | test/simplest_example.cpp:15-28 | the size features of the test's sizes 48, 26, 19, 11, 3 and 6 are the one-hot bins 4, 2, 1, 1, 0, 0 plus the constant entry |
| CoverTree.TestTreeWithGroundTruth | test/simplest_example.cpp:30-60 | builds the test's seven-node tree top-down (root's children linked before their own children), each node with the size feature of its pixel size as cover features and the test's add features, and keeps every node registered and the registry valid |
| CoverTree.TestTreeAddLabels | test/simplest_example.cpp:30-60 | in the test tree the add labels are 1 (root), 0 (c1), 1 (c2) and each leaf's own cover label |
| CoverTree.TestTreePreOrder | test/simplest_example.cpp:30-60 | the test tree's pre-order is root, c1, c1a, c1b, c2, c2a, c2b |
| CoverTree.VisitTestTree | src/covertree.cpp:33 | a visitor started at the root of the top-down-built test tree sees root, c1, c1a, c1b, c2, c2a, c2b |

## Left out

- Registration.RegisterLink: requires both endpoint keys to be present. The source's `std::map::operator[]` would insert a default hypothesis for a missing key, and its debug asserts (src/conservation/linkinghypothesis.cpp:51-52) rule that case out.
- Registration.RegisterBinaryLink: requires both endpoint keys, for the same reason (src/linkinghypothesis.cpp:50-51).
- Registration.RegisterDivision: requires the parent and every child to be keys, for the same reason (src/divisionhypothesis.cpp:45-47).
- Exclusions.ExclusionConstraint.AddToModel: requires every member to be a known hypothesis. The source's `operator[]` would insert a default hypothesis, whose detection id -1 ends up in the factor.
- Segmentation.SegmentationHypothesis.AddToModel: requires its links to be materialised. The source would hand OpenGM a negative variable id. The assembly places all links first, but a link without features never receives an id (src/conservation/variable.cpp:16-17 returns before setting it), so this excludes hypotheses that have such a link; on those the source writes id -1, read as `size_t` (SIZE_MAX, include/helpers.h:104-106), into the flow constraints (src/segmentationhypothesis.cpp:100, 138), and only the pairwise exclusions skip negative ids (:195).
- ConservationSegmentation.SegmentationHypothesis.AddToModel: requires its links to be materialised, for the same reason.
- Tracking.TrackingModel.InitializeModel: the hypotheses' structure is a requires (`Building.Ready`): links, divisions and hypotheses own distinct variables; a link without features already has an id; the key list is the map's keys in order; exclusions name known hypotheses. Because the model starts from an empty graphical model, the clause on featureless links excludes every link without features. The source accepts such a link in the count when it comes before every link with features (src/model.cpp:56-63, see `Weights.LinkCountDependsOnOrder`), never gives it an id, and then writes id -1 (SIZE_MAX as `size_t`) into its endpoints' flow constraints (src/segmentationhypothesis.cpp:100, 138). The model does not capture that behaviour. The other clauses hold in the source because each hypothesis owns its variables and the maps are keyed by id.
- Variables.Variable.AddToModel: the debug-only assert that the weight-id count equals the count (src/variable.cpp:25) is a requires. Without it the source reads past the id vector.
- ConservationVariables.AddToModel: the same debug assert (src/conservation/variable.cpp:26) is a requires.
- BinaryLinks.LinkingHypothesis.AddToModel: the debug assert of two ids per feature (src/linkinghypothesis.cpp:74) is a requires.
- BinaryVariables.BinaryVariable.AddToModel: the same assert (src/conservation/segmentationhypothesis.cpp:106) is a requires.
- FlowConstraints.ActiveSum: sums of labels are unbounded. The source's `size_t` sums would wrap past 2^64, which no labelling of a real model reaches.
- Exclusions.ExclusionConstraint.VerifySolution: the detection labels are summed without `size_t` wrap-around, for the same reason.
- The solver, structured learning and ground-truth loading behind `infer`/`learn` (src/model.cpp:153-211, 238-278): they call OpenGM, Gurobi/CPLEX and subclass hooks. The model stops once the weight vector is checked and the graphical model is built.
- Weight values and factor energies: the model records which weight ids a unary uses, not the numbers or the energy they give.
- `toDot` of every class, `Settings::print` and all console logging: output only.
- `readFromJson` of the segmentation hypotheses and of both link revisions (src/segmentationhypothesis.cpp:28-57, src/conservation/segmentationhypothesis.cpp:28-70, src/linkinghypothesis.cpp:20-41, src/conservation/linkinghypothesis.cpp:20-37): data-set parsing. The JSON reading that is modelled is the exclusion constraint's and the settings'.
- `addIncomingDivision` and `addOutgoingDivision` of the segmentation hypothesis: their definitions are not part of this model. They are modelled as plain appends, like the link registration without its materialisation check.
- The cover-tree node's shared and weak pointers: the parent is a plain reference. The class-wide id counter is an explicit `CoverTree.IdCounter` argument. The uninitialised cover label is tracked by a `labelled` flag. Every node belongs to a ghost `CoverTree.Forest` registry whose ranks fall along child links; it has no counterpart in the source.
- CoverTree.SizeToFeatureVectorAsWritten: requires a pixel size below 60. From 60 on the source writes past the end of its six-entry vector, which has no defined result to model.
- CoverTree.CoverTreeNode.AddChild: requires the child's subtree not to contain this node (and both nodes to be in the same registry). The source accepts such a link, after which `accept` would recurse forever.
- ConservationSegmentation.Verify: requires the division variable to be materialised (its id within the labelling). The source reads `sol[division_.getOpenGMVariableId()]` unconditionally (src/conservation/segmentationhypothesis.cpp:341), which is out of bounds for a hypothesis without division features, whose division id stays -1. The appearance and disappearance reads on lines 347 and 361 are guarded; the model does not decide what an absent division should contribute.
- `getNumStates`, the id getters and the other accessors are field reads in the model.

## Findings

| source | as written | input that shows it | evidently intended | confidence | as-written member | corrected member |
|---|---|---|---|---|---|---|
| src/conservation/variable.cpp:54-71 | without shared weights the count starts at -1 and adds every state's features, so it returns the total minus one | two states with one feature each, weights not shared: the count is 1, but materialisation reads two weight ids (the second state starts at offset 1); see ConservationVariables.AsWrittenTwoStatesExample | the total feature count, as src/variable.cpp:97-99 computes it, which is exactly what materialisation consumes | not executed | ConservationVariables.NumWeightsAsWritten | ConservationVariables.CorrectedCountMatchesConsumption |
| test/simplest_example.cpp:20-23 | the bin is clamped with `idx == 4;`, a comparison whose result is discarded, so the bin is never clamped | a pixel size of 55: bin 5 is the constant entry, so no size bin is on (CoverTree.AsWrittenSizeLosesBin); from 60 on the write lands past the end of the six-entry vector | `idx = 4;`, so every size of 40 and more falls in the last size bin | not executed | CoverTree.SizeToFeatureVectorAsWritten | CoverTree.SizeToFeatureVector |
