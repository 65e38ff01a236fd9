/**
 * The tracking settings: eight configuration values with fixed defaults, read
 * from the members of a JSON object (a member that is absent takes its default)
 * and written back as eight members of a caller's JSON object.
 */
module Settings {
  import opened Wrappers
  import opened Json

  /** The eight members the settings are stored under. */
  datatype Key =
    | StatesShareWeights
    | AllowPartialMergerAppearance
    | AllowLengthOneTracks
    | RequireSeparateChildrenOfDivision
    | OptimizerEpGap
    | OptimizerVerbose
    | OptimizerNumThreads
    | NonNegativeWeightsOnly

  /** The number of threads is a size_t. */
  const SIZE_T_RANGE: nat := 0x1_0000_0000_0000_0000
  const UINT32_RANGE: nat := 0x1_0000_0000
  const INT32_LIMIT: nat := 0x8000_0000

  datatype Settings = Settings(
    statesShareWeights: bool,
    allowPartialMergerAppearance: bool,
    allowLengthOneTracks: bool,
    requireSeparateChildrenOfDivision: bool,
    optimizerEpGap: real,
    optimizerVerbose: bool,
    optimizerNumThreads: nat,
    nonNegativeWeightsOnly: bool)

  /** The values a default-constructed settings object holds. */
  function Default(): (s: Settings)
    ensures !s.statesShareWeights && s.allowPartialMergerAppearance && !s.allowLengthOneTracks
    ensures !s.requireSeparateChildrenOfDivision && s.optimizerEpGap == 0.01 && s.optimizerVerbose
    ensures s.optimizerNumThreads == 1 && !s.nonNegativeWeightsOnly
  {
    Settings(false, true, false, false, 0.01, true, 1, false)
  }

  /** A boolean member, or the default when the member is absent. */
  function BoolMember(entry: map<Key, JsonValue>, key: Key, default: bool): (r: Result<bool>)
    ensures key !in entry ==> r == Ok(default)
    ensures key in entry ==> r == AsBool(entry[key])
  {
    if key in entry then AsBool(entry[key]) else Ok(default)
  }

  /**
   * Reads the settings member by member in declaration order; the first member
   * whose value does not convert makes the whole read fail.
   */
  function FromJson(entry: map<Key, JsonValue>): (r: Result<Settings>)
    ensures r.Ok? <==> MembersConvert(entry)
    ensures r.Ok? ==> r.value.statesShareWeights == BoolMember(entry, StatesShareWeights, false).value
    ensures r.Ok? ==> r.value.allowPartialMergerAppearance == BoolMember(entry, AllowPartialMergerAppearance, true).value
    ensures r.Ok? ==> r.value.allowLengthOneTracks == BoolMember(entry, AllowLengthOneTracks, false).value
    ensures r.Ok? ==> r.value.requireSeparateChildrenOfDivision == BoolMember(entry, RequireSeparateChildrenOfDivision, false).value
    ensures r.Ok? ==> r.value.optimizerEpGap == (if OptimizerEpGap in entry then AsDouble(entry[OptimizerEpGap]).value else 0.01)
    ensures r.Ok? ==> r.value.optimizerVerbose == BoolMember(entry, OptimizerVerbose, true).value
    ensures r.Ok? ==> r.value.optimizerNumThreads == (if OptimizerNumThreads in entry then AsUInt(entry[OptimizerNumThreads]).value else 1)
    ensures r.Ok? ==> r.value.nonNegativeWeightsOnly == BoolMember(entry, NonNegativeWeightsOnly, false).value
  {
    var share :- BoolMember(entry, StatesShareWeights, false);
    var partial :- BoolMember(entry, AllowPartialMergerAppearance, true);
    var lengthOne :- BoolMember(entry, AllowLengthOneTracks, false);
    var separate :- BoolMember(entry, RequireSeparateChildrenOfDivision, false);
    var epGap :- if OptimizerEpGap in entry then AsDouble(entry[OptimizerEpGap]) else Ok(0.01);
    var verbose :- BoolMember(entry, OptimizerVerbose, true);
    var threads :- if OptimizerNumThreads in entry then AsUInt(entry[OptimizerNumThreads]) else Ok(1);
    var nonNegative :- BoolMember(entry, NonNegativeWeightsOnly, false);
    Ok(Settings(share, partial, lengthOne, separate, epGap, verbose, threads, nonNegative))
  }

  /** Every member present holds a value of its kind that converts. */
  predicate MembersConvert(entry: map<Key, JsonValue>)
  {
    (forall key :: key in entry && key != OptimizerEpGap && key != OptimizerNumThreads ==> AsBool(entry[key]).Ok?) &&
    (OptimizerEpGap in entry ==> AsDouble(entry[OptimizerEpGap]).Ok?) &&
    (OptimizerNumThreads in entry ==> AsUInt(entry[OptimizerNumThreads]).Ok?)
  }

  /** The conversion of a size_t to int: the low 32 bits, read as two's complement. */
  function ToInt32(n: nat): (r: int)
    ensures -(INT32_LIMIT as int) <= r < INT32_LIMIT
    ensures (r - n) % UINT32_RANGE == 0
    ensures n < INT32_LIMIT ==> r == n
  {
    var low := n % UINT32_RANGE;
    if low < INT32_LIMIT then low else low - UINT32_RANGE
  }

  function AllKeys(): set<Key>
  {
    {StatesShareWeights, AllowPartialMergerAppearance, AllowLengthOneTracks, RequireSeparateChildrenOfDivision,
     OptimizerEpGap, OptimizerVerbose, OptimizerNumThreads, NonNegativeWeightsOnly}
  }

  /** The members written for a settings value. */
  function Saved(s: Settings): (entry: map<Key, JsonValue>)
    ensures entry.Keys == AllKeys()
  {
    map[StatesShareWeights := Bool(s.statesShareWeights),
        AllowPartialMergerAppearance := Bool(s.allowPartialMergerAppearance),
        AllowLengthOneTracks := Bool(s.allowLengthOneTracks),
        RequireSeparateChildrenOfDivision := Bool(s.requireSeparateChildrenOfDivision),
        NonNegativeWeightsOnly := Bool(s.nonNegativeWeightsOnly),
        OptimizerEpGap := Real(s.optimizerEpGap),
        OptimizerVerbose := Bool(s.optimizerVerbose),
        OptimizerNumThreads := Int(ToInt32(s.optimizerNumThreads))]
  }

  /** An entry without any of the members reads as the default settings. */
  lemma EmptyEntryGivesDefault()
    ensures FromJson(map[]) == Ok(Default())
  {
  }

  /**
   * Reading back what was saved reproduces every setting, provided the thread
   * count fits a signed 32-bit integer (it is saved through a cast to int).
   */
  lemma SaveLoadRoundTrip(s: Settings)
    requires s.optimizerNumThreads < INT32_LIMIT
    ensures FromJson(Saved(s)) == Ok(s)
  {
    assert MembersConvert(Saved(s));
  }

  /** A thread count of 2^31 is saved as a negative int, which no longer reads back. */
  lemma LargeThreadCountDoesNotReload(s: Settings)
    requires s.optimizerNumThreads == INT32_LIMIT
    ensures FromJson(Saved(s)).Err?
  {
    assert Saved(s)[OptimizerNumThreads] == Int(-(INT32_LIMIT as int));
  }

  /** A JSON object whose members can be written in place. */
  class JsonObject {
    var members: map<Key, JsonValue>

    constructor (members: map<Key, JsonValue>)
      ensures this.members == members
    {
      this.members := members;
    }
  }

  /** Writes all eight members, each holding its setting, whatever the object held before. */
  method SaveToJson(s: Settings, entry: JsonObject)
    modifies entry
    ensures entry.members == Saved(s)
  {
    var members := entry.members;
    members := members[StatesShareWeights := Bool(s.statesShareWeights)];
    members := members[AllowPartialMergerAppearance := Bool(s.allowPartialMergerAppearance)];
    members := members[AllowLengthOneTracks := Bool(s.allowLengthOneTracks)];
    members := members[RequireSeparateChildrenOfDivision := Bool(s.requireSeparateChildrenOfDivision)];
    members := members[NonNegativeWeightsOnly := Bool(s.nonNegativeWeightsOnly)];
    members := members[OptimizerEpGap := Real(s.optimizerEpGap)];
    members := members[OptimizerVerbose := Bool(s.optimizerVerbose)];
    members := members[OptimizerNumThreads := Int(ToInt32(s.optimizerNumThreads))];
    entry.members := members;
    forall key
      ensures key in entry.members && key in Saved(s) && entry.members[key] == Saved(s)[key]
    {
      match key
      case StatesShareWeights =>
      case AllowPartialMergerAppearance =>
      case AllowLengthOneTracks =>
      case RequireSeparateChildrenOfDivision =>
      case OptimizerEpGap =>
      case OptimizerVerbose =>
      case OptimizerNumThreads =>
      case NonNegativeWeightsOnly =>
    }
  }
}
