/**
 * The weight bookkeeping of a tracking model: how the weight counts reported by
 * the individual variables are reconciled into one count per kind, how the
 * counts are cached, how the weight vector is divided into one contiguous block
 * of ids per kind, and the description of every weight.
 */
module Weights {
  import opened Wrappers

  /** One count per kind of variable. */
  datatype WeightCounts = WeightCounts(link: nat, detection: nat, division: nat, appearance: nat,
                                       disappearance: nat, externalDivision: nat)

  /** The kinds in the order of their blocks in the weight vector. */
  datatype Kind = LinkKind | DetectionKind | DivisionKind | AppearanceKind | DisappearanceKind | ExternalDivisionKind

  const LINK_MISMATCH := "Links do not have the same number of features!"
  const BOTH_DIVISION_KINDS := "Model cannot contain divisions within detection nodes and externally at the same time!"
  const EXTERNAL_DIVISIONS := "External Divisions"

  function Mismatch(name: string): string
  {
    name + " do not have the same number of features/weights!"
  }

  function Total(c: WeightCounts): nat
  {
    c.link + c.detection + c.division + c.appearance + c.disappearance + c.externalDivision
  }

  /** Every reported count is a number (no variable threw while counting). */
  predicate AllOk(counts: seq<Result<int>>)
  {
    forall k :: 0 <= k < |counts| ==> counts[k].Ok?
  }

  /** All positive counts are equal. */
  predicate PositivesAgree(counts: seq<Result<int>>)
  {
    forall i, j ::
      0 <= i < |counts| && 0 <= j < |counts| && counts[i].Ok? && counts[j].Ok? && counts[i].value > 0 && counts[j].value > 0
      ==> counts[i].value == counts[j].value
  }

  /**
   * One step of the check for detections, divisions, appearances, disappearances
   * and external divisions: the first positive count is kept, counts of zero or
   * less are ignored, and a later positive count that differs throws.
   */
  function CheckStep(previous: int, count: Result<int>, name: string): Result<int>
  {
    if count.Err? then Err(count.message)
    else if previous < 0 && count.value > 0 then Ok(count.value)
    else if count.value > 0 && count.value != previous then Err(Mismatch(name))
    else Ok(previous)
  }

  /** The check run over all instances of one kind, starting from -1. */
  function KindCount(counts: seq<Result<int>>, name: string): (r: Result<int>)
    ensures |counts| == 0 ==> r == Ok(-1)
  {
    if |counts| == 0 then Ok(-1)
    else
      var before := KindCount(counts[..|counts| - 1], name);
      if before.Err? then before else CheckStep(before.value, counts[|counts| - 1], name)
  }

  /**
   * The check of one kind succeeds exactly when no count threw and all positive
   * counts agree, and then gives the common positive count, or -1 when there is none.
   */
  lemma {:induction false} KindCountMeaning(counts: seq<Result<int>>, name: string)
    ensures KindCount(counts, name).Ok? <==> AllOk(counts) && PositivesAgree(counts)
    ensures KindCount(counts, name).Ok? ==> KindCount(counts, name).value == -1 || KindCount(counts, name).value > 0
    ensures KindCount(counts, name).Ok? ==> forall k :: 0 <= k < |counts| && counts[k].Ok? && counts[k].value > 0 ==>
      counts[k].value == KindCount(counts, name).value
    ensures KindCount(counts, name).Ok? && KindCount(counts, name).value > 0 ==>
      exists k :: 0 <= k < |counts| && counts[k] == Ok(KindCount(counts, name).value)
  {
    if |counts| > 0 {
      var init := counts[..|counts| - 1];
      KindCountMeaning(init, name);
      assert counts == init + [counts[|counts| - 1]];
      if KindCount(counts, name).Ok? && KindCount(counts, name).value > 0 && KindCount(init, name).Ok? &&
         KindCount(init, name).value > 0 {
        var k :| 0 <= k < |init| && init[k] == Ok(KindCount(init, name).value);
        assert counts[k] == init[k];
      }
    }
  }

  /** Once the check throws on a prefix of the list, it throws the same error on the whole list. */
  lemma {:induction false} KindCountPrefixErr(counts: seq<Result<int>>, name: string, n: nat)
    requires n <= |counts| && KindCount(counts[..n], name).Err?
    ensures KindCount(counts, name) == KindCount(counts[..n], name)
    decreases |counts| - n
  {
    if n < |counts| {
      assert counts[..n + 1][..n] == counts[..n];
      KindCountPrefixErr(counts, name, n + 1);
    } else {
      assert counts[..n] == counts;
    }
  }

  /** The check on one more instance is one more step, unless it has thrown already. */
  lemma KindCountNext(counts: seq<Result<int>>, name: string, i: nat)
    requires i < |counts|
    ensures KindCount(counts[..i + 1], name) ==
      if KindCount(counts[..i], name).Err? then KindCount(counts[..i], name)
      else CheckStep(KindCount(counts[..i], name).value, counts[i], name)
  {
    assert counts[..i + 1][..i] == counts[..i];
  }

  /** Every count after a non-negative one equals it. */
  predicate AgreeOnceSet(counts: seq<Result<int>>)
  {
    forall i, j :: 0 <= i < j < |counts| && counts[i].Ok? && counts[j].Ok? && counts[i].value >= 0 ==> counts[j].value == counts[i].value
  }

  /**
   * One step of the check for links: as long as the running count is negative the
   * link's count replaces it; afterwards every link must report exactly that count.
   */
  function LinkStep(previous: int, count: Result<int>): Result<int>
  {
    if count.Err? then Err(count.message)
    else if previous < 0 then Ok(count.value)
    else if count.value != previous then Err(LINK_MISMATCH)
    else Ok(previous)
  }

  /** The check run over all links, starting from -1. */
  function LinkCount(counts: seq<Result<int>>): (r: Result<int>)
    ensures |counts| == 0 ==> r == Ok(-1)
  {
    if |counts| == 0 then Ok(-1)
    else
      var before := LinkCount(counts[..|counts| - 1]);
      if before.Err? then before else LinkStep(before.value, counts[|counts| - 1])
  }

  /**
   * The link check succeeds exactly when no count threw and every count after a
   * non-negative one equals it; the result is that count, or the last count when
   * all are negative.
   */
  lemma {:induction false} LinkCountMeaning(counts: seq<Result<int>>)
    ensures LinkCount(counts).Ok? <==> AllOk(counts) && AgreeOnceSet(counts)
    ensures LinkCount(counts).Ok? ==> forall k :: 0 <= k < |counts| && counts[k].Ok? && counts[k].value >= 0 ==>
      LinkCount(counts).value == counts[k].value
    ensures LinkCount(counts).Ok? && LinkCount(counts).value < 0 && |counts| > 0 ==> LinkCount(counts) == counts[|counts| - 1]
  {
    if |counts| > 0 {
      var init := counts[..|counts| - 1];
      LinkCountMeaning(init);
      assert counts == init + [counts[|counts| - 1]];
    }
  }

  /** Once the link check throws on a prefix of the list, it throws the same error on the whole list. */
  lemma {:induction false} LinkCountPrefixErr(counts: seq<Result<int>>, n: nat)
    requires n <= |counts| && LinkCount(counts[..n]).Err?
    ensures LinkCount(counts) == LinkCount(counts[..n])
    decreases |counts| - n
  {
    if n < |counts| {
      assert counts[..n + 1][..n] == counts[..n];
      LinkCountPrefixErr(counts, n + 1);
    } else {
      assert counts[..n] == counts;
    }
  }

  /** The link check on one more link is one more step, unless it has thrown already. */
  lemma LinkCountNext(counts: seq<Result<int>>, i: nat)
    requires i < |counts|
    ensures LinkCount(counts[..i + 1]) ==
      if LinkCount(counts[..i]).Err? then LinkCount(counts[..i]) else LinkStep(LinkCount(counts[..i]).value, counts[i])
  {
    assert counts[..i + 1][..i] == counts[..i];
  }

  /** The link check depends on the order: a link without features may precede, but not follow, one with. */
  lemma LinkCountDependsOnOrder()
    ensures LinkCount([Ok(-1), Ok(3)]) == Ok(3)
    ensures LinkCount([Ok(3), Ok(-1)]).Err?
  {
    assert [Ok(-1), Ok(3)][..1] == [Ok(-1)];
    assert [Ok(3), Ok(-1)][..1] == [Ok(3)];
    assert [Ok(-1)][..0] == [] && [Ok(3)][..0] == [];
  }

  /** The counts the four variables of one segmentation hypothesis report. */
  datatype SegmentationCounts = SegmentationCounts(detection: Result<int>, division: Result<int>,
                                                   appearance: Result<int>, disappearance: Result<int>)

  /** The running values of the four checks over segmentation hypotheses. */
  datatype Running = Running(detection: int, division: int, appearance: int, disappearance: int)

  /** The four checks for one hypothesis, in the order detection, division, appearance, disappearance. */
  function SegmentationStep(acc: Running, c: SegmentationCounts): Result<Running>
  {
    match CheckStep(acc.detection, c.detection, "Detections")
    case Err(e) => Err(e)
    case Ok(det) =>
      match CheckStep(acc.division, c.division, "Divisions")
      case Err(e) => Err(e)
      case Ok(div) =>
        match CheckStep(acc.appearance, c.appearance, "Appearances")
        case Err(e) => Err(e)
        case Ok(app) =>
          match CheckStep(acc.disappearance, c.disappearance, "Disappearances")
          case Err(e) => Err(e)
          case Ok(dis) => Ok(Running(det, div, app, dis))
  }

  /** The checks over all segmentation hypotheses, hypothesis by hypothesis, starting from -1. */
  function SegmentationScan(cs: seq<SegmentationCounts>): Result<Running>
  {
    if |cs| == 0 then Ok(Running(-1, -1, -1, -1))
    else
      match SegmentationScan(cs[..|cs| - 1])
      case Err(e) => Err(e)
      case Ok(acc) => SegmentationStep(acc, cs[|cs| - 1])
  }

  /** Once the scan throws on the first hypotheses, it throws the same error on all of them. */
  lemma {:induction false} SegmentationScanPrefixErr(cs: seq<SegmentationCounts>, n: nat)
    requires n <= |cs| && SegmentationScan(cs[..n]).Err?
    ensures SegmentationScan(cs) == SegmentationScan(cs[..n])
    decreases |cs| - n
  {
    if n < |cs| {
      assert cs[..n + 1][..n] == cs[..n];
      SegmentationScanPrefixErr(cs, n + 1);
    } else {
      assert cs[..n] == cs;
    }
  }

  function Detections(cs: seq<SegmentationCounts>): (r: seq<Result<int>>)
    ensures |r| == |cs| && forall k :: 0 <= k < |cs| ==> r[k] == cs[k].detection
  {
    seq(|cs|, k requires 0 <= k < |cs| => cs[k].detection)
  }

  function Divisions(cs: seq<SegmentationCounts>): (r: seq<Result<int>>)
    ensures |r| == |cs| && forall k :: 0 <= k < |cs| ==> r[k] == cs[k].division
  {
    seq(|cs|, k requires 0 <= k < |cs| => cs[k].division)
  }

  function Appearances(cs: seq<SegmentationCounts>): (r: seq<Result<int>>)
    ensures |r| == |cs| && forall k :: 0 <= k < |cs| ==> r[k] == cs[k].appearance
  {
    seq(|cs|, k requires 0 <= k < |cs| => cs[k].appearance)
  }

  function Disappearances(cs: seq<SegmentationCounts>): (r: seq<Result<int>>)
    ensures |r| == |cs| && forall k :: 0 <= k < |cs| ==> r[k] == cs[k].disappearance
  {
    seq(|cs|, k requires 0 <= k < |cs| => cs[k].disappearance)
  }

  /** Whether the four per-kind checks all succeed. */
  predicate KindsOk(cs: seq<SegmentationCounts>)
  {
    KindCount(Detections(cs), "Detections").Ok? && KindCount(Divisions(cs), "Divisions").Ok? &&
    KindCount(Appearances(cs), "Appearances").Ok? && KindCount(Disappearances(cs), "Disappearances").Ok?
  }

  /**
   * Interleaving the four checks hypothesis by hypothesis succeeds exactly when each
   * kind's check succeeds on its own, and then yields the same four counts.
   */
  lemma {:induction false} SegmentationScanByKind(cs: seq<SegmentationCounts>)
    ensures SegmentationScan(cs).Ok? <==> KindsOk(cs)
    ensures SegmentationScan(cs).Ok? ==>
      SegmentationScan(cs).value == Running(KindCount(Detections(cs), "Detections").value,
                                            KindCount(Divisions(cs), "Divisions").value,
                                            KindCount(Appearances(cs), "Appearances").value,
                                            KindCount(Disappearances(cs), "Disappearances").value)
  {
    if |cs| > 0 {
      var init := cs[..|cs| - 1];
      SegmentationScanByKind(init);
      assert Detections(cs)[..|cs| - 1] == Detections(init);
      assert Divisions(cs)[..|cs| - 1] == Divisions(init);
      assert Appearances(cs)[..|cs| - 1] == Appearances(init);
      assert Disappearances(cs)[..|cs| - 1] == Disappearances(init);
    }
  }

  function Clamp(n: int): nat
  {
    if n < 0 then 0 else n
  }

  /**
   * The full scan: segmentation hypotheses first, then division hypotheses, then
   * links; the first failing check throws. The counts are clamped at 0.
   */
  function Scan(cs: seq<SegmentationCounts>, divisionCounts: seq<Result<int>>, linkCounts: seq<Result<int>>): Result<WeightCounts>
  {
    match SegmentationScan(cs)
    case Err(e) => Err(e)
    case Ok(acc) =>
      match KindCount(divisionCounts, EXTERNAL_DIVISIONS)
      case Err(e) => Err(e)
      case Ok(ext) =>
        match LinkCount(linkCounts)
        case Err(e) => Err(e)
        case Ok(link) =>
          Ok(WeightCounts(Clamp(link), Clamp(acc.detection), Clamp(acc.division), Clamp(acc.appearance),
                          Clamp(acc.disappearance), Clamp(ext)))
  }

  /**
   * The counts a successful scan caches fit every instance: a positive count of a
   * detection, division, appearance, disappearance or external division equals
   * the count of its kind, and a non-negative link count equals the link count.
   */
  lemma ScanFits(cs: seq<SegmentationCounts>, divisionCounts: seq<Result<int>>, linkCounts: seq<Result<int>>)
    requires Scan(cs, divisionCounts, linkCounts).Ok?
    ensures forall k :: 0 <= k < |cs| ==> cs[k].detection.Ok? && (cs[k].detection.value > 0 ==> cs[k].detection.value == Scan(cs, divisionCounts, linkCounts).value.detection)
    ensures forall k :: 0 <= k < |cs| ==> cs[k].division.Ok? && (cs[k].division.value > 0 ==> cs[k].division.value == Scan(cs, divisionCounts, linkCounts).value.division)
    ensures forall k :: 0 <= k < |cs| ==> cs[k].appearance.Ok? && (cs[k].appearance.value > 0 ==> cs[k].appearance.value == Scan(cs, divisionCounts, linkCounts).value.appearance)
    ensures forall k :: 0 <= k < |cs| ==> cs[k].disappearance.Ok? && (cs[k].disappearance.value > 0 ==> cs[k].disappearance.value == Scan(cs, divisionCounts, linkCounts).value.disappearance)
    ensures forall k :: 0 <= k < |divisionCounts| ==> divisionCounts[k].Ok? && (divisionCounts[k].value > 0 ==> divisionCounts[k].value == Scan(cs, divisionCounts, linkCounts).value.externalDivision)
    ensures forall k :: 0 <= k < |linkCounts| ==> linkCounts[k].Ok? && (linkCounts[k].value >= 0 ==> linkCounts[k].value == Scan(cs, divisionCounts, linkCounts).value.link)
  {
    SegmentationScanByKind(cs);
    KindCountMeaning(Detections(cs), "Detections");
    KindCountMeaning(Divisions(cs), "Divisions");
    KindCountMeaning(Appearances(cs), "Appearances");
    KindCountMeaning(Disappearances(cs), "Disappearances");
    KindCountMeaning(divisionCounts, EXTERNAL_DIVISIONS);
    LinkCountMeaning(linkCounts);
  }

  /**
   * One call of the weight count: when the detection count is cached (non-zero)
   * the cached total is returned without a scan; otherwise the scan's counts are
   * cached, and the call throws when both division kinds need weights.
   */
  function CountWeights(cached: WeightCounts, scan: Result<WeightCounts>): (Result<nat>, WeightCounts)
  {
    if cached.detection != 0 then (Ok(Total(cached)), cached)
    else
      match scan
      case Err(e) => (Err(e), cached)
      case Ok(c) =>
        if c.division != 0 && c.externalDivision != 0 then (Err(BOTH_DIVISION_KINDS), c)
        else (Ok(Total(c)), c)
  }

  /**
   * The count is stable: once a call has succeeded, calling again with the counts
   * it cached and the same hypotheses gives the same result and caches the same counts.
   */
  lemma CountWeightsRepeat(cached: WeightCounts, scan: Result<WeightCounts>)
    requires CountWeights(cached, scan).0.Ok?
    ensures CountWeights(CountWeights(cached, scan).1, scan) == CountWeights(cached, scan)
    ensures CountWeights(cached, scan).0.value == Total(CountWeights(cached, scan).1)
  {
  }

  /**
   * A fresh count succeeds exactly when the scan succeeds and at most one division
   * kind needs weights, and it then caches the scanned counts.
   */
  lemma CountWeightsFresh(cached: WeightCounts, scan: Result<WeightCounts>)
    requires cached.detection == 0
    ensures CountWeights(cached, scan).0.Ok? <==> scan.Ok? && (scan.value.division == 0 || scan.value.externalDivision == 0)
    ensures scan.Ok? ==> CountWeights(cached, scan).1 == scan.value
    ensures scan.Err? ==> CountWeights(cached, scan).1 == cached
  {
  }

  /**
   * The check that divisions are not modelled both ways is made only while the
   * counts are not cached: when detections need weights, the call after the one
   * that threw returns a total.
   */
  lemma DivisionConflictReportedOnce()
    ensures CountWeights(WeightCounts(0, 0, 0, 0, 0, 0), Ok(WeightCounts(0, 1, 1, 0, 0, 1))).0.Err?
    ensures CountWeights(CountWeights(WeightCounts(0, 0, 0, 0, 0, 0), Ok(WeightCounts(0, 1, 1, 0, 0, 1))).1,
                         Ok(WeightCounts(0, 1, 1, 0, 0, 1))).0 == Ok(3)
  {
  }

  /** The weight vector of n zeros that learning starts from when no weights are given. */
  function Zeros(n: nat): (z: seq<real>)
    ensures |z| == n && forall i :: 0 <= i < n ==> z[i] == 0.0
  {
    seq(n, _ => 0.0)
  }

  /** The number of weights of one kind. */
  function Size(c: WeightCounts, kind: Kind): nat
  {
    match kind
    case LinkKind => c.link
    case DetectionKind => c.detection
    case DivisionKind => c.division
    case AppearanceKind => c.appearance
    case DisappearanceKind => c.disappearance
    case ExternalDivisionKind => c.externalDivision
  }

  /** The first weight id of a kind's block: the sizes of all earlier blocks added up. */
  function Start(c: WeightCounts, kind: Kind): nat
  {
    match kind
    case LinkKind => 0
    case DetectionKind => c.link
    case DivisionKind => c.link + c.detection
    case AppearanceKind => c.link + c.detection + c.division
    case DisappearanceKind => c.link + c.detection + c.division + c.appearance
    case ExternalDivisionKind => c.link + c.detection + c.division + c.appearance + c.disappearance
  }

  /** The ids start, start + 1, ..., start + n - 1. */
  function Range(start: nat, n: nat): (r: seq<nat>)
    ensures |r| == n
    ensures forall k :: 0 <= k < n ==> r[k] == start + k
  {
    seq(n, k requires 0 <= k < n => start + k)
  }

  /** The weight ids handed to the variables of one kind. */
  function Block(c: WeightCounts, kind: Kind): seq<nat>
  {
    Range(Start(c, kind), Size(c, kind))
  }

  lemma RangeSplit(start: nat, m: nat, n: nat)
    ensures Range(start, m) + Range(start + m, n) == Range(start, m + n)
  {
  }

  /**
   * The blocks, in kind order, are contiguous and together are exactly the ids
   * 0 .. Total - 1; so they are disjoint and every weight belongs to one kind.
   */
  lemma BlocksPartition(c: WeightCounts)
    ensures Block(c, LinkKind) + Block(c, DetectionKind) + Block(c, DivisionKind) + Block(c, AppearanceKind) +
            Block(c, DisappearanceKind) + Block(c, ExternalDivisionKind) == Range(0, Total(c))
  {
    var s1 := c.link;
    var s2 := s1 + c.detection;
    var s3 := s2 + c.division;
    var s4 := s3 + c.appearance;
    var s5 := s4 + c.disappearance;
    RangeSplit(0, s1, c.detection);
    RangeSplit(0, s2, c.division);
    RangeSplit(0, s3, c.appearance);
    RangeSplit(0, s4, c.disappearance);
    RangeSplit(0, s5, c.externalDivision);
  }

  /** Blocks of different kinds share no id, and each lies below the total. */
  lemma BlocksDisjoint(c: WeightCounts, a: Kind, b: Kind, i: nat, j: nat)
    requires i < Size(c, a) && j < Size(c, b) && a != b
    ensures Block(c, a)[i] != Block(c, b)[j]
    ensures Block(c, a)[i] < Total(c)
  {
  }

  /** The name of a kind in weight descriptions. */
  function Name(kind: Kind): string
  {
    match kind
    case LinkKind => "Link"
    case DetectionKind => "Detection"
    case DivisionKind => "Division"
    case AppearanceKind => "Appearance"
    case DisappearanceKind => "Disappearance"
    case ExternalDivisionKind => "External Division"
  }

  function Digit(d: nat): char
    requires d < 10
  {
    "0123456789"[d]
  }

  /** The decimal notation of a number. */
  function NatToString(n: nat): (s: string)
    ensures |s| > 0
  {
    if n < 10 then [Digit(n)] else NatToString(n / 10) + [Digit(n % 10)]
  }

  /** The description of feature f of a kind. */
  function Description(name: string, f: nat): string
  {
    name + " - feature " + NatToString(f)
  }

  /** One description per weight of a kind, by feature number. */
  function KindDescriptions(name: string, n: nat): (r: seq<string>)
    ensures |r| == n
    ensures forall f :: 0 <= f < n ==> r[f] == Description(name, f)
  {
    seq(n, f requires 0 <= f < n => Description(name, f))
  }

  /** The descriptions of all weights, kind by kind in block order. */
  function Descriptions(c: WeightCounts): (r: seq<string>)
    ensures |r| == Total(c)
  {
    KindDescriptions(Name(LinkKind), c.link) + KindDescriptions(Name(DetectionKind), c.detection) +
    KindDescriptions(Name(DivisionKind), c.division) + KindDescriptions(Name(AppearanceKind), c.appearance) +
    KindDescriptions(Name(DisappearanceKind), c.disappearance) +
    KindDescriptions(Name(ExternalDivisionKind), c.externalDivision)
  }

  /** Appends the descriptions of a kind's n weights, feature by feature. */
  method AppendDescriptions(descs: seq<string>, n: nat, name: string) returns (r: seq<string>)
    ensures r == descs + KindDescriptions(name, n)
  {
    r := descs;
    for f := 0 to n
      invariant r == descs + KindDescriptions(name, f)
    {
      r := r + [Description(name, f)];
      assert KindDescriptions(name, f + 1) == KindDescriptions(name, f) + [Description(name, f)];
    }
  }

  /** The descriptions of all weights, appended kind by kind in block order. */
  method DescribeAll(c: WeightCounts) returns (r: seq<string>)
    ensures r == Descriptions(c)
  {
    r := AppendDescriptions([], c.link, Name(LinkKind));
    assert r == KindDescriptions(Name(LinkKind), c.link);
    r := AppendDescriptions(r, c.detection, Name(DetectionKind));
    r := AppendDescriptions(r, c.division, Name(DivisionKind));
    r := AppendDescriptions(r, c.appearance, Name(AppearanceKind));
    r := AppendDescriptions(r, c.disappearance, Name(DisappearanceKind));
    r := AppendDescriptions(r, c.externalDivision, Name(ExternalDivisionKind));
  }

  /**
   * The descriptions follow the id layout: the weight with id Start(kind) + f is
   * described as feature f of that kind.
   */
  lemma DescriptionsLayout(c: WeightCounts, kind: Kind, f: nat)
    requires f < Size(c, kind)
    ensures Start(c, kind) + f < |Descriptions(c)|
    ensures Descriptions(c)[Start(c, kind) + f] == Description(Name(kind), f)
  {
    var parts := [KindDescriptions(Name(LinkKind), c.link), KindDescriptions(Name(DetectionKind), c.detection),
                  KindDescriptions(Name(DivisionKind), c.division), KindDescriptions(Name(AppearanceKind), c.appearance),
                  KindDescriptions(Name(DisappearanceKind), c.disappearance),
                  KindDescriptions(Name(ExternalDivisionKind), c.externalDivision)];
    assert Descriptions(c) == parts[0] + parts[1] + parts[2] + parts[3] + parts[4] + parts[5];
  }
}
