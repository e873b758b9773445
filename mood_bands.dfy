/**
 * The mood band classifier: a colonist's current mood level is compared with
 * five cut-points, three of them offset from the colonist's own mental break
 * threshold, and the first cut-point the level does not exceed picks one of
 * six colour bands. A level equal to a cut-point belongs to the lower band.
 */
module MoodBands {

  /** The six bands, from the worst mood to the best. */
  datatype Band = Extreme | Major | Minor | Neutral | Content | Happy

  /** Margins above the break threshold for the major and minor bands. */
  const MajorMargin: real := 0.15
  const MinorMargin: real := 0.3

  /** Fixed upper limits of the neutral and content bands. */
  const NeutralCeiling: real := 0.65
  const ContentCeiling: real := 0.9

  /** Position of a band in the scale, 0 (Extreme) to 5 (Happy). */
  function Rank(b: Band): (k: nat)
    ensures k < 6
  {
    match b
    case Extreme => 0
    case Major => 1
    case Minor => 2
    case Neutral => 3
    case Content => 4
    case Happy => 5
  }

  /** The upper limits of the first five bands, in the order they are tested. */
  function Cuts(threshold: real): (c: seq<real>)
    ensures |c| == 5
  {
    [threshold, threshold + MajorMargin, threshold + MinorMargin, NeutralCeiling, ContentCeiling]
  }

  /**
   * `k` is the index of the first cut-point that `level` does not exceed
   * (5 when it exceeds them all).
   */
  ghost predicate FirstCutAt(level: real, threshold: real, k: nat)
  {
    && k <= 5
    && (k < 5 ==> level <= Cuts(threshold)[k])
    && forall j :: 0 <= j < k ==> Cuts(threshold)[j] < level
  }

  /**
   * The band of a mood level for a colonist whose mental break threshold is
   * `threshold`; no input is refused.
   */
  function Classify(level: real, threshold: real): (b: Band)
    ensures FirstCutAt(level, threshold, Rank(b))
  {
    if level <= threshold then Extreme
    else if level <= threshold + MajorMargin then Major
    else if level <= threshold + MinorMargin then Minor
    else if level <= NeutralCeiling then Neutral
    else if level <= ContentCeiling then Content
    else Happy
  }

  /** Band membership as intervals, meaningful when the cut-points are in increasing order. */
  ghost predicate InBand(b: Band, level: real, threshold: real)
  {
    match b
    case Extreme => level <= threshold
    case Major => threshold < level <= threshold + MajorMargin
    case Minor => threshold + MajorMargin < level <= threshold + MinorMargin
    case Neutral => threshold + MinorMargin < level <= NeutralCeiling
    case Content => NeutralCeiling < level <= ContentCeiling
    case Happy => ContentCeiling < level
  }

  /** The first-cut characterisation picks exactly one band: `Classify` is the only band it admits. */
  lemma ClassifyIsFirstCut(level: real, threshold: real, b: Band)
    ensures Classify(level, threshold) == b <==> FirstCutAt(level, threshold, Rank(b))
  {
  }

  /**
   * While the cut-points increase (the break threshold is at most 0.35), the
   * six intervals partition the reals and `Classify` picks the one holding the level.
   */
  lemma ClassifyMatchesIntervals(level: real, threshold: real, b: Band)
    requires threshold + MinorMargin <= NeutralCeiling
    ensures Classify(level, threshold) == b <==> InBand(b, level, threshold)
  {
  }

  /** A level equal to a cut-point gets the lower band; anything above 0.9 is happy. */
  lemma CutPointsBelongToLowerBand(threshold: real, level: real)
    ensures Classify(threshold, threshold) == Extreme
    ensures Classify(threshold + MajorMargin, threshold) == Major
    ensures Classify(threshold + MinorMargin, threshold) == Minor
    ensures threshold + MinorMargin < NeutralCeiling ==> Classify(NeutralCeiling, threshold) == Neutral
    ensures threshold + MinorMargin < ContentCeiling ==> Classify(ContentCeiling, threshold) == Content
    ensures level > ContentCeiling && level > threshold + MinorMargin ==> Classify(level, threshold) == Happy
  {
  }

  /** For a fixed break threshold the band never gets worse as the mood level rises. */
  lemma ClassifyMonotone(low: real, high: real, threshold: real)
    requires low <= high
    ensures Rank(Classify(low, threshold)) <= Rank(Classify(high, threshold))
  {
  }

  /**
   * The neutral band is empty for a break threshold of 0.35 or more: the minor
   * band's upper limit then reaches the neutral ceiling.
   */
  lemma NeutralNeedsLowThreshold(level: real, threshold: real)
    requires Classify(level, threshold) == Neutral
    ensures threshold < NeutralCeiling - MinorMargin
    ensures threshold + MinorMargin < level <= NeutralCeiling
  {
  }

}
