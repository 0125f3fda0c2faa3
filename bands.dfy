/**
 * The caption the results page shows under the overall score: four bands with
 * their lower bounds at 41, 61 and 81.
 */
module ScoreBands {

  datatype Band = NeedsImprovement | Fair | Good | Excellent

  /** The lowest score of each band above the first, in increasing order. */
  const Thresholds: seq<int> := [41, 61, 81]

  /** The position of a band, from 0 (lowest) to 3 (highest). */
  function Rank(b: Band): (r: nat)
    ensures r < 4
  {
    match b
    case NeedsImprovement => 0
    case Fair => 1
    case Good => 2
    case Excellent => 3
  }

  /** The number of thresholds among the first `k` that `score` reaches. */
  function Reached(score: int, k: nat): (r: nat)
    requires k <= |Thresholds|
    ensures r <= k
  {
    if k == 0 then 0
    else Reached(score, k - 1) + (if Thresholds[k - 1] <= score then 1 else 0)
  }

  /** The band of a score: the if/elif chain of the results page. Every
      integer falls in exactly one band; the chain has no range check. */
  function BandOf(score: int): (b: Band)
    ensures b == NeedsImprovement <==> score <= 40
    ensures b == Fair <==> 41 <= score <= 60
    ensures b == Good <==> 61 <= score <= 80
    ensures b == Excellent <==> 81 <= score
  {
    if score < 41 then NeedsImprovement
    else if score < 61 then Fair
    else if score < 81 then Good
    else Excellent
  }

  /** The caption shown for each band. */
  function Caption(b: Band): string {
    match b
    case NeedsImprovement => "Overall pattern needs improvement"
    case Fair => "Fair overall balance, but room to improve"
    case Good => "Good overall balance"
    case Excellent => "Excellent overall balance"
  }

  /** A band's rank is the number of thresholds its score reaches. */
  lemma BandRankCountsThresholds(score: int)
    ensures Rank(BandOf(score)) == Reached(score, |Thresholds|)
  {
    assert Reached(score, 1) == if 41 <= score then 1 else 0;
    assert Reached(score, 2) == Reached(score, 1) + if 61 <= score then 1 else 0;
  }

  /** A higher score never yields a lower band. */
  lemma BandMonotone(lo: int, hi: int)
    requires lo <= hi
    ensures Rank(BandOf(lo)) <= Rank(BandOf(hi))
  {
  }

  /** Different bands have different captions. */
  lemma CaptionsDistinct(b1: Band, b2: Band)
    requires Caption(b1) == Caption(b2)
    ensures b1 == b2
  {
  }

  /** The band edges, one score on each side of each boundary. */
  lemma BandEdges()
    ensures BandOf(0) == NeedsImprovement && BandOf(40) == NeedsImprovement
    ensures BandOf(41) == Fair && BandOf(60) == Fair
    ensures BandOf(61) == Good && BandOf(80) == Good
    ensures BandOf(81) == Excellent && BandOf(100) == Excellent
  {
  }
}
