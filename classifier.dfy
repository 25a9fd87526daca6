/** The status classifier and health score, written twice in the source (in `get_cities` and in
    `analyze_city`) with the same thresholds and ranges. */
module Classifier {
  import opened Wrappers

  datatype Status = Critical | Moderate | Healthy

  const CriticalThreshold: real := 0.6
  const ModerateThreshold: real := 0.45

  /** The label the source reports for each band. */
  function Label(s: Status): (l: string)
    ensures l in {"CRÍTICO", "MODERADO", "SALUDABLE"}
  {
    match s
    case Critical => "CRÍTICO"
    case Moderate => "MODERADO"
    case Healthy => "SALUDABLE"
  }

  /** The if/elif/else chain: above 0.6 is critical, above 0.45 up to 0.6 moderate, the rest healthy.
      The three conditions are exclusive and cover every real. */
  function Classify(blue: real): (s: Status)
    ensures s == Critical <==> blue > CriticalThreshold
    ensures s == Moderate <==> ModerateThreshold < blue <= CriticalThreshold
    ensures s == Healthy <==> blue <= ModerateThreshold
  {
    if blue > CriticalThreshold then Critical
    else if blue > ModerateThreshold then Moderate
    else Healthy
  }

  /** Inclusive score range drawn for each band. */
  function Low(s: Status): int {
    match s
    case Critical => 20
    case Moderate => 41
    case Healthy => 70
  }

  function High(s: Status): int {
    match s
    case Critical => 40
    case Moderate => 69
    case Healthy => 85
  }

  predicate InBand(score: int, s: Status) {
    Low(s) <= score <= High(s)
  }

  /** `random.randint(lo, hi)` with the random source as an arbitrary integer `seed`: the value always
      lies in [lo, hi], and every value there is drawn by some seed (see `RandIntReachesEvery`). */
  function RandInt(lo: int, hi: int, seed: int): (r: int)
    requires lo <= hi
    ensures lo <= r <= hi
  {
    lo + seed % (hi - lo + 1)
  }

  lemma RandIntReachesEvery(lo: int, hi: int, v: int)
    requires lo <= v <= hi
    ensures RandInt(lo, hi, v - lo) == v
  {
  }

  /** Status and score of one assessment. */
  datatype Assessment = Assessment(status: Status, healthScore: int)

  /** Classify, then draw the score from the band's range. */
  function Assess(blue: real, seed: int): (a: Assessment)
    ensures a.status == Classify(blue)
    ensures InBand(a.healthScore, a.status)
  {
    var s := Classify(blue);
    Assessment(s, RandInt(Low(s), High(s), seed))
  }

  /** The band a score belongs to, if any: the inverse of drawing a score for a band. */
  function BandOfScore(score: int): (r: Option<Status>)
    ensures r.Some? <==> Low(Critical) <= score <= High(Healthy)
    ensures r.Some? ==> InBand(score, r.value)
  {
    if InBand(score, Critical) then Some(Critical)
    else if InBand(score, Moderate) then Some(Moderate)
    else if InBand(score, Healthy) then Some(Healthy)
    else None
  }

  /** The ranges are disjoint, so a score names exactly one band. */
  lemma ScoreDeterminesBand(score: int, s: Status)
    requires InBand(score, s)
    ensures BandOfScore(score) == Some(s)
  {
  }

  /** Reading the band back from any drawn score gives the classified band. */
  lemma {:induction false} ScoreRecoversStatus(blue: real, seed: int)
    ensures BandOfScore(Assess(blue, seed).healthScore) == Some(Classify(blue))
  {
    ScoreDeterminesBand(Assess(blue, seed).healthScore, Classify(blue));
  }

  /** The ordinal severity of a band: 2 critical, 1 moderate, 0 healthy. */
  function Severity(s: Status): nat {
    match s
    case Critical => 2
    case Moderate => 1
    case Healthy => 0
  }

  /** A higher blue ratio never yields a milder band, and when the bands differ every score of the
      more severe band is below every score of the milder one. */
  lemma {:induction false} MoreBlueNeverScoresHigher(b1: real, b2: real, seed1: int, seed2: int)
    requires b1 <= b2
    ensures Severity(Classify(b1)) <= Severity(Classify(b2))
    ensures Classify(b1) != Classify(b2) ==> Assess(b2, seed2).healthScore < Assess(b1, seed1).healthScore
  {
  }
}
