/** The circular score gauge: its colours by score band and its geometry by size. */
module RiskScore {

  import opened MockData

  const Red: string := "#DC2626"
  const Amber: string := "#F59E0B"
  const Blue: string := "#3B82F6"
  const RedTint: string := "#FEE2E2"
  const AmberTint: string := "#FEF3C7"
  const BlueTint: string := "#DBEAFE"

  /** `getColor`: the stroke and text colour of the gauge. */
  function Color(score: real): (c: string)
    ensures c == Red <==> score >= 0.7
    ensures c == Amber <==> 0.4 <= score < 0.7
    ensures c == Blue <==> score < 0.4
  {
    if score >= 0.7 then Red else if score >= 0.4 then Amber else Blue
  }

  /** `getBgColor`: the fill colour of the gauge. */
  function BgColor(score: real): (c: string)
    ensures c == RedTint <==> score >= 0.7
    ensures c == AmberTint <==> 0.4 <= score < 0.7
    ensures c == BlueTint <==> score < 0.4
  {
    if score >= 0.7 then RedTint else if score >= 0.4 then AmberTint else BlueTint
  }

  /** The colour pair each bucket is drawn in. */
  function Tones(b: Bucket): (string, string)
  {
    match b
    case High => (Red, RedTint)
    case Medium => (Amber, AmberTint)
    case Low => (Blue, BlueTint)
  }

  /** Foreground and background always name the same band, and that band is
      the one the intervention table uses: a red gauge is shown exactly for
      customers who get three recommendations, amber for two, blue for one. */
  lemma ColorsFollowRecommendationBand(c: Customer)
    ensures (Color(c.riskScore), BgColor(c.riskScore)) == Tones(ScoreBucket(c.riskScore))
    ensures Color(c.riskScore) == Red <==> |InterventionRecommendations(c)| == 3
    ensures Color(c.riskScore) == Amber <==> |InterventionRecommendations(c)| == 2
    ensures Color(c.riskScore) == Blue <==> |InterventionRecommendations(c)| == 1
  {
    RecommendationCount(c, c);
  }

  /** How alarming a colour is: blue, amber, red. */
  function Severity(color: string): nat
  {
    if color == Red then 2 else if color == Amber then 1 else 0
  }

  /** A higher score never gets a less alarming colour. */
  lemma ColorMonotone(s: real, t: real)
    requires s <= t
    ensures Severity(Color(s)) <= Severity(Color(t))
  {
  }

  datatype Size = Sm | Md | Lg

  /** `sizes`: the side of the square and the stroke width, in pixels. */
  function Container(size: Size): int
  {
    match size case Sm => 60 case Md => 100 case Lg => 140
  }

  function Stroke(size: Size): int
  {
    match size case Sm => 6 case Md => 8 case Lg => 10
  }

  /** `radius`: half of what the stroke leaves of the container; the halving is
      exact for every size, and the circle fits inside the square. */
  function Radius(size: Size): (r: int)
    ensures 2 * r == Container(size) - Stroke(size)
    ensures 0 < r && 2 * r + Stroke(size) <= Container(size)
  {
    (Container(size) - Stroke(size)) / 2
  }

  lemma RadiusValues()
    ensures Radius(Sm) == 27 && Radius(Md) == 46 && Radius(Lg) == 65
  {
  }
}
