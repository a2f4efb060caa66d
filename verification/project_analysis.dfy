/** The analysis screen: an overall score and per-pillar scores coloured by
    three bands, pillar bars as wide as their score, and numbered
    recommendations. Scores are JavaScript numbers, kept here as reals. */
module ProjectAnalysis {
  import opened Wrappers

  datatype Pillar = Pillar(name: string, score: real, feedback: string)

  /** The stored analysis. The lists are optional because the project
      details screen reads them with `?.length`. */
  datatype Analysis = Analysis(score: real, pillars: Option<seq<Pillar>>, advantages: Option<seq<string>>,
                               disadvantages: Option<seq<string>>, features: Option<seq<string>>,
                               recommendations: Option<seq<string>>)

  /** The three score bands. */
  datatype Band = Good | Fair | Poor

  /** The band of a score: at least 80, at least 60, or below. */
  function BandOf(score: real): Band
  {
    if score >= 80.0 then Good else if score >= 60.0 then Fair else Poor
  }

  /** Band rank, higher is better. */
  function Rank(b: Band): nat
  {
    match b
    case Good => 2
    case Fair => 1
    case Poor => 0
  }

  /** The band is monotone: a higher score never falls into a worse band. */
  lemma BandMonotone(a: real, b: real)
    requires a <= b
    ensures Rank(BandOf(a)) <= Rank(BandOf(b))
  {
  }

  /** The text colour of a score. */
  function ScoreColor(score: real): (c: string)
    ensures c == "text-accent-green" <==> score >= 80.0
    ensures c == "text-accent-yellow" <==> 60.0 <= score < 80.0
    ensures c == "text-red-400" <==> score < 60.0
  {
    if score >= 80.0 then "text-accent-green"
    else if score >= 60.0 then "text-accent-yellow"
    else "text-red-400"
  }

  /** The background and border of the overall score circle. */
  function ScoreBgColor(score: real): (c: string)
    ensures c == "bg-accent-green/10 border-accent-green" <==> score >= 80.0
    ensures c == "bg-accent-yellow/10 border-accent-yellow" <==> 60.0 <= score < 80.0
    ensures c == "bg-red-400/10 border-red-400" <==> score < 60.0
  {
    if score >= 80.0 then "bg-accent-green/10 border-accent-green"
    else if score >= 60.0 then "bg-accent-yellow/10 border-accent-yellow"
    else "bg-red-400/10 border-red-400"
  }

  /** The text colour names the score's band. */
  function ColorBand(c: string): Option<Band>
  {
    match c
    case "text-accent-green" => Some(Good)
    case "text-accent-yellow" => Some(Fair)
    case "text-red-400" => Some(Poor)
    case _ => None
  }

  /** The background names the score's band. */
  function BgBand(c: string): Option<Band>
  {
    match c
    case "bg-accent-green/10 border-accent-green" => Some(Good)
    case "bg-accent-yellow/10 border-accent-yellow" => Some(Fair)
    case "bg-red-400/10 border-red-400" => Some(Poor)
    case _ => None
  }

  /** Text and background always show the same band, the score's own. */
  lemma ColorsAgree(score: real)
    ensures ColorBand(ScoreColor(score)) == Some(BandOf(score))
    ensures BgBand(ScoreBgColor(score)) == Some(BandOf(score))
  {
  }

  /** A pillar row: the colour of its score text and of its bar, and the
      bar's width in percent. */
  datatype PillarView = PillarView(scoreColor: string, barColor: string, widthPercent: real)

  /** The bar colour, a third ternary over the same thresholds. */
  function BarColor(score: real): (c: string)
    ensures c == "bg-accent-green" <==> score >= 80.0
    ensures c == "bg-accent-yellow" <==> 60.0 <= score < 80.0
    ensures c == "bg-red-400" <==> score < 60.0
  {
    if score >= 80.0 then "bg-accent-green" else if score >= 60.0 then "bg-accent-yellow" else "bg-red-400"
  }

  function BarBand(c: string): Option<Band>
  {
    match c
    case "bg-accent-green" => Some(Good)
    case "bg-accent-yellow" => Some(Fair)
    case "bg-red-400" => Some(Poor)
    case _ => None
  }

  /** One row per pillar: the bar shows the same band as the score text and
      is as wide as the raw score, with no clamping to 0..100. */
  function PillarRows(pillars: seq<Pillar>): (r: seq<PillarView>)
    ensures |r| == |pillars|
    ensures forall i :: 0 <= i < |r| ==>
      BarBand(r[i].barColor) == ColorBand(r[i].scoreColor) == Some(BandOf(pillars[i].score))
      && r[i].widthPercent == pillars[i].score
  {
    seq(|pillars|, (i: int) requires 0 <= i < |pillars| =>
      PillarView(ScoreColor(pillars[i].score), BarColor(pillars[i].score), pillars[i].score))
  }

  /** A score above 100 gives a bar wider than its track. */
  lemma BarNotClamped(p: Pillar)
    requires p.score > 100.0
    ensures PillarRows([p])[0].widthPercent > 100.0
  {
  }

  /** Recommendations with their badge numbers. */
  function NumberedRecommendations(recs: seq<string>): (r: seq<(nat, string)>)
    ensures |r| == |recs|
    ensures forall i :: 0 <= i < |r| ==> r[i].1 == recs[i]
    ensures |r| > 0 ==> r[0].0 == 1
    ensures forall i :: 0 <= i < |r| - 1 ==> r[i + 1].0 == r[i].0 + 1
  {
    seq(|recs|, (i: int) requires 0 <= i < |recs| => (i + 1, recs[i]))
  }

  /** The numbers run 1..n without gaps, so the last one is the count. */
  lemma LastNumberIsCount(recs: seq<string>)
    requires |recs| > 0
    ensures NumberedRecommendations(recs)[|recs| - 1].0 == |recs|
  {
  }
}
