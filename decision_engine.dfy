/**
 * `DecisionEngine.analyzeAndSelect` (lib/brain/DecisionEngine.js): every trend
 * is scored by volume, growth and engagement over competition, halved when the
 * configuration is low-risk and the competition dense; the scored trends are
 * sorted by non-increasing score, the first three are reported, and the first
 * one is the winner.
 */
module DecisionEngine {
  import opened Wrappers
  import opened Collections
  import opened Sorting
  import opened Types

  /** Above this competition density a trend is risky for a low-risk profile. */
  const RiskyDensity: real := 70.0
  /** Above this score a report line reads 'HIGH POTENTIAL'. */
  const HighPotentialScore: real := 1000.0
  /** How many of the ranked trends are reported. */
  const ReportLimit: nat := 3

  /** `t.competition_density || 1`: a density of 0 is falsy. */
  function SafeCompetition(t: TrendItem): (r: real)
    ensures r != 0.0
    ensures t.competitionDensity != 0.0 ==> r == t.competitionDensity
    ensures t.competitionDensity == 0.0 ==> r == 1.0
  {
    if t.competitionDensity == 0.0 then 1.0 else t.competitionDensity
  }

  /** `(volume * growth_rate * (engagement_velocity + 1)) / (safeCompetition * 1.5)`. */
  function RawScore(t: TrendItem): (r: real)
    ensures r * (SafeCompetition(t) * 1.5) == t.volume * t.growthRate * (t.engagementVelocity + 1.0)
  {
    (t.volume * t.growthRate * (t.engagementVelocity + 1.0)) / (SafeCompetition(t) * 1.5)
  }

  predicate IsRisky(t: TrendItem, config: GrowthConfig) {
    config.riskProfile == Low && t.competitionDensity > RiskyDensity
  }

  /** The raw score, halved for a risky trend. */
  function FinalScore(t: TrendItem, config: GrowthConfig): (r: real)
    ensures IsRisky(t, config) ==> 2.0 * r == RawScore(t)
    ensures !IsRisky(t, config) ==> r == RawScore(t)
  {
    if IsRisky(t, config) then RawScore(t) * 0.5 else RawScore(t)
  }

  /** `{ ...t, trend_score: finalScore }`: only the score changes. */
  function Score(config: GrowthConfig): TrendItem -> TrendItem {
    (t: TrendItem) => t.(trendScore := FinalScore(t, config))
  }

  function TrendScore(t: TrendItem): real {
    t.trendScore
  }

  /** The scored trends after `scoredTrends.sort((a, b) => b.trend_score - a.trend_score)`. */
  function Ranked(trends: seq<TrendItem>, config: GrowthConfig): (r: seq<TrendItem>)
    ensures |r| == |trends|
    ensures SortedDesc(r, TrendScore)
    ensures multiset(r) == multiset(Map(Score(config), trends))
  {
    SortDesc(Map(Score(config), trends), TrendScore)
  }

  datatype Potential = HighPotential | Moderate

  function PotentialOf(score: real): (p: Potential)
    ensures p == HighPotential <==> score > HighPotentialScore
  {
    if score > HighPotentialScore then HighPotential else Moderate
  }

  /**
   * A report line: `Analyzed "<topic>": Score <score> - <potential>` or
   * `WINNER SELECTED: "<topic>" (Score: <score>)`, with the exact score.
   */
  datatype ReportLine =
    | Analyzed(topic: string, score: real, potential: Potential)
    | WinnerSelected(topic: string, score: real)

  function AnalyzedLine(t: TrendItem): ReportLine {
    Analyzed(t.topic, t.trendScore, PotentialOf(t.trendScore))
  }

  /** `{ winner, report }`. */
  datatype Selection = Selection(winner: TrendItem, report: seq<ReportLine>)

  /** The report of a ranked list: its first three trends analysed, then the winner. */
  function Report(ranked: seq<TrendItem>): (report: seq<ReportLine>)
    requires |ranked| > 0
    ensures var n := if |ranked| < ReportLimit then |ranked| else ReportLimit;
      && |report| == n + 1
      && (forall k :: 0 <= k < n ==> report[k] == Analyzed(ranked[k].topic, ranked[k].trendScore, PotentialOf(ranked[k].trendScore)))
      && report[n] == WinnerSelected(ranked[0].topic, ranked[0].trendScore)
  {
    Map(AnalyzedLine, Take(ranked, ReportLimit)) + [WinnerSelected(ranked[0].topic, ranked[0].trendScore)]
  }

  /**
   * `analyzeAndSelect`: the winner is the first ranked trend, and the report as
   * above. With no trends `scoredTrends[0]` is undefined and reading its topic throws.
   */
  method AnalyzeAndSelect(trends: seq<TrendItem>, config: GrowthConfig) returns (r: Try<Selection>)
    ensures r.Thrown? <==> |trends| == 0
    ensures r.Ok? ==> var ranked := Ranked(trends, config);
      r.value == Selection(ranked[0], Report(ranked))
  {
    var report: seq<ReportLine> := [];
    var scoredTrends := Map(Score(config), trends);
    scoredTrends := SortDesc(scoredTrends, TrendScore);
    var i := 0;
    while i < |scoredTrends|
      invariant 0 <= i <= |scoredTrends|
      invariant report == Map(AnalyzedLine, Take(scoredTrends[..i], ReportLimit))
    {
      if i < ReportLimit {
        assert Take(scoredTrends[..i + 1], ReportLimit) == Take(scoredTrends[..i], ReportLimit) + [scoredTrends[i]];
        report := report + [AnalyzedLine(scoredTrends[i])];
      } else {
        assert Take(scoredTrends[..i + 1], ReportLimit) == Take(scoredTrends[..i], ReportLimit);
      }
      i := i + 1;
    }
    assert scoredTrends[..i] == scoredTrends;
    if |scoredTrends| == 0 {
      return Thrown("Cannot read properties of undefined (reading 'topic')");
    }
    var winner := scoredTrends[0];
    report := report + [WinnerSelected(winner.topic, winner.trendScore)];
    return Ok(Selection(winner, report));
  }

  // ---------------------------------------------------------------------------
  // Properties

  /** Scoring changes the score and nothing else. */
  lemma ScoreChangesOnlyScore(t: TrendItem, config: GrowthConfig)
    ensures Score(config)(t).(trendScore := t.trendScore) == t
    ensures Score(config)(t).trendScore == FinalScore(t, config)
  {
  }

  /** Every ranked trend is one of the input trends, scored. */
  lemma RankedFromInput(trends: seq<TrendItem>, config: GrowthConfig, i: nat) returns (j: nat)
    requires i < |trends|
    ensures j < |trends| && Ranked(trends, config)[i] == Score(config)(trends[j])
  {
    var scored := Map(Score(config), trends);
    j := SortDescFrom(scored, TrendScore, i);
  }

  /**
   * The winner is the first scored trend, in input order, with the largest
   * score: no trend scores higher, and every earlier one scores lower.
   */
  lemma WinnerIsFirstBest(trends: seq<TrendItem>, config: GrowthConfig) returns (i: nat)
    requires |trends| > 0
    ensures i < |trends| && Ranked(trends, config)[0] == Score(config)(trends[i])
    ensures forall j :: 0 <= j < |trends| ==> FinalScore(trends[j], config) <= FinalScore(trends[i], config)
    ensures forall j :: 0 <= j < i ==> FinalScore(trends[j], config) < FinalScore(trends[i], config)
  {
    var scored := Map(Score(config), trends);
    i := SortDescHeadIsFirstMax(scored, TrendScore);
    forall j | 0 <= j < |trends|
      ensures FinalScore(trends[j], config) <= FinalScore(trends[i], config)
      ensures j < i ==> FinalScore(trends[j], config) < FinalScore(trends[i], config)
    {
      assert TrendScore(scored[j]) == FinalScore(trends[j], config);
    }
  }
}
