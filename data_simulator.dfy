/**
 * `DataSimulator` (lib/brain/DataSimulator.ts): simulated trends. The genre
 * picks one of four topic template lists by substring; each template becomes a
 * trend with random volume, growth, engagement and competition and a raw score
 * of 0.4 volume + 0.1 growth. The smart generator does the same for eight
 * topics built around a search query. The `Math.random()` values and the
 * clock are inputs; the simulated network delay is not modelled.
 */
module DataSimulator {
  import opened Text
  import opened Types

  /** The keys of `TOPIC_TEMPLATES`. */
  datatype Genre = Tech | Finance | Fitness | Default

  const TechTemplates: seq<string> := [
    "AI Agents vs Humans", "The End of Coding?", "Nvidia's New Chip", "iPhone 17 Leaks",
    "OpenAI's Secret Model", "Web3 is Dead", "Rust vs C++", "10x Developer Myth"]
  const FinanceTemplates: seq<string> := [
    "Crypto Crash Incoming", "Passive Income 2026", "inflation Hedges", "Real Estate vs Stocks",
    "Bitcoin to 100k", "Side Hustles that Work", "Tax Loopholes", "Recession Proofing"]
  const FitnessTemplates: seq<string> := [
    "5 Min Abs Truth", "Supplements You Don't Need", "Sleep vs Gains", "Carnivore Diet Results",
    "HIIT vs LISS", "Protein Myths", "Squat Depth", "Recovery Hacks"]
  /** The placeholder the default templates carry for the genre. */
  const NicheMarker: string := "[Niche]"

  const DefaultTemplates: seq<string> := [
    "The Truth About " + NicheMarker, "Stop Doing This in 2026", "Top 5 " + NicheMarker + " Tools",
    "How to Master " + NicheMarker, NicheMarker + " Mistakes to Avoid", "Why " + NicheMarker + " is Hard"]

  function Templates(g: Genre): (r: seq<string>)
    ensures g == Default ==> |r| == 6
    ensures g != Default ==> |r| == 8
  {
    match g
    case Tech => TechTemplates
    case Finance => FinanceTemplates
    case Fitness => FitnessTemplates
    case Default => DefaultTemplates
  }

  predicate IsTech(genre: string) {
    Contains(genre, "tech") || Contains(genre, "code") || Contains(genre, "ai")
  }

  predicate IsFinance(genre: string) {
    Contains(genre, "money") || Contains(genre, "finance") || Contains(genre, "invest")
  }

  predicate IsFitness(genre: string) {
    Contains(genre, "gym") || Contains(genre, "fit") || Contains(genre, "health")
  }

  /** `getTemplates`: the first matching group wins, in the order tech, finance, fitness. */
  function GenreOf(genre: string): (g: Genre)
    ensures g == Tech <==> IsTech(genre)
    ensures g == Finance <==> !IsTech(genre) && IsFinance(genre)
    ensures g == Fitness <==> !IsTech(genre) && !IsFinance(genre) && IsFitness(genre)
    ensures g == Default <==> !IsTech(genre) && !IsFinance(genre) && !IsFitness(genre)
  {
    if IsTech(genre) then Tech
    else if IsFinance(genre) then Finance
    else if IsFitness(genre) then Fitness
    else Default
  }

  /** The `Math.random()` values one generated trend draws, in the order the code draws them. */
  datatype TrendDraws = TrendDraws(
    volume: Draw,
    growth: Draw,
    idSuffix: string,
    source: Draw,
    engagement: Draw,
    competition: Draw)

  /** `Math.floor(r * n)`: an integer in [0, n). */
  function Scaled(r: Draw, n: nat): (k: int)
    requires n > 0
    ensures 0 <= k < n
  {
    DrawTimesBelow(r, n as real);
    (r * (n as real)).Floor
  }

  /** A draw in [0, 1) times a positive bound lies in [0, bound). */
  lemma DrawTimesBelow(r: Draw, m: real)
    requires m > 0.0
    ensures 0.0 <= r * m < m
  {
    var d := 1.0 - r;
    assert 0.0 < d;
    assert m - r * m == d * m;
    assert 0.0 < d * m;
  }

  /** `(volume * 0.4) + (growth * 0.1)`. */
  function RawScore(volume: int, growth: int): real {
    (volume as real) * 0.4 + (growth as real) * 0.1
  }

  /** The id prefix of every simulated trend. */
  const TrendIdPrefix: string := "trend_"

  /**
   * One simulated trend. Volume is `Math.floor(r * volumeSpan) + volumeBase`:
   * span 100 and base 0 in `fetchTrends`, span 90 and base 10 in `generateSmartTrends`.
   */
  function SimulatedTrend(topic: string, d: TrendDraws, volumeSpan: nat, volumeBase: nat, now: string): (t: TrendItem)
    requires volumeSpan > 0
    ensures t.topic == topic && t.timestamp == now
    ensures t.id == TrendIdPrefix + d.idSuffix
    ensures volumeBase as real <= t.volume < (volumeBase + volumeSpan) as real && t.volume == t.volume.Floor as real
    ensures -50.0 <= t.growthRate <= 449.0 && t.growthRate == t.growthRate.Floor as real
    ensures t.trendScore == 0.4 * t.volume + 0.1 * t.growthRate
    ensures t.source == Twitter <==> d.source > 0.5
    ensures t.source == Twitter || t.source == GoogleTrends
    ensures 0.0 <= t.engagementVelocity <= 49.0 && 0.0 <= t.competitionDensity <= 99.0
  {
    var volume := Scaled(d.volume, volumeSpan) + volumeBase;
    var growth := Scaled(d.growth, 500) - 50;
    TrendItem(
      TrendIdPrefix + d.idSuffix,
      topic,
      if d.source > 0.5 then Twitter else GoogleTrends,
      volume as real,
      growth as real,
      Scaled(d.engagement, 50) as real,
      Scaled(d.competition, 100) as real,
      RawScore(volume, growth),
      now)
  }

  /** The topic a template gives: its first "[Niche]" replaced by the genre as the user typed it. */
  function Topic(template: string, genre: string): (r: string)
    ensures !Contains(template, NicheMarker) ==> r == template
    ensures Contains(template, NicheMarker) ==> Contains(r, genre) && |r| == |template| - |NicheMarker| + |genre|
  {
    var r := ReplaceFirst(template, NicheMarker, genre);
    if IndexOf(template, NicheMarker).Some? then
      var i := IndexOf(template, NicheMarker).value;
      ContainsMiddle(template[..i], genre, template[i + |NicheMarker|..]);
      r
    else r
  }

  /**
   * `fetchTrends`: the templates are chosen by the lower-cased genre, and each
   * becomes one trend; `draws(i)` are the random values drawn for the i-th.
   */
  function FetchTrends(config: GrowthConfig, draws: nat -> TrendDraws, now: string): (r: seq<TrendItem>)
    ensures var templates := Templates(GenreOf(Lower(config.initialGenre)));
      && |r| == |templates|
      && forall i :: 0 <= i < |r| ==> r[i] == SimulatedTrend(Topic(templates[i], config.initialGenre), draws(i), 100, 0, now)
  {
    var templates := Templates(GenreOf(Lower(config.initialGenre)));
    seq(|templates|, i requires 0 <= i < |templates| =>
      SimulatedTrend(Topic(templates[i], config.initialGenre), draws(i), 100, 0, now))
  }

  /** The eight topics of `generateSmartTrends`. */
  function SmartTopics(query: string): (r: seq<string>)
    ensures |r| == 8
    ensures forall i :: 0 <= i < |r| ==> |r[i]| > |query|
  {
    ["Why " + query + " is broken",
     "The future of " + query + " in 2026",
     "Stop doing this in " + query,
     "Top 5 " + query + " tools",
     "How to master " + query + " fast",
     query + " vs Competitors",
     "Hidden " + query + " features",
     "Is " + query + " dead?"]
  }

  /** `generateSmartTrends`: one trend per topic, volume between 10 and 99. */
  function GenerateSmartTrends(query: string, draws: nat -> TrendDraws, now: string): (r: seq<TrendItem>)
    ensures |r| == 8
    ensures forall i :: 0 <= i < 8 ==> r[i] == SimulatedTrend(SmartTopics(query)[i], draws(i), 90, 10, now)
  {
    var topics := SmartTopics(query);
    seq(|topics|, i requires 0 <= i < |topics| => SimulatedTrend(topics[i], draws(i), 90, 10, now))
  }

  // ---------------------------------------------------------------------------
  // Properties

  /** One trend per template: eight for tech, finance and fitness, six otherwise. */
  lemma TrendCount(config: GrowthConfig, draws: nat -> TrendDraws, now: string)
    ensures GenreOf(Lower(config.initialGenre)) == Default ==> |FetchTrends(config, draws, now)| == 6
    ensures GenreOf(Lower(config.initialGenre)) != Default ==> |FetchTrends(config, draws, now)| == 8
  {
  }

  /** Matching ignores case: "Daily Vlogs" is a tech genre, because "daily" contains "ai". */
  lemma DailyIsTech()
    ensures GenreOf(Lower("Daily Vlogs")) == Tech
  {
    assert Lower("Daily Vlogs") == "daily vlogs";
    assert OccursAt("daily vlogs", "ai", 1);
  }

  /** A genre naming both a tech and a finance word is tech: the tech test comes first. */
  lemma TechBeforeFinance()
    ensures GenreOf("ai money") == Tech
  {
    assert OccursAt("ai money", "ai", 0);
  }

  /** No template of the three named genres has the marker, so their topics are the templates unchanged. */
  lemma NamedTopicsVerbatim(g: Genre, genre: string, i: nat)
    requires g != Default && i < |Templates(g)|
    ensures Topic(Templates(g)[i], genre) == Templates(g)[i]
  {
    var s := Templates(g)[i];
    match g {
      case Tech => NoBracketTech(i);
      case Finance => NoBracketFinance(i);
      case Fitness => NoBracketFitness(i);
    }
    NoOccurrence(s, NicheMarker);
  }

  lemma NoBracketTech(i: nat)
    requires i < |TechTemplates|
    ensures forall j :: 0 <= j < |TechTemplates[i]| ==> TechTemplates[i][j] != '['
  {
  }

  lemma NoBracketFinance(i: nat)
    requires i < |FinanceTemplates|
    ensures forall j :: 0 <= j < |FinanceTemplates[i]| ==> FinanceTemplates[i][j] != '['
  {
  }

  lemma NoBracketFitness(i: nat)
    requires i < |FitnessTemplates|
    ensures forall j :: 0 <= j < |FitnessTemplates[i]| ==> FitnessTemplates[i][j] != '['
  {
  }

  /** Replacing the marker in a template that has it once, with no '[' before it. */
  lemma ReplaceMarker(pre: string, post: string, genre: string)
    requires forall j :: 0 <= j < |pre| ==> pre[j] != '['
    ensures Topic(pre + NicheMarker + post, genre) == pre + genre + post
  {
    FirstOccurrence(pre, NicheMarker, post);
    var s := pre + NicheMarker + post;
    assert s[..|pre|] == pre;
    assert s[|pre| + |NicheMarker|..] == post;
  }

  /**
   * The default topics put the genre, in its original case, where the marker
   * was; "Stop Doing This in 2026" has no marker and stays as it is.
   */
  lemma DefaultTopicTruth(genre: string)
    ensures Topic(DefaultTemplates[0], genre) == "The Truth About " + genre
  {
    DefaultPrefixesPlain();
    ReplaceMarker("The Truth About ", "", genre);
    assert DefaultTemplates[0] == "The Truth About " + NicheMarker + "";
  }

  lemma DefaultTopicStop(genre: string)
    ensures Topic(DefaultTemplates[1], genre) == "Stop Doing This in 2026"
  {
    DefaultPrefixesPlain();
    NoOccurrence(DefaultTemplates[1], NicheMarker);
  }

  lemma DefaultTopicTools(genre: string)
    ensures Topic(DefaultTemplates[2], genre) == "Top 5 " + genre + " Tools"
  {
    DefaultPrefixesPlain();
    ReplaceMarker("Top 5 ", " Tools", genre);
  }

  lemma DefaultTopicMaster(genre: string)
    ensures Topic(DefaultTemplates[3], genre) == "How to Master " + genre
  {
    DefaultPrefixesPlain();
    ReplaceMarker("How to Master ", "", genre);
    assert DefaultTemplates[3] == "How to Master " + NicheMarker + "";
  }

  lemma DefaultTopicMistakes(genre: string)
    ensures Topic(DefaultTemplates[4], genre) == genre + " Mistakes to Avoid"
  {
    DefaultPrefixesPlain();
    ReplaceMarker("", " Mistakes to Avoid", genre);
    assert DefaultTemplates[4] == "" + NicheMarker + " Mistakes to Avoid";
  }

  lemma DefaultTopicHard(genre: string)
    ensures Topic(DefaultTemplates[5], genre) == "Why " + genre + " is Hard"
  {
    DefaultPrefixesPlain();
    ReplaceMarker("Why ", " is Hard", genre);
  }

  lemma DefaultPrefixesPlain()
    ensures '[' !in "The Truth About " && '[' !in "Top 5 " && '[' !in "How to Master " && '[' !in "" && '[' !in "Why "
    ensures '[' !in DefaultTemplates[1]
  {
  }

  /** Every smart topic embeds the query. */
  lemma SmartTopicsEmbedQuery(query: string, draws: nat -> TrendDraws, now: string, i: nat)
    requires i < 8
    ensures Contains(GenerateSmartTrends(query, draws, now)[i].topic, query)
  {
    var topics := SmartTopics(query);
    var pre := ["Why ", "The future of ", "Stop doing this in ", "Top 5 ", "How to master ", "", "Hidden ", "Is "];
    var post := [" is broken", " in 2026", "", " tools", " fast", " vs Competitors", " features", " dead?"];
    assert topics[i] == pre[i] + query + post[i];
    ContainsMiddle(pre[i], query, post[i]);
  }
}
