/**
 * The application's records (lib/types/index.ts, and StrategyProfile from
 * lib/brain/StrategyAgent.ts). String-literal unions become enumerations.
 */
module Types {
  import opened Wrappers

  /** A value returned by `Math.random()`. */
  type Draw = r: real | 0.0 <= r < 1.0

  datatype AccountType = Personal | Brand | Client
  datatype Platform = YouTube | Instagram
  datatype Language = English | Hinglish | Hindi
  datatype TargetRegion = India | Usa | Global
  datatype RiskProfile = Low | Medium | High
  datatype GrowthPriority = Reach | Retention | Conversion
  datatype LearningMode = Aggressive | Balanced | Conservative

  /** The user's growth configuration (module 0). */
  datatype GrowthConfig = GrowthConfig(
    accountType: AccountType,
    platforms: seq<Platform>,
    language: Language,
    targetRegion: TargetRegion,
    initialGenre: string,
    nicheModifiers: seq<string>,
    riskProfile: RiskProfile,
    growthPriority: GrowthPriority,
    learningMode: LearningMode)

  datatype TrendSource = Twitter | GoogleTrends | Competitor | InternalPrediction

  /** A candidate trend. Numbers are exact reals. */
  datatype TrendItem = TrendItem(
    id: string,
    topic: string,
    source: TrendSource,
    volume: real,
    growthRate: real,
    engagementVelocity: real,
    competitionDensity: real,
    trendScore: real,
    timestamp: string)

  datatype SectionType = Hook | Curiosity | Value | Reinforcement | Cta

  datatype ScriptSection = ScriptSection(
    id: string,
    sectionType: SectionType,
    durationMs: nat,
    text: string,
    visualCue: string)

  datatype GeneratedScript = GeneratedScript(
    id: string,
    trendId: string,
    title: string,
    sections: seq<ScriptSection>,
    totalDurationMs: nat,
    tone: string,
    targetPlatform: Platform,
    createdAt: string)

  datatype ThumbnailStyle = Emotional | Minimal | TextHeavy | Shock

  datatype ThumbnailVariant = ThumbnailVariant(
    id: string,
    scriptId: string,
    prompt: string,
    style: ThumbnailStyle,
    predictedCtr: real)

  datatype AssetStatus = Rendering | Ready | Uploaded | Failed

  datatype VideoAsset = VideoAsset(
    id: string,
    scriptId: string,
    thumbnailId: string,
    status: AssetStatus,
    renderProgress: nat,
    filePath: Option<string>,
    uploadUrl: Option<string>,
    deployedAt: Option<string>)

  datatype LogLevel = Info | Success | Warning | Error

  /** A console entry; `meta` is an opaque payload. */
  datatype SystemLog = SystemLog(
    id: string,
    moduleName: string,
    level: LogLevel,
    message: string,
    timestamp: string,
    meta: Option<string>)

  datatype StrategyProfile = StrategyProfile(
    niche: string,
    targetAudience: string,
    contentPillars: seq<string>,
    voiceTone: string,
    visualStyle: string,
    colorPalette: seq<string>,
    postingSchedule: string)
}
