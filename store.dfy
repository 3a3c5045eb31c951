/**
 * The application store (lib/store/index.ts): one state object whose fields the
 * actions replace through `set`. `setConfig` merges a partial configuration,
 * `addLog` keeps a newest-first console of at most 100 entries, and the system
 * switch and module selection are plain field updates.
 */
module Store {
  import opened Wrappers
  import opened Collections
  import opened Types

  /** The console keeps at most this many entries. */
  const LogCapacity: nat := 100

  /** `defaultConfig`. */
  const DefaultConfig: GrowthConfig := GrowthConfig(
    Personal, [Instagram], English, India, "", [], Low, Reach, Aggressive)

  /** A `Partial<GrowthConfig>`: each key is either present with a value or absent. */
  datatype ConfigPatch = ConfigPatch(
    accountType: Option<AccountType>,
    platforms: Option<seq<Platform>>,
    language: Option<Language>,
    targetRegion: Option<TargetRegion>,
    initialGenre: Option<string>,
    nicheModifiers: Option<seq<string>>,
    riskProfile: Option<RiskProfile>,
    growthPriority: Option<GrowthPriority>,
    learningMode: Option<LearningMode>)

  /** `{ ...config, ...patch }`: a present key takes the patch's value, an absent one keeps the old. */
  function Merge(config: GrowthConfig, patch: ConfigPatch): GrowthConfig {
    GrowthConfig(
      patch.accountType.GetOr(config.accountType),
      patch.platforms.GetOr(config.platforms),
      patch.language.GetOr(config.language),
      patch.targetRegion.GetOr(config.targetRegion),
      patch.initialGenre.GetOr(config.initialGenre),
      patch.nicheModifiers.GetOr(config.nicheModifiers),
      patch.riskProfile.GetOr(config.riskProfile),
      patch.growthPriority.GetOr(config.growthPriority),
      patch.learningMode.GetOr(config.learningMode))
  }

  /**
   * The argument of `addLog`. Its type omits `id` and `timestamp`, but the
   * spread copies whatever the object holds, so they may be present.
   */
  datatype LogInput = LogInput(
    id: Option<string>,
    moduleName: string,
    level: LogLevel,
    message: string,
    timestamp: Option<string>,
    meta: Option<string>)

  /** `{ ...log, id, timestamp }`: the fresh id and timestamp win over any in the argument. */
  function NewLog(log: LogInput, id: string, timestamp: string): (r: SystemLog)
    ensures r.id == id && r.timestamp == timestamp
    ensures r.moduleName == log.moduleName && r.level == log.level
    ensures r.message == log.message && r.meta == log.meta
  {
    SystemLog(id, log.moduleName, log.level, log.message, timestamp, log.meta)
  }

  /** `[newLog, ...logs].slice(0, 100)`. */
  function PushLog(logs: seq<SystemLog>, entry: SystemLog): seq<SystemLog> {
    Take([entry] + logs, LogCapacity)
  }

  /** The data fields of the store, as one value. */
  datatype AppState = AppState(
    isSystemActive: bool,
    activeModuleId: int,
    config: GrowthConfig,
    logs: seq<SystemLog>,
    currentTrends: seq<TrendItem>,
    selectedTrend: Option<TrendItem>,
    generatedScript: Option<GeneratedScript>,
    videoAsset: Option<VideoAsset>,
    strategyProfile: Option<StrategyProfile>)

  /** The state `create` starts from. */
  const InitialState: AppState := AppState(false, 0, DefaultConfig, [], [], None, None, None, None)

  class AppStore {
    var isSystemActive: bool
    var activeModuleId: int
    var config: GrowthConfig
    var logs: seq<SystemLog>
    var currentTrends: seq<TrendItem>
    var selectedTrend: Option<TrendItem>
    var generatedScript: Option<GeneratedScript>
    var videoAsset: Option<VideoAsset>
    var strategyProfile: Option<StrategyProfile>

    function State(): AppState
      reads this
    {
      AppState(isSystemActive, activeModuleId, config, logs, currentTrends,
        selectedTrend, generatedScript, videoAsset, strategyProfile)
    }

    /** The console never holds more than 100 entries. */
    predicate Valid()
      reads this
    {
      |logs| <= LogCapacity
    }

    /** `useAppStore`'s initial state: inactive, module 0, the default configuration, nothing else yet. */
    constructor ()
      ensures State() == InitialState
      ensures Valid()
    {
      isSystemActive := false;
      activeModuleId := 0;
      config := DefaultConfig;
      logs := [];
      currentTrends := [];
      selectedTrend := None;
      generatedScript := None;
      videoAsset := None;
      strategyProfile := None;
    }

    /** `setConfig`: the configuration is merged with the patch; nothing else changes. */
    method SetConfig(patch: ConfigPatch)
      modifies this
      ensures State() == old(State()).(config := Merge(old(config), patch))
    {
      config := Merge(config, patch);
    }

    /** `addLog`: the new entry goes first and the buffer is cut to its first 100 entries. */
    method AddLog(log: LogInput, id: string, timestamp: string)
      requires Valid()
      modifies this
      ensures Valid()
      ensures State() == old(State()).(logs := PushLog(old(logs), NewLog(log, id, timestamp)))
      ensures logs[0] == NewLog(log, id, timestamp)
      ensures logs[1..] == Take(old(logs), LogCapacity - 1)
    {
      var entry := NewLog(log, id, timestamp);
      PushLogShape(logs, entry);
      logs := PushLog(logs, entry);
    }

    /** `startSystem`: the system runs and module 1 is active. */
    method StartSystem()
      modifies this
      ensures State() == old(State()).(isSystemActive := true, activeModuleId := 1)
    {
      isSystemActive := true;
      activeModuleId := 1;
    }

    /** `stopSystem`: the system stops; the active module stays. */
    method StopSystem()
      modifies this
      ensures State() == old(State()).(isSystemActive := false)
    {
      isSystemActive := false;
    }

    /** `setModule`: any number is accepted. */
    method SetModule(id: int)
      modifies this
      ensures State() == old(State()).(activeModuleId := id)
    {
      activeModuleId := id;
    }

    method SetTrends(trends: seq<TrendItem>)
      modifies this
      ensures State() == old(State()).(currentTrends := trends)
    {
      currentTrends := trends;
    }

    method SetSelectedTrend(trend: TrendItem)
      modifies this
      ensures State() == old(State()).(selectedTrend := Some(trend))
    {
      selectedTrend := Some(trend);
    }

    method SetScript(script: GeneratedScript)
      modifies this
      ensures State() == old(State()).(generatedScript := Some(script))
    {
      generatedScript := Some(script);
    }

    method SetVideoAsset(asset: VideoAsset)
      modifies this
      ensures State() == old(State()).(videoAsset := Some(asset))
    {
      videoAsset := Some(asset);
    }

    method SetStrategyProfile(profile: StrategyProfile)
      modifies this
      ensures State() == old(State()).(strategyProfile := Some(profile))
    {
      strategyProfile := Some(profile);
    }
  }

  // ---------------------------------------------------------------------------
  // Properties

  /** The pushed entry is first, followed by the newest 99 older entries in order, and the buffer stays bounded. */
  lemma PushLogShape(logs: seq<SystemLog>, entry: SystemLog)
    ensures |PushLog(logs, entry)| == if |logs| < LogCapacity then |logs| + 1 else LogCapacity
    ensures PushLog(logs, entry)[0] == entry
    ensures PushLog(logs, entry)[1..] == Take(logs, LogCapacity - 1)
  {
    var all := [entry] + logs;
    if |all| > LogCapacity {
      assert all[..LogCapacity][1..] == logs[..LogCapacity - 1];
    } else {
      assert all[1..] == logs;
    }
  }

  /** A present key takes the patch's value, and an absent key keeps the configuration's. */
  lemma MergeKeys(config: GrowthConfig, patch: ConfigPatch)
    ensures patch.accountType.Some? ==> Merge(config, patch).accountType == patch.accountType.value
    ensures patch.accountType.None? ==> Merge(config, patch).accountType == config.accountType
    ensures patch.platforms.Some? ==> Merge(config, patch).platforms == patch.platforms.value
    ensures patch.platforms.None? ==> Merge(config, patch).platforms == config.platforms
    ensures patch.language.Some? ==> Merge(config, patch).language == patch.language.value
    ensures patch.language.None? ==> Merge(config, patch).language == config.language
    ensures patch.targetRegion.Some? ==> Merge(config, patch).targetRegion == patch.targetRegion.value
    ensures patch.targetRegion.None? ==> Merge(config, patch).targetRegion == config.targetRegion
    ensures patch.initialGenre.Some? ==> Merge(config, patch).initialGenre == patch.initialGenre.value
    ensures patch.initialGenre.None? ==> Merge(config, patch).initialGenre == config.initialGenre
    ensures patch.nicheModifiers.Some? ==> Merge(config, patch).nicheModifiers == patch.nicheModifiers.value
    ensures patch.nicheModifiers.None? ==> Merge(config, patch).nicheModifiers == config.nicheModifiers
    ensures patch.riskProfile.Some? ==> Merge(config, patch).riskProfile == patch.riskProfile.value
    ensures patch.riskProfile.None? ==> Merge(config, patch).riskProfile == config.riskProfile
    ensures patch.growthPriority.Some? ==> Merge(config, patch).growthPriority == patch.growthPriority.value
    ensures patch.growthPriority.None? ==> Merge(config, patch).growthPriority == config.growthPriority
    ensures patch.learningMode.Some? ==> Merge(config, patch).learningMode == patch.learningMode.value
    ensures patch.learningMode.None? ==> Merge(config, patch).learningMode == config.learningMode
  {
  }

  /** An empty patch changes nothing, and merging the same patch twice is the same as once. */
  lemma MergeIdentityIdempotent(config: GrowthConfig, patch: ConfigPatch)
    ensures Merge(config, ConfigPatch(None, None, None, None, None, None, None, None, None)) == config
    ensures Merge(Merge(config, patch), patch) == Merge(config, patch)
  {
  }

  /** Pushing n entries one at a time, newest last: the buffer lists the newest 100 of all entries, newest first. */
  function PushAll(logs: seq<SystemLog>, entries: seq<SystemLog>): seq<SystemLog>
  {
    if entries == [] then logs else PushLog(PushAll(logs, entries[..|entries| - 1]), entries[|entries| - 1])
  }

  function Reverse<T>(xs: seq<T>): (r: seq<T>)
    ensures |r| == |xs|
    ensures forall i :: 0 <= i < |xs| ==> r[i] == xs[|xs| - 1 - i]
  {
    if xs == [] then [] else [xs[|xs| - 1]] + Reverse(xs[..|xs| - 1])
  }

  lemma {:induction false} PushAllNewestFirst(logs: seq<SystemLog>, entries: seq<SystemLog>)
    requires |logs| <= LogCapacity
    ensures PushAll(logs, entries) == Take(Reverse(entries) + logs, LogCapacity)
  {
    if entries != [] {
      var init := entries[..|entries| - 1];
      var last := entries[|entries| - 1];
      PushAllNewestFirst(logs, init);
      var before := Reverse(init) + logs;
      assert Reverse(entries) + logs == [last] + before;
      TakeOfCons(last, before);
    }
  }

  /** Cutting after pushing one entry in front is pushing it in front of the cut list. */
  lemma TakeOfCons(x: SystemLog, xs: seq<SystemLog>)
    ensures Take([x] + Take(xs, LogCapacity), LogCapacity) == Take([x] + xs, LogCapacity)
  {
    if |xs| > LogCapacity {
      assert ([x] + xs[..LogCapacity])[..LogCapacity] == ([x] + xs)[..LogCapacity];
    }
  }
}
