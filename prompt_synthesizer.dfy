/**
 * `PromptSynthesizer.generateSystemPrompt` (lib/brain/PromptSynthesizer.js):
 * the system prompt for the video model, one template filled with the genre,
 * the learned pattern profile and the user's tone, risk and goal, each of the
 * last three with a default when it is missing or empty.
 */
module PromptSynthesizer {
  import opened Wrappers
  import opened Text
  import opened PatternLearner

  const NoProfileError: string := "Error: No pattern profile generated."

  const DefaultTone: string := "Professional"
  const DefaultRisk: string := "Medium"
  const DefaultGoal: string := "Reach"

  /** The user constraints the template reads; each may be missing. */
  datatype PromptConfig = PromptConfig(voiceTone: Option<string>, riskProfile: Option<string>, growthPriority: Option<string>)

  /** `value || fallback` for a string: a missing or empty value is falsy. */
  function OrDefault(value: Option<string>, fallback: string): (r: string)
    ensures value.Some? && value.value != "" ==> r == value.value
    ensures value.None? || value.value == "" ==> r == fallback
  {
    if value.Some? && value.value != "" then value.value else fallback
  }

  function Quoted(s: string): string {
    "\"" + s + "\""
  }

  const Intro: string := "\nYou are a WORLD-CLASS VIDEO DIRECTOR and SCRIPTWRITER.\nYour task is to create a VIDEO BLUEPRINT for the genre: "
  const BriefHeader: string := ".\n\n### 1. INTELLIGENCE BRIEF\nBased on real engagement analysis (Module A-D), successful videos in this niche have:\n- Average Duration: "
  const ThemesLabel: string := " seconds\n- Key Themes: "
  const PacingLabel: string := "\n- Pacing: "
  const DirectiveHeader: string := "\n\n### 2. DIRECTIVE\nCreate a "
  const OutputFormat: string :=
    " coding/script plan.\n\n### 3. REQUIRED OUTPUT FORMAT (JSON)\n{\n"
    + "  \"title\": \"Viral Clickworthy Title\",\n"
    + "  \"concept_hook\": \"The psychological hook strategy\",\n"
    + "  \"visual_style\": \"Cinematic description for Veo/Pexels\",\n"
    + "  \"pacing_guide\": \"e.g. Cut every 2 seconds\",\n"
    + "  \"script_sections\": [\n    {\n"
    + "      \"time_range\": \"00:00 - 00:05\",\n"
    + "      \"visual_prompt\": \"Specific visual description for video generation models...\",\n"
    + "      \"audio_voiceover\": \"Spoken text...\",\n"
    + "      \"screen_text\": \"Overlay text...\"\n"
    + "    }\n  ]\n}\n\n### 4. CREATIVE CONSTRAINTS (USER)\n"
  const RiskLabel: string := "- Risk Profile: "
  const GoalLabel: string := "\n- Goal: "
  const VisualsLabel: string := "\n- Visuals must be: "
  const Closing: string := "\n\nGENERATE NOW.\n"

  /** The pieces of the filled template, in order. */
  function PromptParts(profile: PatternProfile, config: PromptConfig, genre: string): (parts: seq<string>)
    ensures |parts| == 18
  {
    [Intro, Quoted(genre), BriefHeader, IntToString(profile.targetDurationSec), ThemesLabel,
     Join(profile.keywords, ", "), PacingLabel, profile.pacingStyle, DirectiveHeader,
     Quoted(OrDefault(config.voiceTone, DefaultTone)), OutputFormat, RiskLabel, OrDefault(config.riskProfile, DefaultRisk),
     GoalLabel, OrDefault(config.growthPriority, DefaultGoal), VisualsLabel, profile.visualMood, Closing]
  }

  /**
   * `generateSystemPrompt`: the error line without a profile, otherwise the
   * filled template, which opens with the director introduction and so is
   * never the error line.
   */
  function GenerateSystemPrompt(profile: Option<PatternProfile>, config: PromptConfig, genre: string): (r: string)
    ensures profile.None? ==> r == NoProfileError
    ensures profile.Some? ==> |Intro| <= |r| && r[..|Intro|] == Intro
    ensures profile.Some? ==> r != NoProfileError
  {
    if profile.None? then NoProfileError
    else
      var parts := PromptParts(profile.value, config, genre);
      assert Join(parts, "") == Intro + "" + Join(parts[1..], "");
      assert |NoProfileError| < |Intro|;
      Join(parts, "")
  }

  // ---------------------------------------------------------------------------
  // Properties

  /** Each piece of the template occurs in the prompt. */
  lemma PartInPrompt(profile: PatternProfile, config: PromptConfig, genre: string, k: nat)
    requires k < 18
    ensures Contains(GenerateSystemPrompt(Some(profile), config, genre), PromptParts(profile, config, genre)[k])
  {
    var parts := PromptParts(profile, config, genre);
    var before, after := JoinAround(parts, "", k);
    ContainsMiddle(before, parts[k], after);
  }

  /** Two adjacent pieces of the template occur together in the prompt, with nothing between them. */
  lemma PairInPrompt(profile: PatternProfile, config: PromptConfig, genre: string, k: nat)
    requires k + 1 < 18
    ensures Contains(GenerateSystemPrompt(Some(profile), config, genre),
                     PromptParts(profile, config, genre)[k] + PromptParts(profile, config, genre)[k + 1])
  {
    var parts := PromptParts(profile, config, genre);
    var before, after := JoinAroundPairTight(parts, k);
    ContainsMiddle(before, parts[k] + parts[k + 1], after);
  }

  /** Without a profile the prompt is exactly the error line. */
  lemma MissingProfile(config: PromptConfig, genre: string)
    ensures GenerateSystemPrompt(None, config, genre) == NoProfileError
  {
  }

  /** The prompt quotes the genre and lists the keywords joined by ", ". */
  lemma GenreAndKeywordsInPrompt(profile: PatternProfile, config: PromptConfig, genre: string)
    ensures var p := GenerateSystemPrompt(Some(profile), config, genre);
      && Contains(p, Quoted(genre))
      && Contains(p, Join(profile.keywords, ", "))
  {
    PartInPrompt(profile, config, genre, 1);
    PartInPrompt(profile, config, genre, 5);
  }

  /**
   * The prompt states the duration after the brief's "Average Duration" label,
   * the pacing after its label and the visual mood after its label, each as the profile has it.
   */
  lemma ProfileFiguresInPrompt(profile: PatternProfile, config: PromptConfig, genre: string)
    ensures var p := GenerateSystemPrompt(Some(profile), config, genre);
      && Contains(p, BriefHeader + IntToString(profile.targetDurationSec))
      && Contains(p, PacingLabel + profile.pacingStyle)
      && Contains(p, VisualsLabel + profile.visualMood)
  {
    DurationAfterLabel(profile, config, genre);
    PacingAfterLabel(profile, config, genre);
    MoodAfterLabel(profile, config, genre);
  }

  // The three facts of ProfileFiguresInPrompt, one lemma each.

  lemma DurationAfterLabel(profile: PatternProfile, config: PromptConfig, genre: string)
    ensures Contains(GenerateSystemPrompt(Some(profile), config, genre), BriefHeader + IntToString(profile.targetDurationSec))
  {
    PairInPrompt(profile, config, genre, 2);
  }

  lemma PacingAfterLabel(profile: PatternProfile, config: PromptConfig, genre: string)
    ensures Contains(GenerateSystemPrompt(Some(profile), config, genre), PacingLabel + profile.pacingStyle)
  {
    PairInPrompt(profile, config, genre, 6);
  }

  lemma MoodAfterLabel(profile: PatternProfile, config: PromptConfig, genre: string)
    ensures Contains(GenerateSystemPrompt(Some(profile), config, genre), VisualsLabel + profile.visualMood)
  {
    PairInPrompt(profile, config, genre, 15);
  }

  /**
   * The tone is quoted in the directive and the risk and goal follow their
   * labels; each is the configured value, or its default when that is missing or empty.
   */
  lemma ConstraintsInPrompt(profile: PatternProfile, config: PromptConfig, genre: string)
    ensures var p := GenerateSystemPrompt(Some(profile), config, genre);
      && Contains(p, Quoted(OrDefault(config.voiceTone, DefaultTone)))
      && Contains(p, RiskLabel + OrDefault(config.riskProfile, DefaultRisk))
      && Contains(p, GoalLabel + OrDefault(config.growthPriority, DefaultGoal))
  {
    PartInPrompt(profile, config, genre, 9);
    PairInPrompt(profile, config, genre, 11);
    PairInPrompt(profile, config, genre, 13);
  }
}
