# SillyMee growth machine: the rule engines, in Dafny

SillyMee is a Next.js "autonomous growth machine" for short-form video. A
creator sets a configuration: account type, platforms, genre, risk profile
and growth goal. The machine then runs a chain of rule engines over YouTube
search results and simulated trends:

- **Duration parsing and YouTube mapping** (`lib/api/youtube.js`): ISO 8601
  durations become seconds, subscriber counts become creator-size buckets,
  and API items become metric records sorted by view velocity.
- **Engagement scorer** (`lib/brain/EngagementScorer.js`): normalises
  velocity, like ratio and comment ratio, adds a recency boost, and ranks
  videos by a weighted 0-100 score.
- **Pattern learner** (`lib/brain/PatternLearner.js`): takes the top five
  videos and extracts a profile: mean duration, pacing, the five most
  frequent title keywords and the reference videos.
- **Decision engine** (`lib/brain/DecisionEngine.js`): scores trends as
  volume × growth × engagement over competition, halves the score of risky
  trends under a low risk profile, ranks them and reports a winner.
- **Upload optimizer** (`lib/brain/UploadOptimizer.js`): counts publication
  days and hours, picks the most frequent of each, and tracks the video with
  the best viral ratio.
- **Script validator** (`lib/brain/ScriptGenerator.ts`): reports the filler
  phrases in a script.
- **Memory system** (`lib/brain/MemorySystem.js`): a learning record in
  local storage.
- **Data simulator, thumbnail generator, prompt synthesizer and video
  renderer**: templates, random draws and string building.
- **Viral manager** (`lib/brain/ViralManager.js`): picks a winning niche,
  gates and uploads content, and runs the full cycle.
- **Application store** (`lib/store/index.ts`): a Zustand store holding the
  configuration, a 100-entry log console and the pipeline's current
  artefacts.

How the source becomes Dafny:

- Pure computation becomes datatypes, functions and lemmas.
- Code that loops over state becomes methods with loops proved against
  specification functions. These are:
  - the `forEach` counting loops of the upload optimizer and the pattern
    learner;
  - the report loop of the decision engine's `analyzeAndSelect`;
  - the channel map of `searchVideos`;
  - the niche scan;
  - the script validator.
- The store and the memory persistence become classes whose methods update
  fields in place.
- `Math.random()`, the clock, the browser window and the external services
  are parameters:
  - `Math.random()` draws are `Types.Draw` values in [0, 1);
  - the clock is a timestamp or an age;
  - the browser window is a flag;
  - the external services (YouTube, Gemini, local storage) are their results,
    passed in as values.

Shared modules:

- `Wrappers`: Option and Try.
- `Types`: the records of `lib/types/index.ts`.
- `Collections`: map, filter, slice, Set and counting objects, with their
  lemmas.
- `Sorting`: `Array.prototype.sort`, modelled as a stable insertion sort.
- `ObjectKeys`: the order of `Object.keys`.
- `Numbers`: `parseFloat(x.toFixed(2))`, the rounding to hundredths.
- `Text`: `toLowerCase`, `indexOf`, `includes`, `replace`, `join`, `String(n)`
  and `parseInt`.

## Model

| member | source | states |
|---|---|---|
| Collections.Map | lib/api/youtube.js:161 | `xs.map(f)`: same length, the i-th result is `f` of the i-th element |
| Collections.MapAppend | lib/brain/PatternLearner.js:34 | mapping distributes over concatenation |
| Collections.MapPermutation | lib/brain/EngagementScorer.js:65 | mapping two rearrangements of the same elements gives rearrangements of the same images |
| Collections.Filter | lib/api/youtube.js:105 | `xs.filter(p)`: every kept element passes `p`, every element passing `p` is kept, and the result is no longer than `xs` |
| Collections.FilterSnoc | lib/api/youtube.js:105 | filtering one more element appends it exactly when it passes |
| Collections.FilterAppend | lib/api/youtube.js:105 | filtering distributes over concatenation |
| Collections.FilterAllOrNone | lib/api/youtube.js:105 | filtering keeps a list whose elements all pass and empties one whose elements all fail |
| Collections.FilterNoDuplicates | lib/api/youtube.js:105 | filtering a list without duplicates leaves none |
| Collections.FilterOrder | lib/api/youtube.js:105 | two kept elements appear in the result in their input order |
| Collections.FilterPosition | lib/brain/ViralManager.js:30-45 | a kept element sits at the index given by the number of kept elements before it |
| Collections.FilterPrefixGrows | lib/brain/ViralManager.js:30-45 | a later position has strictly more kept elements before it, once a kept element lies between |
| Collections.FilterIndex | lib/brain/ViralManager.js:30-45 | every element of the result is a kept input element, preceded by exactly the kept elements before it |
| Collections.FilterSplit | lib/brain/UploadOptimizer.js:40 | splitting the keys of `Object.keys` into index keys and the rest keeps every key exactly once (as multisets) |
| Collections.Take | lib/store/index.ts:74 | `slice(0, n)`: the first min(n, length) elements |
| Collections.DuplicateCount | lib/api/youtube.js:118 | an element at two positions occurs at least twice |
| Collections.NoDuplicatesCount | lib/api/youtube.js:118 | in a list without duplicates every element occurs at most once |
| Collections.NoDuplicatesPermutation | lib/brain/PatternLearner.js:47-48 | a rearrangement of a list without duplicates has none |
| Collections.Distinct | lib/api/youtube.js:118 | `[...new Set(xs)]`: no duplicates, and exactly the elements of `xs` |
| Collections.DistinctOrder | lib/api/youtube.js:118 | `[...new Set(xs)]` lists elements in order of first occurrence: an element listed earlier occurs in `xs` before every occurrence of one listed later |
| Collections.SumOfCountsSnoc | lib/brain/UploadOptimizer.js:23-31 | the occurrence total over a key list after one more element grows by one exactly when its key is listed |
| Collections.SumOfCountsDistinct | lib/brain/UploadOptimizer.js:23-31 | counting every distinct element accounts for each element exactly once |
| Collections.CountsSpec | lib/brain/UploadOptimizer.js:29-30 | the counting object holds exactly the elements, each with its number of occurrences |
| Collections.TallyStep | lib/brain/UploadOptimizer.js:29-30 | one counting step adds one to the element's count and adds it as a new key when it was not counted yet |
| Collections.Tally | lib/brain/UploadOptimizer.js:29-30 | one increment of `counts[x]`, starting from 0 for a new key, on an object counting `xs` (keys in first-insertion order) leaves it counting `xs + [x]` |
| Collections.SumAtCounts | lib/brain/UploadOptimizer.js:23-31 | the counts summed over the keys are the occurrence totals |
| Collections.CountsSum | lib/brain/UploadOptimizer.js:23-31 | the counts add up to the number of elements |
| Sorting.Insert | lib/brain/DecisionEngine.js:22 | one element longer; the multiset grows by the inserted element; every element is it or from the list |
| Sorting.InsertSorted | lib/brain/DecisionEngine.js:22 | insertion preserves non-increasing key order |
| Sorting.SortDesc | lib/brain/DecisionEngine.js:22 | the sort's result is ordered by non-increasing key and is a permutation of the input |
| Sorting.SortDescFrom | lib/brain/DecisionEngine.js:22 | every sorted element comes from the input |
| Sorting.SortDescTo | lib/brain/DecisionEngine.js:22 | every input element appears in the sorted list |
| Sorting.InsertKeyClass | lib/brain/DecisionEngine.js:22 | insertion appends the element to its key class and leaves every other class alone |
| Sorting.SortDescStable | lib/brain/DecisionEngine.js:22 | the sort is stable: elements with equal keys keep their relative order |
| Sorting.SortDescHeadIsMax | lib/brain/DecisionEngine.js:31 | no element has a larger key than the first one |
| Sorting.SortDescHeadIsFirstMax | lib/brain/DecisionEngine.js:31 | the first sorted element is the first input element with the maximal key |
| ObjectKeys.PropertyOrder | lib/brain/UploadOptimizer.js:40 | `Object.keys` is a rearrangement of the inserted keys |
| ObjectKeys.IndexKeysFirstAscending | lib/brain/UploadOptimizer.js:43 | index keys come first, in ascending numeric order |
| ObjectKeys.PropertyOrderMembers | lib/brain/UploadOptimizer.js:40 | `Object.keys` has one entry per inserted key, and exactly those keys |
| ObjectKeys.NamedKeysKeepOrder | lib/brain/UploadOptimizer.js:40 | named keys keep their insertion order |
| Text.Lower | lib/brain/ScriptGenerator.ts:11 | `toLowerCase` on ASCII text: the length is kept and each letter A-Z becomes its lower-case letter, every other character is kept |
| Text.LowerAppend | lib/brain/ScriptGenerator.ts:11 | lowering distributes over concatenation |
| Text.IndexOfFrom | lib/brain/DataSimulator.ts:41 | `indexOf(p, from)`: the index found is an occurrence at or after `from` with none between; `None` means none at all |
| Text.IndexOf | lib/brain/DataSimulator.ts:41 | `indexOf(p)` is the first occurrence, or `None` when there is none |
| Text.ContainsAt | lib/brain/ScriptGenerator.ts:14 | an occurrence at an index means the string contains the pattern |
| Text.ContainsMiddle | lib/brain/PromptSynthesizer.js:20-55 | a string contains every piece it was built from |
| Text.ContainsWithin | lib/brain/ScriptGenerator.ts:11-14 | containment survives surrounding text |
| Text.EmptyContainsNothing | lib/brain/ScriptGenerator.ts:14 | the empty string contains no non-empty string |
| Text.ReplaceFirst | lib/brain/DataSimulator.ts:41 | with no occurrence the string is unchanged; otherwise the first occurrence is replaced |
| Text.FirstOccurrence | lib/brain/DataSimulator.ts:41 | a pattern whose first character does not occur before it is found where it stands |
| Text.NoOccurrence | lib/brain/DataSimulator.ts:41 | a string without the pattern's first character does not contain the pattern |
| Text.JoinAround | lib/brain/PromptSynthesizer.js:27 | every part of a join stands between the text before it and the text after it |
| Text.JoinAroundPair | lib/brain/ScriptGenerator.ts:11 | two adjacent parts stand together with the separator between them |
| Text.JoinAroundPairTight | lib/brain/PromptSynthesizer.js:50-51 | with the empty separator two adjacent parts stand directly together |
| Text.NatToString | lib/brain/UploadOptimizer.js:30 | `String(n)` is a non-empty string of digits |
| Text.IntToString | lib/brain/PromptSynthesizer.js:26 | `String(n)` of a negative number is a minus sign before the numeral of its magnitude |
| Text.NatToStringRoundTrip | lib/brain/UploadOptimizer.js:58 | `parseInt(String(n)) == n` |
| Duration.DigitRun | lib/api/youtube.js:139 | the digit run from `pos` stays in the string, consists of digits and ends at a non-digit |
| Duration.MatchGroup | lib/api/youtube.js:139 | the group ends within the string and consumes nothing exactly when it reads no value |
| Duration.MatchDuration | lib/api/youtube.js:139 | a match exists exactly when the string contains "PT" |
| Duration.ParseDuration | lib/api/youtube.js:137-145 | a missing or empty string, or one without a match, gives 0; otherwise the total of the first match |
| Duration.GetSeconds | lib/brain/PatternLearner.js:24-32 | no match throws; a match gives the same total as `parseDuration` |
| Duration.DigitRunExact | lib/api/youtube.js:139 | a digit string followed by a non-digit is read as exactly one run |
| Duration.NumeralAt | lib/api/youtube.js:141-143 | a numeral followed by a non-digit is read back with its value |
| Duration.GroupReadsDesignated | lib/api/youtube.js:139-143 | a group reads back the component written at `pos` |
| Duration.StartsWithPT | lib/api/youtube.js:139 | a string starting with "PT" has its first occurrence of "PT" at 0 |
| Duration.SecondsGroupOfFormatted | lib/api/youtube.js:143 | the seconds group reads the written seconds |
| Duration.MinutesGroupOfFormatted | lib/api/youtube.js:142 | the minutes group reads the written minutes |
| Duration.HoursGroupOfFormatted | lib/api/youtube.js:141 | the hours group reads the written hours |
| Duration.MatchFormatted | lib/api/youtube.js:139-143 | reading a written duration gives back exactly its components |
| Duration.ParseFormatted | lib/brain/PatternLearner.js:24-32 | both parsers give hours × 3600 + minutes × 60 + seconds for a written duration |
| Duration.DayDesignatorNotMatched | lib/api/youtube.js:138-140 | "P1DT2H" reads as 0 seconds in `parseDuration` and throws in `getSeconds` |
| YouTube.GetCreatorSize | lib/api/youtube.js:147-158 | Small below 10000, Medium below 100000, Large below 1000000, Mega otherwise |
| YouTube.CreatorSizeMonotone | lib/api/youtube.js:153-158 | more subscribers never give a smaller bucket |
| YouTube.ChannelMapOfSpec | lib/api/youtube.js:128-130 | each id maps to the subscriber count of its last item |
| YouTube.ChannelMapOf | lib/api/youtube.js:128-130 | the map the `forEach` over the channel items builds, a later item overwriting an earlier one; its keys and values are stated by `ChannelMapOfSpec` |
| YouTube.BuildChannelMap | lib/api/youtube.js:128-130 | the `forEach` loop builds exactly the specified channel map |
| YouTube.ChannelIds | lib/api/youtube.js:118 | the ids sent to the channels call are exactly the videos' channel ids, each once |
| YouTube.ChannelIdsInFirstOccurrenceOrder | lib/api/youtube.js:118 | an id listed before another belongs to a video that comes before every video of the other channel |
| YouTube.SubscriberCount | lib/api/youtube.js:171-172 | a missing or zero count becomes 1; the result is never 0 |
| YouTube.AtLeastTenthHour | lib/api/youtube.js:164 | `Math.max(0.1, hours)` is at least 0.1 and at least `hours` |
| YouTube.MapVideo | lib/api/youtube.js:161-202 | the record keeps the item's id, title, description, channel id and title, and dates; the thumbnail is the high one when present and non-empty, else the default one; subscriber count at least 1 with its bucket; parsed duration; viral ratio and velocity are the hundredths nearest to views / subscribers and views / max(0.1, hours), as `parseFloat(x.toFixed(2))` gives, and non-negative; likes and comments as counted, 0 when missing, and their `Ratio` over views; source `youtube_real` |
| YouTube.FirstTruthy | lib/api/youtube.js:182 | the logical or of the two thumbnail URLs: the high one when present and non-empty, otherwise the default one; the result is truthy iff one of the two is |
| YouTube.MapVideos | lib/api/youtube.js:161 | `videos.map(...)`: one record per item, in order, each given by `MapVideo` |
| YouTube.Ratio | lib/api/youtube.js:196-197 | `views > 0 ? x / views : 0`: 0 for no views, otherwise the share that multiplied by the views gives back `x` |
| YouTube.VideoIds | lib/api/youtube.js:105 | every id kept is non-empty, and none is kept exactly when no item has a present, non-empty id |
| YouTube.SearchVideos | lib/api/youtube.js:105-210 | no ids or a failed call give []; otherwise the records sorted by non-increasing velocity, as a permutation of the mapped videos |
| EngagementScorer.MaxOf | lib/brain/EngagementScorer.js:28-30 | `Math.max` is an element of the list and at least every element |
| EngagementScorer.NonZeroOr | lib/brain/EngagementScorer.js:28-30 | the logical-or default on a metric: 0 becomes the fallback, anything else is kept |
| EngagementScorer.MaxUnique | lib/brain/EngagementScorer.js:28-30 | a list has one maximum |
| EngagementScorer.MaxOrFallback | lib/brain/EngagementScorer.js:28-30 | a metric's divisor is the fallback when the list's maximum is 0, and otherwise that maximum |
| EngagementScorer.BasesOf | lib/brain/EngagementScorer.js:28-30 | each divisor is the maximum of its metric over the videos when that maximum is not 0, and otherwise the fallback 1, 0.01 or 0.001; none of the three is 0 |
| EngagementScorer.Recency | lib/brain/EngagementScorer.js:41-42 | the recency boost lies in (0, 1] |
| Numbers.RoundToHundredths | lib/brain/EngagementScorer.js:60 | `parseFloat(x.toFixed(2))` is a whole number of hundredths within half a hundredth of `x`, a tie going up; non-negative for non-negative `x` |
| Numbers.NearestHundredthUnique | lib/api/youtube.js:195-198 | any whole number of hundredths within half a hundredth of `x` (a tie going up) is the rounded value, so the rounding is that nearest hundredth |
| Numbers.RoundMonotone | lib/api/youtube.js:195-206 | rounding keeps order, so sorting by rounded velocity never inverts two exact velocities |
| EngagementScorer.ScoreVideo | lib/brain/EngagementScorer.js:32-62 | the scored entry keeps its video |
| EngagementScorer.ScoreAll | lib/brain/EngagementScorer.js:32 | one scored entry per video, each the score of that video |
| EngagementScorer.Rank | lib/brain/EngagementScorer.js:23-66 | [] for no videos; otherwise every scored video, sorted by non-increasing engagement score, as a permutation |
| EngagementScorer.WeightsSumToOne | lib/brain/EngagementScorer.js:11-16 | the weights 0.4, 0.3, 0.2 and 0.1 sum to 1 |
| EngagementScorer.WeightedScoreBounds | lib/brain/EngagementScorer.js:45-50 | with normalised terms in [0, 1] the score lies in [0, 100] |
| EngagementScorer.NormalisedInUnit | lib/brain/EngagementScorer.js:34-36 | a non-negative value over the list maximum, or the fallback, lies in [0, 1] |
| EngagementScorer.DivideAtMost | lib/brain/EngagementScorer.js:34-36 | a value no larger than a positive divisor gives a quotient at most 1 |
| EngagementScorer.RoundedScoreBounds | lib/brain/EngagementScorer.js:60 | rounding a score in [0, 100] keeps it in [0, 100] |
| EngagementScorer.ScoreVideoBounds | lib/brain/EngagementScorer.js:32-62 | DNA values in [0, 1], raw and rounded score in [0, 100] |
| EngagementScorer.RankBounds | lib/brain/EngagementScorer.js:23-66 | every ranked entry has its DNA in [0, 1] and its scores in [0, 100] |
| EngagementScorer.RankEntryOfVideo | lib/brain/EngagementScorer.js:52-65 | each ranked entry is one input video scored against the whole list's divisors |
| EngagementScorer.ScoreVideoDna | lib/brain/EngagementScorer.js:55-60 | the velocity score times its divisor is the velocity; the quality is the mean of the two ratio scores; the score is the raw score rounded |
| PatternLearner.Sample | lib/brain/PatternLearner.js:19-20 | the first min(5, n) videos |
| PatternLearner.SampleSeconds | lib/brain/PatternLearner.js:27-34 | throws iff some duration throws, and then with the message of the first duration that throws; otherwise every duration in seconds, in order |
| PatternLearner.Mean | lib/brain/PatternLearner.js:35 | the mean times the number of durations is their sum, and it is non-negative |
| PatternLearner.Round | lib/brain/PatternLearner.js:54 | `Math.round`: within a half of the input, halves rounding up |
| PatternLearner.WordRun | lib/brain/PatternLearner.js:39 | the word run from `pos` consists of word characters and is maximal |
| PatternLearner.RunStarts | lib/brain/PatternLearner.js:39 | every listed position from `p` on starts a run of word characters (a word character with none before it) |
| PatternLearner.RunStartsComplete | lib/brain/PatternLearner.js:39 | every run start at or after `p` is listed |
| PatternLearner.RunStartsIncreasing | lib/brain/PatternLearner.js:39 | the run starts are listed in increasing order |
| PatternLearner.NoStartsBetween | lib/brain/PatternLearner.js:39 | skipping positions where no run starts leaves the list of run starts unchanged |
| PatternLearner.WordsFromRuns | lib/brain/PatternLearner.js:39 | from a position that does not cut a run, the matches are exactly the runs of word characters at the listed run starts, one each, in order |
| PatternLearner.WordsFrom | lib/brain/PatternLearner.js:39 | every match from `pos` on is non-empty; which runs they are is stated by `WordsFromRuns` |
| PatternLearner.Words | lib/brain/PatternLearner.js:39 | the matches of `/\b\w+\b/g` are exactly the maximal runs of word characters: one per run start, in order, each the whole run from there; each is non-empty and occurs in the string |
| PatternLearner.TitleWords | lib/brain/PatternLearner.js:38-39 | the words of the joined, lower-cased titles are non-empty and made of lower-case letters, digits and underscores |
| PatternLearner.CountedKeysSnoc | lib/brain/PatternLearner.js:43-45 | one more word adds a key only when it is counted and new |
| PatternLearner.FrequencyTableSpec | lib/brain/PatternLearner.js:43-45 | the table has an entry for exactly the counted words, holding their frequencies |
| PatternLearner.FrequencyTableSnoc | lib/brain/PatternLearner.js:44 | one more word: no change unless counted; otherwise its entry goes up by one, or starts at 1 |
| PatternLearner.FrequencyTable | lib/brain/PatternLearner.js:43-45 | the `frequency` object the `forEach` fills: a counted word starts at 1 and goes up by one per occurrence; its keys and counts are stated by `FrequencyTableSpec` |
| PatternLearner.TableHasKey | lib/brain/PatternLearner.js:43-45 | a word has a table entry iff it is one of the table's keys |
| PatternLearner.CountStep | lib/brain/PatternLearner.js:43-45 | one loop turn keeps the keys and table in step with the words read |
| PatternLearner.CountFrequencies | lib/brain/PatternLearner.js:43-45 | the `forEach` loop produces exactly the specified table and key order |
| PatternLearner.EntriesFrom | lib/brain/PatternLearner.js:47 | one entry per key, in the given order, holding the key's count |
| PatternLearner.Entries | lib/brain/PatternLearner.js:47 | `Object.entries(frequency)`: one entry per counted word in property order, holding its number of occurrences; stated by `EntriesAreCounted` and `EntriesOfTable` |
| PatternLearner.TopKeywords | lib/brain/PatternLearner.js:47-50 | at most five keywords |
| PatternLearner.CountedKeysSpec | lib/brain/PatternLearner.js:43-45 | the keys are exactly the counted words that occur, each once |
| PatternLearner.EntriesAreCounted | lib/brain/PatternLearner.js:47 | each entry is a counted title word with its number of occurrences |
| PatternLearner.EntryOf | lib/brain/PatternLearner.js:47 | every counted title word has its entry |
| PatternLearner.EntriesDistinct | lib/brain/PatternLearner.js:47 | no two entries are alike |
| PatternLearner.Ranked | lib/brain/PatternLearner.js:48 | as many ranked entries as entries, in non-increasing count |
| PatternLearner.RankedFrom | lib/brain/PatternLearner.js:48 | every ranked entry is an entry of the table |
| PatternLearner.TopKeywordsAreRanked | lib/brain/PatternLearner.js:48-50 | the keywords are the words of the first five ranked entries |
| PatternLearner.TopKeywordsAreCounted | lib/brain/PatternLearner.js:44-50 | each keyword is a title word that is not a stop word and has more than two characters |
| PatternLearner.TopKeywordsByFrequency | lib/brain/PatternLearner.js:48 | keywords come in non-increasing frequency |
| PatternLearner.TopKeywordsDistinct | lib/brain/PatternLearner.js:47-50 | no keyword appears twice |
| PatternLearner.TopKeywordsAreMostFrequent | lib/brain/PatternLearner.js:47-50 | a counted word left out is no more frequent than any keyword |
| PatternLearner.KeywordTiesKeepTableOrder | lib/brain/PatternLearner.js:48 | keywords of equal frequency keep the table's key order |
| PatternLearner.EntriesOfTable | lib/brain/PatternLearner.js:47 | reading the filled table gives the specified entries |
| PatternLearner.ExtractProfile | lib/brain/PatternLearner.js:16-61 | null for no videos; the error of the first duration that throws, with its message; otherwise the profile: rounded mean duration, pacing by the 60-second threshold, top keywords, fixed mood and hook, references |
| PatternLearner.MissingMatchFails | lib/brain/PatternLearner.js:27-28 | a sampled duration without "PT" makes the extraction fail |
| DecisionEngine.SafeCompetition | lib/brain/DecisionEngine.js:9 | a density of 0 becomes 1; any other is kept; the result is never 0 |
| DecisionEngine.RawScore | lib/brain/DecisionEngine.js:13 | the raw score is volume × growth × (engagement + 1) over 1.5 × the safe competition |
| DecisionEngine.FinalScore | lib/brain/DecisionEngine.js:16 | half the raw score when risky, the raw score otherwise |
| DecisionEngine.Score | lib/brain/DecisionEngine.js:7-19 | the map over the trends: a copy of the trend with `trend_score` set to the final score; `ScoreChangesOnlyScore` states that nothing else changes |
| DecisionEngine.TrendScore | lib/brain/DecisionEngine.js:22 | the sort key: a trend's `trend_score` |
| DecisionEngine.Ranked | lib/brain/DecisionEngine.js:7-22 | the scored trends sorted by non-increasing score, as a permutation |
| DecisionEngine.PotentialOf | lib/brain/DecisionEngine.js:27 | HIGH POTENTIAL above 1000, MODERATE otherwise |
| DecisionEngine.Report | lib/brain/DecisionEngine.js:25-32 | min(3, n) analysed lines followed by the winner line |
| DecisionEngine.AnalyzeAndSelect | lib/brain/DecisionEngine.js:3-35 | no trends throws; otherwise the winner is the first ranked trend and the report is as above |
| DecisionEngine.ScoreChangesOnlyScore | lib/brain/DecisionEngine.js:18 | scoring changes only `trend_score` |
| DecisionEngine.RankedFromInput | lib/brain/DecisionEngine.js:7-22 | every ranked trend is an input trend, scored |
| DecisionEngine.WinnerIsFirstBest | lib/brain/DecisionEngine.js:22-31 | the winner has the largest score, and every earlier input trend scores strictly lower |
| UploadOptimizer.Days | lib/brain/UploadOptimizer.js:25 | one day key per trend |
| UploadOptimizer.Hours | lib/brain/UploadOptimizer.js:26-30 | one hour key per trend: its decimal numeral |
| UploadOptimizer.BestOutlierSpec | lib/brain/UploadOptimizer.js:20-36 | the outlier is the first trend with the largest positive viral ratio, otherwise none with ratio 0 |
| UploadOptimizer.BestOutlierStep | lib/brain/UploadOptimizer.js:33-36 | a trend replaces the outlier only with a strictly larger ratio |
| UploadOptimizer.ArgMax | lib/brain/UploadOptimizer.js:40-43 | the reduce returns one of the keys |
| UploadOptimizer.ArgMaxIsLastMax | lib/brain/UploadOptimizer.js:40-43 | the reduce picks a key with the largest count, and every later key counts strictly less |
| UploadOptimizer.HourKeyIsIndexKey | lib/brain/UploadOptimizer.js:30-43 | an hour numeral is an array-index key and reads back as the hour |
| UploadOptimizer.KeysCounted | lib/brain/UploadOptimizer.js:40 | every key of the counting object has been counted |
| UploadOptimizer.HourKeyOfTrend | lib/brain/UploadOptimizer.js:43-58 | an hour key is the numeral of some trend's hour |
| UploadOptimizer.MostFrequent | lib/brain/UploadOptimizer.js:40-43 | the chosen key is one of the counted values |
| UploadOptimizer.CountTrends | lib/brain/UploadOptimizer.js:23-37 | the `forEach` loop produces exactly the specified counts, key orders and outlier |
| UploadOptimizer.Analyze | lib/brain/UploadOptimizer.js:15-64 | null for no trends; otherwise the plan from the counts: best day and hour, formatted hour, outlier and evidence |
| UploadOptimizer.Plan | lib/brain/UploadOptimizer.js:40-63 | the best day is a day of some trend; the reasoning counts all trends and quotes the plan's own best day and formatted hour |
| UploadOptimizer.CountsAddUp | lib/brain/UploadOptimizer.js:23-31 | both counting objects add up to the number of trends |
| UploadOptimizer.BestDayIsMostFrequent | lib/brain/UploadOptimizer.js:40 | the best day is a day of some trend; none is more frequent; ties go to the last in key order |
| UploadOptimizer.BestHourIsMostFrequent | lib/brain/UploadOptimizer.js:43-59 | the best hour is some trend's hour; none is more frequent; a tied hour is not larger |
| UploadOptimizer.OutlierOfPlan | lib/brain/UploadOptimizer.js:47-60 | the plan's outlier, ratio and channel are those tracked by the loop |
| UploadOptimizer.EvidenceInInputOrder | lib/brain/UploadOptimizer.js:50-54 | the evidence covers the first min(5, n) trends in input order |
| ScriptGenerator.Detected | lib/brain/ScriptGenerator.ts:9-14 | a phrase is detected iff it is forbidden and the text contains it |
| ScriptGenerator.FullText | lib/brain/ScriptGenerator.ts:11 | the sections' texts lower-cased and joined with single spaces; searched by `Detected` |
| ScriptGenerator.Errors | lib/brain/ScriptGenerator.ts:13-17 | one `Detected filler` message per detected phrase, in list order; stated by `ReportedIffPresent`, `AtMostOneErrorPerPhrase` and `ErrorsInListOrder` |
| ScriptGenerator.Validate | lib/brain/ScriptGenerator.ts:7-20 | the loop pushes one message per detected phrase, in list order |
| ScriptGenerator.ForbiddenDistinct | lib/brain/ScriptGenerator.ts:9 | the four phrases are distinct |
| ScriptGenerator.FillerErrorInjective | lib/brain/ScriptGenerator.ts:15 | different phrases give different messages |
| ScriptGenerator.AtMostOneErrorPerPhrase | lib/brain/ScriptGenerator.ts:13-17 | at most four errors, no two the same |
| ScriptGenerator.ErrorsInListOrder | lib/brain/ScriptGenerator.ts:13-17 | of two phrases found, the earlier in the list is reported first |
| ScriptGenerator.ReportedIffPresent | lib/brain/ScriptGenerator.ts:14-15 | a phrase is reported if and only if the joined text contains it |
| ScriptGenerator.SectionPhraseReported | lib/brain/ScriptGenerator.ts:11-14 | a section whose lowered text contains a phrase is reported |
| ScriptGenerator.WelcomeBackReported | lib/brain/ScriptGenerator.ts:11-14 | "Welcome Back" in any section is reported |
| ScriptGenerator.SplitPhraseReported | lib/brain/ScriptGenerator.ts:11-14 | a phrase split over adjacent sections at its space is reported |
| ScriptGenerator.NoSectionsNoErrors | lib/brain/ScriptGenerator.ts:7-20 | no sections give no errors |
| MemorySystem.Learn | lib/brain/MemorySystem.js:30-36 | one more cycle, the topic appended, the baseline moved a tenth of the way to a better CTR, other fields kept |
| MemorySystem.Memory.constructor | lib/brain/MemorySystem.js:1-11 | an object holding the given content |
| MemorySystem.Persistence.constructor | lib/brain/MemorySystem.js:13-14 | a persistence layer over the given window flag and storage, with a fresh default object |
| MemorySystem.Persistence.Load | lib/brain/MemorySystem.js:16-21 | no window or nothing stored gives the shared default object; otherwise a new object with the stored content |
| MemorySystem.Persistence.Save | lib/brain/MemorySystem.js:23-26 | writes the content under the key when there is a window; otherwise nothing changes |
| MemorySystem.Persistence.RecordSuccess | lib/brain/MemorySystem.js:28-40 | the loaded object learns in place and is saved; with nothing stored it is the default object, which changes too |
| MemorySystem.Persistence.SaveThenLoad | lib/brain/MemorySystem.js:20-25 | saving then loading gives back the content, in a new object |
| MemorySystem.TwoSuccessesWithoutWindow | lib/brain/MemorySystem.js:17-31 | without a window two successes accumulate on the shared default: two cycles and both topics |
| MemorySystem.BaselineMonotone | lib/brain/MemorySystem.js:34-35 | the baseline never falls and rises only for a better CTR |
| MemorySystem.LearnAllCounts | lib/brain/MemorySystem.js:28-36 | n successes count n more cycles, append the topics in order and never lower the baseline |
| MemorySystem.LearnAll | lib/brain/MemorySystem.js:28-36 | several successes in a row, the learning step applied once per topic and CTR, in order; stated by `LearnAllCounts` |
| Store.NewLog | lib/store/index.ts:68-72 | the fresh id and timestamp win; the other fields come from the argument |
| Store.AppStore.constructor | lib/store/index.ts:36-57 | the initial state: inactive, module 0, the default configuration, an empty console, no artefacts |
| Store.AppStore.SetConfig | lib/store/index.ts:59 | the configuration is merged with the patch; nothing else changes |
| Store.AppStore.AddLog | lib/store/index.ts:67-75 | the new entry is first, followed by the newest 99 old entries; the console stays within 100; nothing else changes |
| Store.AppStore.StartSystem | lib/store/index.ts:77 | active, module 1; nothing else changes |
| Store.AppStore.StopSystem | lib/store/index.ts:78 | inactive, module kept; nothing else changes |
| Store.AppStore.SetModule | lib/store/index.ts:79 | any module id is taken as is; nothing else changes |
| Store.AppStore.SetTrends | lib/store/index.ts:61 | the trends are replaced; nothing else changes |
| Store.AppStore.SetSelectedTrend | lib/store/index.ts:62 | the selected trend is set; nothing else changes |
| Store.AppStore.SetScript | lib/store/index.ts:63 | the script is set; nothing else changes |
| Store.AppStore.SetVideoAsset | lib/store/index.ts:64 | the asset is set; nothing else changes |
| Store.AppStore.SetStrategyProfile | lib/store/index.ts:65 | the profile is set; nothing else changes |
| Store.PushLogShape | lib/store/index.ts:74 | the pushed entry is first, followed by the newest 99 older entries, and the length is capped at 100 |
| Store.PushLog | lib/store/index.ts:74 | `[newLog, ...logs].slice(0, 100)`; stated by `PushLogShape` |
| Store.MergeKeys | lib/store/index.ts:59 | for each of the nine keys: present in the patch takes the patch value, absent keeps the configuration's |
| Store.Merge | lib/store/index.ts:59 | `{ ...config, ...patch }` over the nine keys; stated by `MergeKeys` and `MergeIdentityIdempotent` |
| Store.MergeIdentityIdempotent | lib/store/index.ts:59 | an empty patch changes nothing; merging a patch twice is merging it once |
| Store.Reverse | lib/store/index.ts:74 | reversal keeps the length and mirrors the indices |
| Store.PushAllNewestFirst | lib/store/index.ts:67-75 | pushing entries one at a time leaves the newest 100 of all entries, newest first |
| Store.TakeOfCons | lib/store/index.ts:74 | cutting, pushing and cutting again is pushing and cutting once |
| DataSimulator.GenreOf | lib/brain/DataSimulator.ts:89-94 | tech iff a tech word occurs; finance iff no tech word and a finance word; fitness iff neither and a fitness word; default otherwise |
| DataSimulator.Templates | lib/brain/DataSimulator.ts:3-20 | the template group of a genre: six templates for the default group, eight for each of tech, finance and fitness |
| DataSimulator.Topic | lib/brain/DataSimulator.ts:41 | a template without the marker is kept as it is; otherwise the first marker is replaced, so the topic contains the genre and is as much longer as the genre is longer than the marker |
| DataSimulator.Scaled | lib/brain/DataSimulator.ts:32 | `Math.floor(r × n)` lies in [0, n) |
| DataSimulator.SimulatedTrend | lib/brain/DataSimulator.ts:31-86 | volume, growth, engagement and competition in their ranges; score as above; source by the 0.5 threshold; id with the `trend_` prefix |
| DataSimulator.FetchTrends | lib/brain/DataSimulator.ts:24-51 | one trend per template of the lower-cased genre's group |
| DataSimulator.GenerateSmartTrends | lib/brain/DataSimulator.ts:58-87 | eight trends, volume in [10, 99], each topic kept verbatim |
| DataSimulator.SmartTopics | lib/brain/DataSimulator.ts:59-68 | eight topics, each longer than the query it embeds |
| DataSimulator.TrendCount | lib/brain/DataSimulator.ts:31 | eight trends for tech, finance and fitness, six otherwise |
| DataSimulator.DailyIsTech | lib/brain/DataSimulator.ts:90 | "Daily Vlogs" is tech because lowered it contains "ai" |
| DataSimulator.TechBeforeFinance | lib/brain/DataSimulator.ts:90-91 | a genre with both a tech and a finance word is tech |
| DataSimulator.NamedTopicsVerbatim | lib/brain/DataSimulator.ts:3-41 | the named groups' templates have no marker, so their topics are the templates |
| DataSimulator.NoBracketTech | lib/brain/DataSimulator.ts:3-20 | no tech template contains `[` |
| DataSimulator.NoBracketFinance | lib/brain/DataSimulator.ts:3-20 | no finance template contains `[` |
| DataSimulator.NoBracketFitness | lib/brain/DataSimulator.ts:3-20 | no fitness template contains `[` |
| DataSimulator.ReplaceMarker | lib/brain/DataSimulator.ts:41 | a template with the marker once and no `[` before it gets the genre in its place |
| DataSimulator.DefaultTopicTruth | lib/brain/DataSimulator.ts:3-41 | "The Truth About [Niche]" becomes "The Truth About " + genre, in the genre's own case |
| DataSimulator.DefaultTopicStop | lib/brain/DataSimulator.ts:3-41 | "Stop Doing This in 2026" has no marker and is kept |
| DataSimulator.DefaultTopicTools | lib/brain/DataSimulator.ts:3-41 | the tools template gets the genre in place of its marker |
| DataSimulator.DefaultTopicMaster | lib/brain/DataSimulator.ts:3-41 | the mastery template gets the genre in place of its marker |
| DataSimulator.DefaultTopicMistakes | lib/brain/DataSimulator.ts:3-41 | the mistakes template gets the genre in place of its marker |
| DataSimulator.DefaultTopicHard | lib/brain/DataSimulator.ts:3-41 | the "hard" template gets the genre in place of its marker |
| DataSimulator.DefaultPrefixesPlain | lib/brain/DataSimulator.ts:3-20 | the text before each default marker, and the template without a marker, contain no `[` |
| DataSimulator.SmartTopicsEmbedQuery | lib/brain/DataSimulator.ts:59-77 | every smart trend's topic contains the query |
| ThumbnailGenerator.Unsorted | lib/brain/ThumbnailGenerator.js:6-28 | three variants with CTRs in [0.12, 0.17), [0.08, 0.12) and [0.05, 0.15) |
| ThumbnailGenerator.GenerateVariants | lib/brain/ThumbnailGenerator.js:3-31 | three variants, sorted by non-increasing CTR, a permutation of the written ones |
| ThumbnailGenerator.VariantsDescribed | lib/brain/ThumbnailGenerator.js:6-30 | every result variant belongs to the script, has the shared base id, its style's prompt and CTR range, and no other style |
| ThumbnailGenerator.StylesOnceEach | lib/brain/ThumbnailGenerator.js:6-30 | the result's styles are emotional, text-heavy and minimal, each once |
| ThumbnailGenerator.EmotionalBeforeTextHeavy | lib/brain/ThumbnailGenerator.js:12-30 | the emotional variant always precedes the text-heavy one, which is never first |
| PromptSynthesizer.OrDefault | lib/brain/PromptSynthesizer.js:31-51 | a missing or empty value gives the fallback, any other is kept |
| PromptSynthesizer.PromptParts | lib/brain/PromptSynthesizer.js:20-55 | the eighteen pieces of the filled template |
| PromptSynthesizer.GenerateSystemPrompt | lib/brain/PromptSynthesizer.js:17-55 | no profile gives exactly the error line; with a profile the prompt opens with the director introduction, so it is never the error line |
| PromptSynthesizer.PartInPrompt | lib/brain/PromptSynthesizer.js:20-55 | every template piece occurs in the prompt |
| PromptSynthesizer.MissingProfile | lib/brain/PromptSynthesizer.js:18 | without a profile the prompt is exactly "Error: No pattern profile generated." |
| PromptSynthesizer.GenreAndKeywordsInPrompt | lib/brain/PromptSynthesizer.js:22-27 | the prompt quotes the genre and lists the keywords joined by ", " |
| PromptSynthesizer.ProfileFiguresInPrompt | lib/brain/PromptSynthesizer.js:26-52 | the prompt states the profile's duration right after the brief's "Average Duration:" label, its pacing after "- Pacing:" and its visual mood after "- Visuals must be:" |
| PromptSynthesizer.ConstraintsInPrompt | lib/brain/PromptSynthesizer.js:31-51 | the tone is quoted, and the risk and goal follow their labels, each defaulting to Professional, Medium and Reach |
| VideoRenderer.InitializeRender | lib/brain/VideoRenderer.ts:5-14 | a rendering asset for the script: progress 0, no thumbnail, a `vid_` id, nothing deployed |
| VideoRenderer.DetermineStyle | lib/brain/VideoRenderer.ts:17-22 | animation iff the lowered title contains "agent" or "future", mixed otherwise, never stock |
| VideoRenderer.FutureTitleAnimated | lib/brain/VideoRenderer.ts:18 | a title with "FUTURE" is animated |
| ViralManager.IdentifyWinningNiche | lib/brain/ViralManager.js:17-56 | the loop over the scans returns the specified winning niche |
| ViralManager.AverageVelocity | lib/brain/ViralManager.js:36-37 | the mean velocity of the first three videos, a missing velocity counting 0; bounded by `AverageWithinSample` |
| ViralManager.Results | lib/brain/ViralManager.js:28-45 | at most one entry per candidate, each the niche and mean velocity of a measured scan |
| ViralManager.WinningNiche | lib/brain/ViralManager.js:24-52 | "SillyMee Style" without results, otherwise the niche of the first result after sorting by descending velocity; stated by `DefaultUnlessMeasured` and `WinnerIsFirstFastest` |
| ViralManager.UploadMetadata | lib/brain/ViralManager.js:143-147 | the title kept; the description is the header then the concept; the tags are #SillyMee, #Shorts, then the hashtags |
| ViralManager.ExecuteUploadCycle | lib/brain/ViralManager.js:129-160 | `Ok(Blocked)` (the `false` return) iff blocked; an upload result only when the upload succeeded and recording did not throw; an error only when not blocked and the upload or the recording threw, carrying the upload's message if the upload threw and otherwise the recording's |
| ViralManager.RunFullCycle | lib/brain/ViralManager.js:166-176 | the first phase that throws, intelligence, content or upload cycle, gives `Failed` with its message; success iff every phase succeeds, carrying the upload cycle's result |
| ViralManager.DefaultUnlessMeasured | lib/brain/ViralManager.js:24-52 | no measured niche keeps "SillyMee Style"; otherwise the winner is a measured candidate |
| ViralManager.WinnerIsFirstFastest | lib/brain/ViralManager.js:36-50 | the winner is the first measured candidate with the largest mean velocity |
| ViralManager.SumRealBounds | lib/brain/ViralManager.js:37 | a sum of n velocities lies between n × the smallest and n × the largest |
| ViralManager.AverageWithinSample | lib/brain/ViralManager.js:36-37 | the mean lies between the smallest and largest of the first three velocities, a missing one counting 0 |
| ViralManager.OnlyTopThreeCount | lib/brain/ViralManager.js:36 | videos after the third do not change the mean |
| ViralManager.GateIgnoresCase | lib/brain/ViralManager.js:134 | "BANNED_WORD" anywhere in the title blocks the upload |

## Left out

- Network latency and `setTimeout` delays in `fetchTrends` and `fetchSmartTrends` are left out. `fetchSmartTrends` is otherwise `generateSmartTrends`.
- `Math.random()`, `new Date()` and `Date` arithmetic are parameters: draws in [0, 1), ages in hours or days, and weekday/hour keys per trend. Time-zone and locale formatting are not modelled.
- `Math.random().toString(36).substr(...)` ids are parameters. The model keeps only the fixed prefixes (`trend_`, `thumb_`, `vid_`) and the per-variant letters.
- Floating point is modelled as exact reals. `toFixed(2)` is modelled as rounding the exact value to the nearest hundredth with halves up (`Numbers.RoundToHundredths`); the rounding of the binary double is not. The report lines of `analyzeAndSelect` and the reasoning text of `analyze` carry the exact score instead of its `toFixed(1)` rendering. NaN and Infinity (for example a missing `view_velocity` reaching `Math.max`) are not modelled.
- `parseInt` on numerals too long for a double is modelled as exact.
- Text.Lower: lowers only the ASCII letters A-Z. JavaScript's `toLowerCase` applies full Unicode case mapping, so "İ" (U+0130) becomes the two code units "i̇" and the Kelvin sign U+212A becomes "k"; such text is not modelled faithfully in the genre test of `fetchTrends`, the title words of `extractPatterns` or the filler check of `validate`.
- Strings are sequences of characters, not of UTF-16 code units. `substring`, `length` and `slice` on text with characters outside the Basic Multilingual Plane (emoji, for instance) count differently in JavaScript, which affects the 20-character title prefix of the upload optimizer's evidence.
- FrequencyTableSpec: the keyword table is a plain map with one entry per counted word. The source's table is the object literal `{}`, which inherits `__proto__`, `constructor`, `toString`, `valueOf` and the other `Object.prototype` names. Counting "__proto__" does nothing there, and counting one of the other names stores a string (the function's text followed by "1"). A string count makes the `b - a` comparator return NaN, so the order `sort` then gives is implementation-defined. Titles containing these words are not modelled faithfully.
- PatternLearner.CountFrequencies: the loop is proved against that plain map, so it has the same gap: the table is modelled without `Object.prototype`'s keys.
- YouTube, Gemini, Pexels, Replicate, Veo and the OAuth flow are not modelled. Their results are inputs: search items, channel items, scan results, the niche candidates from `GeminiBrain.generateTrendIdeas`, and upload results.
- `ViralManager.runDailyIntelligence` and `generateDailyContent` are not modelled. Their outcomes are parameters of `RunFullCycle`.
- `ViralManager.ExecuteUploadCycle`: `MemorySystem.recordUpload` does not exist in `MemorySystem.js`, so the call throws a TypeError after a successful upload. The model takes whatever that call throws as the `recordError` parameter.
- JavaScript `replace` treats `$&`, `$1` and similar sequences in the replacement specially. The model replaces literally, so a genre containing `$` is not modelled faithfully.
- `console.log`, `console.warn` and `console.error` output is left out. The `maxVelocity` log value in `identifyWinningNiche` is left out too.
- `MemorySystem` `JSON.stringify`/`JSON.parse` is modelled as an exact round trip of the memory's content. The `blacklisted_topics` and `hook_weights` fields are carried but never change.
- `Store.AppStore.SetConfig`: a key present in the patch with the value `undefined` overwrites the configuration with `undefined`. The model only has present-with-value and absent keys.
- `lib/store/index.js` and `lib/brain/VideoRenderer.js` duplicate the `.ts` files modelled here and are not part of this model.
- The second `validate` at `lib/brain/ScriptGenerator.ts:23-37` lies outside the class and does not parse. Only the method at lines 7-20 is modelled.
- `Array.prototype.sort` is modelled as a stable sort by key. That is what the engines rely on for ties.
- `UploadOptimizer.CountTrends` is the `forEach` of `analyze`, split out as its own method. `analyze` reads the counts it returns.
- `GeminiBrain`, `StrategyAgent`, the React components, the server actions and routes, `scripts/server_bridge.py` and `scripts/test-brain.js` are not part of this model.
