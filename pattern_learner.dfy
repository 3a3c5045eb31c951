/**
 * `PatternLearner.extractProfile` (lib/brain/PatternLearner.js): the "winning
 * pattern" of the top videos — the rounded mean duration of the first five, a
 * pacing label, the five most frequent title words that are not stop words, and
 * the titles and ids of the sample.
 */
module PatternLearner {
  import opened Wrappers
  import opened Text
  import opened Collections
  import opened Sorting
  import opened ObjectKeys
  import Duration
  import YouTube

  /** At most this many of the top videos are analysed. */
  const SampleLimit: nat := 5
  /** At most this many keywords are kept. */
  const KeywordLimit: nat := 5

  const StopWords: set<string> := {"the", "and", "to", "of", "a", "in", "for", "is", "on", "with", "video", "how"}

  const FastPacing: string := "Fast / Viral Shorts"
  const LongformPacing: string := "Deep Dive / Longform"
  const VisualMood: string := "High Contrast (Inferred)"
  const HookStyle: string := "Direct Question or Shock"

  datatype ReferenceVideo = ReferenceVideo(title: string, id: string)

  datatype PatternProfile = PatternProfile(
    targetDurationSec: int,
    pacingStyle: string,
    keywords: seq<string>,
    visualMood: string,
    hookStyle: string,
    referenceVideos: seq<ReferenceVideo>)

  /** The outcome of `extractProfile`: `null`, a profile, or an error thrown by `getSeconds`. */
  datatype Extraction = NoProfile | Profile(profile: PatternProfile) | Failed(message: string)

  // ---------------------------------------------------------------------------
  // Durations

  /** `topVideos.slice(0, Math.min(topVideos.length, 5))`. */
  function Sample(topVideos: seq<YouTube.Video>): (r: seq<YouTube.Video>)
    ensures |r| == if |topVideos| < SampleLimit then |topVideos| else SampleLimit
    ensures r == topVideos[..|r|]
  {
    Take(topVideos, SampleLimit)
  }

  /** Reading the duration of `sample[i]` throws, and none before it does. */
  predicate FirstThrown(sample: seq<YouTube.Video>, i: nat)
    requires i < |sample|
  {
    Duration.GetSeconds(sample[i].durationIso).Thrown? &&
    forall j :: 0 <= j < i ==> Duration.GetSeconds(sample[j].durationIso).Ok?
  }

  /** The first duration of `sample` that throws does so with `message`. */
  predicate FirstThrowsWith(sample: seq<YouTube.Video>, message: string) {
    exists i :: 0 <= i < |sample| && FirstThrown(sample, i) && Duration.GetSeconds(sample[i].durationIso).message == message
  }

  /** The head throws: its error is the first. */
  lemma HeadThrows(sample: seq<YouTube.Video>)
    requires |sample| > 0 && Duration.GetSeconds(sample[0].durationIso).Thrown?
    ensures FirstThrowsWith(sample, Duration.GetSeconds(sample[0].durationIso).message)
  {
    assert FirstThrown(sample, 0);
  }

  /** The head does not throw: the first error of the tail is the first of all. */
  lemma TailThrows(sample: seq<YouTube.Video>, message: string)
    requires |sample| > 0 && Duration.GetSeconds(sample[0].durationIso).Ok? && FirstThrowsWith(sample[1..], message)
    ensures FirstThrowsWith(sample, message)
  {
    var i :| 0 <= i < |sample[1..]| && FirstThrown(sample[1..], i) && Duration.GetSeconds(sample[1..][i].durationIso).message == message;
    assert forall j :: 0 < j <= i + 1 ==> sample[j] == sample[1..][j - 1];
    assert FirstThrown(sample, i + 1);
  }

  /** `winners.map(v => getSeconds(v.duration_iso))`: the first error thrown, or every duration in seconds. */
  function SampleSeconds(sample: seq<YouTube.Video>): (r: Try<seq<nat>>)
    ensures r.Thrown? <==> exists i :: 0 <= i < |sample| && Duration.GetSeconds(sample[i].durationIso).Thrown?
    ensures r.Ok? ==> |r.value| == |sample|
    ensures r.Ok? ==> forall i :: 0 <= i < |sample| ==> r.value[i] == Duration.ParseDuration(sample[i].durationIso)
    ensures r.Thrown? ==> FirstThrowsWith(sample, r.message)
  {
    if sample == [] then Ok([])
    else match Duration.GetSeconds(sample[0].durationIso)
      case Thrown(msg) =>
        HeadThrows(sample);
        Thrown(msg)
      case Ok(first) =>
        match SampleSeconds(sample[1..])
        case Thrown(msg) =>
          ghost var i :| 0 <= i < |sample[1..]| && Duration.GetSeconds(sample[1..][i].durationIso).Thrown?;
          assert Duration.GetSeconds(sample[i + 1].durationIso).Thrown?;
          TailThrows(sample, msg);
          Thrown(msg)
        case Ok(rest) =>
          forall i | 0 <= i < |sample|
            ensures Duration.GetSeconds(sample[i].durationIso).Ok?
            ensures ([first] + rest)[i] == Duration.ParseDuration(sample[i].durationIso)
          {
            if i > 0 {
              assert sample[i] == sample[1..][i - 1];
            }
          }
          Ok([first] + rest)
  }

  function Sum(xs: seq<nat>): nat {
    if xs == [] then 0 else xs[0] + Sum(xs[1..])
  }

  /** `durations.reduce((a, b) => a + b, 0) / durations.length`. */
  function Mean(xs: seq<nat>): (r: real)
    requires |xs| > 0
    ensures r * (|xs| as real) == Sum(xs) as real
    ensures r >= 0.0
  {
    Sum(xs) as real / |xs| as real
  }

  /** `Math.round(x)`: the nearest integer, halves rounded up. */
  function Round(x: real): (r: int)
    ensures r as real <= x + 0.5 < r as real + 1.0
  {
    (x + 0.5).Floor
  }

  // ---------------------------------------------------------------------------
  // Words

  /** `\w`: an ASCII letter, a digit or `_`. */
  predicate IsWordChar(c: char) {
    'a' <= c <= 'z' || 'A' <= c <= 'Z' || '0' <= c <= '9' || c == '_'
  }

  /** The length of the run of word characters starting at `pos`. */
  function WordRun(s: string, pos: nat): (n: nat)
    requires pos <= |s|
    ensures pos + n <= |s|
    ensures forall i :: pos <= i < pos + n ==> IsWordChar(s[i])
    ensures pos + n == |s| || !IsWordChar(s[pos + n])
    decreases |s| - pos
  {
    if pos < |s| && IsWordChar(s[pos]) then 1 + WordRun(s, pos + 1) else 0
  }

  /** A match of `/\b\w+\b/` starts at `q`: a word character with no word character right before it. */
  predicate RunStart(s: string, q: nat) {
    q < |s| && IsWordChar(s[q]) && (q == 0 || !IsWordChar(s[q - 1]))
  }

  /** The positions from `p` on where a run of word characters starts, in increasing order. */
  function RunStarts(s: string, p: nat): (r: seq<nat>)
    requires p <= |s|
    ensures forall i :: 0 <= i < |r| ==> p <= r[i] < |s| && RunStart(s, r[i])
    decreases |s| - p
  {
    if p == |s| then [] else (if RunStart(s, p) then [p] else []) + RunStarts(s, p + 1)
  }

  /** The run starts are listed in increasing order. */
  lemma {:induction false} RunStartsIncreasing(s: string, p: nat)
    requires p <= |s|
    ensures forall i, j :: 0 <= i < j < |RunStarts(s, p)| ==> RunStarts(s, p)[i] < RunStarts(s, p)[j]
    decreases |s| - p
  {
    if p < |s| {
      RunStartsIncreasing(s, p + 1);
    }
  }

  /** Every run start at or after `p` is listed. */
  lemma {:induction false} RunStartsComplete(s: string, p: nat, q: nat)
    requires p <= q && RunStart(s, q)
    ensures q in RunStarts(s, p)
    decreases q - p
  {
    if p < q {
      RunStartsComplete(s, p + 1, q);
    }
  }

  /** Skipping positions where no run starts leaves the list of starts unchanged. */
  lemma {:induction false} NoStartsBetween(s: string, a: nat, b: nat)
    requires a <= b <= |s|
    requires forall q :: a <= q < b ==> !RunStart(s, q)
    ensures RunStarts(s, a) == RunStarts(s, b)
    decreases b - a
  {
    if a < b {
      NoStartsBetween(s, a + 1, b);
    }
  }

  /** `pos` does not cut a run of word characters in two. */
  predicate AtBoundary(s: string, pos: nat) {
    pos == 0 || pos >= |s| || !IsWordChar(s[pos - 1]) || !IsWordChar(s[pos])
  }

  /** The run of word characters that starts at `q`. */
  function RunAt(s: string, q: nat): string
    requires q < |s|
  {
    s[q..q + WordRun(s, q)]
  }

  /** The matches of `/\b\w+\b/g` from `pos` on: the maximal runs of word characters. */
  function WordsFrom(s: string, pos: nat): (r: seq<string>)
    requires pos <= |s|
    ensures forall i :: 0 <= i < |r| ==> |r[i]| > 0
    decreases |s| - pos
  {
    if pos == |s| then []
    else if !IsWordChar(s[pos]) then WordsFrom(s, pos + 1)
    else [RunAt(s, pos)] + WordsFrom(s, pos + WordRun(s, pos))
  }

  /** The run at a run start is non-empty and occurs in the string. */
  lemma RunAtOccurs(s: string, q: nat)
    requires RunStart(s, q)
    ensures |RunAt(s, q)| > 0 && Contains(s, RunAt(s, q))
  {
    assert WordRun(s, q) >= 1;
    ContainsAt(s, RunAt(s, q), q);
  }

  /** `words` are the runs of word characters of `s` at `starts`, one each, in order. */
  predicate RunsAt(s: string, words: seq<string>, starts: seq<nat>) {
    |words| == |starts| && forall i :: 0 <= i < |starts| ==> starts[i] < |s| && words[i] == RunAt(s, starts[i])
  }

  /** One more run in front of runs at later starts. */
  lemma RunsAtCons(s: string, q: nat, words: seq<string>, starts: seq<nat>)
    requires q < |s| && RunsAt(s, words, starts)
    ensures RunsAt(s, [RunAt(s, q)] + words, [q] + starts)
  {
    var w, st := [RunAt(s, q)] + words, [q] + starts;
    forall i | 0 <= i < |st| ensures st[i] < |s| && w[i] == RunAt(s, st[i]) {
      if i > 0 {
        assert st[i] == starts[i - 1] && w[i] == words[i - 1];
      }
    }
  }

  /**
   * From a position that does not cut a run, the matches are exactly the
   * maximal runs of word characters, one per run start, in order.
   */
  lemma {:induction false} WordsFromRuns(s: string, pos: nat)
    requires pos <= |s| && AtBoundary(s, pos)
    ensures RunsAt(s, WordsFrom(s, pos), RunStarts(s, pos))
    decreases |s| - pos
  {
    if pos == |s| {
    } else if !IsWordChar(s[pos]) {
      assert !RunStart(s, pos);
      assert RunStarts(s, pos) == RunStarts(s, pos + 1);
      assert WordsFrom(s, pos) == WordsFrom(s, pos + 1);
      WordsFromRuns(s, pos + 1);
    } else {
      var n := WordRun(s, pos);
      assert n >= 1;
      assert RunStart(s, pos);
      NoStartsBetween(s, pos + 1, pos + n);
      WordsFromRuns(s, pos + n);
      assert RunStarts(s, pos) == [pos] + RunStarts(s, pos + n);
      assert WordsFrom(s, pos) == [RunAt(s, pos)] + WordsFrom(s, pos + n);
      RunsAtCons(s, pos, WordsFrom(s, pos + n), RunStarts(s, pos + n));
    }
  }

  /**
   * `allTitles.match(/\b\w+\b/g) || []`: one match per run start of `s`, in
   * order, each the whole run of word characters from there.
   */
  function Words(s: string): (r: seq<string>)
    ensures forall i :: 0 <= i < |r| ==> |r[i]| > 0 && Contains(s, r[i])
    ensures |r| == |RunStarts(s, 0)|
    ensures forall i :: 0 <= i < |r| ==> r[i] == RunAt(s, RunStarts(s, 0)[i])
  {
    WordsFromRuns(s, 0);
    var r := WordsFrom(s, 0);
    forall i | 0 <= i < |r| ensures |r[i]| > 0 && Contains(s, r[i]) {
      RunAtOccurs(s, RunStarts(s, 0)[i]);
    }
    r
  }

  /** A non-empty word of lower-case letters, digits and underscores. */
  predicate IsLowerWord(w: string) {
    |w| > 0 && forall c :: c in w ==> 'a' <= c <= 'z' || '0' <= c <= '9' || c == '_'
  }

  /** The sample's titles joined with a space and lower-cased, split into words. */
  function TitleWords(sample: seq<YouTube.Video>): (r: seq<string>)
    ensures forall i :: 0 <= i < |r| ==> IsLowerWord(r[i])
  {
    var titles := Join(Map((v: YouTube.Video) => v.title, sample), " ");
    var r := Words(Lower(titles));
    forall i | 0 <= i < |r| ensures IsLowerWord(r[i]) {
      LowerRunIsLowerWord(titles, RunStarts(Lower(titles), 0)[i]);
    }
    r
  }

  /** A run of word characters in lower-cased text is a lower-case word. */
  lemma LowerRunIsLowerWord(t: string, q: nat)
    requires RunStart(Lower(t), q)
    ensures IsLowerWord(RunAt(Lower(t), q))
  {
    var s := Lower(t);
    var w := RunAt(s, q);
    forall c | c in w ensures 'a' <= c <= 'z' || '0' <= c <= '9' || c == '_' {
      var j :| 0 <= j < |w| && w[j] == c;
      assert c == s[q + j] && IsWordChar(s[q + j]);
    }
  }

  // ---------------------------------------------------------------------------
  // The frequency table

  /** A word gets an entry in the table: it is not a stop word and is longer than two characters. */
  predicate Counted(w: string, stopWords: set<string>) {
    w !in stopWords && |w| > 2
  }

  /** The number of times `w` occurs among `words`. */
  function Frequency(words: seq<string>, w: string): nat {
    multiset(words)[w]
  }

  /** The table's keys in insertion order: each counted word once, where it first occurs. */
  function CountedKeys(words: seq<string>, stopWords: set<string>): seq<string> {
    if words == [] then []
    else
      var keys := CountedKeys(words[..|words| - 1], stopWords);
      var w := words[|words| - 1];
      if Counted(w, stopWords) && w !in keys then keys + [w] else keys
  }

  /** One more word adds it to the keys when it is counted and new, and changes nothing otherwise. */
  lemma CountedKeysSnoc(words: seq<string>, w: string, stopWords: set<string>)
    ensures CountedKeys(words + [w], stopWords)
         == if Counted(w, stopWords) && w !in CountedKeys(words, stopWords) then CountedKeys(words, stopWords) + [w] else CountedKeys(words, stopWords)
  {
    assert (words + [w])[..|words|] == words;
  }

  /** The `frequency` object after the `forEach` over `words`, as a specification. */
  function FrequencyTable(words: seq<string>, stopWords: set<string>): map<string, nat> {
    if words == [] then map[]
    else
      var table := FrequencyTable(words[..|words| - 1], stopWords);
      var w := words[|words| - 1];
      if !Counted(w, stopWords) then table
      else if w in table then table[w := table[w] + 1]
      else table[w := 1]
  }

  /** The table has an entry for exactly the counted words, holding their number of occurrences. */
  lemma {:induction false} FrequencyTableSpec(words: seq<string>, stopWords: set<string>)
    ensures forall w :: w in FrequencyTable(words, stopWords) <==> w in CountedKeys(words, stopWords)
    ensures forall w :: w in FrequencyTable(words, stopWords) ==> FrequencyTable(words, stopWords)[w] == Frequency(words, w)
  {
    if words != [] {
      var init := words[..|words| - 1];
      var w := words[|words| - 1];
      assert words == init + [w];
      FrequencyTableSpec(init, stopWords);
      CountedKeysSpec(init, stopWords);
      var table, keys := FrequencyTable(init, stopWords), CountedKeys(init, stopWords);
      assert multiset(words) == multiset(init) + multiset{w};
      if !Counted(w, stopWords) {
        assert FrequencyTable(words, stopWords) == table && CountedKeys(words, stopWords) == keys;
      } else if w in table {
        assert FrequencyTable(words, stopWords) == table[w := table[w] + 1] && CountedKeys(words, stopWords) == keys;
      } else {
        assert FrequencyTable(words, stopWords) == table[w := 1] && CountedKeys(words, stopWords) == keys + [w];
        assert multiset(init)[w] == 0;
      }
    }
  }

  lemma FrequencyTableSnoc(words: seq<string>, w: string, stopWords: set<string>)
    ensures FrequencyTable(words + [w], stopWords) ==
      if !Counted(w, stopWords) then FrequencyTable(words, stopWords)
      else if w in FrequencyTable(words, stopWords) then FrequencyTable(words, stopWords)[w := FrequencyTable(words, stopWords)[w] + 1]
      else FrequencyTable(words, stopWords)[w := 1]
  {
    assert (words + [w])[..|words|] == words;
  }

  lemma TableHasKey(words: seq<string>, w: string, stopWords: set<string>)
    ensures w in FrequencyTable(words, stopWords) <==> w in CountedKeys(words, stopWords)
  {
    FrequencyTableSpec(words, stopWords);
  }

  /** One turn of the counting loop keeps the keys and the table in step with the words read so far. */
  lemma CountStep(words: seq<string>, k: nat, keys: seq<string>, frequency: map<string, nat>, stopWords: set<string>)
    requires k < |words| && keys == CountedKeys(words[..k], stopWords) && frequency == FrequencyTable(words[..k], stopWords)
    ensures var w := words[k];
      && (Counted(w, stopWords) && w !in frequency ==>
            keys + [w] == CountedKeys(words[..k + 1], stopWords) && frequency[w := 1] == FrequencyTable(words[..k + 1], stopWords))
      && (Counted(w, stopWords) && w in frequency ==>
            keys == CountedKeys(words[..k + 1], stopWords) && frequency[w := frequency[w] + 1] == FrequencyTable(words[..k + 1], stopWords))
      && (!Counted(w, stopWords) ==>
            keys == CountedKeys(words[..k + 1], stopWords) && frequency == FrequencyTable(words[..k + 1], stopWords))
  {
    var w := words[k];
    TableHasKey(words[..k], w, stopWords);
    assert words[..k + 1] == words[..k] + [w];
    FrequencyTableSnoc(words[..k], w, stopWords);
    CountedKeysSnoc(words[..k], w, stopWords);
  }

  /** The `words.forEach` that fills the `frequency` object, and the order its keys were added in. */
  method CountFrequencies(words: seq<string>, stopWords: set<string>) returns (keys: seq<string>, frequency: map<string, nat>)
    ensures keys == CountedKeys(words, stopWords)
    ensures frequency == FrequencyTable(words, stopWords)
  {
    keys := [];
    frequency := map[];
    var k := 0;
    while k < |words|
      invariant 0 <= k <= |words|
      invariant keys == CountedKeys(words[..k], stopWords)
      invariant frequency == FrequencyTable(words[..k], stopWords)
    {
      var w := words[k];
      CountStep(words, k, keys, frequency, stopWords);
      if Counted(w, stopWords) {
        if w !in frequency {
          keys := keys + [w];
          frequency := frequency[w := 1];
        } else {
          frequency := frequency[w := frequency[w] + 1];
        }
      }
      k := k + 1;
    }
    assert words[..k] == words;
  }

  /** One entry of `Object.entries(frequency)`. */
  datatype Entry = Entry(word: string, count: nat)

  function EntryCount(e: Entry): real {
    e.count as real
  }

  function EntryWord(e: Entry): string {
    e.word
  }

  /** `Object.entries(frequency)`, as the table's specification. */
  function Entries(words: seq<string>, stopWords: set<string>): seq<Entry> {
    Map((k: string) => Entry(k, Frequency(words, k)), PropertyOrder(CountedKeys(words, stopWords)))
  }

  /** `Object.entries(frequency)` read from a filled table, in the given key order. */
  function EntriesFrom(order: seq<string>, frequency: map<string, nat>): (r: seq<Entry>)
    requires forall i :: 0 <= i < |order| ==> order[i] in frequency
    ensures |r| == |order|
    ensures forall i :: 0 <= i < |order| ==> r[i] == Entry(order[i], frequency[order[i]])
  {
    seq(|order|, i requires 0 <= i < |order| => Entry(order[i], frequency[order[i]]))
  }

  /** `.sort(([, a], [, b]) => b - a).slice(0, 5).map(([word]) => word)`. */
  function TopKeywords(words: seq<string>, stopWords: set<string>): (r: seq<string>)
    ensures |r| <= KeywordLimit
  {
    Map(EntryWord, Take(Ranked(words, stopWords), KeywordLimit))
  }

  // ---------------------------------------------------------------------------
  // What the keywords are

  /** The table's keys are exactly the counted words that occur, each once. */
  lemma {:induction false} CountedKeysSpec(words: seq<string>, stopWords: set<string>)
    ensures forall w :: w in CountedKeys(words, stopWords) <==> Counted(w, stopWords) && w in words
    ensures NoDuplicates(CountedKeys(words, stopWords))
  {
    if words != [] {
      var init := words[..|words| - 1];
      assert words == init + [words[|words| - 1]];
      CountedKeysSpec(init, stopWords);
    }
  }

  /** Each entry is a counted word of the titles, with its number of occurrences. */
  lemma EntriesAreCounted(words: seq<string>, stopWords: set<string>)
    ensures |Entries(words, stopWords)| == |CountedKeys(words, stopWords)|
    ensures forall i :: 0 <= i < |Entries(words, stopWords)| ==>
      var e := Entries(words, stopWords)[i];
      e.count == Frequency(words, e.word) && Counted(e.word, stopWords) && e.word in words
  {
    var keys := CountedKeys(words, stopWords);
    CountedKeysSpec(words, stopWords);
    PropertyOrderMembers(keys);
    var order := PropertyOrder(keys);
    forall i | 0 <= i < |order| ensures Counted(order[i], stopWords) && order[i] in words {
      assert order[i] in keys;
    }
  }

  /** Every counted word of the titles has its entry. */
  lemma EntryOf(words: seq<string>, stopWords: set<string>, w: string) returns (i: nat)
    requires Counted(w, stopWords) && w in words
    ensures i < |Entries(words, stopWords)| && Entries(words, stopWords)[i] == Entry(w, Frequency(words, w))
  {
    var keys := CountedKeys(words, stopWords);
    CountedKeysSpec(words, stopWords);
    PropertyOrderMembers(keys);
    var order := PropertyOrder(keys);
    assert w in keys;
    i :| 0 <= i < |order| && order[i] == w;
  }

  /** No two entries are alike. */
  lemma EntriesDistinct(words: seq<string>, stopWords: set<string>)
    ensures NoDuplicates(Entries(words, stopWords))
  {
    var keys := CountedKeys(words, stopWords);
    var order := PropertyOrder(keys);
    var es := Entries(words, stopWords);
    CountedKeysSpec(words, stopWords);
    NoDuplicatesPermutation(keys, order);
    forall i, j | 0 <= i < j < |es| ensures es[i] != es[j] {
      assert es[i].word == order[i] && es[j].word == order[j];
    }
  }

  /** The entries ranked by non-increasing count, ties in table order. */
  function Ranked(words: seq<string>, stopWords: set<string>): (r: seq<Entry>)
    ensures |r| == |Entries(words, stopWords)|
    ensures SortedDesc(r, EntryCount)
  {
    SortDesc(Entries(words, stopWords), EntryCount)
  }

  /** Every ranked entry is an entry of the table. */
  lemma RankedFrom(words: seq<string>, stopWords: set<string>, i: nat)
    requires i < |Ranked(words, stopWords)|
    ensures var e := Ranked(words, stopWords)[i];
      e.count == Frequency(words, e.word) && Counted(e.word, stopWords) && e.word in words
  {
    var j := SortDescFrom(Entries(words, stopWords), EntryCount, i);
    EntriesAreCounted(words, stopWords);
  }

  lemma TopKeywordsAreRanked(words: seq<string>, stopWords: set<string>)
    ensures var r := TopKeywords(words, stopWords);
      && |r| == (if |CountedKeys(words, stopWords)| < KeywordLimit then |CountedKeys(words, stopWords)| else KeywordLimit)
      && forall i :: 0 <= i < |r| ==> r[i] == Ranked(words, stopWords)[i].word
  {
    EntriesAreCounted(words, stopWords);
  }

  /** Each keyword is a word of the titles that is not a stop word and has more than two characters. */
  lemma TopKeywordsAreCounted(words: seq<string>, stopWords: set<string>)
    ensures forall i :: 0 <= i < |TopKeywords(words, stopWords)| ==>
      var w := TopKeywords(words, stopWords)[i];
      w in words && w !in stopWords && |w| > 2
  {
    TopKeywordsAreRanked(words, stopWords);
    forall i | 0 <= i < |TopKeywords(words, stopWords)|
      ensures Counted(TopKeywords(words, stopWords)[i], stopWords) && TopKeywords(words, stopWords)[i] in words
    {
      RankedFrom(words, stopWords, i);
    }
  }

  /** The keywords come in non-increasing frequency. */
  lemma TopKeywordsByFrequency(words: seq<string>, stopWords: set<string>)
    ensures forall i, j :: 0 <= i < j < |TopKeywords(words, stopWords)| ==>
      Frequency(words, TopKeywords(words, stopWords)[i]) >= Frequency(words, TopKeywords(words, stopWords)[j])
  {
    var r := TopKeywords(words, stopWords);
    var ranked := Ranked(words, stopWords);
    TopKeywordsAreRanked(words, stopWords);
    forall i, j | 0 <= i < j < |r| ensures Frequency(words, r[i]) >= Frequency(words, r[j]) {
      RankedFrom(words, stopWords, i);
      RankedFrom(words, stopWords, j);
      assert EntryCount(ranked[i]) >= EntryCount(ranked[j]);
    }
  }

  /** No keyword appears twice. */
  lemma TopKeywordsDistinct(words: seq<string>, stopWords: set<string>)
    ensures NoDuplicates(TopKeywords(words, stopWords))
  {
    var r := TopKeywords(words, stopWords);
    var ranked := Ranked(words, stopWords);
    TopKeywordsAreRanked(words, stopWords);
    EntriesDistinct(words, stopWords);
    NoDuplicatesPermutation(Entries(words, stopWords), ranked);
    forall i, j | 0 <= i < j < |r| ensures r[i] != r[j] {
      RankedFrom(words, stopWords, i);
      RankedFrom(words, stopWords, j);
      assert ranked[i] != ranked[j];
    }
  }

  /** A counted word that is not a keyword is no more frequent than any keyword. */
  lemma TopKeywordsAreMostFrequent(words: seq<string>, stopWords: set<string>, w: string)
    requires w in words && Counted(w, stopWords) && w !in TopKeywords(words, stopWords)
    ensures forall i :: 0 <= i < |TopKeywords(words, stopWords)| ==>
      Frequency(words, w) <= Frequency(words, TopKeywords(words, stopWords)[i])
  {
    var r := TopKeywords(words, stopWords);
    var ranked := Ranked(words, stopWords);
    TopKeywordsAreRanked(words, stopWords);
    var j := EntryOf(words, stopWords, w);
    var m := SortDescTo(Entries(words, stopWords), EntryCount, j);
    assert m >= |r| by {
      if m < |r| {
        assert false;
      }
    }
    forall i | 0 <= i < |r| ensures Frequency(words, w) <= Frequency(words, r[i]) {
      RankedFrom(words, stopWords, i);
      assert EntryCount(ranked[i]) >= EntryCount(ranked[m]);
    }
  }

  /** Keywords of equal frequency keep the table's key order: the sort is stable. */
  lemma KeywordTiesKeepTableOrder(words: seq<string>, count: nat, stopWords: set<string>)
    ensures KeyClass(Ranked(words, stopWords), EntryCount, count as real)
         == KeyClass(Entries(words, stopWords), EntryCount, count as real)
  {
    SortDescStable(Entries(words, stopWords), EntryCount, count as real);
  }

  /** Reading the filled table in `Object.entries` order gives the specified entries. */
  lemma EntriesOfTable(words: seq<string>, stopWords: set<string>)
    ensures var order := PropertyOrder(CountedKeys(words, stopWords));
      && (forall i :: 0 <= i < |order| ==> order[i] in FrequencyTable(words, stopWords))
      && EntriesFrom(order, FrequencyTable(words, stopWords)) == Entries(words, stopWords)
  {
    var keys := CountedKeys(words, stopWords);
    var order := PropertyOrder(keys);
    FrequencyTableSpec(words, stopWords);
    PropertyOrderMembers(keys);
    assert forall i :: 0 <= i < |order| ==> order[i] in keys;
  }

  // ---------------------------------------------------------------------------
  // The profile

  function Reference(v: YouTube.Video): ReferenceVideo {
    ReferenceVideo(v.title, v.videoId)
  }

  /**
   * `extractProfile`: `null` for no videos; the error of the first duration
   * without a "PT" match; otherwise the profile of the first five videos.
   */
  method ExtractProfile(topVideos: seq<YouTube.Video>) returns (r: Extraction)
    ensures r.NoProfile? <==> |topVideos| == 0
    ensures r.Failed? <==> |topVideos| > 0 && SampleSeconds(Sample(topVideos)).Thrown?
    ensures r.Failed? ==> r.message == SampleSeconds(Sample(topVideos)).message
    ensures r.Profile? ==>
      var sample := Sample(topVideos);
      var avg := Mean(SampleSeconds(sample).value);
      && r.profile.targetDurationSec == Round(avg)
      && (avg < 60.0 ==> r.profile.pacingStyle == FastPacing)
      && (avg >= 60.0 ==> r.profile.pacingStyle == LongformPacing)
      && r.profile.keywords == TopKeywords(TitleWords(sample), StopWords)
      && r.profile.visualMood == VisualMood
      && r.profile.hookStyle == HookStyle
      && r.profile.referenceVideos == Map(Reference, sample)
  {
    if |topVideos| == 0 {
      return NoProfile;
    }
    var sample := Sample(topVideos);
    var durations := SampleSeconds(sample);
    if durations.Thrown? {
      return Failed(durations.message);
    }
    var avg := Mean(durations.value);

    var words := TitleWords(sample);
    var keys, frequency := CountFrequencies(words, StopWords);
    var order := PropertyOrder(keys);
    EntriesOfTable(words, StopWords);
    var entries := EntriesFrom(order, frequency);
    var keywords := Map(EntryWord, Take(SortDesc(entries, EntryCount), KeywordLimit));

    var pacing := if avg < 60.0 then FastPacing else LongformPacing;
    r := Profile(PatternProfile(Round(avg), pacing, keywords, VisualMood, HookStyle, Map(Reference, sample)));
  }

  /** A duration without "PT" in the sample makes the extraction fail, unlike `parseDuration`'s 0. */
  lemma MissingMatchFails(v: YouTube.Video, rest: seq<YouTube.Video>)
    requires v.durationIso.Some? && !Contains(v.durationIso.value, Duration.TimePrefix)
    ensures SampleSeconds(Sample([v] + rest)).Thrown?
    ensures Duration.ParseDuration(v.durationIso) == 0
  {
    assert Sample([v] + rest)[0] == v;
  }
}
