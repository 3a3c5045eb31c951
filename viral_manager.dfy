/**
 * `ViralManager` (lib/brain/ViralManager.js): the autonomous cycle. The niche
 * scan ranks the candidate niches by the mean view velocity of their top three
 * search results; the upload phase blocks a title containing "banned_word" and
 * otherwise builds the upload metadata; the full cycle turns any error of its
 * phases into a failure report. Search, AI and upload results are inputs.
 */
module ViralManager {
  import opened Wrappers
  import opened Text
  import opened Collections
  import opened Sorting

  /** The niche kept when no candidate could be measured. */
  const DefaultNiche: string := "SillyMee Style"
  /** How many of a niche's search results are averaged. */
  const SampleSize: nat := 3

  /**
   * One candidate niche and what `YouTubeService.searchVideos` gave for it: an
   * error, or the `view_velocity` of each video found (None when absent).
   */
  datatype NicheScan = NicheScan(niche: string, result: Try<seq<Option<real>>>)

  /** An entry of `results`. */
  datatype NicheVelocity = NicheVelocity(niche: string, velocity: real)

  /** `t.view_velocity || 0`. */
  function VelocityOrZero(v: Option<real>): real {
    v.GetOr(0.0)
  }

  function SumReal(xs: seq<real>): real {
    if xs == [] then 0.0 else SumReal(xs[..|xs| - 1]) + xs[|xs| - 1]
  }

  /** The mean velocity of the first three videos (fewer when there are fewer). */
  function AverageVelocity(videos: seq<Option<real>>): real
    requires |videos| > 0
  {
    var top := Take(videos, SampleSize);
    SumReal(Map(VelocityOrZero, top)) / (|top| as real)
  }

  /** `trends && trends.length > 0` after a scan that did not throw. */
  predicate Measured(s: NicheScan) {
    s.result.Ok? && |s.result.value| > 0
  }

  /** The entry pushed for a measured scan. */
  function Measure(s: NicheScan): NicheVelocity {
    NicheVelocity(s.niche, if Measured(s) then AverageVelocity(s.result.value) else 0.0)
  }

  /** `e` is the entry of some measured scan. */
  predicate MeasuredEntry(scans: seq<NicheScan>, e: NicheVelocity) {
    exists j :: 0 <= j < |scans| && Measured(scans[j]) && e == Measure(scans[j])
  }

  /** `results` after the loop: one entry per measured scan, in candidate order. */
  function Results(scans: seq<NicheScan>): (r: seq<NicheVelocity>)
    ensures |r| <= |scans|
    ensures forall i :: 0 <= i < |r| ==> MeasuredEntry(scans, r[i])
  {
    var measured := Filter(Measured, scans);
    var r := Map(Measure, measured);
    forall i | 0 <= i < |r| ensures MeasuredEntry(scans, r[i]) {
      var j :| 0 <= j < |scans| && scans[j] == measured[i];
      assert Measured(scans[j]) && r[i] == Measure(scans[j]);
    }
    r
  }

  function Velocity(r: NicheVelocity): real {
    r.velocity
  }

  /** The niche `identifyWinningNiche` returns. */
  function WinningNiche(scans: seq<NicheScan>): string {
    var results := Results(scans);
    if results == [] then DefaultNiche else SortDesc(results, Velocity)[0].niche
  }

  /** `identifyWinningNiche`: scan each candidate, keep the measured ones, sort by velocity and take the first. */
  method IdentifyWinningNiche(scans: seq<NicheScan>) returns (best: string)
    ensures best == WinningNiche(scans)
  {
    best := DefaultNiche;
    var results: seq<NicheVelocity> := [];
    var i := 0;
    while i < |scans|
      invariant 0 <= i <= |scans|
      invariant results == Map(Measure, Filter(Measured, scans[..i]))
    {
      var scan := scans[i];
      FilterSnoc(Measured, scans[..i], scan);
      MapAppend(Measure, Filter(Measured, scans[..i]), [scan]);
      assert scans[..i + 1] == scans[..i] + [scan];
      match scan.result {
        case Thrown(_) =>
        case Ok(trends) =>
          if |trends| > 0 {
            results := results + [NicheVelocity(scan.niche, AverageVelocity(trends))];
          }
      }
      i := i + 1;
    }
    assert scans[..i] == scans;
    if |results| > 0 {
      results := SortDesc(results, Velocity);
      best := results[0].niche;
    }
  }

  // ---------------------------------------------------------------------------
  // Upload cycle

  /** The part of a generated script the upload phase reads. */
  datatype ScriptMeta = ScriptMeta(concept: Option<string>, hashtags: Option<seq<string>>)
  datatype ScriptDraft = ScriptDraft(title: string, meta: Option<ScriptMeta>)
  datatype ContentPacket = ContentPacket(script: ScriptDraft, targetTime: string)

  datatype Metadata = Metadata(title: string, description: string, tags: seq<string>)

  /** What `YouTubeService.uploadVideo` resolves to. */
  datatype UploadResult = UploadResult(id: string)

  /** `executeUploadCycle` resolves to `false` or to the upload result. */
  datatype UploadOutcome = Blocked | Uploaded(result: UploadResult)

  const BannedWord: string := "banned_word"
  const DescriptionHeader: string := "Generated by SillyMee AI.\n\n"
  const FixedTags: seq<string> := ["#SillyMee", "#Shorts"]

  /** The safety gate. */
  predicate IsBlocked(script: ScriptDraft) {
    Contains(Lower(script.title), BannedWord)
  }

  /** `script.meta?.concept || ""`: an absent or empty concept adds nothing. */
  function Concept(script: ScriptDraft): string {
    if script.meta.Some? then script.meta.value.concept.GetOr("") else ""
  }

  /** `script.meta?.hashtags || []`. */
  function Hashtags(script: ScriptDraft): seq<string> {
    if script.meta.Some? then script.meta.value.hashtags.GetOr([]) else []
  }

  function UploadMetadata(script: ScriptDraft): (m: Metadata)
    ensures m.title == script.title
    ensures |m.tags| == 2 + |Hashtags(script)| && m.tags[0] == "#SillyMee" && m.tags[1] == "#Shorts"
    ensures m.tags[2..] == Hashtags(script)
    ensures |m.description| == |DescriptionHeader| + |Concept(script)|
    ensures m.description[..|DescriptionHeader|] == DescriptionHeader
    ensures m.description[|DescriptionHeader|..] == Concept(script)
  {
    Metadata(script.title, DescriptionHeader + Concept(script), FixedTags + Hashtags(script))
  }

  /**
   * `executeUploadCycle`: a blocked title ends the cycle with `false` before any
   * upload; otherwise the metadata is uploaded and the upload recorded in memory.
   * `upload` is the upload call; `recordError` is the error `MemorySystem.recordUpload` throws, if any.
   */
  function ExecuteUploadCycle(packet: ContentPacket, upload: Metadata -> Try<UploadResult>,
                              recordError: Option<string>): (r: Try<UploadOutcome>)
    ensures r == Ok(Blocked) <==> IsBlocked(packet.script)
    ensures r.Ok? && r.value.Uploaded? ==>
      upload(UploadMetadata(packet.script)) == Ok(r.value.result) && recordError.None?
    ensures r.Thrown? ==>
      !IsBlocked(packet.script) && (upload(UploadMetadata(packet.script)).Thrown? || recordError.Some?)
    ensures r.Thrown? ==>
      r.message == (if upload(UploadMetadata(packet.script)).Thrown? then upload(UploadMetadata(packet.script)).message
                    else recordError.value)
  {
    if IsBlocked(packet.script) then Ok(Blocked)
    else
      match upload(UploadMetadata(packet.script))
      case Thrown(e) => Thrown(e)
      case Ok(result) => if recordError.Some? then Thrown(recordError.value) else Ok(Uploaded(result))
  }

  /** `{ success: true, result }` or `{ success: false, error: e.message }`. */
  datatype CycleReport = Succeeded(result: UploadOutcome) | Failed(error: string)

  /**
   * `runFullCycle`: intelligence, then content, then the upload cycle; the first
   * phase that throws decides the failure message, and no later phase runs.
   */
  function RunFullCycle<I>(intelligence: Try<I>, generate: I -> Try<ContentPacket>,
                           upload: Metadata -> Try<UploadResult>, recordError: Option<string>): (r: CycleReport)
    ensures intelligence.Thrown? ==> r == Failed(intelligence.message)
    ensures intelligence.Ok? && generate(intelligence.value).Thrown? ==>
      r == Failed(generate(intelligence.value).message)
    ensures r.Succeeded? <==>
      intelligence.Ok? && generate(intelligence.value).Ok? &&
      ExecuteUploadCycle(generate(intelligence.value).value, upload, recordError).Ok?
    ensures r.Succeeded? ==>
      Ok(r.result) == ExecuteUploadCycle(generate(intelligence.value).value, upload, recordError)
    ensures (intelligence.Ok? && generate(intelligence.value).Ok? &&
             ExecuteUploadCycle(generate(intelligence.value).value, upload, recordError).Thrown?) ==>
      r == Failed(ExecuteUploadCycle(generate(intelligence.value).value, upload, recordError).message)
  {
    match intelligence
    case Thrown(e) => Failed(e)
    case Ok(intel) =>
      match generate(intel)
      case Thrown(e) => Failed(e)
      case Ok(content) =>
        match ExecuteUploadCycle(content, upload, recordError)
        case Thrown(e) => Failed(e)
        case Ok(outcome) => Succeeded(outcome)
  }

  // ---------------------------------------------------------------------------
  // Properties

  /** With no measured niche the default stays; otherwise the winner is a measured candidate. */
  lemma DefaultUnlessMeasured(scans: seq<NicheScan>)
    ensures (forall i :: 0 <= i < |scans| ==> !Measured(scans[i])) ==> WinningNiche(scans) == DefaultNiche
    ensures (exists i :: 0 <= i < |scans| && Measured(scans[i])) ==>
      exists i :: 0 <= i < |scans| && Measured(scans[i]) && WinningNiche(scans) == scans[i].niche
  {
    FilterAllOrNone(Measured, scans);
    if exists i :: 0 <= i < |scans| && Measured(scans[i]) {
      var j := WinnerIsFirstFastest(scans);
    }
  }

  /**
   * The winner is the first measured candidate with the largest mean velocity:
   * no measured candidate is faster, and every earlier one is slower.
   */
  lemma WinnerIsFirstFastest(scans: seq<NicheScan>) returns (i: nat)
    requires exists j :: 0 <= j < |scans| && Measured(scans[j])
    ensures i < |scans| && Measured(scans[i]) && WinningNiche(scans) == scans[i].niche
    ensures forall j :: 0 <= j < |scans| && Measured(scans[j]) ==>
      AverageVelocity(scans[j].result.value) <= AverageVelocity(scans[i].result.value)
    ensures forall j :: 0 <= j < i && Measured(scans[j]) ==>
      AverageVelocity(scans[j].result.value) < AverageVelocity(scans[i].result.value)
  {
    var results := Results(scans);
    assert |results| > 0 by {
      var j0 :| 0 <= j0 < |scans| && Measured(scans[j0]);
      ResultAt(scans, j0);
    }
    var k := SortDescHeadIsFirstMax(results, Velocity);
    assert k < |Filter(Measured, scans)|;
    i := FilterIndex(Measured, scans, k);
    ResultAt(scans, i);
    assert WinningNiche(scans) == results[k].niche;
    FastestFromResults(scans, i, k);
  }

  /** The comparison of `results` entries carried back to the scans they came from. */
  lemma FastestFromResults(scans: seq<NicheScan>, i: nat, k: nat)
    requires i < |scans| && Measured(scans[i]) && |Filter(Measured, scans[..i])| == k < |Results(scans)|
    requires forall m :: 0 <= m < |Results(scans)| ==> Velocity(Results(scans)[m]) <= Velocity(Results(scans)[k])
    requires forall m :: 0 <= m < k ==> Velocity(Results(scans)[m]) < Velocity(Results(scans)[k])
    ensures forall j :: 0 <= j < |scans| && Measured(scans[j]) ==>
      AverageVelocity(scans[j].result.value) <= AverageVelocity(scans[i].result.value)
    ensures forall j :: 0 <= j < i && Measured(scans[j]) ==>
      AverageVelocity(scans[j].result.value) < AverageVelocity(scans[i].result.value)
  {
    ResultAt(scans, i);
    forall j | 0 <= j < |scans| && Measured(scans[j])
      ensures AverageVelocity(scans[j].result.value) <= AverageVelocity(scans[i].result.value)
      ensures j < i ==> AverageVelocity(scans[j].result.value) < AverageVelocity(scans[i].result.value)
    {
      ResultAt(scans, j);
      if j < i {
        FilterPrefixGrows(Measured, scans, j, i);
      }
    }
  }

  /** A measured scan's entry sits in `results` after the measured scans before it. */
  lemma ResultAt(scans: seq<NicheScan>, j: nat)
    requires j < |scans| && Measured(scans[j])
    ensures var pj := |Filter(Measured, scans[..j])|;
      pj < |Results(scans)| && Results(scans)[pj] == Measure(scans[j])
      && Velocity(Results(scans)[pj]) == AverageVelocity(scans[j].result.value)
  {
    FilterPosition(Measured, scans, j);
  }

  lemma {:induction false} SumRealBounds(xs: seq<real>, lo: real, hi: real)
    requires forall k :: 0 <= k < |xs| ==> lo <= xs[k] <= hi
    ensures lo * (|xs| as real) <= SumReal(xs) <= hi * (|xs| as real)
  {
    if xs != [] {
      SumRealBounds(xs[..|xs| - 1], lo, hi);
    }
  }

  /**
   * The mean lies between the smallest and the largest velocity among the first
   * three videos, a missing velocity counting as 0.
   */
  lemma AverageWithinSample(videos: seq<Option<real>>, lo: real, hi: real)
    requires |videos| > 0
    requires forall k :: 0 <= k < |videos| && k < SampleSize ==> lo <= VelocityOrZero(videos[k]) <= hi
    ensures lo <= AverageVelocity(videos) <= hi
  {
    var values := Map(VelocityOrZero, Take(videos, SampleSize));
    SumRealBounds(values, lo, hi);
    var n := |values| as real;
    assert n > 0.0;
    assert lo * n <= SumReal(values) <= hi * n;
    assert SumReal(values) / n >= lo by {
      assert (SumReal(values) / n) * n == SumReal(values);
    }
    assert SumReal(values) / n <= hi by {
      assert (SumReal(values) / n) * n == SumReal(values);
    }
  }

  /** Videos after the third do not change the mean. */
  lemma OnlyTopThreeCount(videos: seq<Option<real>>, more: seq<Option<real>>)
    requires |videos| >= SampleSize
    ensures AverageVelocity(videos + more) == AverageVelocity(videos)
  {
    assert Take(videos + more, SampleSize) == Take(videos, SampleSize);
  }

  /** The gate ignores case: "BANNED_WORD" anywhere in the title blocks the upload. */
  lemma GateIgnoresCase(before: string, after: string, upload: Metadata -> Try<UploadResult>,
                        recordError: Option<string>, meta: Option<ScriptMeta>, targetTime: string)
    ensures ExecuteUploadCycle(ContentPacket(ScriptDraft(before + "BANNED_WORD" + after, meta), targetTime),
      upload, recordError) == Ok(Blocked)
  {
    var title := before + "BANNED_WORD" + after;
    LowerAppend(before + "BANNED_WORD", after);
    LowerAppend(before, "BANNED_WORD");
    assert Lower("BANNED_WORD") == BannedWord;
    ContainsMiddle(Lower(before), BannedWord, Lower(after));
  }
}
