/**
 * `EngagementScorer.rank` (lib/brain/EngagementScorer.js): every video gets a
 * score out of 100 from its view velocity, like ratio and comment ratio, each
 * divided by the largest in the list, and from a recency factor; the scored
 * videos come back by non-increasing score. The clock enters as `daysOld`, the
 * days elapsed since a given `published_at`.
 */
module EngagementScorer {
  import opened Collections
  import opened Sorting
  import opened Numbers
  import YouTube

  /** WEIGHTS. */
  const VelocityWeight: real := 0.4
  const LikeRatioWeight: real := 0.3
  const CommentRatioWeight: real := 0.2
  const RecencyWeight: real := 0.1

  /** The fallbacks of `Math.max(...) || fallback` when the largest value is 0. */
  const VelocityFallback: real := 1.0
  const LikeRatioFallback: real := 0.01
  const CommentRatioFallback: real := 0.001

  /** The "feature DNA" attached to each scored video. */
  datatype Dna = Dna(velocityScore: real, engagementQuality: real, rawScore: real)

  /** `{...video, dna, engagement_score}`: the video itself, unchanged, with its scores. */
  datatype ScoredVideo = ScoredVideo(video: YouTube.Video, dna: Dna, engagementScore: real)

  function EngagementScore(s: ScoredVideo): real {
    s.engagementScore
  }

  function Source(s: ScoredVideo): YouTube.Video {
    s.video
  }

  /** `Math.max(...xs)` of a non-empty list. */
  function MaxOf(xs: seq<real>): (m: real)
    requires |xs| > 0
    ensures forall i :: 0 <= i < |xs| ==> xs[i] <= m
    ensures exists i :: 0 <= i < |xs| && xs[i] == m
  {
    if |xs| == 1 then xs[0]
    else
      var rest := MaxOf(xs[1..]);
      assert forall i :: 1 <= i < |xs| ==> xs[i] == xs[1..][i - 1];
      if xs[0] >= rest then xs[0] else rest
  }

  /** `m` is the largest element of `xs`. */
  predicate IsMax(xs: seq<real>, m: real) {
    (forall i :: 0 <= i < |xs| ==> xs[i] <= m) && (exists i :: 0 <= i < |xs| && xs[i] == m)
  }

  /** A list has one maximum. */
  lemma MaxUnique(xs: seq<real>, a: real, b: real)
    requires IsMax(xs, a) && IsMax(xs, b)
    ensures a == b
  {
    var i :| 0 <= i < |xs| && xs[i] == a;
    var j :| 0 <= j < |xs| && xs[j] == b;
  }

  function Velocities(videos: seq<YouTube.Video>): seq<real> {
    Map((v: YouTube.Video) => v.viewVelocity, videos)
  }

  function LikeRatios(videos: seq<YouTube.Video>): seq<real> {
    Map((v: YouTube.Video) => v.likeRatio, videos)
  }

  function CommentRatios(videos: seq<YouTube.Video>): seq<real> {
    Map((v: YouTube.Video) => v.commentRatio, videos)
  }

  /**
   * `Math.max(...xs) || fallback` for a non-empty list: the maximum when it
   * is not 0, the fallback otherwise.
   */
  lemma MaxOrFallback(xs: seq<real>, fallback: real)
    requires |xs| > 0
    ensures IsMax(xs, 0.0) ==> NonZeroOr(MaxOf(xs), fallback) == fallback
    ensures !IsMax(xs, 0.0) ==> IsMax(xs, NonZeroOr(MaxOf(xs), fallback))
  {
    if IsMax(xs, 0.0) {
      MaxUnique(xs, 0.0, MaxOf(xs));
    }
  }

  /** `m || fallback` on a number: 0 is falsy. */
  function NonZeroOr(m: real, fallback: real): (r: real)
    ensures m != 0.0 ==> r == m
    ensures m == 0.0 ==> r == fallback
  {
    if m == 0.0 then fallback else m
  }

  /** The divisors the scores are normalised by. */
  datatype Bases = Bases(velocity: real, likeRatio: real, commentRatio: real)

  function BasesOf(videos: seq<YouTube.Video>): (b: Bases)
    requires |videos| > 0
    ensures b.velocity != 0.0 && b.likeRatio != 0.0 && b.commentRatio != 0.0
    ensures IsMax(Velocities(videos), 0.0) ==> b.velocity == VelocityFallback
    ensures !IsMax(Velocities(videos), 0.0) ==> IsMax(Velocities(videos), b.velocity)
    ensures IsMax(LikeRatios(videos), 0.0) ==> b.likeRatio == LikeRatioFallback
    ensures !IsMax(LikeRatios(videos), 0.0) ==> IsMax(LikeRatios(videos), b.likeRatio)
    ensures IsMax(CommentRatios(videos), 0.0) ==> b.commentRatio == CommentRatioFallback
    ensures !IsMax(CommentRatios(videos), 0.0) ==> IsMax(CommentRatios(videos), b.commentRatio)
  {
    MaxOrFallback(Velocities(videos), VelocityFallback);
    MaxOrFallback(LikeRatios(videos), LikeRatioFallback);
    MaxOrFallback(CommentRatios(videos), CommentRatioFallback);
    Bases(
      NonZeroOr(MaxOf(Velocities(videos)), VelocityFallback),
      NonZeroOr(MaxOf(LikeRatios(videos)), LikeRatioFallback),
      NonZeroOr(MaxOf(CommentRatios(videos)), CommentRatioFallback))
  }

  /** `1 / (Math.max(0, daysOld) + 1)`. */
  function Recency(daysOld: real): (r: real)
    ensures 0.0 < r <= 1.0
  {
    var d := if daysOld < 0.0 then 0.0 else daysOld;
    1.0 / (d + 1.0)
  }

  /** The weighted sum, scaled to 0..100. */
  function WeightedScore(velocity: real, like: real, comment: real, recency: real): real {
    (velocity * VelocityWeight + like * LikeRatioWeight + comment * CommentRatioWeight + recency * RecencyWeight) * 100.0
  }

  /** The map step of `rank`: one video with its DNA and score. */
  function ScoreVideo(v: YouTube.Video, bases: Bases, daysOld: string -> real): (s: ScoredVideo)
    requires bases.velocity != 0.0 && bases.likeRatio != 0.0 && bases.commentRatio != 0.0
    ensures s.video == v
  {
    var normVelocity := v.viewVelocity / bases.velocity;
    var normLike := v.likeRatio / bases.likeRatio;
    var normComment := v.commentRatio / bases.commentRatio;
    var score := WeightedScore(normVelocity, normLike, normComment, Recency(daysOld(v.publishedAt)));
    ScoredVideo(v, Dna(normVelocity, (normLike + normComment) / 2.0, score), RoundToHundredths(score))
  }

  function ScoreAll(videos: seq<YouTube.Video>, daysOld: string -> real): (r: seq<ScoredVideo>)
    requires |videos| > 0
    ensures |r| == |videos|
    ensures forall i :: 0 <= i < |videos| ==> r[i] == ScoreVideo(videos[i], BasesOf(videos), daysOld)
  {
    var bases := BasesOf(videos);
    Map((v: YouTube.Video) => ScoreVideo(v, bases, daysOld), videos)
  }

  /**
   * `rank`: no videos give the empty list; otherwise every video, with its
   * scores, ordered by non-increasing engagement score.
   */
  function Rank(videos: seq<YouTube.Video>, daysOld: string -> real): (r: seq<ScoredVideo>)
    ensures |videos| == 0 ==> r == []
    ensures |r| == |videos|
    ensures SortedDesc(r, EngagementScore)
    ensures multiset(Map(Source, r)) == multiset(videos)
  {
    if |videos| == 0 then []
    else
      var scored := ScoreAll(videos, daysOld);
      var sorted := SortDesc(scored, EngagementScore);
      MapPermutation(Source, sorted, scored);
      assert Map(Source, scored) == videos;
      sorted
  }

  // ---------------------------------------------------------------------------
  // Bounds

  /** The weights sum to 1. */
  lemma WeightsSumToOne()
    ensures VelocityWeight + LikeRatioWeight + CommentRatioWeight + RecencyWeight == 1.0
  {
  }

  /** With every normalised term in [0, 1], the score lies in [0, 100]. */
  lemma WeightedScoreBounds(velocity: real, like: real, comment: real, recency: real)
    requires 0.0 <= velocity <= 1.0 && 0.0 <= like <= 1.0 && 0.0 <= comment <= 1.0 && 0.0 <= recency <= 1.0
    ensures 0.0 <= WeightedScore(velocity, like, comment, recency) <= 100.0
  {
  }

  /** A non-negative value divided by the largest of its list (or the fallback, when that is 0) lies in [0, 1]. */
  lemma NormalisedInUnit(x: real, xs: seq<real>, fallback: real)
    requires |xs| > 0 && fallback > 0.0
    requires forall i :: 0 <= i < |xs| ==> xs[i] >= 0.0
    requires x in xs
    ensures 0.0 <= x / NonZeroOr(MaxOf(xs), fallback) <= 1.0
  {
    var m := MaxOf(xs);
    var i :| 0 <= i < |xs| && xs[i] == x;
    if m == 0.0 {
      assert x == 0.0;
    } else {
      assert 0.0 <= x <= m;
      DivideAtMost(x, m);
    }
  }

  lemma DivideAtMost(x: real, m: real)
    requires 0.0 <= x <= m && m > 0.0
    ensures 0.0 <= x / m <= 1.0
  {
  }

  /** Rounding a score in [0, 100] to hundredths keeps it in [0, 100]. */
  lemma RoundedScoreBounds(x: real)
    requires 0.0 <= x <= 100.0
    ensures 0.0 <= RoundToHundredths(x) <= 100.0
  {
    assert x * 100.0 + 0.5 <= 10000.5;
    assert (x * 100.0 + 0.5).Floor <= 10000;
  }

  predicate NonNegativeMetrics(v: YouTube.Video) {
    v.viewVelocity >= 0.0 && v.likeRatio >= 0.0 && v.commentRatio >= 0.0
  }

  predicate InUnit(x: real) {
    0.0 <= x <= 1.0
  }

  /** For non-negative metrics, every DNA value lies in [0, 1] and both scores in [0, 100]. */
  lemma ScoreVideoBounds(videos: seq<YouTube.Video>, i: nat, daysOld: string -> real)
    requires i < |videos|
    requires forall j :: 0 <= j < |videos| ==> NonNegativeMetrics(videos[j])
    ensures var s := ScoreVideo(videos[i], BasesOf(videos), daysOld);
      && InUnit(s.dna.velocityScore) && InUnit(s.dna.engagementQuality)
      && 0.0 <= s.dna.rawScore <= 100.0 && 0.0 <= s.engagementScore <= 100.0
  {
    var v := videos[i];
    var velocities := Velocities(videos);
    var likes := LikeRatios(videos);
    var comments := CommentRatios(videos);
    assert velocities[i] == v.viewVelocity && likes[i] == v.likeRatio && comments[i] == v.commentRatio;
    NormalisedInUnit(v.viewVelocity, velocities, VelocityFallback);
    NormalisedInUnit(v.likeRatio, likes, LikeRatioFallback);
    NormalisedInUnit(v.commentRatio, comments, CommentRatioFallback);
    var s := ScoreVideo(v, BasesOf(videos), daysOld);
    WeightedScoreBounds(s.dna.velocityScore, v.likeRatio / BasesOf(videos).likeRatio,
      v.commentRatio / BasesOf(videos).commentRatio, Recency(daysOld(v.publishedAt)));
    RoundedScoreBounds(s.dna.rawScore);
  }

  /** Every ranked entry of non-negative metrics has its DNA in [0, 1] and its scores in [0, 100]. */
  lemma RankBounds(videos: seq<YouTube.Video>, daysOld: string -> real)
    requires forall j :: 0 <= j < |videos| ==> NonNegativeMetrics(videos[j])
    ensures forall i :: 0 <= i < |Rank(videos, daysOld)| ==>
      var s := Rank(videos, daysOld)[i];
      && InUnit(s.dna.velocityScore) && InUnit(s.dna.engagementQuality)
      && 0.0 <= s.dna.rawScore <= 100.0 && 0.0 <= s.engagementScore <= 100.0
  {
    if |videos| > 0 {
      var scored := ScoreAll(videos, daysOld);
      forall i | 0 <= i < |videos|
        ensures var s := Rank(videos, daysOld)[i];
          && InUnit(s.dna.velocityScore) && InUnit(s.dna.engagementQuality)
          && 0.0 <= s.dna.rawScore <= 100.0 && 0.0 <= s.engagementScore <= 100.0
      {
        var j := SortDescFrom(scored, EngagementScore, i);
        ScoreVideoBounds(videos, j, daysOld);
      }
    }
  }

  /** Each ranked entry carries the scores of its own video, against the divisors of the whole list. */
  lemma RankEntryOfVideo(videos: seq<YouTube.Video>, daysOld: string -> real, i: nat)
    requires i < |videos|
    ensures Rank(videos, daysOld)[i] == ScoreVideo(Rank(videos, daysOld)[i].video, BasesOf(videos), daysOld)
  {
    var j := SortDescFrom(ScoreAll(videos, daysOld), EngagementScore, i);
  }

  /**
   * The DNA of a scored video: the velocity score times its divisor is the view
   * velocity, the engagement quality is the mean of the normalised like and
   * comment ratios, and the engagement score is the raw score to hundredths.
   */
  lemma ScoreVideoDna(v: YouTube.Video, bases: Bases, daysOld: string -> real)
    requires bases.velocity != 0.0 && bases.likeRatio != 0.0 && bases.commentRatio != 0.0
    ensures var s := ScoreVideo(v, bases, daysOld);
      && s.dna.velocityScore * bases.velocity == v.viewVelocity
      && 2.0 * s.dna.engagementQuality == v.likeRatio / bases.likeRatio + v.commentRatio / bases.commentRatio
      && s.engagementScore == RoundToHundredths(s.dna.rawScore)
  {
  }
}
