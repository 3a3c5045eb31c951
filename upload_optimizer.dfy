/**
 * `UploadOptimizer.analyze` (lib/brain/UploadOptimizer.js): the day of the
 * week and the hour at which most of the given videos were published, the video
 * with the largest viral ratio, and the first five videos as evidence. The
 * locale conversion of `published_at` is a parameter `when`, giving the long and
 * short weekday names and the hour of the day.
 */
module UploadOptimizer {
  import opened Wrappers
  import opened Text
  import opened Collections
  import opened ObjectKeys
  import YouTube

  type Hour = h: nat | h < 24

  /** `toLocaleDateString('en-US', { weekday: 'long' | 'short' })` and `getHours()` of one date. */
  datatype LocalTime = LocalTime(weekday: string, shortWeekday: string, hour: Hour)

  const EvidenceLimit: nat := 5
  const TitlePrefixLength: nat := 20

  /** The day keys, one per trend. */
  function Days(trends: seq<YouTube.Video>, when: string -> LocalTime): (days: seq<string>)
    ensures |days| == |trends|
    ensures forall i :: 0 <= i < |trends| ==> days[i] == when(trends[i].publishedAt).weekday
  {
    Map((t: YouTube.Video) => when(t.publishedAt).weekday, trends)
  }

  /** The hour keys, one per trend: the hour as an object key, i.e. its decimal numeral. */
  function Hours(trends: seq<YouTube.Video>, when: string -> LocalTime): (hours: seq<string>)
    ensures |hours| == |trends|
    ensures forall i :: 0 <= i < |trends| ==> hours[i] == NatToString(when(trends[i].publishedAt).hour)
  {
    Map((t: YouTube.Video) => NatToString(when(t.publishedAt).hour), trends)
  }

  // ---------------------------------------------------------------------------
  // The viral outlier

  /** `bestViralRatio` and `bestViralVideo`, the latter `None` for `null`. */
  datatype Outlier = Outlier(ratio: real, video: Option<YouTube.Video>)

  /** The outlier after the loop: a trend replaces it only with a strictly larger viral ratio. */
  function BestOutlier(trends: seq<YouTube.Video>): Outlier {
    if trends == [] then Outlier(0.0, None)
    else
      var o := BestOutlier(trends[..|trends| - 1]);
      var t := trends[|trends| - 1];
      if t.viralRatio > o.ratio then Outlier(t.viralRatio, Some(t)) else o
  }

  /**
   * The outlier is the first trend with the largest viral ratio, provided that
   * ratio exceeds 0; otherwise there is none and the ratio stays 0.
   */
  lemma {:induction false} BestOutlierSpec(trends: seq<YouTube.Video>)
    ensures var o := BestOutlier(trends);
      && o.ratio >= 0.0
      && (forall j :: 0 <= j < |trends| ==> trends[j].viralRatio <= o.ratio)
      && (o.video.None? <==> forall j :: 0 <= j < |trends| ==> trends[j].viralRatio <= 0.0)
      && (o.video.None? ==> o.ratio == 0.0)
      && (o.video.Some? ==>
            exists i :: (0 <= i < |trends| && o.video.value == trends[i]
              && o.ratio == trends[i].viralRatio
              && forall j :: 0 <= j < i ==> trends[j].viralRatio < o.ratio))
  {
    if trends != [] {
      var init := trends[..|trends| - 1];
      var t := trends[|trends| - 1];
      BestOutlierSpec(init);
      var o := BestOutlier(init);
      assert forall j :: 0 <= j < |init| ==> trends[j] == init[j];
      if t.viralRatio > o.ratio {
        var i := |trends| - 1;
        assert BestOutlier(trends).video.value == trends[i];
      } else if o.video.Some? {
        var i :| 0 <= i < |init| && o.video.value == init[i]
          && o.ratio == init[i].viralRatio
          && forall j :: 0 <= j < i ==> init[j].viralRatio < o.ratio;
        assert o.video.value == trends[i];
      }
    }
  }

  /** One step of the loop: the trend at `k` replaces the outlier only with a strictly larger ratio. */
  lemma BestOutlierStep(trends: seq<YouTube.Video>, k: nat)
    requires k < |trends|
    ensures var o := BestOutlier(trends[..k]);
      BestOutlier(trends[..k + 1]) == if trends[k].viralRatio > o.ratio then Outlier(trends[k].viralRatio, Some(trends[k])) else o
  {
    assert trends[..k + 1][..k] == trends[..k];
  }

  // ---------------------------------------------------------------------------
  // The most frequent key

  /**
   * `keys.reduce((a, b) => counts[a] > counts[b] ? a : b)`: the running best
   * is kept only when its count is strictly larger.
   */
  function ArgMax(keys: seq<string>, counts: map<string, nat>): (r: string)
    requires |keys| > 0
    requires forall k :: k in keys ==> k in counts
    ensures r in keys
  {
    if |keys| == 1 then keys[0]
    else
      var a := ArgMax(keys[..|keys| - 1], counts);
      var b := keys[|keys| - 1];
      if counts[a] > counts[b] then a else b
  }

  /** The reduce picks the last key with the largest count: every later key counts strictly less. */
  lemma {:induction false} ArgMaxIsLastMax(keys: seq<string>, counts: map<string, nat>) returns (i: nat)
    requires |keys| > 0
    requires forall k :: k in keys ==> k in counts
    ensures i < |keys| && keys[i] == ArgMax(keys, counts)
    ensures forall j :: 0 <= j < |keys| ==> counts[keys[j]] <= counts[keys[i]]
    ensures forall j :: i < j < |keys| ==> counts[keys[j]] < counts[keys[i]]
  {
    if |keys| == 1 {
      i := 0;
    } else {
      var init := keys[..|keys| - 1];
      assert forall k :: k in init ==> k in keys;
      i := ArgMaxIsLastMax(init, counts);
      assert forall j :: 0 <= j < |init| ==> keys[j] == init[j];
      if counts[keys[i]] <= counts[keys[|keys| - 1]] {
        i := |keys| - 1;
      }
    }
  }

  // ---------------------------------------------------------------------------
  // The plan

  /** An evidence entry: `title.substring(0, 20) + "..."`, the short weekday and `<hour>:00`. */
  datatype Evidence = Evidence(title: string, day: string, time: string)

  /** The parts of the `reasoning` sentence. */
  datatype Reasoning = Reasoning(
    videoCount: nat,
    bestDay: string,
    bestHourFormatted: string,
    outlierChannel: Option<string>,
    outlierRatio: real)

  datatype UploadPlan = UploadPlan(
    bestDay: string,
    bestHour: nat,
    bestHourFormatted: string,
    viralOutlier: Option<YouTube.Video>,
    reasoning: Reasoning,
    sourceEvidence: seq<Evidence>)

  function EvidenceOf(when: string -> LocalTime): YouTube.Video -> Evidence {
    (t: YouTube.Video) =>
      var local := when(t.publishedAt);
      Evidence(Take(t.title, TitlePrefixLength) + "...", local.shortWeekday, NatToString(local.hour) + ":00")
  }

  function Channel(o: Outlier): Option<string> {
    if o.video.Some? then Some(o.video.value.channelTitle) else None
  }

  /** An hour numeral is an array index key: digits only, no leading zero. */
  lemma HourKeyIsIndexKey(h: Hour)
    ensures IsIndexKey(NatToString(h))
    ensures DigitsValue(NatToString(h)) == h
  {
    NatToStringRoundTrip(h);
    if h >= 10 {
      assert NatToString(h)[0] == DigitChar(h / 10);
    }
  }

  /** Every key of `Object.keys(counts)` has been counted. */
  lemma KeysCounted(xs: seq<string>)
    ensures forall k :: k in PropertyOrder(Distinct(xs)) ==> k in Counts(xs) && k in xs
  {
    CountsSpec(xs);
    forall k | k in PropertyOrder(Distinct(xs)) ensures k in Counts(xs) && k in xs {
      assert k in multiset(PropertyOrder(Distinct(xs)));
      assert k in Distinct(xs);
    }
  }

  /** A key of the hour counts is the numeral of the hour of some trend. */
  lemma HourKeyOfTrend(trends: seq<YouTube.Video>, when: string -> LocalTime, k: string)
    requires k in Hours(trends, when)
    ensures exists i :: 0 <= i < |trends| && k == NatToString(when(trends[i].publishedAt).hour)
    ensures AllDigits(k)
  {
    var hours := Hours(trends, when);
    var i :| 0 <= i < |hours| && hours[i] == k;
  }

  /** The key of a counting object that the reduce over `Object.keys` picks. */
  function MostFrequent(xs: seq<string>): (r: string)
    requires |xs| > 0
    ensures r in xs
  {
    KeysCounted(xs);
    ArgMax(PropertyOrder(Distinct(xs)), Counts(xs))
  }

  /**
   * The result of `analyze` for a non-empty list, read off the counts of all
   * trends; the reasoning sentence quotes the plan's own day and hour.
   */
  function Plan(trends: seq<YouTube.Video>, when: string -> LocalTime): (p: UploadPlan)
    requires |trends| > 0
    ensures p.bestDay in Days(trends, when)
    ensures p.reasoning.videoCount == |trends|
    ensures p.reasoning.bestDay == p.bestDay && p.reasoning.bestHourFormatted == p.bestHourFormatted
  {
    var bestDay := MostFrequent(Days(trends, when));
    var bestHour := MostFrequent(Hours(trends, when));
    HourKeyOfTrend(trends, when, bestHour);
    var o := BestOutlier(trends);
    UploadPlan(bestDay, DigitsValue(bestHour), bestHour + ":00", o.video,
      Reasoning(|trends|, bestDay, bestHour + ":00", Channel(o), o.ratio),
      Map(EvidenceOf(when), Take(trends, EvidenceLimit)))
  }

  lemma PrefixesComplete(days: seq<string>, hours: seq<string>, trends: seq<YouTube.Video>, k: nat)
    requires k == |days| == |hours| == |trends|
    ensures days[..k] == days && hours[..k] == hours && trends[..k] == trends
  {
  }

  /**
   * The `forEach` of `analyze`: the counting objects for days and hours (their
   * keys in insertion order, and their counts) and the viral outlier.
   */
  method CountTrends(trends: seq<YouTube.Video>, when: string -> LocalTime)
    returns (dayKeys: seq<string>, dayCounts: map<string, nat>,
             hourKeys: seq<string>, hourCounts: map<string, nat>,
             bestViralRatio: real, bestViralVideo: Option<YouTube.Video>)
    ensures dayKeys == Distinct(Days(trends, when)) && dayCounts == Counts(Days(trends, when))
    ensures hourKeys == Distinct(Hours(trends, when)) && hourCounts == Counts(Hours(trends, when))
    ensures Outlier(bestViralRatio, bestViralVideo) == BestOutlier(trends)
  {
    ghost var days := Days(trends, when);
    ghost var hours := Hours(trends, when);
    dayKeys, dayCounts := [], map[];
    hourKeys, hourCounts := [], map[];
    bestViralRatio, bestViralVideo := 0.0, None;
    var k := 0;
    while k < |trends|
      invariant 0 <= k <= |trends|
      invariant dayKeys == Distinct(days[..k]) && dayCounts == Counts(days[..k])
      invariant hourKeys == Distinct(hours[..k]) && hourCounts == Counts(hours[..k])
      invariant Outlier(bestViralRatio, bestViralVideo) == BestOutlier(trends[..k])
    {
      var local := when(trends[k].publishedAt);
      var day := local.weekday;
      var hour := NatToString(local.hour);
      assert days[k] == day && hours[k] == hour;
      PrefixSnoc(days, k);
      PrefixSnoc(hours, k);
      BestOutlierStep(trends, k);
      dayKeys, dayCounts := Tally(days[..k], dayKeys, dayCounts, day);
      hourKeys, hourCounts := Tally(hours[..k], hourKeys, hourCounts, hour);
      if trends[k].viralRatio > bestViralRatio {
        bestViralRatio := trends[k].viralRatio;
        bestViralVideo := Some(trends[k]);
      }
      k := k + 1;
    }
    PrefixesComplete(days, hours, trends, k);
  }

  /**
   * `analyze`: `null` for no trends; otherwise the plan read off the counts:
   * the most frequent day and hour by the reduce over `Object.keys`, the
   * outlier, and the evidence.
   */
  method Analyze(trends: seq<YouTube.Video>, when: string -> LocalTime) returns (r: Option<UploadPlan>)
    ensures r.None? <==> |trends| == 0
    ensures r.Some? ==> r.value == Plan(trends, when)
  {
    if |trends| == 0 {
      return None;
    }
    var dayKeys, dayCounts, hourKeys, hourCounts, bestViralRatio, bestViralVideo := CountTrends(trends, when);
    KeysCounted(Days(trends, when));
    KeysCounted(Hours(trends, when));
    var bestDay := ArgMax(PropertyOrder(dayKeys), dayCounts);
    var bestHour := ArgMax(PropertyOrder(hourKeys), hourCounts);
    HourKeyOfTrend(trends, when, bestHour);
    var bestHourFormatted := bestHour + ":00";
    var reasoning := Reasoning(|trends|, bestDay, bestHourFormatted, Channel(Outlier(bestViralRatio, bestViralVideo)), bestViralRatio);
    var evidence := Map(EvidenceOf(when), Take(trends, EvidenceLimit));
    r := Some(UploadPlan(bestDay, DigitsValue(bestHour), bestHourFormatted, bestViralVideo, reasoning, evidence));
  }

  // ---------------------------------------------------------------------------
  // Properties of the plan

  /** Both counting objects add up to the number of trends. */
  lemma CountsAddUp(trends: seq<YouTube.Video>, when: string -> LocalTime)
    ensures forall k :: k in Distinct(Days(trends, when)) ==> k in Counts(Days(trends, when))
    ensures forall k :: k in Distinct(Hours(trends, when)) ==> k in Counts(Hours(trends, when))
    ensures SumAt(Distinct(Days(trends, when)), Counts(Days(trends, when))) == |trends|
    ensures SumAt(Distinct(Hours(trends, when)), Counts(Hours(trends, when))) == |trends|
  {
    CountsSum(Days(trends, when));
    CountsSum(Hours(trends, when));
  }

  /**
   * The best day is a day of some trend and no day occurs more often; among the
   * days that occur as often, it is the last in `Object.keys` order.
   */
  lemma BestDayIsMostFrequent(trends: seq<YouTube.Video>, when: string -> LocalTime) returns (i: nat)
    requires |trends| > 0
    ensures var days := Days(trends, when);
      var order := PropertyOrder(Distinct(days));
      var best := Plan(trends, when).bestDay;
      && best in days
      && (forall j :: 0 <= j < |days| ==> multiset(days)[days[j]] <= multiset(days)[best])
      && i < |order| && order[i] == best
      && (forall j :: i < j < |order| ==> multiset(days)[order[j]] < multiset(days)[best])
  {
    var days := Days(trends, when);
    var order := PropertyOrder(Distinct(days));
    KeysCounted(days);
    CountsSpec(days);
    i := ArgMaxIsLastMax(order, Counts(days));
    forall j | 0 <= j < |days| ensures multiset(days)[days[j]] <= multiset(days)[order[i]] {
      assert days[j] in Distinct(days);
      assert days[j] in multiset(order);
    }
  }

  /**
   * The best hour is the hour of some trend, and no hour occurs more often;
   * hour keys come in ascending order, so an hour that occurs as often is not larger.
   */
  lemma BestHourIsMostFrequent(trends: seq<YouTube.Video>, when: string -> LocalTime)
    requires |trends| > 0
    ensures var p := Plan(trends, when);
      var hours := Hours(trends, when);
      && (exists t :: 0 <= t < |trends| && p.bestHour == when(trends[t].publishedAt).hour)
      && p.bestHourFormatted == NatToString(p.bestHour) + ":00"
      && forall j :: 0 <= j < |trends| ==>
        var h := when(trends[j].publishedAt).hour;
        && multiset(hours)[NatToString(h)] <= multiset(hours)[NatToString(p.bestHour)]
        && (multiset(hours)[NatToString(h)] == multiset(hours)[NatToString(p.bestHour)] ==> h <= p.bestHour)
  {
    var p := Plan(trends, when);
    var hours := Hours(trends, when);
    var order := PropertyOrder(Distinct(hours));
    KeysCounted(hours);
    CountsSpec(hours);
    var i := ArgMaxIsLastMax(order, Counts(hours));
    var best := order[i];
    HourKeyOfTrend(trends, when, best);
    var t :| 0 <= t < |trends| && best == NatToString(when(trends[t].publishedAt).hour);
    var bestHour: Hour := when(trends[t].publishedAt).hour;
    HourKeyIsIndexKey(bestHour);
    assert p.bestHour == bestHour;
    IndexKeysFirstAscending(Distinct(hours));
    forall j | 0 <= j < |trends|
      ensures var h := when(trends[j].publishedAt).hour;
        && multiset(hours)[NatToString(h)] <= multiset(hours)[best]
        && (multiset(hours)[NatToString(h)] == multiset(hours)[best] ==> h <= bestHour)
    {
      var h := when(trends[j].publishedAt).hour;
      assert hours[j] == NatToString(h);
      assert hours[j] in Distinct(hours);
      assert hours[j] in multiset(order);
      var m :| 0 <= m < |order| && order[m] == hours[j];
      HourKeyIsIndexKey(h);
      if multiset(hours)[NatToString(h)] == multiset(hours)[best] && m != i {
        assert m < i;
        assert DigitsValue(order[m]) <= DigitsValue(order[i]);
      }
    }
  }

  /** The plan's outlier, ratio and channel are those tracked by the loop. */
  lemma OutlierOfPlan(trends: seq<YouTube.Video>, when: string -> LocalTime)
    requires |trends| > 0
    ensures var p := Plan(trends, when);
      && p.viralOutlier == BestOutlier(trends).video
      && p.reasoning.outlierRatio == BestOutlier(trends).ratio
      && p.reasoning.outlierChannel == if p.viralOutlier.Some? then Some(p.viralOutlier.value.channelTitle) else None
  {
  }

  /** The evidence covers the first min(5, n) trends, in input order. */
  lemma EvidenceInInputOrder(trends: seq<YouTube.Video>, when: string -> LocalTime)
    requires |trends| > 0
    ensures var e := Plan(trends, when).sourceEvidence;
      && |e| == (if |trends| < EvidenceLimit then |trends| else EvidenceLimit)
      && forall i :: 0 <= i < |e| ==>
        var local := when(trends[i].publishedAt);
        && e[i].title == Take(trends[i].title, TitlePrefixLength) + "..."
        && e[i].day == local.shortWeekday
        && e[i].time == NatToString(local.hour) + ":00"
  {
    var sample := Take(trends, EvidenceLimit);
    var e := Map(EvidenceOf(when), sample);
    assert Plan(trends, when).sourceEvidence == e;
    forall i | 0 <= i < |e|
      ensures var local := when(trends[i].publishedAt);
        && e[i].title == Take(trends[i].title, TitlePrefixLength) + "..."
        && e[i].day == local.shortWeekday
        && e[i].time == NatToString(local.hour) + ":00"
    {
      assert sample[i] == trends[i];
      assert e[i] == EvidenceOf(when)(trends[i]);
    }
  }
}
