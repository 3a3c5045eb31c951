/**
 * The deterministic part of `YouTubeService.searchVideos` (lib/api/youtube.js):
 * the creator-size buckets, the per-video metrics, the channel-statistics map
 * and the sort by view velocity. The three API calls are inputs: `None` stands
 * for a call that threw (or a response without `items`), and the clock enters as
 * `hoursSince`, the hours elapsed since a given `publishedAt`.
 */
module YouTube {
  import opened Wrappers
  import opened Collections
  import opened Sorting
  import opened Numbers
  import Duration

  // ---------------------------------------------------------------------------
  // Creator size

  /** The bounds of CREATOR_SIZE. */
  const SmallBelow: int := 10000
  const MediumBelow: int := 100000
  const LargeBelow: int := 1000000

  datatype CreatorSize = Small | Medium | Large | Mega

  function SizeRank(c: CreatorSize): nat {
    match c
    case Small => 0
    case Medium => 1
    case Large => 2
    case Mega => 3
  }

  /** `getCreatorSize`: the bucket whose half-open range holds the subscriber count. */
  function GetCreatorSize(subs: int): (r: CreatorSize)
    ensures r == Small <==> subs < SmallBelow
    ensures r == Medium <==> SmallBelow <= subs < MediumBelow
    ensures r == Large <==> MediumBelow <= subs < LargeBelow
    ensures r == Mega <==> LargeBelow <= subs
  {
    if subs < SmallBelow then Small
    else if subs < MediumBelow then Medium
    else if subs < LargeBelow then Large
    else Mega
  }

  /** More subscribers never give a smaller bucket. */
  lemma CreatorSizeMonotone(a: int, b: int)
    requires a <= b
    ensures SizeRank(GetCreatorSize(a)) <= SizeRank(GetCreatorSize(b))
  {
  }

  // ---------------------------------------------------------------------------
  // Records

  /** An item of the statistics call (`videos.list`), flattened; a missing count is `None`. */
  datatype ApiVideo = ApiVideo(
    id: string,
    title: string,
    description: string,
    channelTitle: string,
    channelId: string,
    thumbnailHigh: Option<string>,
    thumbnailDefault: Option<string>,
    publishedAt: string,
    duration: Option<string>,
    viewCount: Option<nat>,
    likeCount: Option<nat>,
    commentCount: Option<nat>)

  /** An item of the channels call: a channel id and its parsed subscriber count. */
  datatype ChannelStat = ChannelStat(id: string, subscriberCount: nat)

  /** The rich record `searchVideos` returns for each video. */
  datatype Video = Video(
    videoId: string,
    title: string,
    description: string,
    channelTitle: string,
    channelId: string,
    thumbnail: Option<string>,
    publishedAt: string,
    durationIso: Option<string>,
    durationSec: nat,
    views: nat,
    likes: nat,
    comments: nat,
    subscriberCount: nat,
    creatorSize: CreatorSize,
    viewVelocity: real,
    likeRatio: real,
    commentRatio: real,
    viralRatio: real,
    source: string)

  function Velocity(v: Video): real {
    v.viewVelocity
  }

  // ---------------------------------------------------------------------------
  // The channel map

  /** `channelMap` after the `forEach` over the channel items: a later item overwrites an earlier one. */
  function ChannelMapOf(items: seq<ChannelStat>): map<string, nat> {
    if items == [] then map[]
    else ChannelMapOf(items[..|items| - 1])[items[|items| - 1].id := items[|items| - 1].subscriberCount]
  }

  /** No later item has the same channel id as item `i`. */
  predicate IsLastWithId(items: seq<ChannelStat>, i: nat) {
    i < |items| && forall j :: i < j < |items| ==> items[j].id != items[i].id
  }

  /** The map holds exactly the ids of the items, each with the count of its last item. */
  lemma {:induction false} ChannelMapOfSpec(items: seq<ChannelStat>)
    ensures forall id :: id in ChannelMapOf(items) <==> exists i :: 0 <= i < |items| && items[i].id == id
    ensures forall i :: 0 <= i < |items| && IsLastWithId(items, i) ==> ChannelMapOf(items)[items[i].id] == items[i].subscriberCount
  {
    if items != [] {
      var init := items[..|items| - 1];
      var last := items[|items| - 1];
      ChannelMapOfSpec(init);
      forall id ensures id in ChannelMapOf(items) <==> exists i :: 0 <= i < |items| && items[i].id == id {
        if id in ChannelMapOf(init) {
          var i :| 0 <= i < |init| && init[i].id == id;
          assert items[i].id == id;
        }
        if exists i :: 0 <= i < |items| && items[i].id == id {
          var i :| 0 <= i < |items| && items[i].id == id;
          if i < |init| { assert init[i].id == id; }
        }
      }
      forall i | 0 <= i < |items| && IsLastWithId(items, i)
        ensures ChannelMapOf(items)[items[i].id] == items[i].subscriberCount
      {
        if i < |init| {
          assert items[i] == init[i];
          assert items[i].id != last.id;
          assert IsLastWithId(init, i);
        }
      }
    }
  }

  /** The `forEach` that fills `channelMap` from the channel items. */
  method BuildChannelMap(items: seq<ChannelStat>) returns (channelMap: map<string, nat>)
    ensures channelMap == ChannelMapOf(items)
    ensures forall id :: id in channelMap <==> exists i :: 0 <= i < |items| && items[i].id == id
    ensures forall i :: 0 <= i < |items| && IsLastWithId(items, i) ==> channelMap[items[i].id] == items[i].subscriberCount
  {
    channelMap := map[];
    var k := 0;
    while k < |items|
      invariant 0 <= k <= |items|
      invariant channelMap == ChannelMapOf(items[..k])
    {
      assert items[..k + 1][..k] == items[..k];
      channelMap := channelMap[items[k].id := items[k].subscriberCount];
      k := k + 1;
    }
    assert items[..k] == items;
    ChannelMapOfSpec(items);
  }

  /** `[...new Set(videos.map(v => v.snippet.channelId))]`: the ids sent to the channels call. */
  function ChannelIds(videos: seq<ApiVideo>): (ids: seq<string>)
    ensures NoDuplicates(ids)
    ensures forall i :: 0 <= i < |videos| ==> videos[i].channelId in ids
    ensures forall i :: 0 <= i < |ids| ==> exists j :: 0 <= j < |videos| && videos[j].channelId == ids[i]
  {
    var all := Map((v: ApiVideo) => v.channelId, videos);
    var ids := Distinct(all);
    assert forall i :: 0 <= i < |videos| ==> all[i] == videos[i].channelId;
    ids
  }

  /**
   * The channel ids keep the order of first occurrence: an id listed before
   * another belongs to a video that comes before every video of that other channel.
   */
  lemma ChannelIdsInFirstOccurrenceOrder(videos: seq<ApiVideo>, i: nat, j: nat, k: nat)
    requires i < j < |ChannelIds(videos)| && k < |videos| && videos[k].channelId == ChannelIds(videos)[j]
    ensures exists m :: 0 <= m < k && videos[m].channelId == ChannelIds(videos)[i]
  {
    var all := Map((v: ApiVideo) => v.channelId, videos);
    assert all[k] == videos[k].channelId;
    DistinctOrder(all, i, j, k);
    var m :| 0 <= m < k && all[..k][m] == ChannelIds(videos)[i];
    assert videos[m].channelId == all[m];
  }

  // ---------------------------------------------------------------------------
  // Per-video metrics

  /** `channelMap[channelId] || 1`: a missing or zero count becomes 1. */
  function SubscriberCount(channelMap: map<string, nat>, channelId: string): (r: nat)
    ensures r >= 1
    ensures channelId in channelMap && channelMap[channelId] != 0 ==> r == channelMap[channelId]
    ensures channelId !in channelMap || channelMap[channelId] == 0 ==> r == 1
  {
    if channelId in channelMap && channelMap[channelId] != 0 then channelMap[channelId] else 1
  }

  /** `a || b` on optional strings: the first one that is present and not empty. */
  function FirstTruthy(a: Option<string>, b: Option<string>): (r: Option<string>)
    ensures a.Some? && a.value != "" ==> r == a
    ensures a.None? || a.value == "" ==> r == b
    ensures r.Some? && r.value != "" <==> (a.Some? && a.value != "") || (b.Some? && b.value != "")
  {
    if a.Some? && a.value != "" then a else b
  }

  /** `Math.max(0.1, hours)`. */
  function AtLeastTenthHour(hours: real): (r: real)
    ensures r >= 0.1 && r >= hours
  {
    if hours < 0.1 then 0.1 else hours
  }

  /** The map step of `searchVideos`: one API item to its metrics record. */
  function MapVideo(item: ApiVideo, channelMap: map<string, nat>, hoursSince: string -> real): (v: Video)
    ensures v.videoId == item.id && v.title == item.title && v.channelId == item.channelId
    ensures v.publishedAt == item.publishedAt && v.durationIso == item.duration
    ensures v.views == item.viewCount.GetOr(0)
    ensures v.likes == item.likeCount.GetOr(0) && v.comments == item.commentCount.GetOr(0)
    ensures v.subscriberCount == SubscriberCount(channelMap, item.channelId) >= 1
    ensures v.creatorSize == GetCreatorSize(v.subscriberCount)
    ensures v.durationSec == Duration.ParseDuration(item.duration)
    ensures NearestHundredth(v.viralRatio, v.views as real / v.subscriberCount as real)
    ensures NearestHundredth(v.viewVelocity, v.views as real / AtLeastTenthHour(hoursSince(item.publishedAt)))
    ensures v.viewVelocity >= 0.0 && v.viralRatio >= 0.0
    ensures v.likeRatio == Ratio(v.likes, v.views) && v.commentRatio == Ratio(v.comments, v.views)
    ensures v.description == item.description && v.channelTitle == item.channelTitle
    ensures v.thumbnail == FirstTruthy(item.thumbnailHigh, item.thumbnailDefault)
    ensures v.source == "youtube_real"
  {
    var views := item.viewCount.GetOr(0);
    var likes := item.likeCount.GetOr(0);
    var comments := item.commentCount.GetOr(0);
    var subs := SubscriberCount(channelMap, item.channelId);
    var hours := AtLeastTenthHour(hoursSince(item.publishedAt));
    RoundedQuotient(views as real, hours);
    RoundedQuotient(views as real, subs as real);
    Video(
      item.id, item.title, item.description, item.channelTitle, item.channelId,
      FirstTruthy(item.thumbnailHigh, item.thumbnailDefault),
      item.publishedAt, item.duration, Duration.ParseDuration(item.duration),
      views, likes, comments, subs, GetCreatorSize(subs),
      RoundToHundredths(views as real / hours),
      Ratio(likes, views),
      Ratio(comments, views),
      RoundToHundredths(views as real / subs as real),
      "youtube_real")
  }

  /** A nonnegative quotient by a positive divisor, multiplied back, gives the dividend. */
  lemma QuotientTimes(a: real, b: real)
    requires a >= 0.0 && b > 0.0
    ensures a / b >= 0.0 && (a / b) * b == a
  {
  }

  /** A non-negative quotient by a positive divisor, rounded to hundredths, is its nearest hundredth and non-negative. */
  lemma RoundedQuotient(a: real, b: real)
    requires a >= 0.0 && b > 0.0
    ensures NearestHundredth(RoundToHundredths(a / b), a / b) && RoundToHundredths(a / b) >= 0.0
  {
    QuotientTimes(a, b);
  }

  /** `views > 0 ? part / views : 0`: the share of `part` in `whole`, 0 for an empty whole. */
  function Ratio(part: nat, whole: nat): (r: real)
    ensures whole == 0 ==> r == 0.0
    ensures whole > 0 ==> r * (whole as real) == part as real
  {
    if whole > 0 then
      QuotientTimes(part as real, whole as real);
      part as real / whole as real
    else 0.0
  }

  function MapVideos(items: seq<ApiVideo>, channelMap: map<string, nat>, hoursSince: string -> real): (r: seq<Video>)
    ensures |r| == |items|
    ensures forall i :: 0 <= i < |items| ==> r[i] == MapVideo(items[i], channelMap, hoursSince)
  {
    Map((item: ApiVideo) => MapVideo(item, channelMap, hoursSince), items)
  }

  /** `items?.map(item => item.id?.videoId).filter(Boolean)`: the present, non-empty ids. */
  function VideoIds(items: seq<Option<string>>): (ids: seq<string>)
    ensures forall i :: 0 <= i < |ids| ==> ids[i] != ""
    ensures |ids| == 0 <==> forall i :: 0 <= i < |items| ==> items[i].None? || items[i].value == ""
  {
    if items == [] then []
    else (if items[0].Some? && items[0].value != "" then [items[0].value] else []) + VideoIds(items[1..])
  }

  /**
   * `searchVideos`: no ids, or a failed call, give the empty list; otherwise
   * every video's metrics record, sorted by non-increasing view velocity.
   */
  method SearchVideos(
    search: Option<seq<Option<string>>>,
    stats: Option<seq<ApiVideo>>,
    channels: Option<seq<ChannelStat>>,
    hoursSince: string -> real)
    returns (result: seq<Video>)
    ensures search.None? || |VideoIds(search.value)| == 0 || stats.None? ==> result == []
    ensures search.Some? && |VideoIds(search.value)| > 0 && stats.Some? ==>
      var channelMap := if channels.Some? then ChannelMapOf(channels.value) else map[];
      && result == SortDesc(MapVideos(stats.value, channelMap, hoursSince), Velocity)
      && multiset(result) == multiset(MapVideos(stats.value, channelMap, hoursSince))
      && SortedDesc(result, Velocity)
  {
    if search.None? {
      return [];
    }
    var videoIds := VideoIds(search.value);
    if |videoIds| == 0 {
      return [];
    }
    if stats.None? {
      return [];
    }
    var videos := stats.value;
    var channelIds := ChannelIds(videos);
    var channelMap: map<string, nat> := map[];
    if |channelIds| > 0 && channels.Some? {
      channelMap := BuildChannelMap(channels.value);
    }
    if channels.Some? && |channelIds| == 0 {
      // with no videos there are no channel ids and no channels call; nothing is mapped either
      assert videos == [];
      assert MapVideos(videos, ChannelMapOf(channels.value), hoursSince) == MapVideos(videos, channelMap, hoursSince);
    }
    var mapped := MapVideos(videos, channelMap, hoursSince);
    result := SortDesc(mapped, Velocity);
  }
}
