/**
 * The helpers of the public feed page (app.js) that the moderation page (admin.js) shares:
 * category labels, public links to stored videos, aggregate counts, and the optimistic like toggle.
 */
module Feed {
  import opened Wrappers
  import opened JsValue
  import opened Text

  /** The category keys the label table knows, in table order. */
  const CategoryKeys: seq<string> := ["keresztezodes", "buszsav", "palyaszakasz", "gyalogatkelo", "parkolas"]
  /** Their display labels, in the same order. */
  const CategoryLabels: seq<string> := ["Kereszteződés", "Buszsáv", "Pályaszakasz", "Gyalogátkelő", "Parkolás"]
  /** The label of every other category, the empty one included. */
  const OtherLabel: string := "Egyéb"

  /** `labelFor`: the table entry of a known category, `Egyéb` otherwise. */
  function LabelFor(category: string): string {
    if category == "keresztezodes" then "Kereszteződés"
    else if category == "buszsav" then "Buszsáv"
    else if category == "palyaszakasz" then "Pályaszakasz"
    else if category == "gyalogatkelo" then "Gyalogátkelő"
    else if category == "parkolas" then "Parkolás"
    else OtherLabel
  }

  /** A known category gets its own label, different from every other known category's; any other gets `Egyéb`. */
  lemma LabelForTable(category: string)
    ensures forall i :: 0 <= i < |CategoryKeys| && CategoryKeys[i] == category ==> LabelFor(category) == CategoryLabels[i]
    ensures category !in CategoryKeys <==> LabelFor(category) == OtherLabel
    ensures LabelFor(category) in CategoryLabels || LabelFor(category) == OtherLabel
  {
  }

  lemma LabelForInjective(a: string, b: string)
    requires a in CategoryKeys && b in CategoryKeys && a != b
    ensures LabelFor(a) != LabelFor(b)
  {
  }

  const PublicObjectPath: string := "/storage/v1/object/public/"

  /**
   * `buildVideoUrl`: the link to a stored video. An empty path or a missing project URL gives
   * `fallback` (`''` on the feed, `'#'` on the moderation page); a path starting with `http` is
   * already a link; otherwise the public object URL of `path` in `bucket`.
   */
  function BuildVideoUrl(path: string, supabaseUrl: string, bucket: string, fallback: string): string {
    if path == "" then fallback
    else if StartsWith(path, "http") then path
    else if supabaseUrl == "" then fallback
    else DropTrailingSlash(supabaseUrl) + PublicObjectPath + bucket + "/" + DropLeadingSlash(path)
  }

  /** The feed's version, which falls back to the empty link. */
  function FeedVideoUrl(path: string, supabaseUrl: string, bucket: string): string {
    BuildVideoUrl(path, supabaseUrl, bucket, "")
  }

  /** The moderation page's version, which falls back to `#`. */
  function AdminVideoUrl(path: string, supabaseUrl: string, bucket: string): string {
    BuildVideoUrl(path, supabaseUrl, bucket, "#")
  }

  /**
   * A stored path becomes a link that begins with the project URL (one trailing slash dropped),
   * then the public object prefix and the bucket, and ends with the path (one leading slash dropped).
   */
  lemma StoredPathLink(path: string, supabaseUrl: string, bucket: string, fallback: string)
    requires path != "" && !StartsWith(path, "http") && supabaseUrl != ""
    ensures var r := BuildVideoUrl(path, supabaseUrl, bucket, fallback);
      var head := DropTrailingSlash(supabaseUrl) + PublicObjectPath + bucket + "/";
      && StartsWith(r, head)
      && r[|head|..] == DropLeadingSlash(path)
      && (DropTrailingSlash(supabaseUrl) + "/" == supabaseUrl || DropTrailingSlash(supabaseUrl) == supabaseUrl)
      && ("/" + DropLeadingSlash(path) == path || DropLeadingSlash(path) == path)
  {
    var head := DropTrailingSlash(supabaseUrl) + PublicObjectPath + bucket + "/";
    var r := BuildVideoUrl(path, supabaseUrl, bucket, fallback);
    assert r == head + DropLeadingSlash(path);
    assert r[..|head|] == head;
  }

  /** The start of a link survives dropping its trailing slash. */
  lemma HttpPrefixKept(s: string)
    requires StartsWith(s, "http")
    ensures StartsWith(DropTrailingSlash(s), "http")
  {
    if |s| > 0 && s[|s| - 1] == '/' {
      assert s[3] == 'p';
      assert DropTrailingSlash(s)[..4] == s[..4];
    }
  }

  /** A prefix of a text is a prefix of any extension of it. */
  lemma PrefixOfConcat(a: string, b: string, p: string)
    requires StartsWith(a, p)
    ensures StartsWith(a + b, p)
  {
    assert (a + b)[..|p|] == a[..|p|];
  }

  /** With an `http` project URL every link built from a non-empty path is absolute. */
  lemma AbsoluteLink(path: string, supabaseUrl: string, bucket: string, fallback: string)
    requires StartsWith(supabaseUrl, "http") && path != ""
    ensures StartsWith(BuildVideoUrl(path, supabaseUrl, bucket, fallback), "http")
  {
    if !StartsWith(path, "http") {
      var head, tail := DropTrailingSlash(supabaseUrl), PublicObjectPath + bucket + "/" + DropLeadingSlash(path);
      assert StartsWith(head, "http") by { HttpPrefixKept(supabaseUrl); }
      assert StartsWith(head + tail, "http") by { PrefixOfConcat(head, tail, "http"); }
      assert BuildVideoUrl(path, supabaseUrl, bucket, fallback) == head + tail;
    }
  }

  /** Building a link from a link built with an `http` project URL gives it back unchanged. */
  lemma LinksAreStable(path: string, supabaseUrl: string, bucket: string, fallback: string)
    requires StartsWith(supabaseUrl, "http") && path != ""
    ensures var r := BuildVideoUrl(path, supabaseUrl, bucket, fallback);
      BuildVideoUrl(r, supabaseUrl, bucket, fallback) == r
  {
    AbsoluteLink(path, supabaseUrl, bucket, fallback);
  }

  /** The feed and the moderation page build the same link, except that where the feed has none the moderation page has `#`. */
  lemma FeedAndAdminAgree(path: string, supabaseUrl: string, bucket: string)
    ensures FeedVideoUrl(path, supabaseUrl, bucket) != "" ==>
      AdminVideoUrl(path, supabaseUrl, bucket) == FeedVideoUrl(path, supabaseUrl, bucket)
    ensures FeedVideoUrl(path, supabaseUrl, bucket) == "" <==> AdminVideoUrl(path, supabaseUrl, bucket) == "#"
  {
    if path != "" && !StartsWith(path, "http") && supabaseUrl != "" {
      var r := FeedVideoUrl(path, supabaseUrl, bucket);
      var head := DropTrailingSlash(supabaseUrl) + PublicObjectPath + bucket + "/";
      assert r == head + DropLeadingSlash(path);
      assert |r| > 1;
    }
  }

  /**
   * `extractAggregateCount` / `getAggregateCount`: the numeric `count` of the first element of an
   * embedded `[{ count }]` aggregate, and 0 for anything else.
   */
  function AggregateCount(v: Value): (r: int)
    ensures r != 0 ==> v.Arr? && |v.items| > 0 && Field(v.items[0], "count") == Some(Num(r))
  {
    if v.Arr? && |v.items| > 0 && v.items[0].Obj? && "count" in v.items[0].fields
       && v.items[0].fields["count"].Num?
    then v.items[0].fields["count"].n
    else 0
  }

  /** The count comes back out of the aggregate shape the database returns, and every other shape counts 0. */
  lemma AggregateCountCases(v: Value, n: int, first: map<string, Value>, rest: seq<Value>)
    ensures AggregateCount(Arr([Obj(first["count" := Num(n)])] + rest)) == n
    ensures !v.Arr? || v.items == [] ==> AggregateCount(v) == 0
    ensures v.Arr? && v.items != [] && (Field(v.items[0], "count").None? || !Field(v.items[0], "count").value.Num?) ==>
      AggregateCount(v) == 0
  {
  }

  /** The minimum time between two likes of the same video, in milliseconds. */
  const LikeRateLimitMs: int := 1500

  /** The fields of a loaded video the like toggle touches. */
  datatype Video = Video(id: string, likesCount: int, likedByUser: bool)

  /** The write sent to `video_likes`. */
  datatype LikeCall = RemoveLike(videoId: string, userId: string) | AddLike(videoId: string, userId: string)

  /** How `handleLikeClick` ended. */
  datatype LikeOutcome = NoClient | SignInRequired | Throttled | NotLoaded | Toggled | RolledBack

  /** The video as shown right after the click: one like more or less (never below 0), liked flipped. */
  function Optimistic(v: Video, wasLiked: bool): (r: Video)
    ensures r.id == v.id && r.likedByUser == !wasLiked && r.likesCount >= 0
    ensures wasLiked ==> r.likesCount == if v.likesCount > 0 then v.likesCount - 1 else 0
    ensures !wasLiked && v.likesCount >= 0 ==> r.likesCount == v.likesCount + 1
  {
    Video(v.id, if v.likesCount + (if wasLiked then -1 else 1) > 0 then v.likesCount + (if wasLiked then -1 else 1) else 0, !wasLiked)
  }

  /** Liking then unliking (or the reverse) shows the video as it was, provided it was shown consistently. */
  lemma ToggleTwice(v: Video, wasLiked: bool)
    requires v.likedByUser == wasLiked && v.likesCount >= (if wasLiked then 1 else 0)
    ensures Optimistic(Optimistic(v, wasLiked), !wasLiked) == v
  {
  }

  /** A click on a video liked with a count of 0 gains a like when toggled twice. */
  lemma ToggleTwiceFromZero(id: string)
    ensures Optimistic(Optimistic(Video(id, 0, true), true), false) == Video(id, 1, true)
  {
  }

  /** `state.videos.map(...)`: every loaded item with that id replaced. */
  function ReplaceById(videos: seq<Video>, id: string, v: Video): (r: seq<Video>)
    ensures |r| == |videos|
    ensures forall i :: 0 <= i < |r| ==> r[i] == if videos[i].id == id then v else videos[i]
  {
    if videos == [] then [] else [if videos[0].id == id then v else videos[0]] + ReplaceById(videos[1..], id, v)
  }

  /** A second replacement of the same id wins over the first. */
  lemma ReplaceTwice(videos: seq<Video>, id: string, first: Video, second: Video)
    requires first.id == id
    ensures ReplaceById(ReplaceById(videos, id, first), id, second) == ReplaceById(videos, id, second)
  {
    var a := ReplaceById(ReplaceById(videos, id, first), id, second);
    var b := ReplaceById(videos, id, second);
    assert forall i :: 0 <= i < |a| ==> a[i] == b[i];
  }

  /** Whether a like of `videoId` at time `now` comes too soon after the last one. */
  predicate IsThrottled(lastLike: map<string, int>, videoId: string, now: int) {
    now - (if videoId in lastLike then lastLike[videoId] else 0) < LikeRateLimitMs
  }

  /**
   * A like is refused for 1.5 s after the recorded one (an unrecorded video counts as liked at time 0),
   * and a like just recorded refuses an immediate second one.
   */
  lemma ThrottleWindow(lastLike: map<string, int>, videoId: string, now: int)
    ensures videoId in lastLike ==> (IsThrottled(lastLike, videoId, now) <==> now < lastLike[videoId] + 1500)
    ensures videoId !in lastLike ==> (IsThrottled(lastLike, videoId, now) <==> now < 1500)
    ensures IsThrottled(lastLike[videoId := now], videoId, now)
  {
  }

  /** After a rollback the video can be liked again at once. */
  lemma RollbackUnthrottles(lastLike: map<string, int>, videoId: string, failedAt: int, now: int)
    requires now >= failedAt
    ensures !IsThrottled(lastLike[videoId := failedAt - LikeRateLimitMs], videoId, now)
  {
  }

  /** The feed's like state: the loaded list, the cache by id, the ids the user likes and the time of each video's last like. */
  class LikeBoard {
    var videos: seq<Video>
    var cache: map<string, Video>
    var liked: set<string>
    var lastLike: map<string, int>

    /** The cache is keyed by video id, and no video is shown with a negative number of likes. */
    predicate Valid()
      reads this
    {
      && (forall id :: id in cache ==> cache[id].id == id && cache[id].likesCount >= 0)
      && (forall i :: 0 <= i < |videos| ==> videos[i].likesCount >= 0)
    }

    constructor (videos: seq<Video>, cache: map<string, Video>, liked: set<string>)
      requires forall id :: id in cache ==> cache[id].id == id && cache[id].likesCount >= 0
      requires forall i :: 0 <= i < |videos| ==> videos[i].likesCount >= 0
      ensures Valid()
      ensures this.videos == videos && this.cache == cache && this.liked == liked && lastLike == map[]
    {
      this.videos, this.cache, this.liked, lastLike := videos, cache, liked, map[];
    }

    /** `updateVideoData`: merges the new like fields into the cached video and into every loaded copy of it. */
    method UpdateVideoData(videoId: string, likesCount: int, likedByUser: bool)
      modifies this
      ensures videoId !in old(cache) ==> cache == old(cache) && videos == old(videos)
      ensures videoId in old(cache) ==>
        var updated := Video(old(cache)[videoId].id, likesCount, likedByUser);
        cache == old(cache)[videoId := updated] && videos == ReplaceById(old(videos), videoId, updated)
      ensures liked == old(liked) && lastLike == old(lastLike)
      ensures old(Valid()) && likesCount >= 0 ==> Valid()
    {
      if videoId in cache {
        var updated := Video(cache[videoId].id, likesCount, likedByUser);
        cache := cache[videoId := updated];
        videos := ReplaceById(videos, videoId, updated);
      }
    }

    /** Adds `videoId` to the liked set or removes it from there. */
    method FlipLiked(videoId: string)
      modifies this
      ensures liked == if videoId in old(liked) then old(liked) - {videoId} else old(liked) + {videoId}
      ensures videos == old(videos) && cache == old(cache) && lastLike == old(lastLike)
    {
      if videoId in liked {
        liked := liked - {videoId};
      } else {
        liked := liked + {videoId};
      }
    }

    /**
     * `handleLikeClick`: refuses without a client, a signed-in user, or when throttled; otherwise
     * records the click time and, for a loaded video, toggles its like (see `ToggleLoaded`).
     */
    method HandleLikeClick(videoId: string, clientConfigured: bool, user: Option<string>, now: int,
                           writeOk: bool, failedAt: int)
      returns (outcome: LikeOutcome, call: Option<LikeCall>)
      requires Valid()
      modifies this
      ensures Valid()
      ensures !clientConfigured ==> outcome == NoClient
      ensures clientConfigured && user.None? ==> outcome == SignInRequired
      ensures clientConfigured && user.Some? && IsThrottled(old(lastLike), videoId, now) ==> outcome == Throttled
      ensures outcome in {NoClient, SignInRequired, Throttled} ==>
        call == None && videos == old(videos) && cache == old(cache) && liked == old(liked) && lastLike == old(lastLike)
      ensures outcome == NotLoaded <==>
        clientConfigured && user.Some? && !IsThrottled(old(lastLike), videoId, now) && videoId !in old(cache)
      ensures outcome == NotLoaded ==>
        call == None && videos == old(videos) && cache == old(cache) && liked == old(liked)
        && lastLike == old(lastLike)[videoId := now]
      ensures outcome in {Toggled, RolledBack} ==>
        && clientConfigured && user.Some? && !IsThrottled(old(lastLike), videoId, now) && videoId in old(cache)
        && call == Some(if videoId in old(liked) then RemoveLike(videoId, user.value) else AddLike(videoId, user.value))
        && (outcome == Toggled <==> writeOk)
      ensures outcome == Toggled ==>
        var shown := Optimistic(old(cache)[videoId], videoId in old(liked));
        && liked == (if videoId in old(liked) then old(liked) - {videoId} else old(liked) + {videoId})
        && cache == old(cache)[videoId := shown]
        && videos == ReplaceById(old(videos), videoId, shown)
        && lastLike == old(lastLike)[videoId := now]
      ensures outcome == RolledBack ==>
        && liked == old(liked)
        && cache == old(cache)
        && videos == ReplaceById(old(videos), videoId, old(cache)[videoId])
        && lastLike == old(lastLike)[videoId := failedAt - LikeRateLimitMs]
    {
      call := None;
      if !clientConfigured {
        return NoClient, call;
      }
      if user.None? {
        return SignInRequired, call;
      }
      if IsThrottled(lastLike, videoId, now) {
        return Throttled, call;
      }
      lastLike := lastLike[videoId := now];
      if videoId !in cache {
        return NotLoaded, call;
      }
      outcome, call := ToggleLoaded(videoId, user.value, writeOk, failedAt);
    }

    /**
     * The toggle of a loaded video: flips the like optimistically and sends the matching write;
     * when the write fails, restores the like set and the video and lifts the throttle.
     */
    method ToggleLoaded(videoId: string, userId: string, writeOk: bool, failedAt: int)
      returns (outcome: LikeOutcome, call: Option<LikeCall>)
      requires Valid() && videoId in cache
      modifies this
      ensures Valid()
      ensures outcome == (if writeOk then Toggled else RolledBack)
      ensures call == Some(if videoId in old(liked) then RemoveLike(videoId, userId) else AddLike(videoId, userId))
      ensures writeOk ==>
        var shown := Optimistic(old(cache)[videoId], videoId in old(liked));
        && liked == (if videoId in old(liked) then old(liked) - {videoId} else old(liked) + {videoId})
        && cache == old(cache)[videoId := shown]
        && videos == ReplaceById(old(videos), videoId, shown)
        && lastLike == old(lastLike)
      ensures !writeOk ==>
        && liked == old(liked)
        && cache == old(cache)
        && videos == ReplaceById(old(videos), videoId, old(cache)[videoId])
        && lastLike == old(lastLike)[videoId := failedAt - LikeRateLimitMs]
    {
      var previous := cache[videoId];
      var wasLiked := videoId in liked;
      ShowOptimistic(videoId);
      call := Some(if wasLiked then RemoveLike(videoId, userId) else AddLike(videoId, userId));
      if writeOk {
        return Toggled, call;
      }
      Restore(videoId, previous, failedAt);
      assert cache == old(cache)[videoId := previous] == old(cache);
      ReplaceTwice(old(videos), videoId, Optimistic(previous, wasLiked), previous);
      outcome := RolledBack;
    }

    /** The optimistic half of the toggle: the like set flipped and the video shown with its new count. */
    method ShowOptimistic(videoId: string)
      requires Valid() && videoId in cache
      modifies this
      ensures Valid()
      ensures liked == if videoId in old(liked) then old(liked) - {videoId} else old(liked) + {videoId}
      ensures var shown := Optimistic(old(cache)[videoId], videoId in old(liked));
        cache == old(cache)[videoId := shown] && videos == ReplaceById(old(videos), videoId, shown)
      ensures lastLike == old(lastLike)
    {
      var shown := Optimistic(cache[videoId], videoId in liked);
      FlipLiked(videoId);
      UpdateVideoData(videoId, shown.likesCount, shown.likedByUser);
    }

    /** The rollback after a failed write: the like set flipped back, the video shown as before, the throttle lifted. */
    method Restore(videoId: string, previous: Video, failedAt: int)
      requires Valid() && videoId in cache && previous.id == videoId && previous.likesCount >= 0
      modifies this
      ensures Valid()
      ensures liked == if videoId in old(liked) then old(liked) - {videoId} else old(liked) + {videoId}
      ensures cache == old(cache)[videoId := previous] && videos == ReplaceById(old(videos), videoId, previous)
      ensures lastLike == old(lastLike)[videoId := failedAt - LikeRateLimitMs]
    {
      FlipLiked(videoId);
      UpdateVideoData(videoId, previous.likesCount, previous.likedByUser);
      lastLike := lastLike[videoId := failedAt - LikeRateLimitMs];
    }
  }
}
