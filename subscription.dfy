/**
 * The realtime subscription that follows one submitted video's status (app.js, `uploadState`):
 * at most one channel at a time, torn down before a new one is opened and after a terminal status.
 */
module Subscription {
  import opened Wrappers
  import opened VideoStatus
  import opened Presenter

  /** A realtime channel on UPDATEs of one `videos` row. */
  datatype Channel = Channel(topic: string, filter: string)

  function ChannelFor(videoId: string): (c: Channel)
    ensures StartsWithTopic(c.topic) && c.topic[|"videos-status-"|..] == videoId
  {
    Channel("videos-status-" + videoId, "id=eq." + videoId)
  }

  predicate StartsWithTopic(t: string) {
    |"videos-status-"| <= |t| && t[..|"videos-status-"|] == "videos-status-"
  }

  /** Different videos are followed on different channels. */
  lemma ChannelForInjective(a: string, b: string)
    requires ChannelFor(a) == ChannelFor(b)
    ensures a == b
  {
    assert a == ChannelFor(a).topic[|"videos-status-"|..];
  }

  /** The calls made on the realtime client. */
  datatype RealtimeCall = Open(channel: Channel) | Remove(channel: Channel)

  /** The status keys on which the push handler stops following the video. */
  predicate EndsFollowing(status: string) {
    status == "approved" || status == "rejected" || status == "failed"
  }

  lemma EndsFollowingIsTerminal(status: string)
    ensures EndsFollowing(status) <==> ParseStatus(status).Some? && IsTerminal(ParseStatus(status).value)
  {
  }

  class UploadSession {
    /** Whether a backend client is configured at all. */
    const clientConfigured: bool
    var currentVideoId: Option<string>
    var channel: Option<Channel>
    /** Every call made on the realtime client, oldest first. */
    var realtime: seq<RealtimeCall>

    /** A video is followed exactly when a channel is held, and the channel is that video's. */
    predicate Valid()
      reads this
    {
      && (channel.Some? <==> currentVideoId.Some?)
      && (channel.Some? ==> clientConfigured && channel.value == ChannelFor(currentVideoId.value))
    }

    constructor (clientConfigured: bool)
      ensures Valid()
      ensures this.clientConfigured == clientConfigured
      ensures currentVideoId == None && channel == None && realtime == []
    {
      this.clientConfigured := clientConfigured;
      currentVideoId, channel, realtime := None, None, [];
    }

    /** cleanupUploadSubscription: removes the held channel, if any, and forgets the video. */
    method Cleanup()
      requires Valid()
      modifies this
      ensures Valid()
      ensures currentVideoId == None && channel == None
      ensures realtime == old(realtime) + (if old(channel).Some? then [Remove(old(channel).value)] else [])
    {
      if channel.Some? && clientConfigured {
        realtime := realtime + [Remove(channel.value)];
      }
      channel := None;
      currentVideoId := None;
    }

    /**
     * subscribeToVideoStatus: nothing without a client or a video id, nothing when that video is
     * already followed; otherwise the old channel is removed first and the new one is kept only when
     * the subscription is accepted (`subscribeOk`).
     */
    method Subscribe(videoId: string, subscribeOk: bool)
      requires Valid()
      modifies this
      ensures Valid()
      ensures !clientConfigured || videoId == "" ==> unchanged(this)
      ensures old(currentVideoId) == Some(videoId) && old(channel).Some? ==> unchanged(this)
      ensures clientConfigured && videoId != "" && old(currentVideoId) != Some(videoId) ==>
        && realtime == old(realtime) + (if old(channel).Some? then [Remove(old(channel).value)] else []) + [Open(ChannelFor(videoId))]
        && (subscribeOk ==> currentVideoId == Some(videoId) && channel == Some(ChannelFor(videoId)))
        && (!subscribeOk ==> currentVideoId == None && channel == None)
    {
      if !clientConfigured || videoId == "" {
        return;
      }
      if currentVideoId == Some(videoId) && channel.Some? {
        return;
      }
      Cleanup();
      var c := ChannelFor(videoId);
      realtime := realtime + [Open(c)];
      if subscribeOk {
        channel := Some(c);
        currentVideoId := Some(videoId);
      }
    }

    /**
     * The handler of a pushed row update: an absent or empty status is ignored; otherwise both the
     * status line and the bar show it, an approval asks for the feed and the top list to be
     * reloaded (`refresh`), and a terminal status ends the subscription.
     */
    method OnStatusPush(status: Option<string>, widget: ProgressWidget) returns (refresh: bool)
      requires Valid()
      modifies this, widget
      ensures Valid()
      ensures status.None? || status == Some("") ==> unchanged(this) && unchanged(widget) && !refresh
      ensures status.Some? && status.value != "" ==>
        && refresh == (status.value == "approved")
        && widget.statusText == StatusLine(status.value, "info").text
        && widget.statusTone == StatusLine(status.value, "info").tone
        && widget.visible
        && widget.percent == Capped(ChosenPercent(status.value, None))
        && widget.tone == ToneNamed(ChosenToneName(status.value, ""))
        && widget.caption == (if ChosenLabel(status.value, "") != "" then ChosenLabel(status.value, "") else old(widget.caption))
        && (EndsFollowing(status.value) ==>
              && currentVideoId == None && channel == None
              && realtime == old(realtime) + (if old(channel).Some? then [Remove(old(channel).value)] else []))
        && (!EndsFollowing(status.value) ==> unchanged(this))
    {
      refresh := false;
      if status.None? || status.value == "" {
        return;
      }
      var s := status.value;
      widget.UpdateStatus(s, "info");
      widget.UpdateUploadProgressStatus(s, NoOverrides);
      refresh := s == "approved";
      if EndsFollowing(s) {
        Cleanup();
      }
    }
  }
}
