/** A tick of the channel worker in terms of the rows before and after it: when it
    flags a channel, what it stores, and what it leaves alone. */
module ChannelTicks {
  import opened Options
  import opened Sums
  import opened Schema
  import opened Channels

  /** The sum of the stored scores of these videos. */
  function ScoreTotal(videos: map<Video, VideoRow>, list: seq<Video>): real
    requires forall u :: u in list ==> u in videos
  {
    if list == [] then 0.0
    else
      var last := list[|list| - 1];
      ScoreTotal(videos, list[..|list| - 1]) + videos[last].score
  }

  lemma {:induction false} TotalWithout(videos: map<Video, VideoRow>, list: seq<Video>, p: Video)
    requires p !in list && forall u :: u in list ==> u in videos
    ensures ScoreTotal(videos - {p}, list) == ScoreTotal(videos, list)
  {
    if list != [] {
      TotalWithout(videos, list[..|list| - 1], p);
    }
  }

  /** list names each of the channel's videos with a score of 50 or more once. */
  ghost predicate ListsFlagged(videos: map<Video, VideoRow>, ch: Channel, list: seq<Video>) {
    && (forall u :: u in list <==> u in videos && videos[u].channel == Some(ch) && videos[u].score >= 50.0)
    && (forall i, j :: 0 <= i < j < |list| ==> list[i] != list[j])
  }

  lemma OneFewerListed(videos: map<Video, VideoRow>, ch: Channel, init: seq<Video>, p: Video)
    requires ListsFlagged(videos, ch, init + [p])
    ensures ListsFlagged(videos - {p}, ch, init) && p !in init && p in videos
    ensures FlaggedVideos(videos, ch) == FlaggedVideos(videos - {p}, ch) + {p}
  {
    var list := init + [p];
    assert list[|init|] == p && p in list;
    assert forall i :: 0 <= i < |init| ==> init[i] == list[i];
    assert forall u :: u in list <==> u in init || u == p;
    assert p !in init;
  }

  /** Whatever order the database returns the flagged rows in, their scores add up to FlaggedSum. */
  lemma {:induction false} FlaggedSumIsTotal(videos: map<Video, VideoRow>, ch: Channel, list: seq<Video>)
    requires ListsFlagged(videos, ch, list)
    ensures FlaggedSum(videos, ch) == ScoreTotal(videos, list)
    ensures |FlaggedVideos(videos, ch)| == |list|
    decreases |list|
  {
    if list == [] {
      FlaggedSumRange(videos, ch);
      assert FlaggedVideos(videos, ch) == {};
    } else {
      var init, p := list[..|list| - 1], list[|list| - 1];
      assert list == init + [p];
      OneFewerListed(videos, ch, init, p);
      FlaggedSumIsTotal(videos - {p}, ch, init);
      TotalWithout(videos, init, p);
      SumRemove(videos, FlaggedScore(ch), p);
    }
  }

  lemma RoundIsNearest(mode: Rounding, y: real)
    requires y >= 0.0
    ensures -0.5 <= Round(mode, y) as real - y <= 0.5
  {
  }

  /** A rounded value is a whole number of hundredths, at most half a hundredth away. */
  lemma CentsAreNearest(mode: Rounding, x: real)
    requires x >= 0.0
    ensures -0.005 <= Cents(mode, x) - x <= 0.005
    ensures IsWhole(Cents(mode, x) * 100.0)
  {
    var n := Round(mode, x * 100.0);
    RoundIsNearest(mode, x * 100.0);
    assert Cents(mode, x) == n as real / 100.0;
    assert Cents(mode, x) * 100.0 == n as real;
  }

  predicate IsWhole(x: real) {
    x.Floor as real == x
  }

  lemma FlagThreshold(mode: Rounding, sum: real, n: nat)
    requires sum >= 0.0
    ensures SumScore(mode, sum, n) >= 80.0 <==> n >= 3 && sum * 100.0 >= 7999.5 * n as real
  {
    if n >= 3 {
      PerVideoOrder(sum, n, 0.0);
      PerVideoOrder(sum, n, 79.995);
      EightyIgnoresRounding(mode, PerVideo(sum, n));
    }
  }

  /** When a tick flags a channel, exactly: its row is not locked, at least 20 of its
      videos score 50 or more, at least 3 are voted on, and the scores of 50 or more make
      at least 79.995 for each of these. `flagged` is any listing of the videos at 50 or more. */
  lemma FlaggedIff(mode: Rounding, t: Tables, ch: Channel, flagged: seq<Video>)
    requires ch in ActiveChannels(t.videos) && ListsFlagged(t.videos, ch, flagged)
    ensures var voted := set u | u in t.videos && t.videos[u].channel == Some(ch) && t.videos[u].totalVotes > 0;
            ch in AfterTick(mode, t).channels
            && (AfterTick(mode, t).channels[ch].autoFlagNew <==>
                  && !(ch in t.channels && t.channels[ch].locked)
                  && |flagged| >= 20 && |voted| >= 3
                  && ScoreTotal(t.videos, flagged) * 100.0 >= 7999.5 * |voted| as real)
  {
    FlaggedSumIsTotal(t.videos, ch, flagged);
    FlaggedSumRange(t.videos, ch);
    ScoreFromSum(mode, t.videos, ch);
    FlagThreshold(mode, FlaggedSum(t.videos, ch), |TrackedVideos(t.videos, ch)|);
    assert TrackedVideos(t.videos, ch)
        == set u | u in t.videos && t.videos[u].channel == Some(ch) && t.videos[u].totalVotes > 0;
  }

  predicate NearestHundredth(score: real, sum: real, n: nat) {
    if n < 3 then score == 0.0 else -0.005 <= score - sum / n as real <= 0.005 && IsWhole(score * 100.0)
  }

  lemma ScoreIsNearest(mode: Rounding, videos: map<Video, VideoRow>, ch: Channel)
    ensures NearestHundredth(ScoreOf(mode, videos, ch), FlaggedSum(videos, ch), |TrackedVideos(videos, ch)|)
  {
    var sum, n := FlaggedSum(videos, ch), |TrackedVideos(videos, ch)|;
    FlaggedSumRange(videos, ch);
    ScoreFromSum(mode, videos, ch);
    if n >= 3 {
      PerVideoOrder(sum, n, 0.0);
      CentsAreNearest(mode, PerVideo(sum, n));
    }
  }

  /** What else a tick stores for a channel with a voted video: its lock as it was, the
      two counts, and zero below three voted videos, else the flagged scores per voted
      video to the nearest hundredth. */
  lemma RecordedIs(mode: Rounding, t: Tables, ch: Channel, flagged: seq<Video>)
    requires ch in ActiveChannels(t.videos) && ListsFlagged(t.videos, ch, flagged)
    ensures ch in AfterTick(mode, t).channels
    ensures var row := AfterTick(mode, t).channels[ch];
            var voted := set u | u in t.videos && t.videos[u].channel == Some(ch) && t.videos[u].totalVotes > 0;
            && row.locked == (ch in t.channels && t.channels[ch].locked)
            && row.flaggedVideos == |flagged| && row.totalVideos == |voted|
            && NearestHundredth(row.score, ScoreTotal(t.videos, flagged), |voted|)
  {
    FlaggedSumIsTotal(t.videos, ch, flagged);
    ScoreIsNearest(mode, t.videos, ch);
    assert TrackedVideos(t.videos, ch)
        == set u | u in t.videos && t.videos[u].channel == Some(ch) && t.videos[u].totalVotes > 0;
  }

  /** What a tick changes: the records of channels with a voted video, and the scores of
      unvoted videos at zero in those that it flags. */
  lemma TickChangesOnly(mode: Rounding, t: Tables)
    ensures var t' := AfterTick(mode, t);
            && t'.users == t.users && t'.votes == t.votes && t'.categories == t.categories
            && t'.videos.Keys == t.videos.Keys
            && (forall ch :: ch in t'.channels <==> ch in t.channels || ch in ActiveChannels(t.videos))
            && (forall ch :: ch in t.channels && ch !in ActiveChannels(t.videos) ==> t'.channels[ch] == t.channels[ch])
            && (forall u :: u in t.videos ==>
                  t'.videos[u] == if && t.videos[u].totalVotes == 0 && t.videos[u].score == 0.0
                                     && t.videos[u].channel.Some?
                                     && t.videos[u].channel.value in ActiveChannels(t.videos)
                                     && t'.channels[t.videos[u].channel.value].autoFlagNew
                                  then t.videos[u].(score := 60.0) else t.videos[u])
  {
  }

  /** A lock protects a channel: the tick does not flag it and changes none of its videos. */
  lemma LockedIsLeftAlone(mode: Rounding, t: Tables, ch: Channel)
    requires ch in t.channels && t.channels[ch].locked
    ensures var t' := AfterTick(mode, t);
            && ch in t'.channels && t'.channels[ch].locked
            && (ch in ActiveChannels(t.videos) ==> !t'.channels[ch].autoFlagNew)
            && (forall u :: u in t.videos && t.videos[u].channel == Some(ch) ==> t'.videos[u] == t.videos[u])
  {
    TickChangesOnly(mode, t);
  }

  lemma ActiveIff(videos: map<Video, VideoRow>, ch: Channel)
    ensures ch in ActiveChannels(videos) <==>
              exists u :: u in videos && videos[u].channel == Some(ch) && videos[u].totalVotes > 0
  {
  }

  /** The numbers a tick reports, read off the tables before and after it. */
  lemma ReportedCounts(mode: Rounding, t: Tables)
    ensures var t', active := AfterTick(mode, t), ActiveChannels(t.videos);
            TickCounts(mode, t, active) ==
              Counts(|active|, |set ch | ch in active && t'.channels[ch].autoFlagNew|,
                     |set u | u in t.videos && t'.videos[u] != t.videos[u]|)
  {
    var t', active := AfterTick(mode, t), ActiveChannels(t.videos);
    var records := Records(mode, t, active);
    TickChangesOnly(mode, t);
    assert FlaggedChannels(records) == set ch | ch in active && t'.channels[ch].autoFlagNew;
    assert PromotedVideos(t.videos, records) == set u | u in t.videos && t'.videos[u] != t.videos[u];
  }
}
