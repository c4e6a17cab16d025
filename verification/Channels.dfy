/** The channel worker: aggregate a channel's videos, flag the channel, and give
    its unvoted videos a preliminary score. */
module Channels {
  import opened Options
  import opened Sums
  import opened Schema

  const FLAGGED_SCORE := 50.0
  const AUTO_FLAG_SCORE := 80.0
  const AUTO_FLAG_MIN_FLAGGED := 20
  const MIN_TRACKED := 3
  const PRELIMINARY_SCORE := 60.0

  // ---------- three ways to round to an integer ----------

  datatype Rounding = GoTruncate | GoMathRound | PythonRound

  /** int(y + 0.5) in Go: truncation toward zero. */
  function Truncated(z: real): int {
    if z >= 0.0 then z.Floor else -((-z).Floor)
  }

  function Round(mode: Rounding, y: real): int {
    match mode
    case GoTruncate => Truncated(y + 0.5)
    // math.Round: half away from zero
    case GoMathRound => if y >= 0.0 then (y + 0.5).Floor else -((-y + 0.5).Floor)
    // Python's round: half to even
    case PythonRound =>
      var f := y.Floor;
      var d := y - f as real;
      if d < 0.5 then f else if d > 0.5 then f + 1 else if f % 2 == 0 then f else f + 1
  }

  lemma FloorIs(x: real, n: int)
    requires n as real <= x < n as real + 1.0
    ensures x.Floor == n
  {
  }

  /** The two Go roundings agree exactly above -0.5, so on every channel score. */
  lemma GoRoundingsAgreeIff(y: real)
    ensures Round(GoTruncate, y) == Round(GoMathRound, y) <==> y > -0.5
  {
  }

  /** Go and Python round a non-negative value differently exactly at a tie above
      an even integer, and then Go is one higher. */
  lemma PythonRoundsDifferentlyIff(y: real)
    requires y >= 0.0
    ensures Round(GoTruncate, y) != Round(PythonRound, y) <==> y - y.Floor as real == 0.5 && y.Floor % 2 == 0
    ensures Round(PythonRound, y) <= Round(GoTruncate, y) <= Round(PythonRound, y) + 1
  {
  }

  lemma CentsAgree(x: real)
    requires x >= 0.0
    ensures Cents(GoTruncate, x) == Cents(GoMathRound, x)
    ensures Cents(PythonRound, x) <= Cents(GoTruncate, x) <= Cents(PythonRound, x) + 0.01
  {
    GoRoundingsAgreeIff(x * 100.0);
    PythonRoundsDifferentlyIff(x * 100.0);
  }

  /** So the channel worker and the pure Go helper compute the same score, and
      Python's is at most one cent lower. */
  lemma ChannelScoresAgree(flagged: nat, tracked: nat, average: real)
    requires average >= 0.0
    ensures ChannelScore(GoTruncate, flagged, tracked, average) == ChannelScore(GoMathRound, flagged, tracked, average)
    ensures ChannelScore(PythonRound, flagged, tracked, average)
         <= ChannelScore(GoTruncate, flagged, tracked, average)
         <= ChannelScore(PythonRound, flagged, tracked, average) + 0.01
  {
    if tracked >= MIN_TRACKED {
      RatioNonNegative(flagged, tracked, average);
      CentsAgree((flagged as real / tracked as real) * average);
    }
  }

  lemma RatioNonNegative(flagged: nat, tracked: nat, average: real)
    requires tracked > 0 && average >= 0.0
    ensures (flagged as real / tracked as real) * average >= 0.0
  {
  }

  lemma RoundMonotone(mode: Rounding, x: real, y: real)
    requires 0.0 <= x <= y
    ensures 0 <= Round(mode, x) <= Round(mode, y)
  {
  }

  // ---------- aggregates over a channel's videos ----------

  predicate InChannel(row: VideoRow, ch: Channel) {
    row.channel == Some(ch)
  }

  function FlaggedVideos(videos: map<Video, VideoRow>, ch: Channel): set<Video> {
    set u | u in videos && InChannel(videos[u], ch) && videos[u].score >= FLAGGED_SCORE
  }

  function TrackedVideos(videos: map<Video, VideoRow>, ch: Channel): set<Video> {
    set u | u in videos && InChannel(videos[u], ch) && videos[u].totalVotes > 0
  }

  function FlaggedScore(ch: Channel): (Video, VideoRow) -> real {
    (u, row: VideoRow) => if InChannel(row, ch) && row.score >= FLAGGED_SCORE then row.score else 0.0
  }

  ghost function FlaggedSum(videos: map<Video, VideoRow>, ch: Channel): real {
    Sum(videos, FlaggedScore(ch))
  }

  /** The mean of n values, zero if there are none. */
  function Average(sum: real, n: nat): real {
    if n == 0 then 0.0 else sum / n as real
  }

  function ChannelScore(mode: Rounding, flagged: nat, tracked: nat, average: real): real {
    if tracked < MIN_TRACKED then 0.0
    else Cents(mode, (flagged as real / tracked as real) * average)
  }

  /** Rounded to two decimal places. */
  function Cents(mode: Rounding, x: real): real {
    Round(mode, x * 100.0) as real / 100.0
  }

  function PerVideo(sum: real, n: nat): real
    requires n > 0
  {
    sum / n as real
  }

  /** The channel score as a function of the sum of flagged scores. */
  function SumScore(mode: Rounding, sum: real, tracked: nat): real {
    if tracked < MIN_TRACKED then 0.0 else Cents(mode, PerVideo(sum, tracked))
  }

  ghost function ScoreOf(mode: Rounding, videos: map<Video, VideoRow>, ch: Channel): real {
    var flagged := |FlaggedVideos(videos, ch)|;
    ChannelScore(mode, flagged, |TrackedVideos(videos, ch)|, Average(FlaggedSum(videos, ch), flagged))
  }

  predicate ShouldFlag(score: real, flagged: nat, locked: bool) {
    score >= AUTO_FLAG_SCORE && flagged >= AUTO_FLAG_MIN_FLAGGED && !locked
  }

  function LockedOf(t: Tables, ch: Channel): bool {
    ch in t.channels && t.channels[ch].locked
  }

  ghost predicate AutoFlagged(mode: Rounding, t: Tables, ch: Channel) {
    ShouldFlag(ScoreOf(mode, t.videos, ch), |FlaggedVideos(t.videos, ch)|, LockedOf(t, ch))
  }

  // ---------- one channel ----------

  /** The row for a channel; a new channel starts unlocked. */
  ghost function ChannelRecord(mode: Rounding, t: Tables, ch: Channel): ChannelRow {
    ChannelRow(ScoreOf(mode, t.videos, ch), |FlaggedVideos(t.videos, ch)|, |TrackedVideos(t.videos, ch)|,
               LockedOf(t, ch), AutoFlagged(mode, t, ch))
  }

  predicate Fresh(row: VideoRow, ch: Channel) {
    InChannel(row, ch) && row.totalVotes == 0 && row.score == 0.0
  }

  function FreshVideos(videos: map<Video, VideoRow>, ch: Channel): set<Video> {
    set u | u in videos && Fresh(videos[u], ch)
  }

  /** Every video of the channel that has neither votes nor a score gets the preliminary score. */
  function MarkPreliminary(videos: map<Video, VideoRow>, ch: Channel): map<Video, VideoRow> {
    map u | u in videos :: if Fresh(videos[u], ch) then videos[u].(score := PRELIMINARY_SCORE) else videos[u]
  }

  /** Store a channel's record and, if it is flagged, score its fresh videos. */
  function WithRecord(t: Tables, ch: Channel, record: ChannelRow): Tables {
    t.(channels := t.channels[ch := record],
       videos := if record.autoFlagNew then MarkPreliminary(t.videos, ch) else t.videos)
  }

  // ---------- one tick over all channels ----------

  /** Channels with at least one voted video. */
  function ActiveChannels(videos: map<Video, VideoRow>): set<Channel> {
    set u | u in videos && videos[u].channel.Some? && videos[u].totalVotes > 0 :: videos[u].channel.value
  }

  predicate Promoted(records: map<Channel, ChannelRow>, row: VideoRow) {
    && row.channel.Some? && row.channel.value in records && records[row.channel.value].autoFlagNew
    && Fresh(row, row.channel.value)
  }

  /** All records stored at once, row by row. */
  function WithRecords(t: Tables, records: map<Channel, ChannelRow>): Tables {
    t.(channels := t.channels + records, videos := Promote(t.videos, records))
  }

  function Promote(videos: map<Video, VideoRow>, records: map<Channel, ChannelRow>): map<Video, VideoRow> {
    map u | u in videos :: if Promoted(records, videos[u]) then videos[u].(score := PRELIMINARY_SCORE) else videos[u]
  }

  /** The videos that storing the records gives a preliminary score. */
  function PromotedVideos(videos: map<Video, VideoRow>, records: map<Channel, ChannelRow>): set<Video> {
    set u | u in videos && Promoted(records, videos[u])
  }

  function FlaggedChannels(records: map<Channel, ChannelRow>): set<Channel> {
    set ch | ch in records && records[ch].autoFlagNew
  }

  ghost function Records(mode: Rounding, t: Tables, done: set<Channel>): map<Channel, ChannelRow> {
    map ch | ch in done :: ChannelRecord(mode, t, ch)
  }

  /** The tables after recalculating these channels all at once. */
  ghost function Ticked(mode: Rounding, t: Tables, done: set<Channel>): Tables {
    WithRecords(t, Records(mode, t, done))
  }

  ghost function AfterTick(mode: Rounding, t: Tables): Tables {
    Ticked(mode, t, ActiveChannels(t.videos))
  }

  /** Two video tables with the same rows for a channel give it the same aggregates. */
  ghost predicate SameForChannel(a: map<Video, VideoRow>, b: map<Video, VideoRow>, ch: Channel) {
    && a.Keys == b.Keys
    && forall u :: u in a ==> (InChannel(a[u], ch) <==> InChannel(b[u], ch)) && (InChannel(a[u], ch) ==> a[u] == b[u])
  }

  lemma {:induction false} SameSum(a: map<Video, VideoRow>, b: map<Video, VideoRow>, ch: Channel)
    requires SameForChannel(a, b, ch)
    ensures FlaggedSum(a, ch) == FlaggedSum(b, ch)
    decreases a.Keys
  {
    if a.Keys != {} {
      var p := Pick(a.Keys);
      assert (a - {p}).Keys < a.Keys;
      SameSum(a - {p}, b - {p}, ch);
      SumRemove(a, FlaggedScore(ch), p);
      SumRemove(b, FlaggedScore(ch), p);
    }
  }

  lemma SameAggregates(mode: Rounding, a: map<Video, VideoRow>, b: map<Video, VideoRow>, ch: Channel)
    requires SameForChannel(a, b, ch)
    ensures FlaggedVideos(a, ch) == FlaggedVideos(b, ch)
    ensures TrackedVideos(a, ch) == TrackedVideos(b, ch)
    ensures ScoreOf(mode, a, ch) == ScoreOf(mode, b, ch)
  {
    SameSum(a, b, ch);
    assert FlaggedVideos(a, ch) == FlaggedVideos(b, ch);
    assert TrackedVideos(a, ch) == TrackedVideos(b, ch);
  }

  lemma OneMorePromotion(videos: map<Video, VideoRow>, records: map<Channel, ChannelRow>, ch: Channel,
                         record: ChannelRow)
    requires ch !in records
    ensures (if record.autoFlagNew then MarkPreliminary(Promote(videos, records), ch) else Promote(videos, records))
         == Promote(videos, records[ch := record])
  {
  }

  lemma OneMoreRecord(t: Tables, records: map<Channel, ChannelRow>, ch: Channel, record: ChannelRow)
    requires ch !in records
    ensures WithRecord(WithRecords(t, records), ch, record) == WithRecords(t, records[ch := record])
  {
    OneMorePromotion(t.videos, records, ch, record);
    assert (t.channels + records)[ch := record] == t.channels + records[ch := record];
  }

  lemma OtherChannelsUntouched(mode: Rounding, t: Tables, records: map<Channel, ChannelRow>, ch: Channel)
    requires ch !in records
    ensures ChannelRecord(mode, WithRecords(t, records), ch) == ChannelRecord(mode, t, ch)
  {
    SameAggregates(mode, WithRecords(t, records).videos, t.videos, ch);
    assert LockedOf(WithRecords(t, records), ch) == LockedOf(t, ch);
  }

  lemma FreshUntilVisited(videos: map<Video, VideoRow>, records: map<Channel, ChannelRow>, ch: Channel)
    requires ch !in records
    ensures FreshVideos(Promote(videos, records), ch) == FreshVideos(videos, ch)
  {
  }

  lemma OneMorePromotedCount(videos: map<Video, VideoRow>, records: map<Channel, ChannelRow>, ch: Channel,
                             record: ChannelRow)
    requires ch !in records
    ensures |PromotedVideos(videos, records[ch := record])|
         == |PromotedVideos(videos, records)| + if record.autoFlagNew then |FreshVideos(videos, ch)| else 0
  {
    assert PromotedVideos(videos, records[ch := record])
        == PromotedVideos(videos, records) + if record.autoFlagNew then FreshVideos(videos, ch) else {};
    assert PromotedVideos(videos, records) !! FreshVideos(videos, ch);
  }

  lemma OneMoreFlaggedCount(records: map<Channel, ChannelRow>, ch: Channel, record: ChannelRow)
    requires ch !in records
    ensures |FlaggedChannels(records[ch := record])| == |FlaggedChannels(records)| + if record.autoFlagNew then 1 else 0
  {
    assert FlaggedChannels(records[ch := record])
        == FlaggedChannels(records) + if record.autoFlagNew then {ch} else {};
  }

  /** What a tick reports: channels updated, channels flagged, videos given a preliminary score. */
  datatype Counts = Counts(updated: nat, autoFlagged: nat, preliminary: nat)

  // ---------- one channel after the other ----------

  /** The tables after recalculating the channels in this order. */
  ghost function Visited(mode: Rounding, t: Tables, order: seq<Channel>): Tables {
    if order == [] then t
    else
      var before, ch := Visited(mode, t, order[..|order| - 1]), order[|order| - 1];
      WithRecord(before, ch, ChannelRecord(mode, before, ch))
  }

  ghost function CountsAfter(mode: Rounding, t: Tables, order: seq<Channel>): Counts {
    if order == [] then Counts(0, 0, 0)
    else
      var before, ch := Visited(mode, t, order[..|order| - 1]), order[|order| - 1];
      OneMoreCounted(CountsAfter(mode, t, order[..|order| - 1]),
                     AutoFlagged(mode, before, ch), |FreshVideos(before.videos, ch)|)
  }

  function OneMoreCounted(sofar: Counts, flagged: bool, unvoted: nat): Counts {
    Counts(sofar.updated + 1,
           if flagged then sofar.autoFlagged + 1 else sofar.autoFlagged,
           if flagged then sofar.preliminary + unvoted else sofar.preliminary)
  }

  ghost function Members(order: seq<Channel>): set<Channel> {
    if order == [] then {} else Members(order[..|order| - 1]) + {order[|order| - 1]}
  }

  lemma {:induction false} MembersAtMost(order: seq<Channel>)
    ensures |Members(order)| <= |order|
  {
    if order != [] {
      MembersAtMost(order[..|order| - 1]);
    }
  }

  /** As many members as positions: nothing occurs twice. */
  lemma NoRepeats(order: seq<Channel>)
    requires order != [] && |Members(order)| == |order|
    ensures var init, ch := order[..|order| - 1], order[|order| - 1];
            |Members(init)| == |init| && ch !in Members(init)
  {
    MembersAtMost(order[..|order| - 1]);
  }

  lemma NoRecords(t: Tables)
    ensures WithRecords(t, map[]) == t
  {
  }

  lemma OneMoreTicked(mode: Rounding, t: Tables, done: set<Channel>, ch: Channel)
    requires ch !in done
    ensures ChannelRecord(mode, Ticked(mode, t, done), ch) == ChannelRecord(mode, t, ch)
    ensures WithRecord(Ticked(mode, t, done), ch, ChannelRecord(mode, t, ch)) == Ticked(mode, t, done + {ch})
  {
    var records, record := Records(mode, t, done), ChannelRecord(mode, t, ch);
    OtherChannelsUntouched(mode, t, records, ch);
    OneMoreRecord(t, records, ch, record);
    OneMoreKey(mode, t, done, ch);
  }

  lemma OneMoreKey(mode: Rounding, t: Tables, done: set<Channel>, ch: Channel)
    requires ch !in done
    ensures Records(mode, t, done + {ch}) == Records(mode, t, done)[ch := ChannelRecord(mode, t, ch)]
  {
  }

  lemma NothingTicked(mode: Rounding, t: Tables)
    ensures Ticked(mode, t, {}) == t
    ensures TickCounts(mode, t, {}) == Counts(0, 0, 0)
  {
    var records := Records(mode, t, {});
    assert records == map[] && FlaggedChannels(records) == {} && PromotedVideos(t.videos, records) == {};
    NoRecords(t);
  }

  /** The order is irrelevant: every channel is recalculated as if it were the first. */
  lemma {:induction false} VisitedIsTick(mode: Rounding, t: Tables, order: seq<Channel>)
    requires |Members(order)| == |order|
    ensures Visited(mode, t, order) == Ticked(mode, t, Members(order))
  {
    if order == [] {
      NothingTicked(mode, t);
    } else {
      NoRepeats(order);
      VisitedIsTick(mode, t, order[..|order| - 1]);
      OneMoreTicked(mode, t, Members(order[..|order| - 1]), order[|order| - 1]);
    }
  }

  /** Each channel counted once, and each video that was given a preliminary score once. */
  ghost function TickCounts(mode: Rounding, t: Tables, done: set<Channel>): Counts {
    var records := Records(mode, t, done);
    Counts(|done|, |FlaggedChannels(records)|, |PromotedVideos(t.videos, records)|)
  }

  /** The counts after one more record, in terms of the records alone. */
  lemma OneMoreRecordCounted(videos: map<Video, VideoRow>, records: map<Channel, ChannelRow>, ch: Channel,
                             record: ChannelRow, n: nat)
    requires ch !in records
    ensures OneMoreCounted(Counts(n, |FlaggedChannels(records)|, |PromotedVideos(videos, records)|),
                           record.autoFlagNew, |FreshVideos(Promote(videos, records), ch)|) ==
            Counts(n + 1, |FlaggedChannels(records[ch := record])|, |PromotedVideos(videos, records[ch := record])|)
  {
    FreshUntilVisited(videos, records, ch);
    OneMorePromotedCount(videos, records, ch, record);
    OneMoreFlaggedCount(records, ch, record);
  }

  lemma RecordTellsFlag(mode: Rounding, t: Tables, done: set<Channel>, ch: Channel)
    requires ch !in done
    ensures AutoFlagged(mode, Ticked(mode, t, done), ch) == ChannelRecord(mode, t, ch).autoFlagNew
  {
    OneMoreTicked(mode, t, done, ch);
    assert ChannelRecord(mode, Ticked(mode, t, done), ch).autoFlagNew == AutoFlagged(mode, Ticked(mode, t, done), ch);
  }

  lemma OneMoreTickCount(mode: Rounding, t: Tables, done: set<Channel>, ch: Channel)
    requires ch !in done
    ensures OneMoreCounted(TickCounts(mode, t, done), AutoFlagged(mode, Ticked(mode, t, done), ch),
                           |FreshVideos(Ticked(mode, t, done).videos, ch)|) ==
            TickCounts(mode, t, done + {ch})
  {
    RecordTellsFlag(mode, t, done, ch);
    OneMoreKey(mode, t, done, ch);
    OneMoreRecordCounted(t.videos, Records(mode, t, done), ch, ChannelRecord(mode, t, ch), |done|);
  }

  lemma {:induction false} CountsAreExact(mode: Rounding, t: Tables, order: seq<Channel>)
    requires |Members(order)| == |order|
    ensures CountsAfter(mode, t, order) == TickCounts(mode, t, Members(order))
  {
    if order == [] {
      NothingTicked(mode, t);
    } else {
      NoRepeats(order);
      CountsAreExact(mode, t, order[..|order| - 1]);
      VisitedIsTick(mode, t, order[..|order| - 1]);
      OneMoreTickCount(mode, t, Members(order[..|order| - 1]), order[|order| - 1]);
    }
  }

  lemma OneMoreVisited(mode: Rounding, t: Tables, order: seq<Channel>, ch: Channel)
    ensures var sofar := Visited(mode, t, order);
            && Visited(mode, t, order + [ch]) == WithRecord(sofar, ch, ChannelRecord(mode, sofar, ch))
            && CountsAfter(mode, t, order + [ch]) == OneMoreCounted(CountsAfter(mode, t, order),
                                                                    AutoFlagged(mode, sofar, ch),
                                                                    |FreshVideos(sofar.videos, ch)|)
  {
    assert (order + [ch])[..|order|] == order;
  }

  /** order lists each of these channels once. */
  ghost predicate Lists(order: seq<Channel>, channels: set<Channel>) {
    Members(order) == channels && |order| == |channels|
  }

  lemma OneMoreListed(order: seq<Channel>, channels: set<Channel>, todo: set<Channel>, ch: Channel)
    requires Lists(order, channels - todo) && todo <= channels && ch in todo
    ensures Lists(order + [ch], channels - (todo - {ch}))
  {
    assert (order + [ch])[..|order|] == order;
    assert channels - (todo - {ch}) == (channels - todo) + {ch};
  }

  // ---------- the worker ----------

  class ChannelWorker {
    const db: Database
    const mode: Rounding

    constructor (db: Database, mode: Rounding)
      ensures this.db == db && this.mode == mode
    {
      this.db := db;
      this.mode := mode;
    }

    /** Adds up the flagged scores of the channel, in whatever order the videos come. */
    method SelectFlaggedSum(ch: Channel) returns (sum: real)
      ensures sum == FlaggedSum(db.videos, ch)
    {
      sum := 0.0;
      var rest := db.videos;
      while rest.Keys != {}
        invariant sum + Sum(rest, FlaggedScore(ch)) == FlaggedSum(db.videos, ch)
        decreases rest.Keys
      {
        var u :| u in rest;
        SumRemove(rest, FlaggedScore(ch), u);
        if InChannel(rest[u], ch) && rest[u].score >= FLAGGED_SCORE {
          sum := sum + rest[u].score;
        }
        rest := rest - {u};
      }
    }

    /** Returns the stored record, whose autoFlagNew says whether the channel was flagged. */
    method RecalculateChannel(ch: Channel) returns (record: ChannelRow, preliminaryCount: nat)
      modifies db`channels, db`videos
      ensures record == ChannelRecord(mode, old(db.Contents()), ch)
      ensures db.Contents() == WithRecord(old(db.Contents()), ch, record)
      ensures preliminaryCount == if record.autoFlagNew then |FreshVideos(old(db.videos), ch)| else 0
    {
      var flagged := |FlaggedVideos(db.videos, ch)|;
      var tracked := |TrackedVideos(db.videos, ch)|;
      var sum := SelectFlaggedSum(ch);
      var score := ChannelScore(mode, flagged, tracked, Average(sum, flagged));
      if ch !in db.channels {
        db.channels := db.channels[ch := ChannelRow(0.0, 0, 0, false, false)];
      }
      var locked := db.channels[ch].locked;
      record := ChannelRow(score, flagged, tracked, locked, ShouldFlag(score, flagged, locked));
      db.channels := db.channels[ch := record];
      preliminaryCount := 0;
      if record.autoFlagNew {
        preliminaryCount := |FreshVideos(db.videos, ch)|;
        db.videos := MarkPreliminary(db.videos, ch);
      }
      assert db.channels == old(db.channels)[ch := record];
    }

    /** Recalculates every channel with a voted video once, in any order. */
    method RecalculateAll() returns (counts: Counts)
      modifies db`channels, db`videos
      ensures db.Contents() == AfterTick(mode, old(db.Contents()))
      ensures counts == TickCounts(mode, old(db.Contents()), ActiveChannels(old(db.videos)))
    {
      ghost var t := db.Contents();
      ghost var order;
      counts, order := VisitChannels(ActiveChannels(db.videos));
      VisitedIsTick(mode, t, order);
      CountsAreExact(mode, t, order);
    }

    /** The loop over the channels; `order` is the order in which they came. */
    method VisitChannels(channels: set<Channel>) returns (counts: Counts, ghost order: seq<Channel>)
      modifies db`channels, db`videos
      ensures Lists(order, channels)
      ensures db.Contents() == Visited(mode, old(db.Contents()), order)
      ensures counts == CountsAfter(mode, old(db.Contents()), order)
    {
      ghost var t := db.Contents();
      counts, order := Counts(0, 0, 0), [];
      var todo := channels;
      while todo != {}
        invariant todo <= channels && Lists(order, channels - todo)
        invariant db.Contents() == Visited(mode, t, order) && counts == CountsAfter(mode, t, order)
      {
        var ch :| ch in todo;
        OneMoreVisited(mode, t, order, ch);
        OneMoreListed(order, channels, todo, ch);
        counts := VisitChannel(ch, counts);
        order := order + [ch];
        todo := todo - {ch};
      }
    }

    method VisitChannel(ch: Channel, sofar: Counts) returns (counts: Counts)
      modifies db`channels, db`videos
      ensures var t := old(db.Contents());
              && db.Contents() == WithRecord(t, ch, ChannelRecord(mode, t, ch))
              && counts == OneMoreCounted(sofar, AutoFlagged(mode, t, ch), |FreshVideos(t.videos, ch)|)
    {
      var record, preliminary := RecalculateChannel(ch);
      counts := Counts(sofar.updated + 1,
                       if record.autoFlagNew then sofar.autoFlagged + 1 else sofar.autoFlagged,
                       sofar.preliminary + preliminary);
    }
  }

  // ---------- channel arithmetic ----------

  /** flagged/tracked times the average of the flagged scores is their sum over tracked. */
  lemma AverageCancels(sum: real, flagged: nat, tracked: nat)
    requires tracked > 0 && (flagged == 0 ==> sum == 0.0)
    ensures (flagged as real / tracked as real) * Average(sum, flagged) == PerVideo(sum, tracked)
  {
  }

  lemma {:induction false} FlaggedSumRange(videos: map<Video, VideoRow>, ch: Channel)
    ensures FlaggedSum(videos, ch) >= 0.0
    ensures FlaggedVideos(videos, ch) == {} ==> FlaggedSum(videos, ch) == 0.0
    decreases videos.Keys
  {
    if videos.Keys != {} {
      var p := Pick(videos.Keys);
      var rest := videos - {p};
      assert rest.Keys < videos.Keys;
      FlaggedSumRange(rest, ch);
      assert forall u :: u in FlaggedVideos(rest, ch) ==> u in FlaggedVideos(videos, ch);
      assert p in FlaggedVideos(videos, ch) <==> InChannel(videos[p], ch) && videos[p].score >= FLAGGED_SCORE;
      if FlaggedVideos(videos, ch) == {} {
        assert FlaggedVideos(rest, ch) == {};
      }
    }
  }

  /** The stored score depends only on the sum of flagged scores and the tracked count. */
  lemma ScoreFromSum(mode: Rounding, videos: map<Video, VideoRow>, ch: Channel)
    ensures ScoreOf(mode, videos, ch) == SumScore(mode, FlaggedSum(videos, ch), |TrackedVideos(videos, ch)|)
  {
    FlaggedSumRange(videos, ch);
    ScoreOfCounts(mode, FlaggedSum(videos, ch), |FlaggedVideos(videos, ch)|, |TrackedVideos(videos, ch)|);
  }

  lemma ScoreOfCounts(mode: Rounding, sum: real, flagged: nat, tracked: nat)
    requires flagged == 0 ==> sum == 0.0
    ensures ChannelScore(mode, flagged, tracked, Average(sum, flagged)) == SumScore(mode, sum, tracked)
  {
    if tracked >= MIN_TRACKED {
      AverageCancels(sum, flagged, tracked);
    }
  }

  lemma {:induction false} FlaggedSumAtMost(videos: map<Video, VideoRow>, ch: Channel)
    requires forall u :: u in videos ==> videos[u].score <= 100.0
    ensures FlaggedSum(videos, ch) <= 100.0 * |FlaggedVideos(videos, ch)| as real
    decreases videos.Keys
  {
    if videos.Keys != {} {
      var p := Pick(videos.Keys);
      var rest := videos - {p};
      assert rest.Keys < videos.Keys;
      FlaggedSumAtMost(rest, ch);
      if p in FlaggedVideos(videos, ch) {
        assert FlaggedVideos(videos, ch) == FlaggedVideos(rest, ch) + {p};
      } else {
        assert FlaggedVideos(videos, ch) == FlaggedVideos(rest, ch);
      }
    }
  }

  lemma PerVideoOrder(sum: real, n: nat, bound: real)
    requires n > 0
    ensures PerVideo(sum, n) < bound <==> sum < bound * n as real
    ensures PerVideo(sum, n) == bound <==> sum == bound * n as real
  {
  }

  lemma CentsAtMostHundred(mode: Rounding, x: real)
    requires x >= 0.0
    ensures Cents(mode, x) <= 100.0 <==> x < 100.005 || (mode == PythonRound && x == 100.005)
  {
  }

  /** With Go's rounding a channel score is at most 100 exactly when fewer than
      three videos are tracked or the flagged scores sum to less than 100.005 per
      tracked video; Python's rounding also admits equality. */
  lemma ScoreAtMostHundredIff(mode: Rounding, videos: map<Video, VideoRow>, ch: Channel)
    ensures var n := |TrackedVideos(videos, ch)|;
            ScoreOf(mode, videos, ch) <= 100.0 <==>
              n < MIN_TRACKED
              || FlaggedSum(videos, ch) < 100.005 * n as real
              || (mode == PythonRound && FlaggedSum(videos, ch) == 100.005 * n as real)
  {
    ScoreFromSum(mode, videos, ch);
    FlaggedSumRange(videos, ch);
    var n := |TrackedVideos(videos, ch)|;
    if n >= MIN_TRACKED {
      PerVideoOrder(FlaggedSum(videos, ch), n, 0.0);
      PerVideoOrder(FlaggedSum(videos, ch), n, 100.005);
      CentsAtMostHundred(mode, PerVideo(FlaggedSum(videos, ch), n));
    }
  }

  /** Sufficient in practice: scores up to 100 and every flagged video voted on. */
  lemma ScoreAtMostHundred(mode: Rounding, videos: map<Video, VideoRow>, ch: Channel)
    requires forall u :: u in videos ==> videos[u].score <= 100.0
    requires FlaggedVideos(videos, ch) <= TrackedVideos(videos, ch)
    ensures ScoreOf(mode, videos, ch) <= 100.0
  {
    FlaggedSumAtMost(videos, ch);
    SubsetSize(FlaggedVideos(videos, ch), TrackedVideos(videos, ch));
    ScoreAtMostHundredIff(mode, videos, ch);
  }

  lemma {:induction false} SubsetSize<T>(a: set<T>, b: set<T>)
    requires a <= b
    ensures |a| <= |b|
  {
    assert b == a + (b - a);
  }

  // ---------- feedback from preliminary scores ----------

  lemma FreshCount(videos: map<Video, VideoRow>, ch: Channel, p: Video)
    requires p in videos
    ensures |FreshVideos(videos, ch)| == |FreshVideos(videos - {p}, ch)| + if Fresh(videos[p], ch) then 1 else 0
  {
    var rest := FreshVideos(videos - {p}, ch);
    assert FreshVideos(videos, ch) == if Fresh(videos[p], ch) then rest + {p} else rest;
  }

  /** Each preliminary video adds exactly 60 to the sum of flagged scores. */
  lemma {:induction false} PreliminarySum(videos: map<Video, VideoRow>, ch: Channel)
    ensures FlaggedSum(MarkPreliminary(videos, ch), ch)
         == FlaggedSum(videos, ch) + PRELIMINARY_SCORE * |FreshVideos(videos, ch)| as real
    decreases videos.Keys
  {
    var marked := MarkPreliminary(videos, ch);
    if videos.Keys == {} {
      assert marked.Keys == {};
    } else {
      var p := Pick(videos.Keys);
      var rest := videos - {p};
      assert rest.Keys < videos.Keys;
      PreliminarySum(rest, ch);
      assert marked - {p} == MarkPreliminary(rest, ch);
      SumRemove(marked, FlaggedScore(ch), p);
      SumRemove(videos, FlaggedScore(ch), p);
      FreshCount(videos, ch, p);
    }
  }

  lemma PreliminaryCounts(videos: map<Video, VideoRow>, ch: Channel)
    ensures var marked := MarkPreliminary(videos, ch);
            && TrackedVideos(marked, ch) == TrackedVideos(videos, ch)
            && FlaggedVideos(marked, ch) == FlaggedVideos(videos, ch) + FreshVideos(videos, ch)
            && FlaggedVideos(videos, ch) !! FreshVideos(videos, ch)
            && FreshVideos(marked, ch) == {}
  {
  }

  lemma SumScoreMonotone(mode: Rounding, x: real, y: real, n: nat)
    requires 0.0 <= x <= y
    ensures SumScore(mode, x, n) <= SumScore(mode, y, n)
  {
    if n >= MIN_TRACKED {
      PerVideoOrder(x, n, 0.0);
      PerVideoOrder(x, n, PerVideo(y, n));
      PerVideoOrder(y, n, PerVideo(y, n));
      RoundMonotone(mode, PerVideo(x, n) * 100.0, PerVideo(y, n) * 100.0);
    }
  }

  lemma ScoreMonotone(mode: Rounding, a: map<Video, VideoRow>, b: map<Video, VideoRow>, ch: Channel)
    requires |TrackedVideos(a, ch)| == |TrackedVideos(b, ch)|
    requires FlaggedSum(a, ch) <= FlaggedSum(b, ch)
    ensures ScoreOf(mode, a, ch) <= ScoreOf(mode, b, ch)
  {
    ScoreFromSum(mode, a, ch);
    ScoreFromSum(mode, b, ch);
    FlaggedSumRange(a, ch);
    SumScoreMonotone(mode, FlaggedSum(a, ch), FlaggedSum(b, ch), |TrackedVideos(a, ch)|);
  }

  lemma PromoteOnChannel(videos: map<Video, VideoRow>, records: map<Channel, ChannelRow>, ch: Channel)
    requires ch in records
    ensures SameForChannel(Promote(videos, records),
                           if records[ch].autoFlagNew then MarkPreliminary(videos, ch) else videos, ch)
  {
  }

  /** The rows of one channel after a tick: marked if the channel was flagged, untouched otherwise. */
  lemma TickOnChannel(mode: Rounding, t: Tables, ch: Channel)
    requires ch in ActiveChannels(t.videos)
    ensures SameForChannel(AfterTick(mode, t).videos,
                           if AutoFlagged(mode, t, ch) then MarkPreliminary(t.videos, ch) else t.videos, ch)
  {
    var records := Records(mode, t, ActiveChannels(t.videos));
    PromoteOnChannel(t.videos, records, ch);
    assert records[ch].autoFlagNew == AutoFlagged(mode, t, ch);
  }

  /** From one tick to the next, with votes and locks unchanged: the flag stays,
      the score does not drop, and a flagged channel has no fresh video left. */
  lemma {:induction false} FlagPersists(mode: Rounding, t: Tables, ch: Channel)
    requires ch in ActiveChannels(t.videos)
    ensures var t1 := AfterTick(mode, t);
            && AutoFlagged(mode, t1, ch) == AutoFlagged(mode, t, ch)
            && ScoreOf(mode, t1.videos, ch) >= ScoreOf(mode, t.videos, ch)
            && (AutoFlagged(mode, t, ch) ==> FreshVideos(t1.videos, ch) == {})
            && |FlaggedVideos(t1.videos, ch)|
               == |FlaggedVideos(t.videos, ch)| + (if AutoFlagged(mode, t, ch) then |FreshVideos(t.videos, ch)| else 0)
            && FlaggedSum(t1.videos, ch)
               == FlaggedSum(t.videos, ch)
                  + (if AutoFlagged(mode, t, ch) then PRELIMINARY_SCORE * |FreshVideos(t.videos, ch)| as real else 0.0)
  {
    var t1 := AfterTick(mode, t);
    TickOnChannel(mode, t, ch);
    assert LockedOf(t1, ch) == LockedOf(t, ch);
    if AutoFlagged(mode, t, ch) {
      var marked := MarkPreliminary(t.videos, ch);
      SameAggregates(mode, t1.videos, marked, ch);
      SameSum(t1.videos, marked, ch);
      PreliminaryCounts(t.videos, ch);
      PreliminarySum(t.videos, ch);
      ScoreMonotone(mode, t.videos, marked, ch);
      assert FreshVideos(t1.videos, ch) == FreshVideos(marked, ch);
    } else {
      SameAggregates(mode, t1.videos, t.videos, ch);
      SameSum(t1.videos, t.videos, ch);
    }
  }

  lemma ActiveChannelsKept(mode: Rounding, t: Tables)
    ensures ActiveChannels(AfterTick(mode, t).videos) == ActiveChannels(t.videos)
  {
    var t1 := AfterTick(mode, t);
    forall ch | ch in ActiveChannels(t.videos) ensures ch in ActiveChannels(t1.videos) {
      var u :| u in t.videos && t.videos[u].totalVotes > 0 && t.videos[u].channel == Some(ch);
      assert t1.videos[u].channel == Some(ch);
    }
    forall ch | ch in ActiveChannels(t1.videos) ensures ch in ActiveChannels(t.videos) {
      var u :| u in t1.videos && t1.videos[u].totalVotes > 0 && t1.videos[u].channel == Some(ch);
      assert t.videos[u].channel == Some(ch);
    }
  }

  lemma SecondTickPromotesNothing(mode: Rounding, t: Tables)
    ensures var t1 := AfterTick(mode, t);
            AfterTick(mode, t1).videos == t1.videos
  {
    var t1 := AfterTick(mode, t);
    var records := Records(mode, t1, ActiveChannels(t1.videos));
    ActiveChannelsKept(mode, t);
    forall u | u in t1.videos ensures !Promoted(records, t1.videos[u]) {
      var row := t1.videos[u];
      if row.channel.Some? && row.channel.value in ActiveChannels(t.videos) {
        FlagPersists(mode, t, row.channel.value);
        assert Fresh(row, row.channel.value) ==> u in FreshVideos(t1.videos, row.channel.value);
      }
    }
    assert AfterTick(mode, t1).videos == t1.videos;
  }

  lemma SameVideosSameRecords(mode: Rounding, t: Tables, t1: Tables, active: set<Channel>)
    requires t1.videos == t.videos && forall ch :: LockedOf(t1, ch) == LockedOf(t, ch)
    ensures Records(mode, t1, active) == Records(mode, t, active)
  {
  }

  lemma TickKeepsLocks(mode: Rounding, t: Tables, ch: Channel)
    ensures LockedOf(AfterTick(mode, t), ch) == LockedOf(t, ch)
  {
  }

  /** A tick that changes no video is forgotten by the next one, whichever way either rounds. */
  lemma {:induction false} QuietTickIsForgotten(m': Rounding, mode: Rounding, t: Tables)
    requires AfterTick(m', t).videos == t.videos
    ensures AfterTick(mode, AfterTick(m', t)) == AfterTick(mode, t)
  {
    var active := ActiveChannels(t.videos);
    forall ch ensures LockedOf(AfterTick(m', t), ch) == LockedOf(t, ch) {
      TickKeepsLocks(m', t, ch);
    }
    SameVideosSameRecords(mode, t, AfterTick(m', t), active);
    StoredOver(t, Records(m', t, active), Records(mode, t, active));
  }

  lemma StoredOver(t: Tables, first: map<Channel, ChannelRow>, records: map<Channel, ChannelRow>)
    requires first.Keys == records.Keys && Promote(t.videos, first) == t.videos
    ensures WithRecords(WithRecords(t, first), records) == WithRecords(t, records)
  {
    assert t.channels + first + records == t.channels + records;
  }

  /** With votes and locks unchanged the feedback stops after one round: the
      second tick changes no video, and from the second tick on the whole
      database is a fixed point. On the way no flag is lost and no score drops. */
  lemma FeedbackSettles(mode: Rounding, t: Tables)
    ensures var t1 := AfterTick(mode, t);
            var t2 := AfterTick(mode, t1);
            && t2.videos == t1.videos
            && AfterTick(mode, t2) == t2
            && (forall ch :: ch in ActiveChannels(t.videos) ==>
                  && ch in t1.channels && ch in t2.channels
                  && (t1.channels[ch].autoFlagNew ==> t2.channels[ch].autoFlagNew)
                  && t2.channels[ch].score >= t1.channels[ch].score)
  {
    var t1 := AfterTick(mode, t);
    SecondTickPromotesNothing(mode, t);
    QuietTickIsForgotten(mode, mode, t1);
    ActiveChannelsKept(mode, t);
    forall ch | ch in ActiveChannels(t.videos)
      ensures AutoFlagged(mode, t1, ch) == AutoFlagged(mode, t, ch)
      ensures ScoreOf(mode, t1.videos, ch) >= ScoreOf(mode, t.videos, ch)
    {
      FlagPersists(mode, t, ch);
    }
  }

  // ---------- ticks of both backends in any order ----------

  /** Whether a score reaches the flagging threshold does not depend on the rounding:
      the tie below 80 is above an odd number of cents. */
  lemma EightyIgnoresRounding(mode: Rounding, x: real)
    requires x >= 0.0
    ensures Cents(mode, x) >= AUTO_FLAG_SCORE <==> x * 100.0 >= 7999.5
  {
    var y := x * 100.0;
    if y < 7999.0 {
      RoundMonotone(mode, y, 7999.0);
      FloorIs(7999.5, 7999);
    } else if y < 7999.5 {
      FloorIs(y, 7999);
      FloorIs(y + 0.5, 7999);
    } else if y < 8000.0 {
      FloorIs(y, 7999);
      FloorIs(y + 0.5, 8000);
    } else {
      RoundMonotone(mode, 8000.0, y);
      FloorIs(8000.5, 8000);
    }
  }

  lemma FlagIgnoresRounding(m: Rounding, m': Rounding, t: Tables, ch: Channel)
    ensures AutoFlagged(m, t, ch) == AutoFlagged(m', t, ch)
  {
    var sum, n := FlaggedSum(t.videos, ch), |TrackedVideos(t.videos, ch)|;
    ScoreFromSum(m, t.videos, ch);
    ScoreFromSum(m', t.videos, ch);
    if n >= MIN_TRACKED {
      FlaggedSumRange(t.videos, ch);
      PerVideoOrder(sum, n, 0.0);
      EightyIgnoresRounding(m, PerVideo(sum, n));
      EightyIgnoresRounding(m', PerVideo(sum, n));
    }
  }

  lemma TickIgnoresRounding(m: Rounding, m': Rounding, t: Tables)
    ensures AfterTick(m, t).videos == AfterTick(m', t).videos
  {
    var active := ActiveChannels(t.videos);
    forall u | u in t.videos
      ensures Promoted(Records(m, t, active), t.videos[u]) == Promoted(Records(m', t, active), t.videos[u])
    {
      if t.videos[u].channel.Some? {
        FlagIgnoresRounding(m, m', t, t.videos[u].channel.value);
      }
    }
  }

  /** The tables after ticks of the given roundings, one after the other. */
  ghost function AfterTicks(modes: seq<Rounding>, t: Tables): Tables {
    if modes == [] then t else AfterTick(modes[|modes| - 1], AfterTicks(modes[..|modes| - 1], t))
  }

  lemma SecondTickOfAnyMode(m: Rounding, m': Rounding, t: Tables)
    ensures AfterTick(m', AfterTick(m, t)).videos == AfterTick(m, t).videos
  {
    SecondTickPromotesNothing(m, t);
    TickIgnoresRounding(m, m', AfterTick(m, t));
  }

  lemma {:induction false} OnlyFirstAndLastMatter(modes: seq<Rounding>, t: Tables)
    requires |modes| >= 2
    ensures AfterTicks(modes, t) == AfterTick(modes[|modes| - 1], AfterTick(modes[0], t))
    ensures AfterTicks(modes, t).videos == AfterTick(modes[0], t).videos
  {
    var init, last := modes[..|modes| - 1], modes[|modes| - 1];
    SecondTickOfAnyMode(modes[0], last, t);
    if |modes| == 2 {
      assert init == [modes[0]] && AfterTicks(init[..0], t) == t;
      assert AfterTicks(init, t) == AfterTick(modes[0], t);
    } else {
      OnlyFirstAndLastMatter(init, t);
      SecondTickOfAnyMode(modes[0], init[|init| - 1], t);
      QuietTickIsForgotten(init[|init| - 1], last, AfterTick(modes[0], t));
    }
  }

  /** Go and Python tick on the same tables, in any mixture. With votes and locks
      unchanged, no tick after the first changes a video, every flag is what it was
      before the first tick, and the whole database is settled up to the rounding of
      the latest tick: it is what that rounding makes of the tables after the first. */
  lemma MixedTicksSettle(modes: seq<Rounding>, t: Tables, mode: Rounding)
    requires |modes| >= 2
    ensures AfterTicks(modes, t).videos == AfterTick(modes[0], t).videos == AfterTick(mode, t).videos
    ensures AfterTicks(modes, t) == AfterTick(modes[|modes| - 1], AfterTick(modes[0], t))
    ensures forall ch :: ch in ActiveChannels(t.videos) ==>
              ch in AfterTicks(modes, t).channels
              && AfterTicks(modes, t).channels[ch].autoFlagNew == AutoFlagged(mode, t, ch)
  {
    OnlyFirstAndLastMatter(modes, t);
    TickIgnoresRounding(modes[0], mode, t);
    forall ch | ch in ActiveChannels(t.videos)
      ensures ch in AfterTicks(modes, t).channels
      ensures AfterTicks(modes, t).channels[ch].autoFlagNew == AutoFlagged(mode, t, ch)
    {
      FlagSettles(modes[0], modes[|modes| - 1], mode, t, ch);
    }
  }

  lemma FlagSettles(first: Rounding, later: Rounding, mode: Rounding, t: Tables, ch: Channel)
    requires ch in ActiveChannels(t.videos)
    ensures var t2 := AfterTick(later, AfterTick(first, t));
            ch in t2.channels && t2.channels[ch].autoFlagNew == AutoFlagged(mode, t, ch)
  {
    ActiveChannelsKept(first, t);
    FlagPersists(first, t, ch);
    FlagIgnoresRounding(later, first, AfterTick(first, t), ch);
    FlagIgnoresRounding(first, mode, t, ch);
  }

  /** The channel's score in hundredths is halfway between an even number and the next. */
  ghost predicate AtTie(videos: map<Video, VideoRow>, ch: Channel) {
    var n := |TrackedVideos(videos, ch)|;
    n >= MIN_TRACKED
    && var y := PerVideo(FlaggedSum(videos, ch), n) * 100.0;
       y - y.Floor as real == 0.5 && y.Floor % 2 == 0
  }

  lemma TieDividesBackendsIff(go: Rounding, t: Tables, ch: Channel)
    requires go != PythonRound
    ensures ScoreOf(go, t.videos, ch) != ScoreOf(PythonRound, t.videos, ch) <==> AtTie(t.videos, ch)
  {
    var sum, n := FlaggedSum(t.videos, ch), |TrackedVideos(t.videos, ch)|;
    ScoreFromSum(go, t.videos, ch);
    ScoreFromSum(PythonRound, t.videos, ch);
    if n >= MIN_TRACKED {
      FlaggedSumRange(t.videos, ch);
      PerVideoOrder(sum, n, 0.0);
      CentsAgree(PerVideo(sum, n));
      PythonRoundsDifferentlyIff(PerVideo(sum, n) * 100.0);
    }
  }

  /** Both backends make the same database of the tables exactly when no channel they
      recalculate is at such a tie. */
  lemma BackendsTickAlikeIff(go: Rounding, t: Tables)
    requires go != PythonRound
    ensures AfterTick(go, t) == AfterTick(PythonRound, t) <==>
              forall ch :: ch in ActiveChannels(t.videos) ==> !AtTie(t.videos, ch)
  {
    TickIgnoresRounding(go, PythonRound, t);
    forall ch | ch in ActiveChannels(t.videos)
      ensures ChannelRecord(go, t, ch) == ChannelRecord(PythonRound, t, ch) <==> !AtTie(t.videos, ch)
    {
      TieDividesBackendsIff(go, t, ch);
      FlagIgnoresRounding(go, PythonRound, t, ch);
    }
    SameRecords(Records(go, t, ActiveChannels(t.videos)), Records(PythonRound, t, ActiveChannels(t.videos)), t);
  }

  lemma SameRecords(a: map<Channel, ChannelRow>, b: map<Channel, ChannelRow>, t: Tables)
    requires a.Keys == b.Keys && Promote(t.videos, a) == Promote(t.videos, b)
    ensures WithRecords(t, a) == WithRecords(t, b) <==> forall ch :: ch in a ==> a[ch] == b[ch]
  {
    var x, y := t.channels + a, t.channels + b;
    assert forall ch :: ch in a ==> x[ch] == a[ch] && y[ch] == b[ch];
    if forall ch :: ch in a ==> a[ch] == b[ch] {
      assert a == b;
    }
  }

  /** The channel score after the feedback round of a flagged channel. */
  lemma FeedbackScore(mode: Rounding, t: Tables, ch: Channel)
    requires ch in ActiveChannels(t.videos) && AutoFlagged(mode, t, ch)
    ensures var n := |TrackedVideos(t.videos, ch)|;
            && n >= MIN_TRACKED
            && ScoreOf(mode, AfterTick(mode, t).videos, ch)
               == Cents(mode, PerVideo(FlaggedSum(t.videos, ch)
                                       + PRELIMINARY_SCORE * |FreshVideos(t.videos, ch)| as real, n))
  {
    var marked := MarkPreliminary(t.videos, ch);
    TickOnChannel(mode, t, ch);
    SameAggregates(mode, AfterTick(mode, t).videos, marked, ch);
    PreliminaryCounts(t.videos, ch);
    PreliminarySum(t.videos, ch);
    ScoreFromSum(mode, marked, ch);
  }

  /** The bound 100 really fails: with everything voted at 100, the feedback
      round lifts an auto-flagged channel above 100 as soon as its fresh videos
      are more than one per 12000 tracked ones. */
  lemma FeedbackExceedsHundred(mode: Rounding, t: Tables, ch: Channel)
    requires ch in ActiveChannels(t.videos) && AutoFlagged(mode, t, ch)
    requires FlaggedSum(t.videos, ch) == 100.0 * |TrackedVideos(t.videos, ch)| as real
    requires 12000 * |FreshVideos(t.videos, ch)| > |TrackedVideos(t.videos, ch)|
    ensures ScoreOf(mode, t.videos, ch) == 100.0
    ensures ScoreOf(mode, AfterTick(mode, t).videos, ch) > 100.0
  {
    var n, unvoted := |TrackedVideos(t.videos, ch)|, |FreshVideos(t.videos, ch)|;
    FeedbackScore(mode, t, ch);
    ScoreFromSum(mode, t.videos, ch);
    HundredExceeded(mode, n, unvoted);
  }

  lemma HundredExceeded(mode: Rounding, n: nat, unvoted: nat)
    requires 0 < n < 12000 * unvoted
    ensures Cents(mode, PerVideo(100.0 * n as real, n)) == 100.0
    ensures Cents(mode, PerVideo(100.0 * n as real + PRELIMINARY_SCORE * unvoted as real, n)) > 100.0
  {
    PerVideoOrder(100.0 * n as real, n, 100.0);
    FloorIs(10000.5, 10000);
    var sum := 100.0 * n as real + PRELIMINARY_SCORE * unvoted as real;
    assert sum > 100.005 * n as real;
    PerVideoOrder(sum, n, 100.005);
    CentsAtMostHundred(mode, PerVideo(sum, n));
  }

  /** A concrete channel above 100: three videos at 100 and one unvoted video at 60 give 120. */
  lemma ScoreAboveHundredExample(mode: Rounding, ch: Channel)
    ensures ScoreOf(mode, ExampleVideos(ch), ch) == 120.0
  {
    var videos := ExampleVideos(ch);
    ExampleSum(ch);
    assert TrackedVideos(videos, ch) == {"a", "b", "c"};
    ScoreFromSum(mode, videos, ch);
    PerVideoOrder(360.0, 3, 120.0);
    FloorIs(12000.5, 12000);
  }

  function ExampleVideos(ch: Channel): map<Video, VideoRow> {
    var voted := VideoRow(100.0, 1, Some(ch));
    map["a" := voted, "b" := voted, "c" := voted, "d" := VideoRow(60.0, 0, Some(ch))]
  }

  lemma ExampleSum(ch: Channel)
    ensures FlaggedSum(ExampleVideos(ch), ch) == 360.0
  {
    var f := FlaggedScore(ch);
    var voted := VideoRow(100.0, 1, Some(ch));
    var none: map<Video, VideoRow> := map[];
    SumUpdate(none, f, "a", voted);
    SumUpdate(none["a" := voted], f, "b", voted);
    SumUpdate(none["a" := voted]["b" := voted], f, "c", voted);
    SumUpdate(none["a" := voted]["b" := voted]["c" := voted], f, "d", VideoRow(60.0, 0, Some(ch)));
    assert ExampleVideos(ch) == none["a" := voted]["b" := voted]["c" := voted]["d" := VideoRow(60.0, 0, Some(ch))];
  }

  function TiedVideos(ch: Channel): map<Video, VideoRow> {
    map["a" := VideoRow(90.0, 1, Some(ch)), "b" := VideoRow(90.0, 1, Some(ch)), "c" := VideoRow(60.015, 2, Some(ch))]
  }

  /** Scores 90, 90 and 60.015: Go stores 80.01 and Python 80.00. */
  lemma TieExample(ch: Channel)
    ensures ScoreOf(GoTruncate, TiedVideos(ch), ch) == 80.01 && ScoreOf(PythonRound, TiedVideos(ch), ch) == 80.0
  {
    var videos := TiedVideos(ch);
    TiedSum(ch);
    assert TrackedVideos(videos, ch) == {"a", "b", "c"};
    ScoreFromSum(GoTruncate, videos, ch);
    ScoreFromSum(PythonRound, videos, ch);
    PerVideoOrder(240.015, 3, 80.005);
    FloorIs(8001.0, 8001);
    FloorIs(8000.5, 8000);
  }

  lemma TiedSum(ch: Channel)
    ensures FlaggedSum(TiedVideos(ch), ch) == 240.015
  {
    var f := FlaggedScore(ch);
    var none: map<Video, VideoRow> := map[];
    var voted := VideoRow(90.0, 1, Some(ch));
    SumUpdate(none, f, "a", voted);
    SumUpdate(none["a" := voted], f, "b", voted);
    SumUpdate(none["a" := voted]["b" := voted], f, "c", VideoRow(60.015, 2, Some(ch)));
    assert TiedVideos(ch) == none["a" := voted]["b" := voted]["c" := VideoRow(60.015, 2, Some(ch))];
  }
}
