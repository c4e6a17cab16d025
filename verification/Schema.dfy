/** The PostgreSQL tables shared by both backends, as values and as a mutable database. */
module Schema {
  import opened Options
  import opened Sums

  type Video = string
  type User = string
  type Category = string
  type Channel = string

  // users.trust_score defaults to 0.3
  const DEFAULT_TRUST: real := 0.3

  datatype Vote = Vote(category: Category, weight: real)
  datatype VideoRow = VideoRow(score: real, totalVotes: int, channel: Option<Channel>)
  datatype CategoryRow = CategoryRow(voteCount: int, weightedScore: real)
  datatype ChannelRow = ChannelRow(score: real, flaggedVideos: int, totalVideos: int, locked: bool, autoFlagNew: bool)

  datatype Tables = Tables(
    users: map<User, real>,
    votes: map<(Video, User), Vote>,
    videos: map<Video, VideoRow>,
    categories: map<(Video, Category), CategoryRow>,
    channels: map<Channel, ChannelRow>)

  /** The database both services write to. `notified` is the log of committed
      pg_notify('vote_changes', video) payloads. */
  class Database {
    var users: map<User, real>
    var votes: map<(Video, User), Vote>
    var videos: map<Video, VideoRow>
    var categories: map<(Video, Category), CategoryRow>
    var channels: map<Channel, ChannelRow>
    var notified: seq<Video>

    ghost function Contents(): Tables
      reads this
    {
      Tables(users, votes, videos, categories, channels)
    }
  }

  /** The votes on a video, and those for one category of it. */
  function VotesOn(votes: map<(Video, User), Vote>, v: Video): set<(Video, User)> {
    set k | k in votes && k.0 == v
  }

  function VotesIn(votes: map<(Video, User), Vote>, v: Video, c: Category): set<(Video, User)> {
    set k | k in votes && k.0 == v && votes[k].category == c
  }

  function WeightOn(v: Video): ((Video, User), Vote) -> real {
    (k: (Video, User), x: Vote) => if k.0 == v then x.weight else 0.0
  }

  function WeightFor(v: Video, c: Category): ((Video, User), Vote) -> real {
    (k: (Video, User), x: Vote) => if k.0 == v && x.category == c then x.weight else 0.0
  }

  /** The trust weight of all votes on the video, zero if there are none. */
  ghost function TotalWeight(votes: map<(Video, User), Vote>, v: Video): real {
    Sum(votes, WeightOn(v))
  }

  /** The categories that have at least one live vote on the video. */
  function LiveCategories(votes: map<(Video, User), Vote>, v: Video): set<Category> {
    set k | k in votes && k.0 == v :: votes[k].category
  }

  /** The trust weight behind each category that has a vote on the video; no other
      category occurs, not even with weight zero. */
  ghost function CategoryWeights(votes: map<(Video, User), Vote>, v: Video): map<Category, real> {
    map c | c in LiveCategories(votes, v) :: Sum(votes, WeightFor(v, c))
  }

  /** Writing a vote of one video changes no sum of another video. */
  lemma OtherVideoWeights(votes: map<(Video, User), Vote>, k: (Video, User), x: Vote, v: Video)
    requires k.0 != v
    ensures TotalWeight(votes[k := x], v) == TotalWeight(votes, v)
    ensures CategoryWeights(votes[k := x], v) == CategoryWeights(votes, v)
  {
    SumUpdate(votes, WeightOn(v), k, x);
    assert LiveCategories(votes[k := x], v) == LiveCategories(votes, v) by {
      forall j | j in votes && j.0 == v
        ensures votes[j].category in LiveCategories(votes[k := x], v)
      {
        assert j in votes[k := x] && votes[k := x][j] == votes[j];
      }
    }
    forall c | c in LiveCategories(votes, v)
      ensures Sum(votes[k := x], WeightFor(v, c)) == Sum(votes, WeightFor(v, c))
    {
      SumUpdate(votes, WeightFor(v, c), k, x);
    }
  }

  lemma OtherVideoWeightsRemoved(votes: map<(Video, User), Vote>, k: (Video, User), v: Video)
    requires k in votes && k.0 != v
    ensures TotalWeight(votes - {k}, v) == TotalWeight(votes, v)
    ensures CategoryWeights(votes - {k}, v) == CategoryWeights(votes, v)
  {
    OtherVideoWeights(votes - {k}, k, votes[k], v);
    assert (votes - {k})[k := votes[k]] == votes;
  }
}
