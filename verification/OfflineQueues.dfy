/** The extension's offline vote queue: a store keyed by video, flushed to the
    server while the user may keep voting. */
module OfflineQueues {
  import opened Options
  import opened Schema

  const MAX_PENDING_AGE_MS := 7 * 24 * 60 * 60 * 1000
  const FLUSH_RETRY_DELAY_MS := 30_000
  const ENQUEUE_FLUSH_DELAY_MS := 5_000

  datatype PendingVote = PendingVote(video: Video, category: Category, timestamp: int)

  predicate TooOld(vote: PendingVote, now: int) {
    now - vote.timestamp > MAX_PENDING_AGE_MS
  }

  datatype FlushResult = Returned(sent: nat, failed: nat) | Threw

  // ---------- the queue object, flushed without interruption ----------

  predicate Passes(vote: PendingVote, now: int, accepts: PendingVote -> bool) {
    TooOld(vote, now) || accepts(vote)
  }

  /** How many votes from the front are dealt with: dropped as too old, or
      accepted by the server. The next one, if any, is the first failure. */
  function Handled(votes: seq<PendingVote>, now: int, accepts: PendingVote -> bool): (p: nat)
    ensures p <= |votes|
  {
    if votes == [] then 0
    else if Passes(votes[0], now, accepts) then 1 + Handled(votes[1..], now, accepts)
    else 0
  }

  function Current(votes: seq<PendingVote>, now: int): seq<PendingVote> {
    if votes == [] then []
    else Current(votes[..|votes| - 1], now) + if TooOld(votes[|votes| - 1], now) then [] else [votes[|votes| - 1]]
  }

  function Videos(votes: seq<PendingVote>): set<Video> {
    set x | x in votes :: x.video
  }

  /** votes lists each stored vote exactly once. */
  ghost predicate Lists(votes: seq<PendingVote>, store: map<Video, PendingVote>) {
    && |votes| == |store|
    && Videos(votes) == store.Keys
    && (forall x :: x in votes ==> x.video in store && store[x.video] == x)
    && (forall i, j :: 0 <= i < j < |votes| ==> votes[i].video != votes[j].video)
  }

  lemma {:induction false} HandledIsFirstFailure(votes: seq<PendingVote>, now: int, accepts: PendingVote -> bool)
    ensures var p := Handled(votes, now, accepts);
            && p <= |votes|
            && (forall i :: 0 <= i < p ==> Passes(votes[i], now, accepts))
            && (p < |votes| ==> !Passes(votes[p], now, accepts))
  {
    if votes != [] && Passes(votes[0], now, accepts) {
      HandledIsFirstFailure(votes[1..], now, accepts);
    }
  }

  lemma HandledUnique(votes: seq<PendingVote>, now: int, accepts: PendingVote -> bool, p: nat)
    requires p <= |votes| && forall i :: 0 <= i < p ==> Passes(votes[i], now, accepts)
    requires p < |votes| ==> !Passes(votes[p], now, accepts)
    ensures p == Handled(votes, now, accepts)
  {
    HandledIsFirstFailure(votes, now, accepts);
  }

  lemma PrefixStep(votes: seq<PendingVote>, i: nat, now: int)
    requires i < |votes|
    ensures Videos(votes[..i + 1]) == Videos(votes[..i]) + {votes[i].video}
    ensures Current(votes[..i + 1], now) == Current(votes[..i], now) + if TooOld(votes[i], now) then [] else [votes[i]]
  {
    var init := votes[..i];
    assert votes[..i + 1] == init + [votes[i]];
    assert (init + [votes[i]])[..i] == init;
    assert forall x :: x in init + [votes[i]] <==> x in init || x == votes[i];
  }

  function ExpiredCount(votes: seq<PendingVote>, now: int): nat {
    if votes == [] then 0
    else ExpiredCount(votes[..|votes| - 1], now) + if TooOld(votes[|votes| - 1], now) then 1 else 0
  }

  lemma {:induction false} CurrentSplits(votes: seq<PendingVote>, now: int)
    ensures |Current(votes, now)| + ExpiredCount(votes, now) == |votes|
  {
    if votes != [] {
      CurrentSplits(votes[..|votes| - 1], now);
    }
  }

  lemma {:induction false} CurrentConcat(a: seq<PendingVote>, b: seq<PendingVote>, now: int)
    ensures Current(a + b, now) == Current(a, now) + Current(b, now)
    decreases |b|
  {
    if b == [] {
      assert a + b == a;
    } else {
      assert (a + b)[..|a + b| - 1] == a + b[..|b| - 1];
      CurrentConcat(a, b[..|b| - 1], now);
    }
  }

  /** A vote up to seven days old is sent and an older one is not. */
  lemma {:induction false} CurrentHas(votes: seq<PendingVote>, now: int, x: PendingVote)
    ensures x in Current(votes, now) <==> x in votes && now - x.timestamp <= 604_800_000
  {
    if votes != [] {
      CurrentHas(votes[..|votes| - 1], now, x);
      assert votes == votes[..|votes| - 1] + [votes[|votes| - 1]];
    }
  }

  lemma {:induction false} HandledReaches(votes: seq<PendingVote>, now: int, accepts: PendingVote -> bool, i: nat)
    requires i <= |votes| && forall j :: 0 <= j < i ==> Passes(votes[j], now, accepts)
    ensures i <= Handled(votes, now, accepts)
  {
    if i > 0 {
      assert forall j :: 0 <= j < i - 1 ==> votes[1..][j] == votes[j + 1];
      HandledReaches(votes[1..], now, accepts, i - 1);
    }
  }

  /** The flush deals with all votes before i if each is more than seven days old or
      accepted. It gets past vote i exactly if that one is, too. */
  lemma FlushPassesIff(votes: seq<PendingVote>, now: int, accepts: PendingVote -> bool, i: nat)
    requires i < |votes|
    requires forall j :: 0 <= j < i ==> now - votes[j].timestamp > 604_800_000 || accepts(votes[j])
    ensures var p := Handled(votes, now, accepts);
            && i <= p
            && (i < p <==> now - votes[i].timestamp > 604_800_000 || accepts(votes[i]))
  {
    HandledIsFirstFailure(votes, now, accepts);
    HandledReaches(votes, now, accepts, i);
  }

  /** A vote that a flush gets past is sent in its turn if it is up to seven days old,
      and dropped if it is older. */
  lemma SentInTurn(votes: seq<PendingVote>, now: int, p: nat, i: nat)
    requires i < p <= |votes|
    ensures Current(votes[..p], now) ==
            Current(votes[..i], now) + (if now - votes[i].timestamp > 604_800_000 then [] else [votes[i]])
            + Current(votes[i + 1..p], now)
  {
    PrefixStep(votes, i, now);
    assert votes[..p] == votes[..i + 1] + votes[i + 1..p];
    CurrentConcat(votes[..i + 1], votes[i + 1..p], now);
  }

  /** What a flush leaves: the suffix from the first failure on, untouched. */
  lemma SuffixRemains(votes: seq<PendingVote>, store: map<Video, PendingVote>, p: nat)
    requires Lists(votes, store) && p <= |votes|
    ensures var after := store - Videos(votes[..p]);
            && after.Keys == Videos(votes[p..])
            && forall x :: x in votes[p..] ==> x.video in after && after[x.video] == x
  {
  }

  /** The prefix contract, counted: sent + expired + remaining is what there was. */
  lemma FlushConserves(votes: seq<PendingVote>, store: map<Video, PendingVote>, p: nat, now: int)
    requires Lists(votes, store) && p <= |votes|
    ensures |Current(votes[..p], now)| + ExpiredCount(votes[..p], now) + |store - Videos(votes[..p])| == |store|
  {
    CurrentSplits(votes[..p], now);
    SuffixRemains(votes, store, p);
    DistinctCount(votes[p..]);
    assert |store - Videos(votes[..p])| == |(store - Videos(votes[..p])).Keys|;
  }

  lemma {:induction false} DistinctCount(votes: seq<PendingVote>)
    requires forall i, j :: 0 <= i < j < |votes| ==> votes[i].video != votes[j].video
    ensures |Videos(votes)| == |votes|
  {
    if votes != [] {
      var n := |votes| - 1;
      DistinctCount(votes[..n]);
      assert votes == votes[..n] + [votes[n]];
      assert Videos(votes) == Videos(votes[..n]) + {votes[n].video};
      assert votes[n].video !in Videos(votes[..n]);
    }
  }

  class OfflineQueue {
    var store: map<Video, PendingVote>
    var isFlushing: bool
    var flushTimer: Option<nat>
    var accepted: seq<PendingVote>

    ghost predicate Valid()
      reads this
    {
      forall v :: v in store ==> store[v].video == v
    }

    constructor ()
      ensures Valid() && store == map[] && !isFlushing && flushTimer == None && accepted == []
    {
      store, isFlushing, flushTimer, accepted := map[], false, None, [];
    }

    /** A later vote on the same video replaces the earlier one. */
    method EnqueueVote(video: Video, category: Category, now: int)
      requires Valid()
      modifies this
      ensures Valid()
      ensures store == old(store)[video := PendingVote(video, category, now)]
      ensures flushTimer == Some(5_000)
      ensures isFlushing == old(isFlushing) && accepted == old(accepted)
    {
      store := store[video := PendingVote(video, category, now)];
      flushTimer := Some(ENQUEUE_FLUSH_DELAY_MS);
    }

    /** One uninterrupted flush. `listing` is what reading the whole store
        returned, `accepts` the server's answer to each vote, and `identityKnown`
        is false when the user id cannot be obtained. The guard is free again on
        every exit except the one that found it taken. */
    method FlushPendingVotes(listing: seq<PendingVote>, now: int, identityKnown: bool, accepts: PendingVote -> bool)
      returns (result: FlushResult)
      requires Valid() && Lists(listing, store)
      modifies this
      ensures Valid() && isFlushing == old(isFlushing)
      ensures result.Threw? <==> !old(isFlushing) && listing != [] && !identityKnown
      ensures old(isFlushing) || result.Threw? ==>
        store == old(store) && accepted == old(accepted) && flushTimer == old(flushTimer)
      ensures old(isFlushing) ==> result == Returned(0, 0)
      ensures !old(isFlushing) && result.Returned? ==>
        var p := Handled(listing, now, accepts);
        && store == old(store) - Videos(listing[..p])
        && accepted == old(accepted) + Current(listing[..p], now)
        && result == Returned(|Current(listing[..p], now)|, if p < |listing| then 1 else 0)
        && flushTimer == if p < |listing| then Some(30_000) else old(flushTimer)
    {
      if isFlushing {
        return Returned(0, 0);
      }
      isFlushing := true;
      if |listing| == 0 {
        isFlushing := false;
        assert store - Videos(listing[..0]) == store;
        return Returned(0, 0);
      }
      if !identityKnown {
        isFlushing := false;
        return Threw;
      }
      var sent, failed := SendInOrder(listing, now, accepts);
      if failed > 0 {
        flushTimer := Some(FLUSH_RETRY_DELAY_MS);
      }
      isFlushing := false;
      result := Returned(sent, failed);
    }

    /** The send loop: drop what is too old, send the rest, stop at the first failure. */
    method SendInOrder(listing: seq<PendingVote>, now: int, accepts: PendingVote -> bool)
      returns (sent: nat, failed: nat)
      requires Valid()
      modifies this`store, this`accepted
      ensures Valid()
      ensures var p := Handled(listing, now, accepts);
              && store == old(store) - Videos(listing[..p])
              && accepted == old(accepted) + Current(listing[..p], now)
              && sent == |Current(listing[..p], now)|
              && failed == if p < |listing| then 1 else 0
    {
      sent, failed := 0, 0;
      var i := 0;
      assert store == old(store) - Videos(listing[..0]);
      while i < |listing|
        invariant 0 <= i <= |listing| && sent == |Current(listing[..i], now)|
        invariant failed == 0
        invariant forall k :: 0 <= k < i ==> Passes(listing[k], now, accepts)
        invariant store == old(store) - Videos(listing[..i])
        invariant accepted == old(accepted) + Current(listing[..i], now)
      {
        var vote := listing[i];
        PrefixStep(listing, i, now);
        if TooOld(vote, now) {
          store := store - {vote.video};
        } else if accepts(vote) {
          accepted := accepted + [vote];
          store := store - {vote.video};
          sent := sent + 1;
        } else {
          failed := failed + 1;
          break;
        }
        i := i + 1;
      }
      HandledUnique(listing, now, accepts, i);
    }
  }
}
