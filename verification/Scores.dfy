/** Score arithmetic: category shares of the trust weight, and their maximum. */
module Scores {
  import opened Options
  import opened Sums
  import opened Schema

  type Ballot = (Category, real)

  /** The percentage that weight a is of the total t. */
  function Share(a: real, t: real): real
    requires t != 0.0
  {
    a / t * 100.0
  }

  /** Each category's percentage of the total weight. */
  ghost function Shares(sums: map<Category, real>, total: real): map<Category, real>
    requires total != 0.0
  {
    map c | c in sums :: Share(sums[c], total)
  }

  /** The video score that a recalculation derives from its two reads. */
  ghost function ScoreFrom(total: real, sums: map<Category, real>): real {
    if total == 0.0 then 0.0 else MaxOrZero(Shares(sums, total))
  }

  ghost function TrueScore(votes: map<(Video, User), Vote>, v: Video): real {
    ScoreFrom(TotalWeight(votes, v), CategoryWeights(votes, v))
  }

  // ---------- the same arithmetic on a list of ballots ----------

  function Total(b: seq<Ballot>): real {
    if b == [] then 0.0 else Total(b[..|b| - 1]) + b[|b| - 1].1
  }

  /** The total weight cast for category c. */
  function WeightIn(b: seq<Ballot>, c: Category): real {
    if b == [] then 0.0
    else WeightIn(b[..|b| - 1], c) + (if b[|b| - 1].0 == c then b[|b| - 1].1 else 0.0)
  }

  function Voted(b: seq<Ballot>): set<Category> {
    set x | x in b :: x.0
  }

  function Weights(b: seq<Ballot>): map<Category, real> {
    map c | c in Voted(b) :: WeightIn(b, c)
  }

  ghost function ListScore(b: seq<Ballot>): real {
    ScoreFrom(Total(b), Weights(b))
  }

  lemma WeightInSnoc(b: seq<Ballot>, x: Ballot, c: Category)
    ensures WeightIn(b + [x], c) == WeightIn(b, c) + (if x.0 == c then x.1 else 0.0)
    ensures Total(b + [x]) == Total(b) + x.1
    ensures Voted(b + [x]) == Voted(b) + {x.0}
  {
    assert (b + [x])[..|b|] == b;
    forall y | y in b ensures y in b + [x] {}
    assert x in b + [x];
  }

  lemma {:induction false} AbsentWeighsNothing(b: seq<Ballot>, c: Category)
    requires c !in Voted(b)
    ensures WeightIn(b, c) == 0.0
  {
    if b != [] {
      var n := |b| - 1;
      assert b == b[..n] + [b[n]];
      WeightInSnoc(b[..n], b[n], c);
      assert b[n] in b;
      AbsentWeighsNothing(b[..n], c);
    }
  }

  /** The dictionary-accumulating loop and the division loop compute the
      filter-and-sum shares and their maximum, for any weights. */
  method ComputeScoresFromVotes(votes: seq<Ballot>) returns (scores: Option<map<Category, real>>, maxScore: real)
    ensures scores.None? <==> Total(votes) == 0.0
    ensures scores.None? ==> maxScore == 0.0
    ensures scores.Some? ==> scores.value == Shares(Weights(votes), Total(votes))
    ensures maxScore == ListScore(votes)
  {
    if |votes| == 0 {
      return None, 0.0;
    }
    var total := SumOfWeights(votes);
    if total == 0.0 {
      return None, 0.0;
    }
    var weights := AccumulateWeights(votes);
    var out;
    out, maxScore := ScoreCategories(weights, total);
    scores := Some(out);
  }

  method SumOfWeights(votes: seq<Ballot>) returns (total: real)
    ensures total == Total(votes)
  {
    total := 0.0;
    for i := 0 to |votes|
      invariant total == Total(votes[..i])
    {
      assert votes[..i + 1][..i] == votes[..i];
      total := total + votes[i].1;
    }
    assert votes[..|votes|] == votes;
  }

  method AccumulateWeights(votes: seq<Ballot>) returns (weights: map<Category, real>)
    ensures weights == Weights(votes)
  {
    weights := map[];
    for i := 0 to |votes|
      invariant weights == Weights(votes[..i])
    {
      var (cat, w) := votes[i];
      AccumulateStep(votes[..i], (cat, w));
      assert votes[..i + 1] == votes[..i] + [(cat, w)];
      weights := weights[cat := (if cat in weights then weights[cat] else 0.0) + w];
    }
    assert votes[..|votes|] == votes;
  }

  /** The row loop of every recalculation: divide each category's weight by the
      total and keep the largest result, starting from zero. */
  method ScoreCategories(weights: map<Category, real>, total: real)
    returns (scores: map<Category, real>, maxScore: real)
    requires total != 0.0
    ensures scores == Shares(weights, total)
    ensures maxScore == MaxOrZero(scores) == ScoreFrom(total, weights)
  {
    scores := map[];
    maxScore := 0.0;
    var todo := weights.Keys;
    while todo != {}
      invariant todo <= weights.Keys && scores.Keys == weights.Keys - todo
      invariant forall c :: c in scores ==> scores[c] == Share(weights[c], total) && scores[c] <= maxScore
      invariant maxScore >= 0.0 && (maxScore == 0.0 || exists c :: c in scores && scores[c] == maxScore)
    {
      var cat :| cat in todo;
      ghost var before, maxBefore := scores, maxScore;
      var score := Share(weights[cat], total);
      scores := scores[cat := score];
      if score > maxScore {
        maxScore := score;
        assert scores[cat] == maxScore;
      } else if maxScore != 0.0 {
        ghost var c :| c in before && before[c] == maxBefore;
        assert c in scores && scores[c] == maxScore;
      }
      todo := todo - {cat};
    }
    assert scores == Shares(weights, total);
    MaxOrZeroUnique(scores, maxScore);
  }

  lemma AccumulateStep(b: seq<Ballot>, x: Ballot)
    ensures Weights(b + [x]) == Weights(b)[x.0 := (if x.0 in Weights(b) then Weights(b)[x.0] else 0.0) + x.1]
  {
    WeightInSnoc(b, x, x.0);
    if x.0 !in Voted(b) {
      AbsentWeighsNothing(b, x.0);
    }
    forall c | c in Voted(b) ensures c != x.0 ==> WeightIn(b + [x], c) == WeightIn(b, c) {
      WeightInSnoc(b, x, c);
    }
  }

  // ---------- order does not matter ----------

  function Without(b: seq<Ballot>, i: nat): seq<Ballot>
    requires i < |b|
  {
    b[..i] + b[i + 1..]
  }

  lemma WithoutKeepsLast(b: seq<Ballot>, i: nat)
    requires i + 1 < |b|
    ensures Without(b, i) == Without(b[..|b| - 1], i) + [b[|b| - 1]]
  {
    var n := |b| - 1;
    assert b[i + 1..] == b[..n][i + 1..] + [b[n]];
    assert b[..i] == b[..n][..i];
  }

  lemma {:induction false} WeightInRemove(b: seq<Ballot>, i: nat, c: Category)
    requires i < |b|
    ensures Total(b) == Total(Without(b, i)) + b[i].1
    ensures WeightIn(b, c) == WeightIn(Without(b, i), c) + (if b[i].0 == c then b[i].1 else 0.0)
    decreases |b|
  {
    var n := |b| - 1;
    if i == n {
      assert Without(b, i) == b[..n];
    } else {
      WeightInRemove(b[..n], i, c);
      WithoutKeepsLast(b, i);
      WeightInSnoc(Without(b[..n], i), b[n], c);
    }
  }

  /** The last ballot of a permutation of b, found in b and taken out of it. */
  lemma TakeOutLast(a: seq<Ballot>, b: seq<Ballot>) returns (i: nat)
    requires a != [] && multiset(a) == multiset(b)
    ensures i < |b| && b[i] == a[|a| - 1]
    ensures multiset(Without(b, i)) == multiset(a[..|a| - 1])
  {
    var x := a[|a| - 1];
    assert a == a[..|a| - 1] + [x];
    assert x in multiset(b);
    i :| 0 <= i < |b| && b[i] == x;
    assert b == b[..i] + [x] + b[i + 1..];
    assert multiset(Without(b, i)) == multiset(b) - multiset{x};
    assert multiset(a[..|a| - 1]) == multiset(a) - multiset{x};
  }

  lemma {:induction false} WeightInPermuted(a: seq<Ballot>, b: seq<Ballot>, c: Category)
    requires multiset(a) == multiset(b)
    ensures Total(a) == Total(b) && WeightIn(a, c) == WeightIn(b, c)
  {
    if a == [] {
      assert |multiset(b)| == |b| == 0;
    } else {
      var i := TakeOutLast(a, b);
      WeightInPermuted(a[..|a| - 1], Without(b, i), c);
      WeightInRemove(b, i, c);
    }
  }

  /** Reordering the ballots changes neither the shares nor the score. */
  lemma ScorePermutationInvariant(a: seq<Ballot>, b: seq<Ballot>)
    requires multiset(a) == multiset(b)
    ensures Total(a) == Total(b) && Weights(a) == Weights(b) && ListScore(a) == ListScore(b)
  {
    assert Voted(a) == Voted(b) by {
      assert forall x :: x in a <==> x in multiset(a);
      assert forall x :: x in b <==> x in multiset(b);
    }
    WeightInPermuted(a, b, "");
    forall c | c in Voted(a) ensures WeightIn(a, c) == WeightIn(b, c) {
      WeightInPermuted(a, b, c);
    }
    assert Weights(a) == Weights(b);
  }

  // ---------- the table and the list agree ----------

  /** A listing of the votes on one video: one ballot per row, in some order. */
  ghost function BallotsOf(votes: map<(Video, User), Vote>, v: Video): seq<Ballot>
    decreases votes.Keys
  {
    if votes.Keys == {} then []
    else
      var k := Pick(votes.Keys);
      assert (votes - {k}).Keys < votes.Keys;
      BallotsOf(votes - {k}, v) + (if k.0 == v then [(votes[k].category, votes[k].weight)] else [])
  }

  lemma {:induction false} BallotsWeigh(votes: map<(Video, User), Vote>, v: Video, c: Category)
    ensures Total(BallotsOf(votes, v)) == TotalWeight(votes, v)
    ensures WeightIn(BallotsOf(votes, v), c) == Sum(votes, WeightFor(v, c))
    ensures Voted(BallotsOf(votes, v)) == LiveCategories(votes, v)
    decreases votes.Keys
  {
    if votes.Keys != {} {
      var k := Pick(votes.Keys);
      var rest := votes - {k};
      assert rest.Keys < votes.Keys;
      BallotsWeigh(rest, v, c);
      assert LiveCategories(votes, v) == LiveCategories(rest, v) + (if k.0 == v then {votes[k].category} else {}) by {
        assert forall j :: j in votes <==> j == k || j in rest;
        assert forall j :: j in rest ==> rest[j] == votes[j];
      }
      assert TotalWeight(votes, v) == WeightOn(v)(k, votes[k]) + TotalWeight(rest, v);
      assert Sum(votes, WeightFor(v, c)) == WeightFor(v, c)(k, votes[k]) + Sum(rest, WeightFor(v, c));
      if k.0 == v {
        var x := (votes[k].category, votes[k].weight);
        assert BallotsOf(votes, v) == BallotsOf(rest, v) + [x];
        WeightInSnoc(BallotsOf(rest, v), x, c);
      } else {
        assert BallotsOf(votes, v) == BallotsOf(rest, v);
      }
    }
  }

  /** The database recalculation and the pure helper give the same score: for
      every listing of a video's votes, in whatever order the rows arrive. */
  lemma {:induction false} TableScoreIsListScore(votes: map<(Video, User), Vote>, v: Video, listing: seq<Ballot>)
    requires multiset(listing) == multiset(BallotsOf(votes, v))
    ensures TotalWeight(votes, v) == Total(listing)
    ensures CategoryWeights(votes, v) == Weights(listing)
    ensures TrueScore(votes, v) == ListScore(listing)
  {
    var b := BallotsOf(votes, v);
    BallotsWeigh(votes, v, "");
    forall c | c in Voted(b) ensures WeightIn(b, c) == Sum(votes, WeightFor(v, c)) {
      BallotsWeigh(votes, v, c);
    }
    assert Weights(b) == CategoryWeights(votes, v);
    ScorePermutationInvariant(listing, b);
  }

  // ---------- shares add up, and bound the score ----------

  ghost predicate NonNegative(b: seq<Ballot>) {
    forall x :: x in b ==> x.1 >= 0.0
  }

  lemma {:induction false} WeightsSumToTotal(b: seq<Ballot>)
    ensures Sum(Weights(b), Identity()) == Total(b)
  {
    if b == [] {
      assert Weights(b).Keys == {};
    } else {
      var init, x := b[..|b| - 1], b[|b| - 1];
      assert b == init + [x];
      WeightsSumToTotal(init);
      WeightsSumStep(init, x);
    }
  }

  lemma WeightsSumStep(b: seq<Ballot>, x: Ballot)
    ensures Sum(Weights(b + [x]), Identity()) == Sum(Weights(b), Identity()) + x.1
  {
    var w := Weights(b);
    AccumulateStep(b, x);
    SumUpdate(w, Identity(), x.0, (if x.0 in w then w[x.0] else 0.0) + x.1);
  }

  lemma {:induction false} WeightInNonNegative(b: seq<Ballot>, c: Category)
    requires NonNegative(b)
    ensures WeightIn(b, c) >= 0.0 && Total(b) >= 0.0
  {
    if b != [] {
      var n := |b| - 1;
      assert b == b[..n] + [b[n]] && b[n] in b;
      WeightInSnoc(b[..n], b[n], c);
      WeightInNonNegative(b[..n], c);
    }
  }

  lemma {:induction false} WeightInAtMostTotal(b: seq<Ballot>, c: Category)
    requires NonNegative(b)
    ensures WeightIn(b, c) <= Total(b)
  {
    if b != [] {
      var n := |b| - 1;
      assert b == b[..n] + [b[n]] && b[n] in b;
      WeightInSnoc(b[..n], b[n], c);
      WeightInAtMostTotal(b[..n], c);
    }
  }

  lemma ShareSum(a: real, b: real, t: real)
    requires t != 0.0
    ensures Share(a + b, t) == Share(a, t) + Share(b, t)
    ensures Share(0.0, t) == 0.0 && Share(t, t) == 100.0
  {
    assert (a + b) / t == a / t + b / t;
  }

  lemma {:induction false} SharesSum(sums: map<Category, real>, total: real)
    requires total != 0.0
    ensures Sum(Shares(sums, total), Identity()) == Share(Sum(sums, Identity()), total)
    decreases sums.Keys
  {
    var s := Shares(sums, total);
    if sums.Keys == {} {
      ShareSum(0.0, 0.0, total);
    } else {
      var p := Pick(sums.Keys);
      var rest := sums - {p};
      assert rest.Keys < sums.Keys;
      SharesSum(rest, total);
      SumRemove(s, Identity(), p);
      assert s - {p} == Shares(rest, total);
      ShareSum(sums[p], Sum(rest, Identity()), total);
    }
  }

  /** The shares of all voted categories add up to exactly 100. */
  lemma SharesSumToHundred(b: seq<Ballot>)
    requires Total(b) != 0.0
    ensures Sum(Shares(Weights(b), Total(b)), Identity()) == 100.0
  {
    WeightsSumToTotal(b);
    SharesSum(Weights(b), Total(b));
    ShareSum(0.0, 0.0, Total(b));
  }

  lemma ShareRange(a: real, t: real)
    requires 0.0 <= a <= t && 0.0 < t
    ensures 0.0 <= Share(a, t) <= 100.0
  {
    assert a / t * t == a;
  }

  /** Values summing to 100 and at most m each: m is at least the mean. */
  lemma MeanBound(s: map<Category, real>, m: real)
    requires Sum(s, Identity()) == 100.0
    requires forall c :: c in s ==> s[c] <= m
    ensures |s| > 0 && 100.0 / |s| as real <= m
  {
    SumAtMost(s, Identity(), m);
    assert s.Keys != {};
    assert |s| == |s.Keys|;
    DivideBound(100.0, |s| as real, m);
  }

  lemma DivideBound(x: real, n: real, m: real)
    requires n > 0.0 && x <= n * m
    ensures x / n <= m
  {
    assert x / n * n == x;
  }

  /** With non-negative weights every share lies in [0, 100], and the score
      lies between 100/k and 100 when k categories were voted. */
  lemma ScoreBounds(b: seq<Ballot>)
    requires NonNegative(b) && Total(b) > 0.0
    ensures forall c :: c in Voted(b) ==> 0.0 <= Shares(Weights(b), Total(b))[c] <= 100.0
    ensures |Voted(b)| > 0
    ensures 100.0 / |Voted(b)| as real <= ListScore(b) <= 100.0
  {
    var t := Total(b);
    var s := Shares(Weights(b), t);
    forall c | c in Voted(b) ensures 0.0 <= s[c] <= 100.0 {
      WeightInNonNegative(b, c);
      WeightInAtMostTotal(b, c);
      ShareRange(WeightIn(b, c), t);
    }
    SharesSumToHundred(b);
    MeanBound(s, MaxOrZero(s));
    assert s.Keys == Voted(b);
  }

  // ---------- monotonicity and scaling ----------

  lemma ShareGrows(a: real, t: real, w: real)
    requires 0.0 <= a <= t && 0.0 < t && 0.0 <= w
    ensures Share(a + w, t + w) >= Share(a, t)
  {
    var p, q := a / t, (a + w) / (t + w);
    assert p * t == a && q * (t + w) == a + w;
    assert 0.0 <= p <= 1.0;
    assert (q - p) * (t + w) == (1.0 - p) * w >= 0.0;
  }

  lemma ShareShrinks(a: real, t: real, w: real)
    requires 0.0 <= a && 0.0 < t && 0.0 <= w
    ensures Share(a, t + w) <= Share(a, t)
  {
    var p, q := a / t, a / (t + w);
    assert p * t == a && q * (t + w) == a;
    assert 0.0 <= p;
    assert (p - q) * (t + w) == p * w >= 0.0;
  }

  lemma OwnShareGrows(b: seq<Ballot>, c: Category, w: real)
    requires NonNegative(b) && Total(b) > 0.0 && w >= 0.0
    ensures Total(b + [(c, w)]) > 0.0 && c in Voted(b + [(c, w)])
    ensures Share(WeightIn(b + [(c, w)], c), Total(b + [(c, w)])) >= Share(WeightIn(b, c), Total(b))
  {
    WeightInSnoc(b, (c, w), c);
    WeightInNonNegative(b, c);
    WeightInAtMostTotal(b, c);
    ShareGrows(WeightIn(b, c), Total(b), w);
  }

  lemma OtherShareShrinks(b: seq<Ballot>, c: Category, w: real, d: Category)
    requires NonNegative(b) && Total(b) > 0.0 && w >= 0.0 && d in Voted(b) && d != c
    ensures Total(b + [(c, w)]) > 0.0 && d in Voted(b + [(c, w)])
    ensures Share(WeightIn(b + [(c, w)], d), Total(b + [(c, w)])) <= Share(WeightIn(b, d), Total(b))
  {
    WeightInSnoc(b, (c, w), d);
    WeightInNonNegative(b, d);
    ShareShrinks(WeightIn(b, d), Total(b), w);
  }

  lemma ShareIsAtMostScore(b: seq<Ballot>, c: Category)
    requires Total(b) != 0.0 && c in Voted(b)
    ensures Share(WeightIn(b, c), Total(b)) <= ListScore(b)
  {
    assert Shares(Weights(b), Total(b))[c] == Share(WeightIn(b, c), Total(b));
  }

  /** One more vote never lowers its own category's share, never raises another
      category's, and never lowers the score when its category was on top. */
  lemma AddingAVote(b: seq<Ballot>, c: Category, w: real)
    requires NonNegative(b) && Total(b) > 0.0 && w >= 0.0
    ensures Total(b + [(c, w)]) > 0.0
    ensures var before, after := Shares(Weights(b), Total(b)), Shares(Weights(b + [(c, w)]), Total(b + [(c, w)]));
            && c in after
            && (c in before ==> after[c] >= before[c])
            && (forall d :: d in before && d != c ==> d in after && after[d] <= before[d])
            && (c in before && before[c] == ListScore(b) ==> ListScore(b + [(c, w)]) >= ListScore(b))
  {
    OwnShareGrows(b, c, w);
    ShareIsAtMostScore(b + [(c, w)], c);
    forall d | d in Voted(b) && d != c
      ensures d in Voted(b + [(c, w)])
      ensures Share(WeightIn(b + [(c, w)], d), Total(b + [(c, w)])) <= Share(WeightIn(b, d), Total(b))
    {
      OtherShareShrinks(b, c, w, d);
    }
  }

  function Times(q: real, a: real): real {
    q * a
  }

  function Scaled(b: seq<Ballot>, q: real): seq<Ballot> {
    if b == [] then [] else Scaled(b[..|b| - 1], q) + [(b[|b| - 1].0, Times(q, b[|b| - 1].1))]
  }

  lemma {:induction false} ScaledWeights(b: seq<Ballot>, q: real, c: Category)
    ensures Total(Scaled(b, q)) == Times(q, Total(b))
    ensures WeightIn(Scaled(b, q), c) == Times(q, WeightIn(b, c))
    ensures Voted(Scaled(b, q)) == Voted(b)
  {
    if b != [] {
      var init, x := b[..|b| - 1], b[|b| - 1];
      assert b == init + [x];
      ScaledWeights(init, q, c);
      ScaledStep(init, x, Scaled(init, q), (x.0, Times(q, x.1)), q, c);
    }
  }

  lemma ScaledStep(b: seq<Ballot>, x: Ballot, sb: seq<Ballot>, sx: Ballot, q: real, c: Category)
    requires Total(sb) == Times(q, Total(b)) && WeightIn(sb, c) == Times(q, WeightIn(b, c)) && Voted(sb) == Voted(b)
    requires sx.0 == x.0 && sx.1 == Times(q, x.1)
    ensures Total(sb + [sx]) == Times(q, Total(b + [x]))
    ensures WeightIn(sb + [sx], c) == Times(q, WeightIn(b + [x], c))
    ensures Voted(sb + [sx]) == Voted(b + [x])
  {
    WeightInSnoc(b, x, c);
    WeightInSnoc(sb, sx, c);
    Distribute(q, Total(b), x.1);
    Distribute(q, WeightIn(b, c), x.1);
  }

  lemma Distribute(q: real, a: real, b: real)
    ensures Times(q, a + b) == Times(q, a) + Times(q, b)
  {
  }

  /** Only relative trust matters: a common positive factor changes nothing. */
  lemma ScalingInvariant(b: seq<Ballot>, q: real)
    requires q > 0.0
    ensures Total(Scaled(b, q)) == 0.0 <==> Total(b) == 0.0
    ensures Total(b) != 0.0 ==>
              Shares(Weights(Scaled(b, q)), Total(Scaled(b, q))) == Shares(Weights(b), Total(b))
    ensures ListScore(Scaled(b, q)) == ListScore(b)
  {
    ScaledWeights(b, q, "");
    if Total(b) != 0.0 {
      forall c | c in Voted(b)
        ensures Total(Scaled(b, q)) != 0.0
        ensures Share(WeightIn(Scaled(b, q), c), Total(Scaled(b, q))) == Share(WeightIn(b, c), Total(b))
      {
        ScaledShare(b, q, c);
      }
      CancelFactor(0.0, Total(b), q);
    }
  }

  lemma ScaledShare(b: seq<Ballot>, q: real, c: Category)
    requires q > 0.0 && Total(b) != 0.0
    ensures Total(Scaled(b, q)) != 0.0
    ensures Share(WeightIn(Scaled(b, q), c), Total(Scaled(b, q))) == Share(WeightIn(b, c), Total(b))
  {
    ScaledWeights(b, q, c);
    ShareOfMultiples(WeightIn(b, c), Total(b), WeightIn(Scaled(b, q), c), Total(Scaled(b, q)), q);
  }

  lemma ShareOfMultiples(a: real, t: real, a': real, t': real, q: real)
    requires t != 0.0 && q > 0.0 && a' == Times(q, a) && t' == Times(q, t)
    ensures t' != 0.0 && Share(a', t') == Share(a, t)
  {
    CancelFactor(a, t, q);
  }

  lemma CancelFactor(a: real, t: real, q: real)
    requires t != 0.0 && q > 0.0
    ensures Times(q, t) != 0.0 && Share(Times(q, a), Times(q, t)) == Share(a, t)
  {
    var x, y := a / t, (q * a) / (q * t);
    assert x * t == a;
    assert y * (q * t) == q * a;
    assert (y - x) * (q * t) == 0.0;
  }
}
