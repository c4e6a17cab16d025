/** The vote transactions and what their incremental counters mean. */
module VoteLedger {
  import opened Options
  import opened Schema
  import opened Scores

  // ---------- the transactions as functions on tables ----------

  function CountOf(t: Tables, v: Video, c: Category): int {
    if (v, c) in t.categories then t.categories[(v, c)].voteCount else 0
  }

  /** One vote fewer in the category; a missing row or a zero counter stays as it is. */
  function Decremented(rows: map<(Video, Category), CategoryRow>, v: Video, c: Category)
    : map<(Video, Category), CategoryRow>
  {
    if (v, c) in rows && rows[(v, c)].voteCount > 0
    then rows[(v, c) := rows[(v, c)].(voteCount := rows[(v, c)].voteCount - 1)]
    else rows
  }

  /** One vote more in the category, whose row starts at one vote and score zero. */
  function Incremented(rows: map<(Video, Category), CategoryRow>, v: Video, c: Category)
    : map<(Video, Category), CategoryRow>
  {
    var row := if (v, c) in rows then rows[(v, c)] else CategoryRow(0, 0.0);
    rows[(v, c) := row.(voteCount := row.voteCount + 1)]
  }

  function TrustOf(t: Tables, u: User): real {
    if u in t.users then t.users[u] else DEFAULT_TRUST
  }

  function AfterSubmit(t: Tables, v: Video, u: User, c: Category): Tables {
    var trust := TrustOf(t, u);
    var row := if v in t.videos then t.videos[v] else VideoRow(0.0, 0, None);
    var isNew := (v, u) !in t.votes;
    var rows := if !isNew && t.votes[(v, u)].category != c
                then Decremented(t.categories, v, t.votes[(v, u)].category)
                else t.categories;
    t.(users := t.users[u := trust],
       votes := t.votes[(v, u) := Vote(c, trust)],
       videos := t.videos[v := row.(totalVotes := row.totalVotes + if isNew then 1 else 0)],
       categories := Incremented(rows, v, c))
  }

  /** A failed delete (no such vote) leaves everything as it was. */
  function AfterDelete(t: Tables, v: Video, u: User): Tables {
    if (v, u) !in t.votes then t
    else
      t.(votes := t.votes - {(v, u)},
         videos := if v in t.videos && t.videos[v].totalVotes > 0
                   then t.videos[v := t.videos[v].(totalVotes := t.videos[v].totalVotes - 1)]
                   else t.videos,
         categories := Decremented(t.categories, v, t.votes[(v, u)].category))
  }

  // ---------- the transactions as the services run them ----------

  class VoteRepo {
    const db: Database

    constructor (db: Database)
      ensures this.db == db
    {
      this.db := db;
    }

    method SubmitVote(v: Video, u: User, c: Category) returns (trust: real)
      modifies db
      ensures db.Contents() == AfterSubmit(old(db.Contents()), v, u, c)
      ensures trust == TrustOf(old(db.Contents()), u)
      ensures db.notified == old(db.notified) + [v]
    {
      trust := EnsureUser(u);
      EnsureVideo(v);
      var existing := if (v, u) in db.votes then Some(db.votes[(v, u)].category) else None;
      // insert or update the vote; the row trigger notifies
      db.votes := db.votes[(v, u) := Vote(c, trust)];
      db.notified := db.notified + [v];
      CountVote(v, existing, c);
    }

    /** A new vote counts on the video; a changed vote leaves its old category; every submit counts in its category. */
    method CountVote(v: Video, existing: Option<Category>, c: Category)
      requires v in db.videos
      modifies db`videos, db`categories
      ensures db.videos == if existing.None?
                           then old(db.videos)[v := old(db.videos[v]).(totalVotes := old(db.videos[v]).totalVotes + 1)]
                           else old(db.videos)
      ensures db.categories == Incremented(if existing.Some? && existing.value != c
                                           then Decremented(old(db.categories), v, existing.value)
                                           else old(db.categories), v, c)
    {
      if existing.None? {
        db.videos := db.videos[v := db.videos[v].(totalVotes := db.videos[v].totalVotes + 1)];
      } else if existing.value != c {
        DecrementCategory(v, existing.value);
      }
      IncrementCategory(v, c);
    }

    /** Insert the user with default trust if new, then read the trust score. */
    method EnsureUser(u: User) returns (trust: real)
      modifies db`users
      ensures trust == TrustOf(old(db.Contents()), u)
      ensures db.users == old(db.users)[u := trust]
    {
      if u !in db.users {
        db.users := db.users[u := DEFAULT_TRUST];
      }
      trust := db.users[u];
      assert db.users == old(db.users)[u := trust];
    }

    /** Insert the video if this is its first report. */
    method EnsureVideo(v: Video)
      modifies db`videos
      ensures v in db.videos && db.videos == old(db.videos)[v := db.videos[v]]
      ensures db.videos[v] == if v in old(db.videos) then old(db.videos)[v] else VideoRow(0.0, 0, None)
    {
      if v !in db.videos {
        db.videos := db.videos[v := VideoRow(0.0, 0, None)];
      }
      assert db.videos == old(db.videos)[v := db.videos[v]];
    }

    method IncrementCategory(v: Video, c: Category)
      modifies db`categories
      ensures db.categories == Incremented(old(db.categories), v, c)
    {
      if (v, c) in db.categories {
        var row := db.categories[(v, c)];
        db.categories := db.categories[(v, c) := row.(voteCount := row.voteCount + 1)];
      } else {
        db.categories := db.categories[(v, c) := CategoryRow(1, 0.0)];
      }
    }

    method DecrementCategory(v: Video, c: Category)
      modifies db`categories
      ensures db.categories == Decremented(old(db.categories), v, c)
    {
      if (v, c) in db.categories && db.categories[(v, c)].voteCount > 0 {
        var row := db.categories[(v, c)];
        db.categories := db.categories[(v, c) := row.(voteCount := row.voteCount - 1)];
      }
    }

    /** Without such a vote nothing happens and nobody is notified. */
    method DeleteVote(v: Video, u: User) returns (found: bool)
      modifies db
      ensures db.Contents() == AfterDelete(old(db.Contents()), v, u)
      ensures found <==> (v, u) in old(db.votes)
      ensures db.notified == old(db.notified) + if found then [v] else []
    {
      if (v, u) !in db.votes {
        return false;
      }
      var vote := db.votes[(v, u)];
      db.votes := db.votes - {(v, u)};
      if v in db.videos && db.videos[v].totalVotes > 0 {
        db.videos := db.videos[v := db.videos[v].(totalVotes := db.videos[v].totalVotes - 1)];
      }
      DecrementCategory(v, vote.category);
      // a delete fires no trigger, so the transaction notifies by hand
      db.notified := db.notified + [v];
      found := true;
    }
  }

  // ---------- histories, and what they should leave behind ----------

  datatype Op =
    | Submit(video: Video, user: User, category: Category)
    | Delete(video: Video, user: User)
    | SetTrust(user: User, trust: real)

  function Apply(t: Tables, op: Op): Tables {
    match op
    case Submit(v, u, c) => AfterSubmit(t, v, u, c)
    case Delete(v, u) => AfterDelete(t, v, u)
    case SetTrust(u, w) => t.(users := t.users[u := w])
  }

  const EMPTY := Tables(map[], map[], map[], map[], map[])

  function Replay(ops: seq<Op>): Tables {
    if ops == [] then EMPTY else Apply(Replay(ops[..|ops| - 1]), ops[|ops| - 1])
  }

  /** The user's trust after a history: the last one set, or the default. */
  function TrustAfter(ops: seq<Op>, u: User): real {
    if ops == [] then DEFAULT_TRUST
    else
      match ops[|ops| - 1]
      case SetTrust(u', w) => if u' == u then w else TrustAfter(ops[..|ops| - 1], u)
      case _ => TrustAfter(ops[..|ops| - 1], u)
  }

  /** The vote in force: the last submit since the last delete, with the trust of that moment. */
  function LiveVote(ops: seq<Op>, v: Video, u: User): Option<Vote> {
    if ops == [] then None
    else
      var rest := ops[..|ops| - 1];
      match ops[|ops| - 1]
      case Submit(v', u', c) => if v' == v && u' == u then Some(Vote(c, TrustAfter(rest, u))) else LiveVote(rest, v, u)
      case Delete(v', u') => if v' == v && u' == u then None else LiveVote(rest, v, u)
      case SetTrust(_, _) => LiveVote(rest, v, u)
  }

  /** How often a vote in force was submitted again with the same category. */
  function Resubmissions(ops: seq<Op>, v: Video, c: Category): nat {
    if ops == [] then 0
    else
      var rest := ops[..|ops| - 1];
      var op := ops[|ops| - 1];
      Resubmissions(rest, v, c) +
      if op.Submit? && op.video == v && op.category == c
         && LiveVote(rest, v, op.user).Some? && LiveVote(rest, v, op.user).value.category == c then 1 else 0
  }

  /** What every transaction keeps. */
  ghost predicate LedgerInv(t: Tables) {
    && (forall k :: k in t.votes ==> k.0 in t.videos && (k.0, t.votes[k].category) in t.categories)
    && (forall v :: v in t.videos ==> t.videos[v].totalVotes == |VotesOn(t.votes, v)|)
    && (forall v, c :: CountOf(t, v, c) >= |VotesIn(t.votes, v, c)|)
  }

  /** How far a category counter is above its live votes. */
  ghost function Surplus(t: Tables, v: Video, c: Category): int {
    CountOf(t, v, c) - |VotesIn(t.votes, v, c)|
  }

  predicate IsResubmission(t: Tables, op: Op, v: Video, c: Category) {
    && op.Submit? && op.video == v && op.category == c
    && (v, op.user) in t.votes && t.votes[(v, op.user)].category == c
  }

  lemma VotesAfterWrite(votes: map<(Video, User), Vote>, k: (Video, User), x: Vote, v: Video, c: Category)
    ensures VotesOn(votes[k := x], v) == VotesOn(votes, v) + (if k.0 == v then {k} else {})
    ensures VotesIn(votes[k := x], v, c)
         == VotesIn(votes, v, c) - {k} + (if k.0 == v && x.category == c then {k} else {})
  {
  }

  lemma VotesAfterRemove(votes: map<(Video, User), Vote>, k: (Video, User), v: Video, c: Category)
    ensures VotesOn(votes - {k}, v) == VotesOn(votes, v) - {k}
    ensures VotesIn(votes - {k}, v, c) == VotesIn(votes, v, c) - {k}
  {
  }

  lemma CountAfterSubmit(t: Tables, v0: Video, u: User, c0: Category, v: Video, c: Category)
    requires LedgerInv(t)
    ensures CountOf(AfterSubmit(t, v0, u, c0), v, c) == CountOf(t, v, c)
          + (if v == v0 && c == c0 then 1 else 0)
          - (if v == v0 && (v0, u) in t.votes && c == t.votes[(v0, u)].category && c != c0 then 1 else 0)
  {
    if (v0, u) in t.votes {
      var c1 := t.votes[(v0, u)].category;
      assert (v0, u) in VotesIn(t.votes, v0, c1);
      assert CountOf(t, v0, c1) > 0;
    }
  }

  lemma SubmitSurplus(t: Tables, v0: Video, u: User, c0: Category, v: Video, c: Category)
    requires LedgerInv(t)
    ensures Surplus(AfterSubmit(t, v0, u, c0), v, c)
         == Surplus(t, v, c) + if IsResubmission(t, Submit(v0, u, c0), v, c) then 1 else 0
  {
    CountAfterSubmit(t, v0, u, c0, v, c);
    var x := Vote(c0, TrustOf(t, u));
    VotesAfterWrite(t.votes, (v0, u), x, v, c);
    assert AfterSubmit(t, v0, u, c0).votes == t.votes[(v0, u) := x];
    var was := VotesIn(t.votes, v, c);
    assert (v0, u) in was <==> v == v0 && (v0, u) in t.votes && t.votes[(v0, u)].category == c;
  }

  lemma DeleteSurplus(t: Tables, v0: Video, u: User, v: Video, c: Category)
    requires LedgerInv(t)
    ensures Surplus(AfterDelete(t, v0, u), v, c) == Surplus(t, v, c)
  {
    var k := (v0, u);
    if k in t.votes {
      VotesAfterRemove(t.votes, k, v, c);
      var c1 := t.votes[k].category;
      assert k in VotesIn(t.votes, v0, c1);
      assert CountOf(t, v0, c1) > 0;
    }
  }

  /** One transaction moves a counter away from the live votes only when it
      resubmits a vote in the same category, and then by exactly one. */
  lemma SurplusStep(t: Tables, op: Op, v: Video, c: Category)
    requires LedgerInv(t)
    ensures Surplus(Apply(t, op), v, c) == Surplus(t, v, c) + if IsResubmission(t, op, v, c) then 1 else 0
  {
    match op
    case Submit(v0, u, c0) => SubmitSurplus(t, v0, u, c0, v, c);
    case Delete(v0, u) => DeleteSurplus(t, v0, u, v, c);
    case SetTrust(_, _) =>
  }

  lemma ApplyKeepsLedgerInv(t: Tables, op: Op)
    requires LedgerInv(t)
    ensures LedgerInv(Apply(t, op))
  {
    var t' := Apply(t, op);
    forall v, c ensures CountOf(t', v, c) >= |VotesIn(t'.votes, v, c)| {
      SurplusStep(t, op, v, c);
    }
    match op
    case Submit(v0, u, c0) => SubmitKeepsRows(t, v0, u, c0);
    case Delete(v0, u) =>
      DeleteKeepsRows(t, v0, u);
      forall v | v in t'.videos ensures t'.videos[v].totalVotes == |VotesOn(t'.votes, v)| {
        DeleteKeepsTotals(t, v0, u, v);
      }
    case SetTrust(_, _) =>
  }

  lemma SubmitKeepsRows(t: Tables, v0: Video, u: User, c0: Category)
    requires LedgerInv(t)
    ensures var t' := AfterSubmit(t, v0, u, c0);
            && (forall k :: k in t'.votes ==> k.0 in t'.videos && (k.0, t'.votes[k].category) in t'.categories)
            && (forall v :: v in t'.videos ==> t'.videos[v].totalVotes == |VotesOn(t'.votes, v)|)
  {
    var t' := AfterSubmit(t, v0, u, c0);
    forall v | v in t'.videos ensures t'.videos[v].totalVotes == |VotesOn(t'.votes, v)| {
      VotesAfterWrite(t.votes, (v0, u), Vote(c0, TrustOf(t, u)), v, c0);
      if v == v0 && v0 !in t.videos {
        assert VotesOn(t.votes, v0) == {};
      }
    }
  }

  lemma DeleteKeepsRows(t: Tables, v0: Video, u: User)
    requires LedgerInv(t)
    ensures var t' := AfterDelete(t, v0, u);
            && (forall k :: k in t'.votes ==> k.0 in t'.videos && (k.0, t'.votes[k].category) in t'.categories)
            && t'.videos.Keys == t.videos.Keys
  {
  }

  lemma DeleteKeepsTotals(t: Tables, v0: Video, u: User, v: Video)
    requires LedgerInv(t) && v in t.videos && v in AfterDelete(t, v0, u).videos
    ensures var t' := AfterDelete(t, v0, u); t'.videos[v].totalVotes == |VotesOn(t'.votes, v)|
  {
    if (v0, u) in t.votes {
      VotesAfterRemove(t.votes, (v0, u), v, "");
      if v == v0 {
        assert (v0, u) in VotesOn(t.votes, v);
      } else {
        assert (v0, u) !in VotesOn(t.votes, v);
        assert VotesOn(t.votes, v) - {(v0, u)} == VotesOn(t.votes, v);
      }
    }
  }

  /** What a transaction leaves alone, on any tables: every score, every channel and
      every other user. The rows it creates start at score zero, without a channel,
      and a new user with the trust 0.3. */
  lemma TransactionFrame(t: Tables, op: Op)
    ensures var t' := Apply(t, op);
            && t'.channels == t.channels
            && (forall v :: v in t.videos ==>
                  && v in t'.videos && t'.videos[v].score == t.videos[v].score
                  && t'.videos[v].channel == t.videos[v].channel
                  && (op.SetTrust? || v != op.video ==> t'.videos[v] == t.videos[v]))
            && (forall v :: v in t'.videos && v !in t.videos ==>
                  op.Submit? && v == op.video && t'.videos[v].score == 0.0 && t'.videos[v].channel == None)
            && (forall k :: k in t.categories ==>
                  && k in t'.categories && t'.categories[k].weightedScore == t.categories[k].weightedScore
                  && (op.SetTrust? || k.0 != op.video ==> t'.categories[k] == t.categories[k]))
            && (forall k :: k in t'.categories && k !in t.categories ==>
                  op.Submit? && k == (op.video, op.category) && t'.categories[k] == CategoryRow(1, 0.0))
            && (forall u :: u in t.users ==>
                  u in t'.users && (t'.users[u] == t.users[u] || (op.SetTrust? && u == op.user)))
            && (forall u :: u in t'.users && u !in t.users ==>
                  u == op.user && !op.Delete? && (op.Submit? ==> t'.users[u] == 0.3))
            && (op.SetTrust? ==> op.user in t'.users && t'.users[op.user] == op.trust && t'.votes == t.votes)
            && (op.Submit? ==>
                  && op.user in t'.users
                  && t'.votes == t.votes[(op.video, op.user) := Vote(op.category, t'.users[op.user])])
            && (op.Delete? ==> t'.votes == t.votes - {(op.video, op.user)})
  {
  }

  /** The guards `total_votes > 0` and `vote_count > 0` never block: whenever a
      vote is taken away or moved, its counters are positive and drop by exactly one. */
  lemma GuardsNeverBlock(t: Tables, v: Video, u: User, c: Category)
    requires LedgerInv(t) && (v, u) in t.votes
    ensures var was := t.votes[(v, u)].category;
            && v in t.videos && t.videos[v].totalVotes > 0 && CountOf(t, v, was) > 0
            && AfterDelete(t, v, u).videos[v].totalVotes == t.videos[v].totalVotes - 1
            && CountOf(AfterDelete(t, v, u), v, was) == CountOf(t, v, was) - 1
            && (c != was ==> CountOf(AfterSubmit(t, v, u, c), v, was) == CountOf(t, v, was) - 1)
  {
    assert (v, u) in VotesOn(t.votes, v);
    assert (v, u) in VotesIn(t.votes, v, t.votes[(v, u)].category);
  }

  // ---------- the incremental tables refine the history ----------

  lemma {:induction false} ReplayKeepsLedgerInv(ops: seq<Op>)
    ensures LedgerInv(Replay(ops))
  {
    if ops == [] {
      assert forall v, c :: VotesIn(EMPTY.votes, v, c) == {};
    } else {
      ReplayKeepsLedgerInv(ops[..|ops| - 1]);
      ApplyKeepsLedgerInv(Replay(ops[..|ops| - 1]), ops[|ops| - 1]);
    }
  }

  lemma {:induction false} ReplayVotes(ops: seq<Op>, v: Video, u: User)
    ensures TrustOf(Replay(ops), u) == TrustAfter(ops, u)
    ensures (v, u) in Replay(ops).votes <==> LiveVote(ops, v, u).Some?
    ensures (v, u) in Replay(ops).votes ==> Replay(ops).votes[(v, u)] == LiveVote(ops, v, u).value
  {
    if ops != [] {
      ReplayVotes(ops[..|ops| - 1], v, u);
    }
  }

  lemma {:induction false} ReplaySurplus(ops: seq<Op>, v: Video, c: Category)
    ensures Surplus(Replay(ops), v, c) == Resubmissions(ops, v, c)
  {
    if ops == [] {
      assert VotesIn(EMPTY.votes, v, c) == {};
    } else {
      var rest, op := ops[..|ops| - 1], ops[|ops| - 1];
      ReplaySurplus(rest, v, c);
      ReplayKeepsLedgerInv(rest);
      SurplusStep(Replay(rest), op, v, c);
      if op.Submit? {
        ReplayVotes(rest, v, op.user);
      }
    }
  }

  /** After any history the vote table is exactly the votes in force, total_votes
      is their number, and vote_count is the live votes of the category plus the
      same-category resubmissions so far. */
  lemma LedgerRefinesHistory(ops: seq<Op>)
    ensures var t := Replay(ops);
            && (forall v, u :: (v, u) in t.votes <==> LiveVote(ops, v, u).Some?)
            && (forall v, u :: (v, u) in t.votes ==> t.votes[(v, u)] == LiveVote(ops, v, u).value)
            && (forall v :: v in t.videos ==> t.videos[v].totalVotes == |VotesOn(t.votes, v)|)
            && (forall v :: v !in t.videos ==> VotesOn(t.votes, v) == {})
            && (forall v, c :: CountOf(t, v, c) == |VotesIn(t.votes, v, c)| + Resubmissions(ops, v, c))
  {
    var t := Replay(ops);
    ReplayKeepsLedgerInv(ops);
    forall v: Video, u: User
      ensures (v, u) in t.votes <==> LiveVote(ops, v, u).Some?
      ensures (v, u) in t.votes ==> t.votes[(v, u)] == LiveVote(ops, v, u).value
    {
      ReplayVotes(ops, v, u);
    }
    forall v: Video, c: Category ensures CountOf(t, v, c) == |VotesIn(t.votes, v, c)| + Resubmissions(ops, v, c) {
      ReplaySurplus(ops, v, c);
    }
    forall v | v !in t.videos ensures VotesOn(t.votes, v) == {} {
    }
  }

  /** vote_count equals the live votes exactly when no vote of that category was ever resubmitted. */
  lemma CountsAreLiveIff(ops: seq<Op>, v: Video, c: Category)
    ensures CountOf(Replay(ops), v, c) == |VotesIn(Replay(ops).votes, v, c)| <==> Resubmissions(ops, v, c) == 0
  {
    ReplaySurplus(ops, v, c);
  }

  /** The counter really drifts: two identical submits leave one vote counted twice. */
  lemma DriftExample(v: Video, u: User, c: Category)
    ensures var t := Replay([Submit(v, u, c), Submit(v, u, c)]);
            |VotesIn(t.votes, v, c)| == 1 && CountOf(t, v, c) == 2 && t.videos[v].totalVotes == 1
  {
    var op := Submit(v, u, c);
    assert [op, op][..1] == [op] && [op][..0] == [];
    assert Replay([op]) == Apply(EMPTY, op);
    assert Replay([op, op]) == Apply(Replay([op]), op);
    assert VotesIn(Replay([op, op]).votes, v, c) == {(v, u)};
  }

  /** Sending a vote again that is in force, with unchanged trust, is safe on any
      tables and after any other traffic: the votes, total_votes and every score stay
      as they were, and one counter grows by exactly one. */
  lemma ResendSafety(t: Tables, v: Video, u: User, c: Category)
    requires u in t.users && v in t.videos && (v, u) in t.votes && t.votes[(v, u)] == Vote(c, t.users[u])
    ensures var again := AfterSubmit(t, v, u, c);
            && again.votes == t.votes && again.videos == t.videos && again.users == t.users
            && (forall v' :: TrueScore(again.votes, v') == TrueScore(t.votes, v'))
            && CountOf(again, v, c) == CountOf(t, v, c) + 1
            && (forall v', c' :: (v', c') != (v, c) ==> CountOf(again, v', c') == CountOf(t, v', c'))
            && again.categories.Keys == t.categories.Keys + {(v, c)}
            && (forall k :: k in t.categories ==> again.categories[k].weightedScore == t.categories[k].weightedScore)
  {
  }

  lemma {:induction false} VotersAreUsers(ops: seq<Op>)
    ensures forall k :: k in Replay(ops).votes ==> k.1 in Replay(ops).users
  {
    if ops != [] {
      VotersAreUsers(ops[..|ops| - 1]);
    }
  }

  /** In terms of histories: whenever the vote in force is the one being sent, and the
      user's trust is what it was, the resend changes one counter and nothing else. */
  lemma ResendAfterAnyHistory(ops: seq<Op>, v: Video, u: User, c: Category)
    requires LiveVote(ops, v, u) == Some(Vote(c, TrustAfter(ops, u)))
    ensures var t, again := Replay(ops), Replay(ops + [Submit(v, u, c)]);
            && again == t.(categories := again.categories)
            && (forall v' :: TrueScore(again.votes, v') == TrueScore(t.votes, v'))
            && (forall v', c' :: CountOf(again, v', c') == CountOf(t, v', c') + if v' == v && c' == c then 1 else 0)
  {
    assert (ops + [Submit(v, u, c)])[..|ops|] == ops;
    ReplayVotes(ops, v, u);
    ReplayKeepsLedgerInv(ops);
    VotersAreUsers(ops);
    ResendSafety(Replay(ops), v, u, c);
  }
}
