/** The vote table at the end of a session: what one user's actions, arriving in
    whatever order, leave there among everybody else's. */
module ServerVotes {
  import opened Options
  import opened Schema
  import opened ServerOrder
  import VoteLedger

  type Op = VoteLedger.Op

  predicate IsBy(op: Op, u: User) {
    !op.SetTrust? && op.user == u
  }

  /** The user's own transactions of a history. */
  function Own(ops: seq<Op>, u: User): seq<Op> {
    if ops == [] then []
    else Own(ops[..|ops| - 1], u) + if IsBy(ops[|ops| - 1], u) then [ops[|ops| - 1]] else []
  }

  /** The transaction that processes an action. */
  function OpOf(m: Made, u: User): Op {
    match m.category
    case Some(c) => VoteLedger.Submit(m.video, u, c)
    case None => VoteLedger.Delete(m.video, u)
  }

  /** The transactions of all that the server took, in the order it took them. */
  function Processed(made: seq<Made>, taken: seq<Taken>, u: User): seq<Op>
    requires forall x :: x in taken ==> x.number < |made|
  {
    seq(|taken|, i requires 0 <= i < |taken| => assert taken[i] in taken; OpOf(made[taken[i].number], u))
  }

  /** The category of the user's vote after the user's own transactions, if there is one. */
  function LastCategory(own: seq<Op>, v: Video): Option<Category> {
    if own == [] then None
    else
      var op := own[|own| - 1];
      if op.Submit? && op.video == v then Some(op.category)
      else if op.Delete? && op.video == v then None
      else LastCategory(own[..|own| - 1], v)
  }

  function CategoryOf(vote: Option<Vote>): Option<Category> {
    if vote.Some? then Some(vote.value.category) else None
  }

  lemma {:induction false} OnlyOwnMatter(ops: seq<Op>, v: Video, u: User)
    ensures CategoryOf(VoteLedger.LiveVote(ops, v, u)) == LastCategory(Own(ops, u), v)
  {
    if ops != [] {
      var rest, op := ops[..|ops| - 1], ops[|ops| - 1];
      OnlyOwnMatter(rest, v, u);
      var own, more := Own(rest, u), Own(ops, u);
      if IsBy(op, u) {
        assert more[..|more| - 1] == own && more[|more| - 1] == op;
      } else {
        assert more == own;
      }
    }
  }

  lemma {:induction false} LastTakenCounts(made: seq<Made>, taken: seq<Taken>, u: User, v: Video)
    requires forall x :: x in taken ==> x.number < |made| && made[x.number].video == x.video
    ensures Held(taken, v).Some? ==> Held(taken, v).value < |made|
    ensures LastCategory(Processed(made, taken, u), v) ==
            if Held(taken, v).Some? then made[Held(taken, v).value].category else None
  {
    if taken != [] {
      var init := taken[..|taken| - 1];
      LastTakenCounts(made, init, u, v);
      assert taken[|taken| - 1] in taken;
      assert Processed(made, taken, u)[..|init|] == Processed(made, init, u);
    }
  }

  lemma TakenWasMade(s: Session)
    requires SessionInv(s)
    ensures forall x :: x in s.taken ==> x.number < |s.made| && s.made[x.number].video == x.video
  {
    forall x | x in s.taken ensures x.number < |s.made| && s.made[x.number].video == x.video {
      NewestIsLargest(s.taken, x.video);
    }
  }

  /** From the user's click to the vote table: take any session of one user and any
      history of transactions in which that user's are the ones the server took in
      that session, among any votes of others and any changes of trust. Then the table
      has the user's vote on a video exactly if the newest action is a vote, and in
      its category, provided the server is up to date on the video. */
  lemma TableShowsTheNewestAction(actions: seq<Action>, ops: seq<Op>, u: User, v: Video)
    requires Doable(actions) && UpToDate(Reached(actions).taken, v)
    requires var s := Reached(actions);
             (forall x :: x in s.taken ==> x.number < |s.made|) && Own(ops, u) == Processed(s.made, s.taken, u)
    ensures var newest, did, t := Newest(Reached(actions).taken, v), Submitted(actions), VoteLedger.Replay(ops);
            && newest < |did|
            && ((v, u) in t.votes <==> newest >= 0 && did[newest].category.Some?)
            && ((v, u) in t.votes ==> did[newest] == Made(v, Some(t.votes[(v, u)].category)))
  {
    var s := Reached(actions);
    SessionKeeps(actions);
    MadeIsSubmitted(actions);
    TakenWasMade(s);
    OnlyOwnMatter(ops, v, u);
    LastTakenCounts(s.made, s.taken, u, v);
    VoteLedger.ReplayVotes(ops, v, u);
    NewestIsLargest(s.taken, v);
    if Held(s.taken, v).Some? { UpToDateIff(s.taken, v); }
  }
}
