/** Counting votes (raft/raft.go:946-974). A granted reply is counted whatever has become of the candidate; when
  * that does harm, and what harm. With fair launches and timely counts a term has one leader, whatever is done
  * with snapshots. */
module RaftVotes {
  import opened Wrappers
  import opened RaftProtocol
  import opened RaftInvariant
  import opened RaftGrowth
  import opened RaftSafety
  import opened RaftElection
  import opened RaftTheorems
  import opened RaftLaunch
  import opened RaftStories

  // ---------- votes cast ----------

  /** The voter has gone past the term, or its vote in it is still the ballot it has cast. */
  ghost predicate BallotStands(w: World, v: nat, t: nat)
    requires (v, t) in w.history.ballots
  {
    && v < |w.servers| && t <= w.servers[v].term
    && (t == w.servers[v].term ==> w.servers[v].votedFor == Some(w.history.ballots[(v, t)].candidate))
  }

  ghost predicate BallotsStand(w: World) {
    forall v, t :: (v, t) in w.history.ballots ==> BallotStands(w, v, t)
  }

  /** Server `v` has cast its ballot of term `t` for `s`. */
  predicate VotedFor(h: History, v: nat, t: nat, s: nat) {
    (v, t) in h.ballots && h.ballots[(v, t)].candidate == s
  }

  ghost predicate RepliesOk(w: World) {
    forall t, v, s :: VoteReply(t, v, s) in w.messages ==> v != s && VotedFor(w.history, v, t, s)
  }

  /** Elections of `s` in term `t` are none that it has yet to launch. */
  ghost predicate AskOk(w: World, s: nat, t: nat) {
    s < |w.servers| && t <= w.servers[s].term && (w.servers[s].tally.Some? ==> t <= w.servers[s].tally.value.term)
  }

  ghost predicate AsksOk(w: World) {
    forall m :: m in w.messages ==>
      (m.VoteRequest? ==> AskOk(w, m.candidate, m.term)) && (m.VoteReply? ==> AskOk(w, m.candidate, m.term))
  }

  /** The election being counted is of this term or an earlier one, a candidate's of this one; it began with a
    * vote for itself. */
  ghost predicate CandidacyOk(h: History, s: nat, x: Server) {
    && (x.role == Candidate ==> x.tally.Some? && x.tally.value.term == x.term)
    && TallyOk(h, s, x)
  }

  ghost predicate CandidaciesOk(w: World) {
    forall s: nat :: s < |w.servers| ==> CandidacyOk(w.history, s, w.servers[s])
  }

  ghost predicate CastingOk(w: World) {
    VotesOnDisk(w) && BallotsStand(w) && RepliesOk(w) && AsksOk(w) && CandidaciesOk(w)
  }

  /** All steps but launching and counting: whatever a server holds of an election, it held before. */
  predicate GainsNothing(x: Server, y: Server) {
    && (y.role == Leader ==> x.role == Leader && y.term == x.term)
    && (y.role == Candidate ==> x.role == Candidate && y.term == x.term && y.tally == x.tally)
    && (y.votes == {} || (y.votes == x.votes && y.term == x.term))
    && (y.tally == None || y.tally == x.tally)
  }

  lemma OtherStepGainsNothing(w: World, step: Step)
    requires Enabled(w, step) && !step.LaunchElection? && !step.CountVote?
    ensures GainsNothing(w.servers[step.s], Take(w, step).servers[step.s])
  {
  }

  lemma BallotsStayCast(w: World, step: Step)
    requires Enabled(w, step)
    ensures forall v, t, s :: VotedFor(w.history, v, t, s) ==> VotedFor(Take(w, step).history, v, t, s)
  {
  }

  /** Only launching and granting cast ballots. */
  lemma NewBallot(w: World, step: Step)
    requires Enabled(w, step)
    ensures var v := Take(w, step);
            forall q, t :: (q, t) in v.history.ballots && (q, t) !in w.history.ballots ==>
              q == step.s && v.servers[q].term == t && v.servers[q].votedFor == Some(v.history.ballots[(q, t)].candidate)
  {
  }

  lemma BallotsKept(w: World, step: Step)
    requires VotesOnDisk(w) && BallotsStand(w) && Enabled(w, step) && LaunchesFairly(w, step)
    ensures BallotsStand(Take(w, step))
  {
    var v := Take(w, step);
    StepKeepsVotes(w, step);
    NewBallot(w, step);
    BallotsStayCast(w, step);
    forall q, t | (q, t) in v.history.ballots
      ensures BallotStands(v, q, t)
    {
      if (q, t) in w.history.ballots {
        assert VotedFor(w.history, q, t, w.history.ballots[(q, t)].candidate);
        assert BallotStands(w, q, t) && VoteStays(w.servers[q], v.servers[q]);
      }
    }
  }

  /** A vote request is sent by its candidate, a vote reply by a server that has voted so. */
  lemma NewMessage(w: World, step: Step, m: Message)
    requires Enabled(w, step) && m in Take(w, step).messages && m !in w.messages
    ensures m.VoteRequest? ==> step.AskVote? && m.candidate == step.s && m.term == w.servers[step.s].term
    ensures m.VoteReply? ==>
      && step.AnswerVote? && step.m.candidate == m.candidate && step.m.term == m.term && step.s == m.voter
      && m.voter != m.candidate && Grants(w.servers[m.voter], step.m)
      && (m.voter, m.term) in Take(w, step).history.ballots
      && ((m.voter, m.term) !in w.history.ballots ==> VotedFor(Take(w, step).history, m.voter, m.term, m.candidate))
  {
  }

  lemma RepliesKept(w: World, step: Step)
    requires BallotsStand(w) && RepliesOk(w) && Enabled(w, step)
    ensures RepliesOk(Take(w, step))
  {
    var z := Take(w, step);
    BallotsStayCast(w, step);
    forall t: nat, v: nat, s: nat | VoteReply(t, v, s) in z.messages
      ensures v != s && VotedFor(z.history, v, t, s)
    {
      if VoteReply(t, v, s) !in w.messages {
        NewMessage(w, step, VoteReply(t, v, s));
        if (v, t) in w.history.ballots {
          assert BallotStands(w, v, t);
          assert VotedFor(w.history, v, t, s);
        }
      }
    }
  }

  lemma AskKept(w: World, step: Step, s: nat, t: nat)
    requires VotesOnDisk(w) && Enabled(w, step) && LaunchesFairly(w, step) && AskOk(w, s, t)
    ensures AskOk(Take(w, step), s, t)
  {
    StepKeepsVotes(w, step);
    if s == step.s {
      assert VoteStays(w.servers[s], Take(w, step).servers[s]);
      if !step.LaunchElection? && !step.CountVote? {
        OtherStepGainsNothing(w, step);
      }
    } else {
      OneServerChanges(w, step);
    }
  }

  lemma AsksKept(w: World, step: Step)
    requires VotesOnDisk(w) && AsksOk(w) && CandidaciesOk(w) && Enabled(w, step) && LaunchesFairly(w, step)
    ensures AsksOk(Take(w, step))
  {
    var z := Take(w, step);
    forall m | m in z.messages
      ensures (m.VoteRequest? ==> AskOk(z, m.candidate, m.term)) && (m.VoteReply? ==> AskOk(z, m.candidate, m.term))
    {
      if m.VoteRequest? || m.VoteReply? {
        if m !in w.messages {
          NewMessage(w, step, m);
          assert CandidacyOk(w.history, step.s, w.servers[step.s]);
        }
        AskKept(w, step, m.candidate, m.term);
      }
    }
  }

  lemma CandidacyKept(w: World, step: Step)
    requires VotesOnDisk(w) && BallotsStand(w) && CandidaciesOk(w) && Enabled(w, step) && LaunchesFairly(w, step)
    ensures CandidacyOk(Take(w, step).history, step.s, Take(w, step).servers[step.s])
  {
    var s, x := step.s, w.servers[step.s];
    assert CandidacyOk(w.history, s, x);
    BallotsStayCast(w, step);
    if step.LaunchElection? {
      if (s, step.newTerm) in w.history.ballots {
        assert BallotStands(w, s, step.newTerm);
      }
    } else if !step.CountVote? {
      OtherStepGainsNothing(w, step);
      StepKeepsVotes(w, step);
      assert VoteStays(x, Take(w, step).servers[s]);
    }
    if x.tally.Some? {
      assert VotedFor(w.history, s, x.tally.value.term, s);
    }
  }

  lemma CandidaciesKept(w: World, step: Step)
    requires VotesOnDisk(w) && BallotsStand(w) && CandidaciesOk(w) && Enabled(w, step) && LaunchesFairly(w, step)
    ensures CandidaciesOk(Take(w, step))
  {
    var z := Take(w, step);
    OneServerChanges(w, step);
    CandidacyKept(w, step);
    BallotsStayCast(w, step);
    forall s: nat | s < |z.servers| && s != step.s
      ensures CandidacyOk(z.history, s, z.servers[s])
    {
      assert CandidacyOk(w.history, s, w.servers[s]);
      if w.servers[s].tally.Some? {
        assert VotedFor(w.history, s, w.servers[s].tally.value.term, s);
      }
    }
  }

  lemma {:induction false} RunCasts(n: nat, steps: seq<Step>)
    requires Run(n, steps).Some? && Guarded(Fair, n, steps)
    ensures CastingOk(Run(n, steps).value)
  {
    if steps != [] {
      var k := |steps| - 1;
      RunCasts(n, steps[..k]);
      var w := Run(n, steps[..k]).value;
      StepKeepsVotes(w, steps[k]);
      BallotsKept(w, steps[k]);
      RepliesKept(w, steps[k]);
      AsksKept(w, steps[k]);
      CandidaciesKept(w, steps[k]);
    }
  }

  /** Durable votes: within a term a server has granted its vote to one candidate only, crashes or not. */
  lemma OneVotePerTerm(n: nat, steps: seq<Step>, term: nat, voter: nat, a: nat, b: nat)
    requires Run(n, steps).Some? && Guarded(Fair, n, steps)
    requires var w := Run(n, steps).value; VoteReply(term, voter, a) in w.messages && VoteReply(term, voter, b) in w.messages
    ensures a == b
  {
    RunCasts(n, steps);
  }

  // ---------- exactly when counting is in time ----------

  /** Every vote that a server holds but its own has been granted to it in its current term. */
  ghost predicate HoldsCurrentVotes(w: World) {
    forall s: nat, v: nat :: s < |w.servers| && v in w.servers[s].votes && v != s ==>
      VoteReply(w.servers[s].term, v, s) in w.messages
  }

  ghost predicate CurrentThroughout(n: nat, steps: seq<Step>)
    requires Run(n, steps).Some?
  {
    HoldsCurrentVotes(Run(n, steps).value) && (steps == [] || CurrentThroughout(n, steps[..|steps| - 1]))
  }

  lemma TimelyKeepsCurrent(w: World, step: Step)
    requires HoldsCurrentVotes(w) && Enabled(w, step) && CountsInTime(w, step)
    ensures HoldsCurrentVotes(Take(w, step))
  {
    var z := Take(w, step);
    OneServerChanges(w, step);
    NothingTakenBack(w, step);
    if !step.LaunchElection? && !step.CountVote? {
      OtherStepGainsNothing(w, step);
    }
    forall s: nat, v: nat | s < |z.servers| && v in z.servers[s].votes && v != s
      ensures VoteReply(z.servers[s].term, v, s) in z.messages
    {
      if v in w.servers[s].votes {
        assert VoteReply(w.servers[s].term, v, s) in w.messages;
      }
    }
  }

  lemma AskedNoLater(w: World, s: nat, t: nat, v: nat)
    requires AsksOk(w) && s < |w.servers| && w.servers[s].tally.Some? && VoteReply(t, v, s) in w.messages
    ensures t <= w.servers[s].tally.value.term
  {
    assert AskOk(w, s, t);
  }

  lemma LateCountIsForeign(w: World, step: Step)
    requires CastingOk(w) && Enabled(w, step) && !CountsInTime(w, step)
    ensures !HoldsCurrentVotes(Take(w, step))
  {
    var s, v, z := step.s, step.m.voter, Take(w, step);
    var x := w.servers[s];
    assert CandidacyOk(w.history, s, x);
    if VoteReply(x.term, v, s) in w.messages {
      AskedNoLater(w, s, x.term, v);
    }
    assert v != s && v in z.servers[s].votes && z.servers[s].term == x.term && z.messages == w.messages;
  }

  /** In a run with fair launches: votes are counted only in the term of the reply if and only if at all moments
    * every vote held by a server has been granted to it in the term it is in. */
  lemma {:induction false} TimelyExactlyWhenCurrent(n: nat, steps: seq<Step>)
    requires Run(n, steps).Some? && Guarded(Fair, n, steps)
    ensures Guarded(Timely, n, steps) <==> CurrentThroughout(n, steps)
  {
    if steps != [] {
      var k := |steps| - 1;
      var w := Run(n, steps[..k]).value;
      TimelyExactlyWhenCurrent(n, steps[..k]);
      RunCasts(n, steps[..k]);
      if CurrentThroughout(n, steps[..k]) {
        if CountsInTime(w, steps[k]) {
          TimelyKeepsCurrent(w, steps[k]);
        } else {
          LateCountIsForeign(w, steps[k]);
        }
      }
    }
  }

  // ---------- one leader per term ----------

  /** The winner of term `t` has a majority of the term's ballots. */
  ghost predicate ElectedBy(w: World, t: nat)
    requires t in w.history.elections
  {
    var e := w.history.elections[t];
    && IsMajority(e.ballots.Keys, |w.servers|)
    && forall v :: v in e.ballots ==> v < |w.servers| && VotedFor(w.history, v, t, e.leader)
  }

  ghost predicate ElectionsFair(w: World) {
    forall t :: t in w.history.elections ==> ElectedBy(w, t)
  }

  ghost predicate LeadersElected(w: World) {
    forall s: nat :: s < |w.servers| && w.servers[s].role == Leader ==>
      w.servers[s].term in w.history.elections && w.history.elections[w.servers[s].term].leader == s
  }

  ghost predicate VotesHeldOk(w: World) {
    forall s: nat :: s < |w.servers| ==> VotesOk(w.history, s, w.servers[s])
  }

  ghost predicate WinningOk(w: World) {
    CastingOk(w) && ElectionsFair(w) && LeadersElected(w) && VotesHeldOk(w)
  }

  /** An election in which `s` has a majority: nobody else has won that term. */
  lemma NoOtherWinner(w: World, s: nat, t: nat, votes: set<nat>)
    requires ElectionsFair(w) && IsMajority(votes, |w.servers|)
    requires forall v :: v in votes ==> v < |w.servers| && VotedFor(w.history, v, t, s)
    ensures t in w.history.elections ==> w.history.elections[t].leader == s
  {
    if t in w.history.elections {
      assert ElectedBy(w, t);
      var v := MajoritiesMeet(|w.servers|, votes, w.history.elections[t].ballots.Keys);
    }
  }

  /** What the candidate holds after a timely count. */
  lemma CountedVotes(w: World, step: Step)
    requires CastingOk(w) && VotesHeldOk(w) && Enabled(w, step) && step.CountVote? && CountsInTime(w, step)
    ensures var y := Counted(w.servers[step.s], step.m.voter);
            && VotesOk(w.history, step.s, y)
            && (forall v :: v in y.votes ==> v < |w.servers|)
            && VotedFor(w.history, step.s, y.term, step.s) && step.m.voter != step.s
  {
    var s, x := step.s, w.servers[step.s];
    var y := Counted(x, step.m.voter);
    assert CandidacyOk(w.history, s, x) && VotesOk(w.history, s, x);
    assert VotedFor(w.history, step.m.voter, x.term, s);
    forall v | v in y.votes
      ensures v < |w.servers|
    {
      assert VotedFor(w.history, v, x.term, s);
      assert BallotStands(w, v, x.term);
    }
  }

  lemma WinnerIsElected(w: World, step: Step)
    requires CastingOk(w) && VotesHeldOk(w) && Enabled(w, step) && step.CountVote? && CountsInTime(w, step)
    requires var y := Counted(w.servers[step.s], step.m.voter);
             IsMajority(y.votes, |w.servers|) && y.term !in w.history.elections
    ensures ElectedBy(Take(w, step), w.servers[step.s].term)
  {
    var s, z := step.s, Take(w, step);
    var y := Counted(w.servers[s], step.m.voter);
    CountedVotes(w, step);
    var e := z.history.elections[y.term];
    assert e == ElectionOf(w.history, s, y);
    assert e.ballots.Keys == y.votes + {s} by {
      forall v | v in y.votes
        ensures v in e.ballots
      {
        assert VotedFor(w.history, v, y.term, s);
      }
    }
    MoreIsMajority(y.votes, s, |w.servers|);
    forall v | v in e.ballots
      ensures v < |z.servers| && VotedFor(z.history, v, y.term, s)
    {
      assert v in y.votes || v == s;
    }
  }

  lemma CountKeepsElections(w: World, step: Step)
    requires WinningOk(w) && Enabled(w, step) && step.CountVote? && CountsInTime(w, step)
    ensures ElectionsFair(Take(w, step))
  {
    var z := Take(w, step);
    forall t | t in z.history.elections
      ensures ElectedBy(z, t)
    {
      if t in w.history.elections {
        assert ElectedBy(w, t);
      } else {
        WinnerIsElected(w, step);
      }
    }
  }

  lemma CountKeepsVotes(w: World, step: Step)
    requires WinningOk(w) && Enabled(w, step) && step.CountVote? && CountsInTime(w, step)
    ensures VotesHeldOk(Take(w, step))
  {
    CountedVotes(w, step);
    assert forall q: nat :: q < |w.servers| ==> VotesOk(w.history, q, w.servers[q]);
  }

  lemma CountKeepsLeaders(w: World, step: Step)
    requires WinningOk(w) && Enabled(w, step) && step.CountVote? && CountsInTime(w, step)
    ensures LeadersElected(Take(w, step))
  {
    var s, y := step.s, Counted(w.servers[step.s], step.m.voter);
    CountedVotes(w, step);
    if IsMajority(y.votes, |w.servers|) {
      assert forall v :: v in y.votes ==> VotedFor(w.history, v, y.term, s);
      NoOtherWinner(w, s, y.term, y.votes);
    }
  }

  /** Apart from counting, nobody wins and nobody gets a vote, but a candidate its own. */
  lemma OtherStepKeepsWinning(w: World, step: Step)
    requires WinningOk(w) && Enabled(w, step) && !step.CountVote? && LaunchesFairly(w, step)
    requires CandidaciesOk(Take(w, step))
    ensures ElectionsFair(Take(w, step)) && LeadersElected(Take(w, step)) && VotesHeldOk(Take(w, step))
  {
    var z := Take(w, step);
    OneServerChanges(w, step);
    BallotsStayCast(w, step);
    SameElections(w, step);
    if !step.LaunchElection? {
      OtherStepGainsNothing(w, step);
    }
    forall t | t in z.history.elections
      ensures ElectedBy(z, t)
    {
      assert ElectedBy(w, t);
    }
    forall s: nat | s < |z.servers|
      ensures VotesOk(z.history, s, z.servers[s])
    {
      assert VotesOk(w.history, s, w.servers[s]) && CandidacyOk(z.history, s, z.servers[s]);
      assert forall v :: v in w.servers[s].votes ==> VotedFor(w.history, v, w.servers[s].term, s);
    }
  }

  lemma SameElections(w: World, step: Step)
    requires Enabled(w, step) && !step.CountVote?
    ensures Take(w, step).history.elections == w.history.elections
  {
  }

  lemma {:induction false} RunElects(n: nat, steps: seq<Step>)
    requires Run(n, steps).Some? && Guarded(Voting, n, steps)
    ensures WinningOk(Run(n, steps).value) && |Run(n, steps).value.servers| == n
  {
    GuardedTogether(Voting, Fair, n, steps);
    RunCasts(n, steps);
    if steps != [] {
      var k := |steps| - 1;
      var w := Run(n, steps[..k]).value;
      RunElects(n, steps[..k]);
      SameSize(w, steps[k]);
      if steps[k].CountVote? {
        CountKeepsElections(w, steps[k]);
        CountKeepsVotes(w, steps[k]);
        CountKeepsLeaders(w, steps[k]);
      } else {
        OtherStepKeepsWinning(w, steps[k]);
      }
    }
  }

  /** Elections won stay on record. */
  ghost predicate StillWon(a: World, b: World) {
    forall t :: t in a.history.elections ==> t in b.history.elections && b.history.elections[t] == a.history.elections[t]
  }

  lemma StepStillWon(w: World, step: Step)
    requires Enabled(w, step)
    ensures StillWon(w, Take(w, step))
  {
    if !step.CountVote? {
      SameElections(w, step);
    }
  }

  lemma {:induction false} ElectionsStand(n: nat, steps: seq<Step>, i: nat)
    requires Run(n, steps).Some? && Guarded(Voting, n, steps) && i <= |steps|
    ensures Run(n, steps[..i]).Some? && Guarded(Voting, n, steps[..i])
    ensures StillWon(Run(n, steps[..i]).value, Run(n, steps).value)
    decreases |steps|
  {
    if i == |steps| {
      assert steps[..i] == steps;
    } else {
      var k := |steps| - 1;
      ElectionsStand(n, steps[..k], i);
      assert steps[..k][..i] == steps[..i];
      StepStillWon(Run(n, steps[..k]).value, steps[k]);
    }
  }

  /** Election safety: whoever leads in a term, at whatever two moments, is one server. Nothing is asked of
    * installations. */
  lemma OneLeaderPerTerm(n: nat, steps: seq<Step>, i: nat, j: nat, s: nat, t: nat)
    requires Run(n, steps).Some? && Guarded(Voting, n, steps) && i <= j <= |steps| && s < n && t < n
    ensures |At(n, steps, i).servers| == n && |At(n, steps, j).servers| == n
    ensures var x, y := At(n, steps, i).servers[s], At(n, steps, j).servers[t];
            x.role == Leader && y.role == Leader && x.term == y.term ==> s == t
  {
    ElectionsStand(n, steps, j);
    assert steps[..j][..i] == steps[..i];
    ElectionsStand(n, steps[..j], i);
    RunElects(n, steps[..i]);
    RunElects(n, steps[..j]);
  }

  // ---------- a run of three servers with two leaders in term 2 ----------

  const Late := Guard(true, false, true)

  /** Servers 1 and 2 have voted for 0 in term 1; before it hears of that, 0 has voted for 1 in term 2. */
  lemma VotesDelayed() returns (w: World)
    ensures Reachable(Late, 3, w) && |w.servers| == 3
    ensures forall s :: 0 <= s < 3 ==> |w.servers[s].matchIndex| == 3
    ensures Looks(w.servers[0], 2, Follower, [], 0, 0, 0) && w.servers[0].votes == {} && w.servers[0].tally == Some(Tally(1, {}))
    ensures Looks(w.servers[1], 2, Candidate, [], 0, 0, 0) && w.servers[1].votes == {1} && w.servers[1].tally == Some(Tally(2, {}))
    ensures Looks(w.servers[2], 1, Follower, [], 0, 0, 0)
    ensures VoteReply(1, 1, 0) in w.messages && VoteReply(1, 2, 0) in w.messages && VoteReply(2, 0, 1) in w.messages
  {
    var p := Reaching(Late, 3);
    w := InitialWorld(3);
    w := Launch(Late, p, w, 0, 1);
    w := Ask(Late, p, w, 0);
    w := Grant(Late, p, w, 1, VoteRequest(1, 0, 0, 0));
    w := Grant(Late, p, w, 2, VoteRequest(1, 0, 0, 0));
    w := Launch(Late, p, w, 1, 2);
    w := Ask(Late, p, w, 1);
    w := Grant(Late, p, w, 0, VoteRequest(2, 1, 0, 0));
  }

  /** The votes of term 1 make server 0 a leader of term 2, which server 1 leads already. */
  lemma LateWin() returns (w: World)
    ensures Reachable(Late, 3, w) && Split(w, 2)
  {
    var p := Reaching(Late, 3);
    w := VotesDelayed();
    assert {1} + {0} == {1, 0} && |{1, 0}| == 2;
    w := WinByTwo(Late, p, w, 1, 0);
    assert |{1}| == 1 && {} + {1} == {1};
    w := Count(Late, p, w, 0, 1);
    assert {1} + {2} == {1, 2} && |{1, 2}| == 2;
    w := WinByTwo(Late, p, w, 0, 2);
  }

  /** Late votes make two leaders of one term, which apply different entries at index 1, although all launches
    * are fair and no snapshot is ever sent. */
  lemma LateVotesAreUnsafe() returns (steps: seq<Step>)
    ensures Run(3, steps).Some? && Guarded(Late, 3, steps) && !Guarded(Timely, 3, steps)
    ensures Torn(Run(3, steps).value, 2)
  {
    var w := LateWin();
    w := SplitIsTorn(Late, w, 2);
    ReachableHasRun(Late, 3, w);
    steps :| Run(3, steps) == Some(w) && Guarded(Late, 3, steps);
    GuardedTogether(Late, Timely, 3, steps);
    if CleanRun(3, steps) {
      StateMachineSafety(3, steps, 0, 1, 1, Entry(2, 1, [10]), Entry(2, 1, [20]));
    }
  }
}
