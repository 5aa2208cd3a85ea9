/** launchElection (raft/raft.go:918-944) starts from a term that its ticker has read some time ago, and
  * looks at nothing. When that does harm, and what harm. */
module RaftLaunch {
  import opened Wrappers
  import opened RaftProtocol
  import opened RaftSafety
  import opened RaftElection
  import opened RaftTheorems
  import opened RaftStories

  /** The term is not taken back, and the vote in it is not changed. */
  predicate VoteStays(x: Server, y: Server) {
    x.term <= y.term && (x.term == y.term && x.votedFor.Some? ==> y.votedFor == x.votedFor)
  }

  ghost predicate VotesStay(w: World, v: World) {
    |w.servers| == |v.servers| && forall s: nat :: s < |w.servers| ==> VoteStays(w.servers[s], v.servers[s])
  }

  /** Term and vote are on disk. */
  ghost predicate VotesOnDisk(w: World) {
    forall s: nat :: s < |w.servers| ==>
      w.servers[s].disk.term == w.servers[s].term && w.servers[s].disk.votedFor == w.servers[s].votedFor
  }

  /** A launch takes back a term or changes a vote exactly when it is not fair; no other step ever does. */
  lemma StepKeepsVotes(w: World, step: Step)
    requires VotesOnDisk(w) && Enabled(w, step)
    ensures VotesOnDisk(Take(w, step))
    ensures VotesStay(w, Take(w, step)) <==> LaunchesFairly(w, step)
  {
    OneServerChanges(w, step);
    var x, y := w.servers[step.s], Take(w, step).servers[step.s];
    if step.LaunchElection? {
      assert VoteStays(x, y) <==> LaunchesFairly(w, step);
    } else {
      ServerKeepsVote(w, step);
    }
  }

  lemma OneServerChanges(w: World, step: Step)
    requires Enabled(w, step)
    ensures |Take(w, step).servers| == |w.servers|
    ensures forall s: nat :: s < |w.servers| && s != step.s ==> Take(w, step).servers[s] == w.servers[s]
  {
  }

  lemma ServerKeepsVote(w: World, step: Step)
    requires VotesOnDisk(w) && Enabled(w, step) && !step.LaunchElection?
    ensures var x, y := w.servers[step.s], Take(w, step).servers[step.s];
            VoteStays(x, y) && y.disk.term == y.term && y.disk.votedFor == y.votedFor
  {
  }

  lemma {:induction false} VotesAreOnDisk(n: nat, steps: seq<Step>)
    requires Run(n, steps).Some?
    ensures VotesOnDisk(Run(n, steps).value)
  {
    if steps != [] {
      var k := |steps| - 1;
      VotesAreOnDisk(n, steps[..k]);
      StepKeepsVotes(Run(n, steps[..k]).value, steps[k]);
    }
  }

  /** At no step of the run does a server go back to an earlier term or change its vote within a term. */
  ghost predicate VotesStayThroughout(n: nat, steps: seq<Step>)
    requires Run(n, steps).Some?
  {
    steps == [] ||
    (var k := |steps| - 1;
     VotesStayThroughout(n, steps[..k]) && VotesStay(Run(n, steps[..k]).value, Run(n, steps).value))
  }

  /** In any run whatever: every launch is fair if and only if no server ever goes back to an earlier term or
    * changes its vote within a term, crashes included. */
  lemma {:induction false} FairExactlyWhenVotesStay(n: nat, steps: seq<Step>)
    requires Run(n, steps).Some?
    ensures Guarded(Fair, n, steps) <==> VotesStayThroughout(n, steps)
  {
    if steps != [] {
      var k := |steps| - 1;
      FairExactlyWhenVotesStay(n, steps[..k]);
      VotesAreOnDisk(n, steps[..k]);
      StepKeepsVotes(Run(n, steps[..k]).value, steps[k]);
    }
  }

  /** So in a run with fair launches a vote, once given, stands at every later moment of its term. */
  lemma {:induction false} VotesStand(n: nat, steps: seq<Step>, i: nat)
    requires Run(n, steps).Some? && Guarded(Fair, n, steps) && i <= |steps|
    ensures Run(n, steps[..i]).Some? && VotesStay(Run(n, steps[..i]).value, Run(n, steps).value)
    decreases |steps|
  {
    if i == |steps| {
      assert steps[..i] == steps;
    } else {
      var k := |steps| - 1;
      VotesStand(n, steps[..k], i);
      assert steps[..k][..i] == steps[..i];
      VotesAreOnDisk(n, steps[..k]);
      StepKeepsVotes(Run(n, steps[..k]).value, steps[k]);
    }
  }

  // ---------- a run of three servers with two leaders in term 1 ----------

  const Unfair := Guard(false, true, true)

  /** Server 0 has voted for 1 in term 1; then its own election, started in term 0, gets the lock. */
  lemma TwoLeaders() returns (w: World)
    ensures Reachable(Unfair, 3, w) && Split(w, 1)
  {
    var g := Unfair;
    var p := Reaching(g, 3);
    w := InitialWorld(3);
    w := Launch(g, p, w, 1, 1);
    w := Ask(g, p, w, 1);
    w := Grant(g, p, w, 0, VoteRequest(1, 1, 0, 0));
    w := Launch(g, p, w, 0, 1);
    w := Ask(g, p, w, 0);
    w := Grant(g, p, w, 2, VoteRequest(1, 0, 0, 0));
    w := BothWin(w);
  }

  lemma BothWin(u: World) returns (w: World)
    requires Reachable(Unfair, 3, u) && |u.servers| == 3
    requires forall s :: 0 <= s < 2 ==> Looks(u.servers[s], 1, Candidate, [], 0, 0, 0) && |u.servers[s].matchIndex| == 3
    requires u.servers[0].votes == {0} && u.servers[0].tally == Some(Tally(1, {})) && VoteReply(1, 2, 0) in u.messages
    requires u.servers[1].votes == {1} && u.servers[1].tally == Some(Tally(1, {})) && VoteReply(1, 0, 1) in u.messages
    requires Looks(u.servers[2], 1, Follower, [], 0, 0, 0)
    ensures Reachable(Unfair, 3, w) && Split(w, 1)
  {
    var p := Reaching(Unfair, 3);
    assert {1} + {0} == {1, 0} && {0} + {2} == {0, 2};
    w := WinByTwo(Unfair, p, u, 1, 0);
    w := WinByTwo(Unfair, p, w, 0, 2);
  }

  /** A stale launch makes two leaders of one term, which apply different entries at index 1. */
  lemma UnfairLaunchIsUnsafe() returns (steps: seq<Step>)
    ensures Run(3, steps).Some? && Guarded(Unfair, 3, steps) && !Guarded(Fair, 3, steps)
    ensures Torn(Run(3, steps).value, 1)
  {
    var w := TwoLeaders();
    w := SplitIsTorn(Unfair, w, 1);
    ReachableHasRun(Unfair, 3, w);
    steps :| Run(3, steps) == Some(w) && Guarded(Unfair, 3, steps);
    GuardedTogether(Unfair, Fair, 3, steps);
    if CleanRun(3, steps) {
      StateMachineSafety(3, steps, 0, 1, 1, Entry(1, 1, [10]), Entry(1, 1, [20]));
    }
  }
}
