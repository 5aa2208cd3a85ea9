/** The two layers joined: the states that the migration layer lets a pull be answered from are those that the
  * replicas of a group on Raft are in (server/server.go: PullShards, run). */
module GroupMigration {
  import opened Wrappers
  import opened StateMachines
  import opened Migration
  import G = ReplicatedGroup
  import P = RaftProtocol
  import GT = GroupTheorems

  function CommitsOf(step: Step, g: int): seq<Args> {
    if step.Commit? && step.g == g then [step.args] else []
  }

  /** The commands that group `g` commits in the run, in order. */
  function LogOf(steps: seq<Step>, g: int): seq<Args> {
    if steps == [] then []
    else
      var n := |steps| - 1;
      LogOf(steps[..n], g) + CommitsOf(steps[n], g)
  }

  ghost predicate Driven(d: Deployment, h: seq<StateMachine>, g: int, log: seq<Args>) {
    |h| == |log| + 1 && forall k :: 0 <= k <= |log| ==> ApplyAll(d.hash, g, InitialState(), log[..k]) == Some(h[k])
  }

  lemma DrivenFurther(d: Deployment, h: seq<StateMachine>, g: int, log: seq<Args>, a: Args)
    requires Driven(d, h, g, log) && Apply(d.hash, g, h[|log|], a).Some?
    ensures Driven(d, h + [Apply(d.hash, g, h[|log|], a).value], g, log + [a])
  {
    var l := log + [a];
    forall k | 0 <= k <= |l|
      ensures ApplyAll(d.hash, g, InitialState(), l[..k]) == Some((h + [Apply(d.hash, g, h[|log|], a).value])[k])
    {
      if k <= |log| {
        assert l[..k] == log[..k];
      } else {
        assert l[..k] == l && l[..|l| - 1] == log == log[..|log|];
      }
    }
  }

  lemma DrivenByStep(d: Deployment, w: World, step: Step, g: int, log: seq<Args>)
    requires Enabled(d, w, step) && g in w.history && Driven(d, w.history[g], g, log)
    ensures g in Take(d, w, step).history && Driven(d, Take(d, w, step).history[g], g, log + CommitsOf(step, g))
  {
    if step.Commit? && step.g == g {
      DrivenFurther(d, w.history[g], g, log, step.args);
    } else {
      assert log + CommitsOf(step, g) == log;
    }
  }

  lemma DrivenAtFirst(d: Deployment, g: int)
    requires g in d.gids
    ensures g in InitialWorld(d).history && Driven(d, InitialWorld(d).history[g], g, [])
  {
  }

  /** A group's history is what its committed commands make of the initial state, one after the other. */
  lemma {:induction false} HistoryIsDriven(d: Deployment, steps: seq<Step>, g: int)
    requires Run(d, steps).Some? && g in d.gids
    ensures g in Run(d, steps).value.history && Driven(d, Run(d, steps).value.history[g], g, LogOf(steps, g))
  {
    if steps == [] {
      DrivenAtFirst(d, g);
    } else {
      var n := |steps| - 1;
      HistoryIsDriven(d, steps[..n], g);
      DrivenByStep(d, Run(d, steps[..n]).value, steps[n], g, LogOf(steps[..n], g));
    }
  }

  lemma CommandsOfPrefix(c: G.Setup, l: P.Log, k: nat)
    requires k <= |l|
    ensures G.Commands(c, l[..k]) == G.Commands(c, l)[..k]
  {
  }

  /** A group as it runs on Raft. */
  function SetupOf(d: Deployment, g: int, read: G.Reader): G.Setup {
    G.Setup(d.hash, g, InitialState(), read)
  }

  ghost predicate GoodRun(c: G.Setup, n: nat, steps: seq<G.Step>) {
    G.Run(c, n, steps).Some? && G.RaftCleanRun(c, n, steps) && G.AtHandRun(c, n, steps)
  }

  /** What server `s` knows to be committed begins the log `l`. */
  ghost predicate KnowsOf(c: G.Setup, y: G.System, s: nat, l: seq<Args>) {
    && s < |y.raft.servers| && s < |y.replicas|
    && var x := y.raft.servers[s];
       x.commit <= |x.log| && G.Commands(c, x.log[..x.commit]) <= l
  }

  /** In any run of group `g` on Raft that is clean and at hand, and any run of the whole system in which the group
    * commits what its server `s` knows to be committed, and maybe more: replica `s` is in a state that the
    * migration layer lets the group answer a pull from. */
  lemma ReplicaIsAtAState(d: Deployment, moves: seq<Step>, g: int, read: G.Reader, n: nat, steps: seq<G.Step>, s: nat) returns (k: nat)
    requires Run(d, moves).Some? && g in d.gids && s < n && GoodRun(SetupOf(d, g, read), n, steps)
    requires KnowsOf(SetupOf(d, g, read), G.Run(SetupOf(d, g, read), n, steps).value, s, LogOf(moves, g))
    ensures var w, y := Run(d, moves).value, G.Run(SetupOf(d, g, read), n, steps).value;
            At(w, g, k) && w.history[g][k] == y.replicas[s].image.state
  {
    var c := SetupOf(d, g, read);
    var y := G.Run(c, n, steps).value;
    var x := y.raft.servers[s];
    k := GT.ReplicaFollowsLog(c, n, steps, s);
    var l := x.log[..x.commit];
    CommandsOfPrefix(c, l, k);
    assert l[..k] == x.log[..k];
    assert G.Commands(c, x.log[..k]) == LogOf(moves, g)[..k];
    HistoryIsDriven(d, moves, g);
  }

  /** So what that replica answers a pull with is what the step AnswerPull sends. */
  lemma PullIsAnswerPull(d: Deployment, moves: seq<Step>, g: int, read: G.Reader, n: nat, steps: seq<G.Step>, s: nat, r: ShardRequest)
    returns (k: nat)
    requires Run(d, moves).Some? && g in d.gids && s < n && GoodRun(SetupOf(d, g, read), n, steps)
    requires KnowsOf(SetupOf(d, g, read), G.Run(SetupOf(d, g, read), n, steps).value, s, LogOf(moves, g))
    requires var w, x := Run(d, moves).value, G.Run(SetupOf(d, g, read), n, steps).value.replicas[s].image.state;
             && r in w.pulls && r.source == g && r.configNum <= x.current.num
             && forall i :: 0 <= i < |r.shardIDs| ==> r.shardIDs[i] in x.shards
    ensures var w, x := Run(d, moves).value, G.Run(SetupOf(d, g, read), n, steps).value.replicas[s].image.state;
            && Enabled(d, w, AnswerPull(r, k))
            && PullReply(r, PullAnswer(x, r)) in Take(d, w, AnswerPull(r, k)).pullReplies
  {
    k := ReplicaIsAtAState(d, moves, g, read, n, steps, s);
  }
}
