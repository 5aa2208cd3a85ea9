/** A run of three servers in which a delayed snapshot overtakes an entry in flight, and a client's write is
  * lost on one replica for good. */
module GroupLoss {
  import opened Wrappers
  import opened Sessions
  import opened StateMachines
  import opened RaftProtocol
  import opened RaftElection
  import opened RaftReplication
  import opened RaftStories
  import opened GroupInvariant
  import G = ReplicatedGroup
  import S = RaftSafety
  import GT = GroupTheorems
  import M = Migration

  // ---------- putting runs of the group together ----------

  ghost predicate Inductive(c: G.Setup, n: nat, p: G.System -> bool) {
    p(G.InitialSystem(c, n)) &&
    forall y, step :: G.Enabled(c, y, step) && G.RaftClean(c, y, step) && p(y) ==> p(G.Take(c, y, step))
  }

  ghost predicate Reachable(c: G.Setup, n: nat, y: G.System) {
    forall p: G.System -> bool :: Inductive(c, n, p) ==> p(y)
  }

  ghost predicate HasRun(c: G.Setup, n: nat, y: G.System) {
    exists steps :: G.Run(c, n, steps) == Some(y) && G.RaftCleanRun(c, n, steps)
  }

  lemma ReachableHasRun(c: G.Setup, n: nat, y: G.System)
    requires Reachable(c, n, y)
    ensures HasRun(c, n, y)
  {
    assert G.Run(c, n, []) == Some(G.InitialSystem(c, n)) && G.RaftCleanRun(c, n, []);
    forall z, step | G.Enabled(c, z, step) && G.RaftClean(c, z, step) && HasRun(c, n, z)
      ensures HasRun(c, n, G.Take(c, z, step))
    {
      var steps :| G.Run(c, n, steps) == Some(z) && G.RaftCleanRun(c, n, steps);
      assert (steps + [step])[..|steps|] == steps;
      assert G.Run(c, n, steps + [step]) == Some(G.Take(c, z, step)) && G.RaftCleanRun(c, n, steps + [step]);
    }
    assert Inductive(c, n, y => HasRun(c, n, y));
  }

  lemma Next(c: G.Setup, n: nat, y: G.System, step: G.Step) returns (z: G.System)
    requires Reachable(c, n, y) && G.Enabled(c, y, step) && G.RaftClean(c, y, step)
    ensures Reachable(c, n, z) && z == G.Take(c, y, step)
  {
    z := G.Take(c, y, step);
  }

  /** Steps of Raft on its own, with replicas and mail as they are. */
  lemma Around(c: G.Setup, n: nat, y: G.System) returns (p: World -> bool)
    requires |y.replicas| == n
    ensures Kept(S.Clean, p) && forall w :: p(w) <==> |w.servers| == n && Reachable(c, n, y.(raft := w))
  {
    p := (w: World) => |w.servers| == n && Reachable(c, n, y.(raft := w));
    forall w, step | Plain(step) && Enabled(w, step) && S.Allowed(S.Clean, w, step) && p(w)
      ensures p(Take(w, step))
    {
      var z := Next(c, n, y.(raft := w), G.Inside(step));
      S.SameSize(w, step);
      assert z == y.(raft := Take(w, step));
    }
  }

  /** Takes the next committed entry of `s` and delivers it. */
  lemma TakeAndDeliver(c: G.Setup, n: nat, y: G.System, s: nat, st: StateMachine) returns (z: G.System)
    requires Reachable(c, n, y) && s < |y.replicas| == |y.raft.servers| && y.replicas[s].inFlight == None
    requires var x := y.raft.servers[s];
             && x.lastApplied < x.commit <= |x.log|
             && G.Applied(c, y.replicas[s].image.state, x.log[x.lastApplied]) == Some(st)
    ensures var x, r := y.raft.servers[s], y.replicas[s];
            && Reachable(c, n, z) && z.mail == y.mail && z.raft.messages == y.raft.messages
            && z.raft.servers == y.raft.servers[s := x.(lastApplied := x.lastApplied + 1)]
            && z.replicas == y.replicas[s := G.Replica(G.Image(st, x.lastApplied + 1, G.Fed(r.image.seen, x.lastApplied + 1, x.log[x.lastApplied])), None, r.stored)]
  {
    var u := Next(c, n, y, G.TakeNext(s));
    z := Next(c, n, u, G.Deliver(s));
  }

  // ---------- the group, and its three entries ----------

  const Owned := Args(SessionHeader(9, 1), RECONFIGURE(Config(1, seq(NSHARDS, i => 1))))
  const WriteA := Args(SessionHeader(5, 1), APPEND("k", "a"))
  const WriteB := Args(SessionHeader(5, 2), APPEND("k", "b"))

  /** Group 1; all keys hash to shard 0. */
  function Group(): G.Setup {
    G.Setup(key => 0, 1, M.InitialState(), data => if data == [1] then Owned else if data == [2] then WriteA else WriteB)
  }

  const E1 := Entry(1, 1, [1])
  const E2 := Entry(1, 2, [2])
  const E3 := Entry(1, 3, [3])

  /** The group owns all shards, key "k" holds `v` if it is not empty, and client 5 has got as far as `seqNum`. */
  predicate Holding(s: StateMachine, v: string, seqNum: nat) {
    && 0 in s.shards && s.shards[0].status == SERVING
    && |s.current.shards| == NSHARDS && s.current.shards[0] == 1
    && s.shards[0].KV == (if v == "" then map[] else map["k" := v])
    && (if seqNum == 0 then 5 !in s.sessions else 5 in s.sessions && s.sessions[5].processedSeq == seqNum)
  }

  lemma FirstEntry() returns (st: StateMachine)
    ensures G.Applied(Group(), M.InitialState(), E1) == Some(st) && Holding(st, "", 0)
  {
    var s := M.InitialState();
    assert Group().read(E1.data) == Owned;
    st := Apply(Group().hash, 1, s, Owned).value;
    assert NewConfig(Owned.command.nextConfig).shards[0] == 1;
  }

  lemma WritesA(s: StateMachine) returns (st: StateMachine)
    requires Holding(s, "", 0)
    ensures G.Applied(Group(), s, E2) == Some(st) && Holding(st, "a", 1)
  {
    assert Group().read(E2.data) == WriteA;
    st := Apply(Group().hash, 1, s, WriteA).value;
    assert "" + "a" == "a";
  }

  lemma WritesB(s: StateMachine, v: string, seqNum: nat) returns (st: StateMachine)
    requires Holding(s, v, seqNum) && seqNum < 2
    ensures G.Applied(Group(), s, E3) == Some(st) && Holding(st, v + "b", 2)
  {
    assert Group().read(E3.data) == WriteB;
    st := Apply(Group().hash, 1, s, WriteB).value;
    assert v == "" ==> v + "b" == "b";
  }

  /** A write whose number client 5 has gone past is refused. */
  lemma RefusesOld(s: StateMachine, v: string, e: Entry)
    requires Holding(s, v, 2) && (e == E2 || e == E3)
    ensures G.Applied(Group(), s, e) == Some(s)
  {
    assert Group().read(e.data) == if e == E2 then WriteA else WriteB;
  }

  const InOrder := [(1, E1), (2, E2), (3, E3)]
  const OutOfOrder := [(1, E1), (3, E3), (2, E2)]

  /** Entries that come in for the first time. */
  lemma FeedsNew(seen: seq<(nat, Entry)>, i: nat, e: Entry)
    requires forall k :: 0 <= k < |seen| ==> seen[k].0 != i
    ensures G.Fed(seen, i, e) == seen + [(i, e)]
  {
  }

  lemma FeedsAgain(seen: seq<(nat, Entry)>, k: nat, e: Entry)
    requires k < |seen|
    ensures G.Fed(seen, seen[k].0, e) == seen
  {
  }

  // ---------- the story ----------

  /** Server 0 leads and has committed three entries, server 1 has them and knows it. */
  ghost predicate Scene1(y: G.System) {
    && Reachable(Group(), 3, y) && |y.replicas| == |y.raft.servers| == 3 && y.mail == {}
    && Looks(y.raft.servers[0], 1, Leader, [E1, E2, E3], 0, 3, 0)
    && Looks(y.raft.servers[1], 1, Follower, [E1, E2, E3], 0, 3, 0)
    && (forall s :: 0 <= s < 3 ==> y.replicas[s] == G.InitialReplica(Group()))
  }

  lemma ThreeCommitted() returns (y: G.System)
    ensures Scene1(y)
  {
    y := G.InitialSystem(Group(), 3);
    var g, w := S.Clean, y.raft;
    var p := Around(Group(), 3, y);
    assert y.(raft := w) == y;
    w := Launch(g, p, w, 0, 1);
    w := Ask(g, p, w, 0);
    w := Grant(g, p, w, 1, VoteRequest(1, 0, 0, 0));
    w := WinByTwo(g, p, w, 0, 1);
    w := Append(g, p, w, 0, [1]);
    w := Append(g, p, w, 0, [2]);
    w := Append(g, p, w, 0, [3]);
    assert w.servers[0].log == [E1, E2, E3];
    w := FeedAndCommit(p, w);
    y := y.(raft := w);
  }

  lemma FeedAndCommit(p: World -> bool, u: World) returns (w: World)
    requires Kept(S.Clean, p) && p(u) && |u.servers| == 3
    requires Looks(u.servers[0], 1, Leader, [E1, E2, E3], 0, 0, 0) && |u.servers[0].matchIndex| == 3 && u.servers[0].matchIndex[0] == 3
    requires Looks(u.servers[1], 1, Follower, [], 0, 0, 0)
    ensures p(w) && |w.servers| == 3
    ensures Looks(w.servers[0], 1, Leader, [E1, E2, E3], 0, 3, 0) && Looks(w.servers[1], 1, Follower, [E1, E2, E3], 0, 3, 0)
  {
    w := Feed(S.Clean, p, u, 0, 1, 0);
    w := HearOne(S.Clean, p, w, 0, 1);
    w := Feed(S.Clean, p, w, 0, 1, 3);
  }

  /** Server 0 has applied the first entry, and sent a snapshot of it. */
  ghost predicate Scene2(y: G.System, snap: G.Image) {
    && Reachable(Group(), 3, y) && |y.replicas| == |y.raft.servers| == 3
    && (InstallSnapshot(1, 0, [E1]), snap) in y.mail && InstallSnapshot(1, 0, [E1]) in y.raft.messages
    && Looks(y.raft.servers[0], 1, Leader, [E1, E2, E3], 1, 3, 1)
    && Looks(y.raft.servers[1], 1, Follower, [E1, E2, E3], 0, 3, 0)
    && y.replicas[0].image == snap && y.replicas[0].inFlight == None
    && y.replicas[1] == G.InitialReplica(Group())
    && Holding(snap.state, "", 0) && snap.applied == 1 && snap.seen == [(1, E1)]
  }

  lemma SnapshotSentEarly(u: G.System) returns (y: G.System, snap: G.Image)
    requires Scene1(u)
    ensures Scene2(y, snap)
  {
    var st := FirstEntry();
    y := TakeAndDeliver(Group(), 3, u, 0, st);
    snap := y.replicas[0].image;
    y := Next(Group(), 3, y, G.CreateSnapshot(0));
    assert [E1, E2, E3][..1] == [E1];
    y := Next(Group(), 3, y, G.OfferSnapshot(0));
  }

  /** Server 1 has applied two entries and taken the third, when the snapshot of the first arrives. */
  ghost predicate Scene3(y: G.System) {
    && Reachable(Group(), 3, y) && |y.replicas| == |y.raft.servers| == 3
    && Looks(y.raft.servers[0], 1, Leader, [E1, E2, E3], 1, 3, 1)
    && Looks(y.raft.servers[1], 1, Follower, [E1, E2, E3], 1, 3, 1)
    && y.replicas[0].inFlight == None && Holding(y.replicas[0].image.state, "", 0)
    && y.replicas[1].inFlight == Some((3, E3)) && Holding(y.replicas[1].image.state, "", 0)
    && y.replicas[0].image.seen == [(1, E1)] && y.replicas[1].image.seen == [(1, E1)]
  }

  lemma ThirdTaken(u: G.System, snap: G.Image) returns (y: G.System)
    requires Scene2(u, snap)
    ensures Reachable(Group(), 3, y) && |y.replicas| == 3 && y.raft.messages == u.raft.messages && y.mail == u.mail
    ensures y.raft.servers == u.raft.servers[1 := u.raft.servers[1].(lastApplied := 3)]
    ensures y.replicas[0] == u.replicas[0] && y.replicas[1].inFlight == Some((3, E3))
  {
    var st1 := FirstEntry();
    y := TakeAndDeliver(Group(), 3, u, 1, st1);
    var st2 := WritesA(st1);
    y := TakeAndDeliver(Group(), 3, y, 1, st2);
    y := Next(Group(), 3, y, G.TakeNext(1));
  }

  lemma SnapshotOvertakes(u: G.System, snap: G.Image) returns (y: G.System)
    requires Scene2(u, snap)
    ensures Scene3(y)
  {
    var m := InstallSnapshot(1, 0, [E1]);
    y := ThirdTaken(u, snap);
    y := Next(Group(), 3, y, G.Inside(ReceiveSnapshot(1, m)));
    assert [E1] + [E1, E2, E3][1..] == [E1, E2, E3];
    y := Next(Group(), 3, y, G.Install(1, m, snap));
  }

  /** The third entry goes in, the second one is refused when it comes again, and so is the third. */
  lemma WriteIsLost(u: G.System) returns (y: G.System)
    requires Scene3(u)
    ensures Reachable(Group(), 3, y) && |y.replicas| == |y.raft.servers| == 3
    ensures y.raft.servers[0] == u.raft.servers[0] && y.replicas[0] == u.replicas[0]
    ensures y.raft.servers[1].snap == 1 && y.replicas[1].image.applied == 3 && y.replicas[1].image.seen == OutOfOrder
    ensures Holding(y.replicas[1].image.state, "b", 2)
  {
    var st := WritesB(u.replicas[1].image.state, "", 0);
    assert "" + "b" == "b";
    FeedsNew([(1, E1)], 3, E3);
    y := Next(Group(), 3, u, G.Deliver(1));
    RefusesOld(st, "b", E2);
    FeedsNew([(1, E1), (3, E3)], 2, E2);
    y := TakeAndDeliver(Group(), 3, y, 1, st);
    RefusesOld(st, "b", E3);
    assert y.replicas[1].image.seen == OutOfOrder && OutOfOrder[1].0 == 3;
    FeedsAgain(OutOfOrder, 1, E3);
    y := TakeAndDeliver(Group(), 3, y, 1, st);
  }

  lemma OtherAppliesAll(u: G.System) returns (y: G.System)
    requires Reachable(Group(), 3, u) && |u.replicas| == |u.raft.servers| == 3
    requires Looks(u.raft.servers[0], 1, Leader, [E1, E2, E3], 1, 3, 1)
    requires u.replicas[0].inFlight == None && Holding(u.replicas[0].image.state, "", 0) && u.replicas[0].image.seen == [(1, E1)]
    ensures Reachable(Group(), 3, y) && |y.replicas| == |y.raft.servers| == 3
    ensures y.raft.servers[1] == u.raft.servers[1] && y.replicas[1] == u.replicas[1]
    ensures y.raft.servers[0].snap == 1 && y.replicas[0].image.applied == 3 && y.replicas[0].image.seen == InOrder
    ensures Holding(y.replicas[0].image.state, "ab", 2)
  {
    var st2 := WritesA(u.replicas[0].image.state);
    FeedsNew([(1, E1)], 2, E2);
    y := TakeAndDeliver(Group(), 3, u, 0, st2);
    var st3 := WritesB(st2, "a", 1);
    assert "a" + "b" == "ab";
    FeedsNew([(1, E1), (2, E2)], 3, E3);
    y := TakeAndDeliver(Group(), 3, y, 0, st3);
  }

  /** Two replicas of one group, both with AppliedIndex 3: one holds "ab", the other, into which the second entry
    * has gone last, "b". */
  predicate Differ(y: G.System) {
    && |y.replicas| == |y.raft.servers| == 3 && y.raft.servers[0].snap == y.raft.servers[1].snap == 1
    && y.replicas[0].image.applied == y.replicas[1].image.applied == 3
    && y.replicas[0].image.seen == InOrder && y.replicas[1].image.seen == OutOfOrder
    && Holding(y.replicas[0].image.state, "ab", 2) && Holding(y.replicas[1].image.state, "b", 2)
  }

  lemma DifferingSystem() returns (y: G.System)
    ensures Reachable(Group(), 3, y) && Differ(y)
  {
    y := ThreeCommitted();
    var snap;
    y, snap := SnapshotSentEarly(y);
    y := SnapshotOvertakes(y, snap);
    y := WriteIsLost(y);
    y := OtherAppliesAll(y);
  }

  lemma DifferIsNotAtHand(steps: seq<G.Step>)
    requires G.Run(Group(), 3, steps).Some? && G.RaftCleanRun(Group(), 3, steps)
    requires Differ(G.Run(Group(), 3, steps).value)
    ensures !G.AtHandRun(Group(), 3, steps)
  {
    GT.AtHandExactlyWhenInStep(Group(), 3, steps);
    assert OutOfOrder[1].0 == 3;
    assert !GT.InStep(G.Run(Group(), 3, steps).value.replicas[1]);
  }

  /** A run that is clean for Raft in which the replicas of a group come to differ. */
  lemma ReplicasCanDiffer() returns (steps: seq<G.Step>)
    ensures G.Run(Group(), 3, steps).Some? && G.RaftCleanRun(Group(), 3, steps) && !G.AtHandRun(Group(), 3, steps)
    ensures Differ(G.Run(Group(), 3, steps).value)
  {
    var y := DifferingSystem();
    ReachableHasRun(Group(), 3, y);
    steps :| G.Run(Group(), 3, steps) == Some(y) && G.RaftCleanRun(Group(), 3, steps);
    DifferIsNotAtHand(steps);
  }
}
