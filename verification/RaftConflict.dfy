/** What goes wrong when CompactForSnapshot keeps entries that continue another entry at the snapshot's
  * index (raft_log.go:64-72), and that nothing else does. */
module RaftConflict {
  import opened Wrappers
  import opened RaftProtocol
  import opened RaftInvariant
  import opened RaftGrowth
  import opened RaftSteps
  import opened RaftReplication
  import opened RaftSnapshot
  import opened RaftSafety
  import opened RaftTheorems
  import opened RaftStories

  /** After an installation the log is again made of leaders' entries exactly when no conflict was kept. */
  lemma InstalledLogOkIff(h: History, l: Log, covered: Log)
    requires LogOk(h, l) && LogOk(h, covered)
    ensures LogOk(h, Installed(l, covered)) <==> !KeepsConflict(l, covered)
  {
    var m, c := Installed(l, covered), |covered|;
    if KeepsConflict(l, covered) && LogOk(h, m) {
      assert m[c] == l[c];
      SameTermSamePrefix(h, l, m, c + 1);
    }
    if !KeepsConflict(l, covered) {
      InstalledLog(h, l, covered);
    }
  }

  /** Every entry of every server sits on top of what the leader of its term had below it. */
  ghost predicate LogsHold(w: World) {
    forall s: nat :: s < |w.servers| ==> LogOk(w.history, w.servers[s].log)
  }

  lemma UncleanBreaksLogs(w: World, step: Step)
    requires WorldOk(w) && Enabled(w, step) && !InstallsCleanly(w, step)
    ensures !LogsHold(Take(w, step))
  {
    var x, m, v := w.servers[step.s], step.m, Take(w, step);
    assert ArrivalOk(w.history, w.servers, step.s, m) && ServerOk(w.history, |w.servers|, step.s, x);
    CommittedIsLog(w.history, |w.servers|, m.covered, m.term);
    InstalledLogOkIff(w.history, x.log, m.covered);
    assert v.servers[step.s].log == Installed(x.log, m.covered) && v.history == w.history;
  }

  /** In a run with fair launches and timely counts, no installation keeps a conflict if and only if the logs
    * hold together at all moments. */
  lemma {:induction false} CleanExactlyWhenLogsHold(n: nat, steps: seq<Step>)
    requires Run(n, steps).Some? && Guarded(Voting, n, steps)
    ensures Guarded(Installs, n, steps) <==> forall i: nat :: i <= |steps| ==> LogsHold(At(n, steps, i))
  {
    GuardedTogether(Voting, Installs, n, steps);
    if CleanRun(n, steps) {
      forall i: nat | i <= |steps|
        ensures LogsHold(At(n, steps, i))
      {
        AtIsOk(n, steps, i, i);
        WorldsHold(At(n, steps, i));
      }
    } else {
      var k := |steps| - 1;
      GuardedTogether(Voting, Installs, n, steps[..k]);
      CleanExactlyWhenLogsHold(n, steps[..k]);
      if CleanRun(n, steps[..k]) {
        RunKeeps(n, steps[..k]);
        UncleanBreaksLogs(Run(n, steps[..k]).value, steps[k]);
        assert steps[..|steps|] == steps;
        assert !LogsHold(At(n, steps, |steps|));
      } else {
        var i: nat :| i <= k && !LogsHold(At(n, steps[..k], i));
        assert steps[..k][..i] == steps[..i];
        assert !LogsHold(At(n, steps, i));
      }
    }
  }

  lemma WorldsHold(w: World)
    requires WorldOk(w)
    ensures LogsHold(w)
  {
    forall s: nat | s < |w.servers|
      ensures LogOk(w.history, w.servers[s].log)
    {
      assert ServerOk(w.history, |w.servers|, s, w.servers[s]);
    }
  }

  // ---------- a run of five servers that applies two commands at one index ----------

  predicate FiveServers(w: World) {
    |w.servers| == 5 && forall s :: 0 <= s < 5 ==> |w.servers[s].matchIndex| == 5
  }

  const E1 := Entry(1, 1, [10])
  const E2 := Entry(1, 2, [11])
  const F1 := Entry(2, 1, [20])
  const G3 := Entry(3, 3, [30])

  /** Server 0 has won term 1 and left two entries with server 4 only. */
  ghost predicate Scene1(w: World) {
    && Reachable(Voting, 5, w) && FiveServers(w)
    && Looks(w.servers[0], 1, Leader, [E1, E2], 0, 0, 0)
    && Looks(w.servers[1], 0, Follower, [], 0, 0, 0)
    && Looks(w.servers[2], 0, Follower, [], 0, 0, 0)
    && Looks(w.servers[3], 1, Follower, [], 0, 0, 0)
    && Looks(w.servers[4], 1, Follower, [E1, E2], 0, 0, 0)
  }

  lemma TwoEntriesInTermOne() returns (w: World)
    ensures Scene1(w)
  {
    var p := Reaching(Voting, 5);
    w := InitialWorld(5);
    w := ElectionOfFive(Voting, p, w, 0, 3, 4);
    w := Append(Voting, p, w, 0, [10]);
    w := Append(Voting, p, w, 0, [11]);
    assert w.servers[0].log == [E1, E2];
    w := Feed(Voting, p, w, 0, 4, 0);
  }

  /** Server 1 has won term 2, and committed and applied another first entry with 2 and 3. */
  ghost predicate Scene2(w: World) {
    && Reachable(Voting, 5, w) && FiveServers(w) && (1, 1, F1) in w.applied
    && Looks(w.servers[0], 1, Leader, [E1, E2], 0, 0, 0)
    && Looks(w.servers[1], 2, Leader, [F1], 0, 1, 1)
    && Looks(w.servers[2], 2, Follower, [F1], 0, 0, 0)
    && Looks(w.servers[3], 2, Follower, [F1], 0, 0, 0)
    && Looks(w.servers[4], 1, Follower, [E1, E2], 0, 0, 0)
  }

  lemma OtherEntryInTermTwo(u: World) returns (w: World)
    requires Scene1(u)
    ensures Scene2(w)
  {
    var p := Reaching(Voting, 5);
    w := Launch(Voting, p, u, 1, 1);
    w := ElectionOfFive(Voting, p, w, 1, 2, 3);
    w := Append(Voting, p, w, 1, [20]);
    assert w.servers[1].log == [F1];
    w := CommitOther(w);
  }

  lemma CommitOther(u: World) returns (w: World)
    requires Reachable(Voting, 5, u) && FiveServers(u) && u.servers[1].matchIndex[1] == 1
    requires Looks(u.servers[0], 1, Leader, [E1, E2], 0, 0, 0) && Looks(u.servers[1], 2, Leader, [F1], 0, 0, 0)
    requires Looks(u.servers[2], 2, Follower, [], 0, 0, 0) && Looks(u.servers[3], 2, Follower, [], 0, 0, 0)
    requires Looks(u.servers[4], 1, Follower, [E1, E2], 0, 0, 0)
    ensures Scene2(w)
  {
    var p := Reaching(Voting, 5);
    w := Feed(Voting, p, u, 1, 2, 0);
    w := Feed(Voting, p, w, 1, 3, 0);
    w := HearBoth(Voting, p, w, 1, 2, 3);
    w := ApplyOne(Voting, 5, w, 1);
  }

  /** Server 0 has installed that snapshot, and now has its own second entry behind the other first one. */
  ghost predicate Scene3(w: World) {
    && Reachable(Voting, 5, w) && FiveServers(w) && (1, 1, F1) in w.applied
    && Looks(w.servers[0], 2, Follower, [F1, E2], 1, 1, 1)
    && Looks(w.servers[2], 2, Follower, [F1], 0, 0, 0)
    && Looks(w.servers[3], 2, Follower, [F1], 0, 0, 0)
    && Looks(w.servers[4], 1, Follower, [E1, E2], 0, 0, 0)
  }

  lemma SnapshotOverConflict(u: World) returns (w: World)
    requires Scene2(u)
    ensures Scene3(w)
  {
    assert [F1][..1] == [F1];
    w := Ship(Voting, 5, u, 1, 0, 1);
    assert [F1] + [E1, E2][1..] == [F1, E2];
  }

  /** Server 0 has won term 3 and committed three entries with 2 and 3. */
  ghost predicate Scene4(w: World) {
    && Reachable(Voting, 5, w) && FiveServers(w) && (1, 1, F1) in w.applied
    && Looks(w.servers[0], 3, Leader, [F1, E2, G3], 1, 3, 1)
    && Looks(w.servers[4], 1, Follower, [E1, E2], 0, 0, 0)
  }

  lemma ThirdEntryInTermThree(u: World) returns (w: World)
    requires Scene3(u)
    ensures Scene4(w)
  {
    var p := Reaching(Voting, 5);
    w := ElectionOfFive(Voting, p, u, 0, 2, 3);
    w := Append(Voting, p, w, 0, [30]);
    assert w.servers[0].log == [F1, E2, G3];
    w := CommitThird(w);
  }

  lemma CommitThird(u: World) returns (w: World)
    requires Reachable(Voting, 5, u) && FiveServers(u) && (1, 1, F1) in u.applied && u.servers[0].matchIndex[0] == 3
    requires Looks(u.servers[0], 3, Leader, [F1, E2, G3], 1, 1, 1)
    requires Looks(u.servers[2], 3, Follower, [F1], 0, 0, 0) && Looks(u.servers[3], 3, Follower, [F1], 0, 0, 0)
    requires Looks(u.servers[4], 1, Follower, [E1, E2], 0, 0, 0)
    ensures Scene4(w)
  {
    var p := Reaching(Voting, 5);
    w := Feed(Voting, p, u, 0, 2, 1);
    w := Feed(Voting, p, w, 0, 3, 1);
    w := HearBoth(Voting, p, w, 0, 2, 3);
  }

  lemma TakesThird()
    ensures MergeLog([E1, E2], 2, [G3]) == [E1, E2, G3]
  {
    assert FirstConflict([E1, E2], 2, [G3], 0) == 1;
  }

  /** Server 4 takes the third entry, because its second one is of the term asked for, and commits all three. */
  lemma AcceptsThird(x: Server, m: Message)
    requires Looks(x, 1, Follower, [E1, E2], 0, 0, 0) && m == AppendRequest(3, 0, 2, 1, [G3], 3, 3)
    ensures Contains(x, 2, 1)
    ensures var y := Accept(Listening(x, m), m); y.log == [E1, E2, G3] && y.commit == 3 && y.lastApplied == 0
  {
    TakesThird();
  }

  lemma ConflictIsApplied(u: World) returns (w: World)
    requires Scene4(u)
    ensures Reachable(Voting, 5, w) && (1, 1, F1) in w.applied && (4, 1, E1) in w.applied
  {
    var p := Reaching(Voting, 5);
    var m := AppendRequest(3, 0, 2, 1, [G3], 3, 3);
    assert [F1, E2, G3][2..] == [G3];
    assert Sent(0, u.servers[0], 2) == m;
    AcceptsThird(u.servers[4], m);
    w := Feed(Voting, p, u, 0, 4, 2);
    w := ApplyOne(Voting, 5, w, 4);
  }

  /** State machine safety fails for some run of five servers with fair launches and timely counts:
    * servers 1 and 4 apply different entries at index 1. */
  lemma UnsafeRunExists() returns (steps: seq<Step>)
    ensures Run(5, steps).Some? && Guarded(Voting, 5, steps) && !Guarded(Installs, 5, steps)
    ensures E1 != F1 && (1, 1, F1) in Run(5, steps).value.applied && (4, 1, E1) in Run(5, steps).value.applied
  {
    var w := TwoEntriesInTermOne();
    w := OtherEntryInTermTwo(w);
    w := SnapshotOverConflict(w);
    w := ThirdEntryInTermThree(w);
    w := ConflictIsApplied(w);
    ReachableHasRun(Voting, 5, w);
    steps :| Run(5, steps) == Some(w) && Guarded(Voting, 5, steps);
    GuardedTogether(Voting, Installs, 5, steps);
    if CleanRun(5, steps) {
      StateMachineSafety(5, steps, 1, 4, 1, F1, E1);
    }
  }
}
