/** What every run of a replicated group guarantees, and when. */
module GroupTheorems {
  import opened Wrappers
  import opened StateMachines
  import opened RaftProtocol
  import opened RaftInvariant
  import opened RaftGrowth
  import opened RaftSnapshot
  import opened GroupInvariant
  import G = ReplicatedGroup
  import S = RaftSafety
  import T = RaftTheorems

  // ---------- exactly when states are gapless ----------

  ghost predicate AllGapless(y: G.System) {
    && (forall s: nat :: s < |y.replicas| ==> Gapless(y.replicas[s].image.seen) && Gapless(y.replicas[s].stored.seen))
    && (forall m, img :: (m, img) in y.mail ==> Gapless(img.seen))
  }

  /** Every replica's state is made of the first entries of the log, none left out. */
  ghost predicate StatesGapless(y: G.System) {
    forall s: nat :: s < |y.replicas| ==> Gapless(y.replicas[s].image.seen)
  }

  ghost predicate GaplessThroughout(c: G.Setup, n: nat, steps: seq<G.Step>)
    requires G.Run(c, n, steps).Some?
  {
    StatesGapless(G.Run(c, n, steps).value) && (steps == [] || GaplessThroughout(c, n, steps[..|steps| - 1]))
  }

  lemma OrderKeepsGapless(c: G.Setup, y: G.System, step: G.Step)
    requires AllGapless(y) && G.Enabled(c, y, step)
    ensures G.DeliversInOrder(y, step) ==> AllGapless(G.Take(c, y, step))
    ensures !G.DeliversInOrder(y, step) ==> !StatesGapless(G.Take(c, y, step))
  {
    if step.Deliver? {
      var (i, e) := y.replicas[step.s].inFlight.value;
      FedGapless(y.replicas[step.s].image.seen, i, e);
      assert G.Take(c, y, step).replicas[step.s].image.seen == G.Fed(y.replicas[step.s].image.seen, i, e);
    } else {
      forall s: nat | s < |y.replicas|
        ensures Gapless(G.Take(c, y, step).replicas[s].image.seen) && Gapless(G.Take(c, y, step).replicas[s].stored.seen)
      {
        ImagesAfter(c, y, step, s);
      }
    }
  }

  lemma {:induction false} InOrderIsGapless(c: G.Setup, n: nat, steps: seq<G.Step>)
    requires G.Run(c, n, steps).Some? && G.InOrderRun(c, n, steps)
    ensures AllGapless(G.Run(c, n, steps).value)
  {
    if steps != [] {
      var k := |steps| - 1;
      InOrderIsGapless(c, n, steps[..k]);
      OrderKeepsGapless(c, G.Run(c, n, steps[..k]).value, steps[k]);
    }
  }

  /** In any run whatever: all states are gapless at all moments if and only if each delivery is that of the next
    * entry, or of one that has gone in before. */
  lemma {:induction false} GaplessExactlyWhenInOrder(c: G.Setup, n: nat, steps: seq<G.Step>)
    requires G.Run(c, n, steps).Some?
    ensures GaplessThroughout(c, n, steps) <==> G.InOrderRun(c, n, steps)
  {
    if G.InOrderRun(c, n, steps) {
      InOrderIsGapless(c, n, steps);
    }
    if steps != [] {
      var k := |steps| - 1;
      GaplessExactlyWhenInOrder(c, n, steps[..k]);
      if G.InOrderRun(c, n, steps[..k]) {
        InOrderIsGapless(c, n, steps[..k]);
        OrderKeepsGapless(c, G.Run(c, n, steps[..k]).value, steps[k]);
      }
    }
  }

  // ---------- exactly when installations are at hand ----------

  /** The replica's state is gapless, and so it is once the entry in flight is delivered. */
  predicate InStep(r: G.Replica) {
    Gapless(r.image.seen) && match r.inFlight case None => true case Some((i, e)) => Gapless(G.Fed(r.image.seen, i, e))
  }

  ghost predicate AllInStep(y: G.System) {
    forall s: nat :: s < |y.replicas| ==> InStep(y.replicas[s])
  }

  ghost predicate InStepThroughout(c: G.Setup, n: nat, steps: seq<G.Step>)
    requires G.Run(c, n, steps).Some?
  {
    AllInStep(G.Run(c, n, steps).value) && (steps == [] || InStepThroughout(c, n, steps[..|steps| - 1]))
  }

  lemma OkIsInStep(c: G.Setup, y: G.System)
    requires SystemOk(c, y)
    ensures AllInStep(y)
  {
    forall s: nat | s < |y.replicas|
      ensures InStep(y.replicas[s])
    {
      assert OkAt(y, s);
      if y.replicas[s].inFlight.Some? {
        FedGapless(y.replicas[s].image.seen, y.replicas[s].inFlight.value.0, y.replicas[s].inFlight.value.1);
      }
    }
  }

  lemma InstallBehindLeavesGap(c: G.Setup, y: G.System, step: G.Step)
    requires SystemOk(c, y) && G.Enabled(c, y, step) && !G.InstallsAtHand(c, y, step)
    ensures !AllInStep(G.Take(c, y, step))
  {
    var z, s := G.Take(c, y, step), step.s;
    var (i, e) := y.replicas[s].inFlight.value;
    assert z.replicas[s].image.seen == step.image.seen && z.replicas[s].inFlight == Some((i, e));
    assert MailOk(step.m, step.image);
    FedGapless(step.image.seen, i, e);
    GaplessHas(step.image.seen, i);
  }

  /** In a run that is clean for Raft: no snapshot is installed behind an entry in flight if and only if at all
    * moments every state is gapless, and would be so after delivering what is in flight. */
  lemma {:induction false} AtHandExactlyWhenInStep(c: G.Setup, n: nat, steps: seq<G.Step>)
    requires G.Run(c, n, steps).Some? && G.RaftCleanRun(c, n, steps)
    ensures G.AtHandRun(c, n, steps) <==> InStepThroughout(c, n, steps)
  {
    if G.AtHandRun(c, n, steps) {
      RunKeeps(c, n, steps);
      OkIsInStep(c, G.Run(c, n, steps).value);
    }
    if steps != [] {
      var k := |steps| - 1;
      AtHandExactlyWhenInStep(c, n, steps[..k]);
      var y := G.Run(c, n, steps[..k]).value;
      if G.AtHandRun(c, n, steps[..k]) && !G.InstallsAtHand(c, y, steps[k]) {
        RunKeeps(c, n, steps[..k]);
        InstallBehindLeavesGap(c, y, steps[k]);
      }
    }
  }

  // ---------- what has been passed over stays so ----------

  /** The step gives replica `s` another state than by delivery. */
  predicate Replaces(c: G.Setup, y: G.System, step: G.Step, s: nat)
    requires G.Enabled(c, y, step)
  {
    (step.Restart? && step.s == s) || (step.Install? && step.s == s && !G.Refuses(y, s, step.m))
  }

  predicate NeverReplaced(c: G.Setup, n: nat, steps: seq<G.Step>, i: nat, s: nat)
    requires G.Run(c, n, steps).Some? && i <= |steps|
    decreases |steps|
  {
    i == |steps| ||
    (var k := |steps| - 1;
     NeverReplaced(c, n, steps[..k], i, s) && !Replaces(c, G.Run(c, n, steps[..k]).value, steps[k], s))
  }

  lemma SeenOnlyGrows(c: G.Setup, y: G.System, step: G.Step, s: nat)
    requires G.Enabled(c, y, step) && s < |y.replicas| && !Replaces(c, y, step, s)
    ensures s < |G.Take(c, y, step).replicas| && y.replicas[s].image.seen <= G.Take(c, y, step).replicas[s].image.seen
  {
  }

  lemma GapStays(a: seq<(nat, Entry)>, b: seq<(nat, Entry)>)
    requires a <= b && Gapless(b)
    ensures Gapless(a)
  {
    assert forall k :: 0 <= k < |a| ==> a[k] == b[k];
  }

  /** Once an entry has gone in out of order, the state is not that of a beginning of the log at any later moment,
    * whatever is delivered, until a snapshot is installed or the server restarts. */
  lemma {:induction false} PassedOverIsLost(c: G.Setup, n: nat, steps: seq<G.Step>, i: nat, s: nat)
    requires G.Run(c, n, steps).Some? && i <= |steps| && NeverReplaced(c, n, steps, i, s)
    requires s < |At(c, n, steps, i).replicas|
    ensures s < |G.Run(c, n, steps).value.replicas|
    ensures At(c, n, steps, i).replicas[s].image.seen <= G.Run(c, n, steps).value.replicas[s].image.seen
    ensures !Gapless(At(c, n, steps, i).replicas[s].image.seen) ==> !Gapless(G.Run(c, n, steps).value.replicas[s].image.seen)
    decreases |steps|
  {
    if i == |steps| {
      assert steps[..i] == steps;
    } else {
      var k := |steps| - 1;
      assert steps[..k][..i] == steps[..i];
      PassedOverIsLost(c, n, steps[..k], i, s);
      SeenOnlyGrows(c, G.Run(c, n, steps[..k]).value, steps[k], s);
    }
    if Gapless(G.Run(c, n, steps).value.replicas[s].image.seen) {
      GapStays(At(c, n, steps, i).replicas[s].image.seen, G.Run(c, n, steps).value.replicas[s].image.seen);
    }
  }

  // ---------- what the states are ----------

  lemma {:induction false} PrefixRuns(c: G.Setup, n: nat, steps: seq<G.Step>, i: nat)
    requires G.Run(c, n, steps).Some? && i <= |steps|
    ensures G.Run(c, n, steps[..i]).Some?
    ensures G.RaftCleanRun(c, n, steps) ==> G.RaftCleanRun(c, n, steps[..i])
    ensures G.AtHandRun(c, n, steps) ==> G.AtHandRun(c, n, steps[..i])
    decreases |steps| - i
  {
    if i < |steps| {
      PrefixRuns(c, n, steps, i + 1);
      assert steps[..i + 1][..i] == steps[..i];
    } else {
      assert steps[..i] == steps;
    }
  }

  function At(c: G.Setup, n: nat, steps: seq<G.Step>, i: nat): G.System
    requires G.Run(c, n, steps).Some? && i <= |steps|
  {
    PrefixRuns(c, n, steps, i);
    G.Run(c, n, steps[..i]).value
  }

  lemma RaftRemembers(c: G.Setup, y: G.System, step: G.Step)
    requires WorldOk(y.raft) && G.Enabled(c, y, step)
    ensures T.Remembers(y.raft, G.RaftAfter(c, y, step)) && G.Take(c, y, step).raft == G.RaftAfter(c, y, step)
  {
    if G.RaftStep(y, step).Some? {
      T.StepRemembers(y.raft, G.RaftStep(y, step).value);
    }
  }

  lemma {:induction false} RunRemembers(c: G.Setup, n: nat, steps: seq<G.Step>, i: nat)
    requires G.Run(c, n, steps).Some? && G.RaftCleanRun(c, n, steps) && i <= |steps|
    ensures G.Run(c, n, steps[..i]).Some?
    ensures T.Remembers(G.Run(c, n, steps[..i]).value.raft, G.Run(c, n, steps).value.raft)
    decreases |steps|
  {
    if i == |steps| {
      assert steps[..i] == steps;
    } else {
      var k := |steps| - 1;
      RunRemembers(c, n, steps[..k], i);
      assert steps[..k][..i] == steps[..i];
      RunMakes(c, n, steps[..k]);
      RaftRemembers(c, G.Run(c, n, steps[..k]).value, steps[k]);
    }
  }

  lemma AtIsMade(c: G.Setup, n: nat, steps: seq<G.Step>, i: nat, j: nat)
    requires G.Run(c, n, steps).Some? && G.RaftCleanRun(c, n, steps) && i <= j <= |steps|
    ensures SystemMade(c, At(c, n, steps, i)) && |At(c, n, steps, i).replicas| == n
    ensures SystemMade(c, At(c, n, steps, j)) && |At(c, n, steps, j).replicas| == n
    ensures T.Remembers(At(c, n, steps, i).raft, At(c, n, steps, j).raft)
  {
    PrefixRuns(c, n, steps, i);
    PrefixRuns(c, n, steps, j);
    RunMakes(c, n, steps[..i]);
    RunMakes(c, n, steps[..j]);
    assert steps[..j][..i] == steps[..i];
    RunRemembers(c, n, steps[..j], i);
  }

  /** In every run that is clean for Raft, gaps or not: a replica's state is what committed entries make, in the
    * order in which they were first delivered. */
  lemma StateIsWhatWentIn(c: G.Setup, n: nat, steps: seq<G.Step>, s: nat, k: nat)
    requires G.Run(c, n, steps).Some? && G.RaftCleanRun(c, n, steps) && s < n
    ensures |G.Run(c, n, steps).value.replicas| == n
    ensures var y := G.Run(c, n, steps).value;
            var img := y.replicas[s].image;
            && G.StateOfLog(c, G.Entries(img.seen)) == Some(img.state)
            && (k < |img.seen| ==> AppliedOk(y.raft.history, n, img.seen[k].0, img.seen[k].1))
  {
    RunMakes(c, n, steps);
    assert MadeOfLog(c, G.Run(c, n, steps).value, s);
  }

  lemma CommittedWithin(h: History, n: nat, l: Log, bound: nat, more: nat)
    requires Committed(h, n, l, bound) && bound <= more
    ensures Committed(h, n, l, more)
  {
    if l != [] {
      var t: nat, j: nat :| t <= bound && CoveredBy(h, n, l, t, j);
    }
  }

  /** A committed log begins what any leader has committed that far. */
  lemma BeginsLeader(h: History, n: nat, l: Log, bound: nat, t: nat, j: nat)
    requires LeadersOk(h) && Complete(h, n) && Committed(h, n, l, bound) && CommittedAt(h, n, t, j) && |l| <= j
    ensures l == h.leaderLogs[t][..|l|]
  {
    var p, more := h.leaderLogs[t][..|l|], Max(bound, t);
    assert CoveredBy(h, n, p, t, j);
    assert Committed(h, n, p, more);
    CommittedWithin(h, n, l, bound, more);
    CommittedNest(h, n, l, p, more);
  }

  /** A committed log and the committed entry at the next index make a committed log. */
  lemma OneMoreCommitted(h: History, n: nat, l: Log, bound: nat, e: Entry) returns (more: nat)
    requires LeadersOk(h) && Complete(h, n) && Committed(h, n, l, bound) && AppliedOk(h, n, |l| + 1, e)
    ensures Committed(h, n, l + [e], more)
  {
    var t: nat, j: nat :| IsCommittedEntry(h, n, |l| + 1, e, t, j);
    more := Max(bound, t);
    BeginsLeader(h, n, l, bound, t, j);
    assert l + [e] == h.leaderLogs[t][..|l| + 1];
    assert CoveredBy(h, n, l + [e], t, j);
  }

  /** Committed entries without a gap are a committed log. */
  lemma {:induction false} GaplessIsCommitted(h: History, n: nat, seen: seq<(nat, Entry)>) returns (bound: nat)
    requires LeadersOk(h) && Complete(h, n) && Gapless(seen) && AllApplied(h, n, seen)
    ensures Committed(h, n, G.Entries(seen), bound)
  {
    if seen == [] {
      bound := 0;
    } else {
      var k := |seen| - 1;
      bound := GaplessIsCommitted(h, n, seen[..k]);
      bound := OneMoreCommitted(h, n, G.Entries(seen[..k]), bound, seen[k].1);
      assert G.Entries(seen) == G.Entries(seen[..k]) + [seen[k].1];
    }
  }

  /** A gapless image is what the first entries of the server's log make. */
  lemma GaplessIsOwnLog(c: G.Setup, h: History, n: nat, s: nat, x: Server, img: G.Image)
    requires LeadersOk(h) && Complete(h, n) && ServerOk(h, n, s, x) && ImageOk(c, h, n, img)
    requires Gapless(img.seen) && |img.seen| <= x.commit
    ensures G.Entries(img.seen) == x.log[..|img.seen|] && G.StateOfLog(c, x.log[..|img.seen|]) == Some(img.state)
  {
    var l := G.Entries(img.seen);
    var bound := GaplessIsCommitted(h, n, img.seen);
    var more := Max(bound, x.term);
    CommittedWithin(h, n, l, bound, more);
    CommittedWithin(h, n, x.log[..x.commit], x.term, more);
    CommittedNest(h, n, l, x.log[..x.commit], more);
    assert l == x.log[..x.commit][..|l|] == x.log[..|l|];
  }

  /** Every replica, at every moment, is in the state of a committed beginning of its log that reaches at least
    * its snapshot; and its AppliedIndex says how long that is, unless it has just been handed an entry that
    * its snapshot covers. */
  lemma ReplicaFollowsLog(c: G.Setup, n: nat, steps: seq<G.Step>, s: nat) returns (k: nat)
    requires G.Run(c, n, steps).Some? && G.RaftCleanRun(c, n, steps) && G.AtHandRun(c, n, steps) && s < n
    ensures var y := G.Run(c, n, steps).value;
            && |y.raft.servers| == |y.replicas| == n
            && var x, r := y.raft.servers[s], y.replicas[s];
               && x.snap <= k <= x.commit <= |x.log|
               && Gapless(r.image.seen) && G.Entries(r.image.seen) == x.log[..k]
               && G.StateOfLog(c, x.log[..k]) == Some(r.image.state)
               && (x.snap <= r.image.applied ==> r.image.applied == k)
  {
    RunKeeps(c, n, steps);
    var y := G.Run(c, n, steps).value;
    HistoryIsComplete(y.raft.history, n);
    k := |y.replicas[s].image.seen|;
    assert OkAt(y, s) && MadeOfLog(c, y, s) && ServerOk(y.raft.history, n, s, y.raft.servers[s]);
    GaplessIsOwnLog(c, y.raft.history, n, s, y.raft.servers[s], y.replicas[s].image);
  }

  /** What is stored as a snapshot is what the compacted entries make: the assumption under which
    * RaftProtocol lets a snapshot stand for them. */
  lemma StoredStandsForLog(c: G.Setup, n: nat, steps: seq<G.Step>, s: nat)
    requires G.Run(c, n, steps).Some? && G.RaftCleanRun(c, n, steps) && G.AtHandRun(c, n, steps) && s < n
    ensures var y := G.Run(c, n, steps).value;
            && |y.raft.servers| == |y.replicas| == n
            && var x, r := y.raft.servers[s], y.replicas[s];
               x.snap <= |x.log| && r.stored.applied == x.snap && G.StateOfLog(c, x.log[..x.snap]) == Some(r.stored.state)
  {
    RunKeeps(c, n, steps);
    var y := G.Run(c, n, steps).value;
    HistoryIsComplete(y.raft.history, n);
    assert OkAt(y, s) && MadeOfLog(c, y, s) && ServerOk(y.raft.history, n, s, y.raft.servers[s]);
    GaplessIsOwnLog(c, y.raft.history, n, s, y.raft.servers[s], y.replicas[s].stored);
  }

  lemma SameLengthSameLog(h: History, n: nat, l: Log, m: Log, bound: nat, more: nat)
    requires LeadersOk(h) && Complete(h, n) && Committed(h, n, l, bound) && Committed(h, n, m, more) && |l| == |m|
    ensures l == m
  {
    var most := Max(bound, more);
    CommittedWithin(h, n, l, bound, most);
    CommittedWithin(h, n, m, more, most);
    CommittedNest(h, n, l, m, most);
  }

  lemma SameLengthSameState(c: G.Setup, h: History, n: nat, a: G.Image, b: G.Image)
    requires LeadersOk(h) && Complete(h, n) && ImageOk(c, h, n, a) && ImageOk(c, h, n, b)
    requires Gapless(a.seen) && Gapless(b.seen) && |a.seen| == |b.seen|
    ensures a.state == b.state
  {
    var bound := GaplessIsCommitted(h, n, a.seen);
    var more := GaplessIsCommitted(h, n, b.seen);
    SameLengthSameLog(h, n, G.Entries(a.seen), G.Entries(b.seen), bound, more);
  }

  /** Replicas with gapless states into which the same number of entries has gone, at any two moments of a run,
    * crashes, delayed snapshots and entries in flight included, are in the same state. */
  lemma ReplicasAgree(c: G.Setup, n: nat, steps: seq<G.Step>, i: nat, j: nat, a: nat, b: nat)
    requires G.Run(c, n, steps).Some? && G.RaftCleanRun(c, n, steps)
    requires i <= j <= |steps| && a < n && b < n
    ensures |At(c, n, steps, i).replicas| == n && |At(c, n, steps, j).replicas| == n
    ensures var p, q := At(c, n, steps, i).replicas[a].image, At(c, n, steps, j).replicas[b].image;
            Gapless(p.seen) && Gapless(q.seen) && |p.seen| == |q.seen| ==> p.state == q.state
  {
    var y, z := At(c, n, steps, i), At(c, n, steps, j);
    AtIsMade(c, n, steps, i, j);
    assert MadeOfLog(c, y, a) && MadeOfLog(c, z, b);
    ImagePersists(c, y.raft, z.raft, n, y.replicas[a].image);
    HistoryIsComplete(z.raft.history, n);
    var p, q := y.replicas[a].image, z.replicas[b].image;
    if Gapless(p.seen) && Gapless(q.seen) && |p.seen| == |q.seen| {
      SameLengthSameState(c, z.raft.history, n, p, q);
    }
  }
}
