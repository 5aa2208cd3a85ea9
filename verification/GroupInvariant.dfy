/** What a replica's state is made of; and that, as long as no snapshot is installed behind an entry in flight,
  * it is made of a beginning of the log. */
module GroupInvariant {
  import opened Wrappers
  import opened StateMachines
  import opened RaftProtocol
  import opened RaftInvariant
  import opened RaftGrowth
  import opened RaftSnapshot
  import Replay
  import G = ReplicatedGroup
  import S = RaftSafety
  import T = RaftTheorems

  // ---------- in every run that is clean for Raft: committed entries, in the order of first delivery ----------

  ghost predicate AllApplied(h: History, n: nat, seen: seq<(nat, Entry)>) {
    forall k :: 0 <= k < |seen| ==> AppliedOk(h, n, seen[k].0, seen[k].1)
  }

  /** The state is what the entries of `seen` make in that order, and each is committed at its index. */
  ghost predicate ImageOk(c: G.Setup, h: History, n: nat, img: G.Image) {
    G.StateOfLog(c, G.Entries(img.seen)) == Some(img.state) && AllApplied(h, n, img.seen)
  }

  ghost predicate FlightApplied(y: G.System, s: nat)
    requires s < |y.replicas|
  {
    y.replicas[s].inFlight.Some? ==>
      var (i, e) := y.replicas[s].inFlight.value; (s, i, e) in y.raft.applied
  }

  ghost predicate MadeOfLog(c: G.Setup, y: G.System, s: nat)
    requires s < |y.replicas|
  {
    && ImageOk(c, y.raft.history, |y.replicas|, y.replicas[s].image)
    && ImageOk(c, y.raft.history, |y.replicas|, y.replicas[s].stored)
    && FlightApplied(y, s)
  }

  ghost predicate SystemMade(c: G.Setup, y: G.System) {
    && WorldOk(y.raft) && |y.replicas| == |y.raft.servers|
    && (forall s: nat :: s < |y.replicas| ==> MadeOfLog(c, y, s))
    && (forall m, img :: (m, img) in y.mail ==> ImageOk(c, y.raft.history, |y.replicas|, img))
  }

  lemma AppliedPersists(a: World, b: World, n: nat, i: nat, e: Entry)
    requires T.Remembers(a, b) && AppliedOk(a.history, n, i, e)
    ensures AppliedOk(b.history, n, i, e)
  {
    var t: nat, k: nat :| IsCommittedEntry(a.history, n, i, e, t, k);
    var q :| Quorum(a.history, n, t, k, q);
    assert Quorum(b.history, n, t, k, q);
    assert IsCommittedEntry(b.history, n, i, e, t, k);
  }

  lemma ImagePersists(c: G.Setup, a: World, b: World, n: nat, img: G.Image)
    requires T.Remembers(a, b) && ImageOk(c, a.history, n, img)
    ensures ImageOk(c, b.history, n, img)
  {
    forall k | 0 <= k < |img.seen|
      ensures AppliedOk(b.history, n, img.seen[k].0, img.seen[k].1)
    {
      AppliedPersists(a, b, n, img.seen[k].0, img.seen[k].1);
    }
  }

  lemma StateOfMore(c: G.Setup, l: Log, e: Entry)
    requires G.StateOfLog(c, l).Some?
    ensures G.StateOfLog(c, l + [e]) == G.Applied(c, G.StateOfLog(c, l).value, e)
  {
    var a, b := G.Commands(c, l), G.Commands(c, l + [e]);
    assert b[..|b| - 1] == a && b[|b| - 1] == c.read(e.data);
  }

  /** An entry of the log applied once more changes nothing. */
  lemma StateOfSame(c: G.Setup, l: Log, i: nat)
    requires G.StateOfLog(c, l).Some? && 1 <= i <= |l|
    ensures G.Applied(c, G.StateOfLog(c, l).value, l[i - 1]) == G.StateOfLog(c, l)
  {
    var s, a := G.StateOfLog(c, l).value, c.read(l[i - 1].data);
    assert G.Commands(c, l)[i - 1] == a;
    Replay.ReplayIsHarmless(c.hash, c.gid, c.start, G.Commands(c, l), s, [a]);
    assert [a][..0] == [];
    assert ApplyAll(c.hash, c.gid, s, []) == Some(s);
  }

  /** Delivering any committed entry, the next one, an old one, or one too far ahead. */
  lemma DeliveredImage(c: G.Setup, h: History, n: nat, img: G.Image, i: nat, e: Entry, st: StateMachine)
    requires LeadersOk(h) && Complete(h, n) && ImageOk(c, h, n, img) && AppliedOk(h, n, i, e)
    requires G.Applied(c, img.state, e) == Some(st)
    ensures ImageOk(c, h, n, G.Image(st, i, G.Fed(img.seen, i, e)))
  {
    if G.Has(img.seen, i) {
      DeliveredAgain(c, h, n, img, i, e);
    } else {
      StateOfMore(c, G.Entries(img.seen), e);
      assert G.Entries(img.seen + [(i, e)]) == G.Entries(img.seen) + [e];
    }
  }

  /** The entry that comes again is the one that has gone in. */
  lemma DeliveredAgain(c: G.Setup, h: History, n: nat, img: G.Image, i: nat, e: Entry)
    requires LeadersOk(h) && Complete(h, n) && ImageOk(c, h, n, img) && AppliedOk(h, n, i, e) && G.Has(img.seen, i)
    ensures G.Applied(c, img.state, e) == Some(img.state)
  {
    var k :| 0 <= k < |img.seen| && img.seen[k].0 == i;
    T.CommittedEntriesAgree(h, n, i, e, img.seen[k].1);
    assert G.Entries(img.seen)[k] == e;
    StateOfSame(c, G.Entries(img.seen), k + 1);
  }

  /** Where the images of replica `s` come from. */
  lemma ImagesAfter(c: G.Setup, y: G.System, step: G.Step, s: nat)
    requires G.Enabled(c, y, step) && s < |y.replicas|
    ensures |G.Take(c, y, step).replicas| == |y.replicas|
    ensures var r, q := y.replicas[s], G.Take(c, y, step).replicas[s];
            && (q.image == r.image || q.image == r.stored || (step.Install? && q.image == step.image)
                || (step.Deliver? && step.s == s && q == G.Delivered(c, r)))
            && (q.stored == r.stored || q.stored == r.image || (step.Install? && q.stored == step.image))
  {
  }

  lemma FlightAfter(c: G.Setup, y: G.System, step: G.Step, s: nat)
    requires G.Enabled(c, y, step) && s < |y.replicas| && FlightApplied(y, s)
    requires y.raft.applied <= G.RaftAfter(c, y, step).applied
    ensures s < |G.Take(c, y, step).replicas| && FlightApplied(G.Take(c, y, step), s)
  {
    if step.TakeNext? && step.s == s {
      var x := y.raft.servers[s];
      assert (s, x.lastApplied + 1, x.log[x.lastApplied]) in G.RaftAfter(c, y, step).applied;
    }
  }

  lemma DeliveredMade(c: G.Setup, y: G.System, s: nat)
    requires SystemMade(c, y) && s < |y.replicas| && y.replicas[s].inFlight.Some?
    requires G.Applied(c, y.replicas[s].image.state, y.replicas[s].inFlight.value.1).Some?
    ensures ImageOk(c, y.raft.history, |y.replicas|, G.Delivered(c, y.replicas[s]).image)
  {
    var h, n, r := y.raft.history, |y.replicas|, y.replicas[s];
    var (i, e) := r.inFlight.value;
    assert MadeOfLog(c, y, s);
    HistoryIsComplete(h, n);
    assert AppliedOk(h, n, i, e);
    DeliveredImage(c, h, n, r.image, i, e, G.Applied(c, r.image.state, e).value);
  }

  /** A step leaves every replica made of committed entries. */
  lemma ReplicaMade(c: G.Setup, y: G.System, step: G.Step, s: nat)
    requires SystemMade(c, y) && G.Enabled(c, y, step) && s < |y.replicas|
    requires T.Remembers(y.raft, G.RaftAfter(c, y, step)) && G.Take(c, y, step).raft == G.RaftAfter(c, y, step)
    ensures |G.Take(c, y, step).replicas| == |y.replicas| && MadeOfLog(c, G.Take(c, y, step), s)
  {
    var z, n := G.Take(c, y, step), |y.replicas|;
    assert MadeOfLog(c, y, s);
    ImagesAfter(c, y, step, s);
    FlightAfter(c, y, step, s);
    if step.Deliver? && step.s == s {
      DeliveredMade(c, y, s);
    }
    assert step.Install? ==> ImageOk(c, y.raft.history, n, step.image);
    ImagePersists(c, y.raft, z.raft, n, z.replicas[s].image);
    ImagePersists(c, y.raft, z.raft, n, z.replicas[s].stored);
  }

  lemma MailsMade(c: G.Setup, y: G.System, step: G.Step, m: Message, img: G.Image)
    requires SystemMade(c, y) && G.Enabled(c, y, step) && T.Remembers(y.raft, G.RaftAfter(c, y, step))
    requires (m, img) in G.Take(c, y, step).mail
    ensures ImageOk(c, G.RaftAfter(c, y, step).history, |y.replicas|, img)
  {
    if (m, img) !in y.mail {
      assert MadeOfLog(c, y, step.s);
    }
    ImagePersists(c, y.raft, G.RaftAfter(c, y, step), |y.replicas|, img);
  }

  lemma RaftKeeps(c: G.Setup, y: G.System, step: G.Step)
    requires WorldOk(y.raft) && G.Enabled(c, y, step) && G.RaftClean(c, y, step)
    ensures WorldOk(G.RaftAfter(c, y, step)) && T.Remembers(y.raft, G.RaftAfter(c, y, step))
    ensures |G.RaftAfter(c, y, step).servers| == |y.raft.servers|
  {
    if G.RaftStep(y, step).Some? {
      S.StepKeeps(y.raft, G.RaftStep(y, step).value);
      T.StepRemembers(y.raft, G.RaftStep(y, step).value);
      S.SameSize(y.raft, G.RaftStep(y, step).value);
    }
  }

  lemma TakeShape(c: G.Setup, y: G.System, step: G.Step)
    requires G.Enabled(c, y, step)
    ensures G.Take(c, y, step).raft == G.RaftAfter(c, y, step)
    ensures |G.Take(c, y, step).replicas| == |y.replicas|
    ensures forall s: nat :: s < |y.replicas| && (step.Inside? || s != step.s) ==> G.Take(c, y, step).replicas[s] == y.replicas[s]
  {
  }

  lemma StepMakes(c: G.Setup, y: G.System, step: G.Step)
    requires SystemMade(c, y) && G.Enabled(c, y, step) && G.RaftClean(c, y, step)
    ensures SystemMade(c, G.Take(c, y, step)) && |G.Take(c, y, step).replicas| == |y.replicas|
  {
    var z := G.Take(c, y, step);
    RaftKeeps(c, y, step);
    TakeShape(c, y, step);
    forall s: nat | s < |z.replicas|
      ensures MadeOfLog(c, z, s)
    {
      ReplicaMade(c, y, step, s);
    }
    forall m, img | (m, img) in z.mail
      ensures ImageOk(c, z.raft.history, |z.replicas|, img)
    {
      MailsMade(c, y, step, m, img);
    }
  }

  lemma InitialMade(c: G.Setup, n: nat)
    ensures SystemMade(c, G.InitialSystem(c, n))
  {
    S.InitialOk(n);
    assert G.StateOfLog(c, []) == Some(c.start);
  }

  /** In every run that is clean for Raft, a replica's state is made of committed entries, in the order in which
    * they were first delivered. */
  lemma {:induction false} RunMakes(c: G.Setup, n: nat, steps: seq<G.Step>)
    requires G.Run(c, n, steps).Some? && G.RaftCleanRun(c, n, steps)
    ensures SystemMade(c, G.Run(c, n, steps).value) && |G.Run(c, n, steps).value.replicas| == n
  {
    if steps == [] {
      InitialMade(c, n);
    } else {
      var k := |steps| - 1;
      RunMakes(c, n, steps[..k]);
      StepMakes(c, G.Run(c, n, steps[..k]).value, steps[k]);
    }
  }

  // ---------- and if installations are at hand: a beginning of the log ----------

  /** The first entries of the log, in its order, none left out. */
  predicate Gapless(seen: seq<(nat, Entry)>) {
    forall k :: 0 <= k < |seen| ==> seen[k].0 == k + 1
  }

  lemma GaplessHas(seen: seq<(nat, Entry)>, i: nat)
    requires Gapless(seen)
    ensures G.Has(seen, i) <==> 1 <= i <= |seen|
  {
    if 1 <= i <= |seen| {
      assert seen[i - 1].0 == i;
    }
  }

  /** Delivery keeps it so exactly if the entry is the next one or has gone in already. */
  lemma FedGapless(seen: seq<(nat, Entry)>, i: nat, e: Entry)
    requires Gapless(seen)
    ensures Gapless(G.Fed(seen, i, e)) <==> G.Has(seen, i) || i == |seen| + 1
    ensures 1 <= i <= |seen| + 1 ==> Gapless(G.Fed(seen, i, e)) && |G.Fed(seen, i, e)| == Max(|seen|, i)
  {
    GaplessHas(seen, i);
    if !G.Has(seen, i) {
      assert G.Fed(seen, i, e)[|seen|].0 == i;
    }
  }

  /** What is in flight is the next entry, or one that is reflected already. */
  predicate FlightOk(x: Server, inFlight: Option<(nat, Entry)>, k: nat) {
    match inFlight
    case None => x.lastApplied <= k <= x.lastApplied + 1
    case Some((i, e)) =>
      && 1 <= i <= x.commit && i <= k + 1 && (k <= i || i < x.snap)
      && x.lastApplied <= Max(k, i) <= x.lastApplied + 1
  }

  predicate ReplicaOk(x: Server, r: G.Replica) {
    var k := |r.image.seen|;
    && Gapless(r.image.seen) && x.snap <= k <= x.commit
    && (r.image.applied == k || r.image.applied < x.snap)
    && FlightOk(x, r.inFlight, k)
    && Gapless(r.stored.seen) && |r.stored.seen| == r.stored.applied == x.snap
  }

  predicate MailOk(m: Message, img: G.Image) {
    m.InstallSnapshot? && Gapless(img.seen) && |img.seen| == img.applied == |m.covered|
  }

  predicate OkAt(z: G.System, s: nat) {
    s < |z.raft.servers| && s < |z.replicas| && ReplicaOk(z.raft.servers[s], z.replicas[s])
  }

  ghost predicate ReplicasOk(y: G.System) {
    forall s: nat :: s < |y.replicas| ==> OkAt(y, s)
  }

  ghost predicate MailsOk(y: G.System) {
    forall m, img :: (m, img) in y.mail ==> MailOk(m, img)
  }

  ghost predicate SystemOk(c: G.Setup, y: G.System) {
    SystemMade(c, y) && ReplicasOk(y) && MailsOk(y)
  }

  lemma PlainServer(w: World, step: Step)
    requires Enabled(w, step) && Plain(step)
    ensures var x, z := w.servers[step.s], Take(w, step).servers[step.s];
            z.snap == x.snap && z.lastApplied == x.lastApplied && z.commit >= x.commit
  {
  }

  lemma OtherServers(w: World, step: Step)
    requires Enabled(w, step)
    ensures forall s: nat :: s < |w.servers| && s != step.s ==> Take(w, step).servers[s] == w.servers[s]
  {
  }

  lemma DeliveredReplica(c: G.Setup, x: Server, r: G.Replica)
    requires ReplicaOk(x, r) && r.inFlight.Some? && G.Applied(c, r.image.state, r.inFlight.value.1).Some?
    ensures ReplicaOk(x, G.Delivered(c, r))
  {
    FedGapless(r.image.seen, r.inFlight.value.0, r.inFlight.value.1);
  }

  lemma TakeNextReplica(x: Server, r: G.Replica)
    requires ReplicaOk(x, r) && r.inFlight == None && x.lastApplied < x.commit <= |x.log|
    ensures ReplicaOk(x.(lastApplied := x.lastApplied + 1), r.(inFlight := Some((x.lastApplied + 1, x.log[x.lastApplied]))))
  {
  }

  lemma SnapshotReplica(x: Server, r: G.Replica)
    requires ReplicaOk(x, r) && x.snap <= r.image.applied
    ensures var i := r.image.applied;
            ReplicaOk(Persist(x.(snap := i, lastApplied := Max(x.lastApplied, i), commit := Max(x.commit, i))),
                      r.(stored := r.image))
  {
  }

  lemma InstalledReplica(x: Server, r: G.Replica, m: Message, img: G.Image)
    requires ReplicaOk(x, r) && MailOk(m, img)
    requires r.inFlight.Some? ==> r.inFlight.value.0 <= |m.covered| + 1
    ensures ReplicaOk(Install(x, m.covered), r.(image := img, stored := img))
  {
  }

  lemma RestartedReplica(h: History, n: nat, s: nat, x: Server, r: G.Replica)
    requires ServerOk(h, n, s, x) && ReplicaOk(x, r)
    ensures ReplicaOk(Restarted(x), G.Replica(r.stored, None, r.stored))
  {
  }

  lemma AtDeliver(c: G.Setup, y: G.System, s: nat)
    requires ReplicasOk(y) && G.Enabled(c, y, G.Deliver(s))
    ensures OkAt(G.Take(c, y, G.Deliver(s)), s)
  {
    assert OkAt(y, s);
    DeliveredReplica(c, y.raft.servers[s], y.replicas[s]);
  }

  lemma AtTakeNext(c: G.Setup, y: G.System, s: nat)
    requires ReplicasOk(y) && G.Enabled(c, y, G.TakeNext(s))
    ensures OkAt(G.Take(c, y, G.TakeNext(s)), s)
  {
    assert OkAt(y, s);
    TakeNextReplica(y.raft.servers[s], y.replicas[s]);
  }

  lemma AtSnapshot(c: G.Setup, y: G.System, s: nat)
    requires ReplicasOk(y) && G.Enabled(c, y, G.CreateSnapshot(s))
    ensures OkAt(G.Take(c, y, G.CreateSnapshot(s)), s)
  {
    assert OkAt(y, s);
    SnapshotReplica(y.raft.servers[s], y.replicas[s]);
  }

  lemma AtOffer(c: G.Setup, y: G.System, s: nat)
    requires ReplicasOk(y) && G.Enabled(c, y, G.OfferSnapshot(s))
    ensures OkAt(G.Take(c, y, G.OfferSnapshot(s)), s)
  {
    assert OkAt(y, s);
  }

  lemma AtInstall(c: G.Setup, y: G.System, s: nat, m: Message, img: G.Image)
    requires ReplicasOk(y) && G.Enabled(c, y, G.Install(s, m, img)) && G.InstallsAtHand(c, y, G.Install(s, m, img)) && MailOk(m, img)
    ensures OkAt(G.Take(c, y, G.Install(s, m, img)), s)
  {
    if !G.Refuses(y, s, m) {
      assert OkAt(y, s);
      InstalledReplica(y.raft.servers[s], y.replicas[s], m, img);
    }
  }

  lemma AtRestart(c: G.Setup, y: G.System, s: nat)
    requires WorldOk(y.raft) && ReplicasOk(y) && G.Enabled(c, y, G.Restart(s))
    ensures OkAt(G.Take(c, y, G.Restart(s)), s)
  {
    assert ServerOk(y.raft.history, |y.replicas|, s, y.raft.servers[s]);
    assert OkAt(y, s);
    RestartedReplica(y.raft.history, |y.replicas|, s, y.raft.servers[s], y.replicas[s]);
  }

  /** The replica that takes a step outside Raft alone. */
  lemma SteppingReplica(c: G.Setup, y: G.System, step: G.Step)
    requires SystemOk(c, y) && G.Enabled(c, y, step) && G.InstallsAtHand(c, y, step) && !step.Inside?
    ensures OkAt(G.Take(c, y, step), step.s)
  {
    match step
    case TakeNext(s) => AtTakeNext(c, y, s);
    case Deliver(s) => AtDeliver(c, y, s);
    case CreateSnapshot(s) => AtSnapshot(c, y, s);
    case OfferSnapshot(s) => AtOffer(c, y, s);
    case Install(s, m, image) => AtInstall(c, y, s, m, image);
    case Restart(s) => AtRestart(c, y, s);
  }

  /** Nothing that concerns the other replicas changes. */
  lemma OtherReplica(c: G.Setup, y: G.System, step: G.Step, s: nat)
    requires SystemOk(c, y) && G.Enabled(c, y, step) && s < |y.replicas| && (step.Inside? || s != step.s)
    ensures OkAt(G.Take(c, y, step), s)
  {
    TakeShape(c, y, step);
    assert OkAt(y, s);
    if G.RaftStep(y, step).Some? {
      S.SameSize(y.raft, G.RaftStep(y, step).value);
      OtherServers(y.raft, G.RaftStep(y, step).value);
      if step.Inside? {
        PlainServer(y.raft, step.step);
      }
    }
  }

  lemma MailsStay(c: G.Setup, y: G.System, step: G.Step)
    requires ReplicasOk(y) && MailsOk(y) && G.Enabled(c, y, step)
    ensures MailsOk(G.Take(c, y, step))
  {
    if step.OfferSnapshot? {
      assert OkAt(y, step.s);
    }
  }

  lemma EachReplica(c: G.Setup, y: G.System, step: G.Step, z: G.System, s: nat)
    requires SystemOk(c, y) && G.Enabled(c, y, step) && G.InstallsAtHand(c, y, step) && z == G.Take(c, y, step)
    requires s < |y.replicas|
    ensures OkAt(z, s)
  {
    if step.Inside? || s != step.s {
      OtherReplica(c, y, step, s);
    } else {
      SteppingReplica(c, y, step);
    }
  }

  lemma ReplicasStay(c: G.Setup, y: G.System, step: G.Step, z: G.System)
    requires SystemOk(c, y) && G.Enabled(c, y, step) && G.InstallsAtHand(c, y, step) && z == G.Take(c, y, step)
    requires |z.replicas| == |y.replicas|
    ensures ReplicasOk(z)
  {
    forall s: nat | s < |z.replicas|
      ensures OkAt(z, s)
    {
      EachReplica(c, y, step, z, s);
    }
  }

  lemma StepKeeps(c: G.Setup, y: G.System, step: G.Step)
    requires SystemOk(c, y) && G.Enabled(c, y, step) && G.RaftClean(c, y, step) && G.InstallsAtHand(c, y, step)
    ensures SystemOk(c, G.Take(c, y, step))
  {
    StepMakes(c, y, step);
    MailsStay(c, y, step);
    ReplicasStay(c, y, step, G.Take(c, y, step));
  }

  lemma InitialOk(c: G.Setup, n: nat)
    ensures SystemOk(c, G.InitialSystem(c, n))
  {
    InitialMade(c, n);
  }

  lemma {:induction false} RunKeeps(c: G.Setup, n: nat, steps: seq<G.Step>)
    requires G.Run(c, n, steps).Some? && G.RaftCleanRun(c, n, steps) && G.AtHandRun(c, n, steps)
    ensures SystemOk(c, G.Run(c, n, steps).value) && |G.Run(c, n, steps).value.replicas| == n
  {
    RunMakes(c, n, steps);
    if steps == [] {
      InitialOk(c, n);
    } else {
      var k := |steps| - 1;
      RunKeeps(c, n, steps[..k]);
      StepKeeps(c, G.Run(c, n, steps[..k]).value, steps[k]);
    }
  }
}
