/** Every world that a run reaches satisfies the invariant. */
module RaftSafety {
  import opened Wrappers
  import opened RaftProtocol
  import opened RaftInvariant
  import opened RaftGrowth
  import opened RaftSteps
  import opened RaftElection
  import opened RaftReplication
  import opened RaftSnapshot

  /** One step, of whatever kind. */
  lemma StepKeeps(w: World, step: Step)
    requires WorldOk(w) && Enabled(w, step) && Allowed(Clean, w, step)
    ensures WorldOk(Take(w, step))
  {
    match step
    case LaunchElection(s, newTerm) => LaunchStep(w, s, newTerm);
    case SeesHigherTerm(s, term) => SeesHigherTermStep(w, step);
    case AskVote(s) => AskVoteStep(w, step);
    case AnswerVote(s, m) => AnswerVoteStep(w, s, m);
    case CountVote(s, m) => CountVoteStep(w, s, m);
    case Start(s, data) => StartStep(w, s, data);
    case Replicate(s, prev, heartbeat) => ReplicateStep(w, step);
    case HandleAppend(s, m) => HandleAppendStep(w, s, m);
    case HandleReply(s, m) => HandleReplyStep(w, step);
    case OfferSnapshot(s) => OfferSnapshotStep(w, step);
    case ReceiveSnapshot(s, m) => ReceiveSnapshotStep(w, step);
    case CondInstallSnapshot(s, m) => CondInstallStep(w, s, m);
    case SnapshotSent(s, follower, index) => LocalStep(w, step);
    case TakeSnapshot(s, index) => LocalStep(w, step);
    case ApplyNext(s) => ApplyNextStep(w, step);
    case Restart(s) => RestartStep(w, step);
  }

  lemma InitialOk(n: nat)
    ensures WorldOk(InitialWorld(n))
  {
  }

  /** Which of the three conditions are asked of a step. */
  datatype Guard = Guard(fairLaunches: bool, timelyCounts: bool, cleanInstalls: bool)

  const Fair := Guard(true, false, false)
  const Timely := Guard(false, true, false)
  const Voting := Guard(true, true, false)
  const Installs := Guard(false, false, true)
  const Clean := Guard(true, true, true)

  predicate Allowed(g: Guard, w: World, step: Step)
    requires Enabled(w, step)
  {
    && (g.fairLaunches ==> LaunchesFairly(w, step))
    && (g.timelyCounts ==> CountsInTime(w, step))
    && (g.cleanInstalls ==> InstallsCleanly(w, step))
  }

  predicate Guarded(g: Guard, n: nat, steps: seq<Step>)
    requires Run(n, steps).Some?
  {
    steps == [] || (var k := |steps| - 1; Guarded(g, n, steps[..k]) && Allowed(g, Run(n, steps[..k]).value, steps[k]))
  }

  /** No step of the run takes back a vote by launching an election, counts a vote in another term than it was
    * given in, or installs a snapshot over entries that contradict it. */
  predicate CleanRun(n: nat, steps: seq<Step>)
    requires Run(n, steps).Some?
  {
    Guarded(Clean, n, steps)
  }

  lemma {:induction false} GuardedTogether(g: Guard, f: Guard, n: nat, steps: seq<Step>)
    requires Run(n, steps).Some?
    ensures Guarded(Guard(g.fairLaunches || f.fairLaunches, g.timelyCounts || f.timelyCounts, g.cleanInstalls || f.cleanInstalls), n, steps)
            <==> Guarded(g, n, steps) && Guarded(f, n, steps)
  {
    if steps != [] {
      GuardedTogether(g, f, n, steps[..|steps| - 1]);
    }
  }

  lemma {:induction false} RunKeeps(n: nat, steps: seq<Step>)
    requires Run(n, steps).Some? && CleanRun(n, steps)
    ensures WorldOk(Run(n, steps).value) && |Run(n, steps).value.servers| == n
  {
    if steps == [] {
      InitialOk(n);
    } else {
      var k := |steps| - 1;
      RunKeeps(n, steps[..k]);
      StepKeeps(Run(n, steps[..k]).value, steps[k]);
      SameSize(Run(n, steps[..k]).value, steps[k]);
    }
  }

  lemma SameSize(w: World, step: Step)
    requires Enabled(w, step)
    ensures |Take(w, step).servers| == |w.servers|
  {
  }
}
