/** A group of server/server.go on top of Raft: how committed entries and snapshots reach the state of each
  * replica (raft/raft.go: applyCommittedLogs; server/server.go: run, createSnapshot, installSnapshot). */
module ReplicatedGroup {
  import opened Wrappers
  import opened StateMachines
  import P = RaftProtocol
  import S = RaftSafety

  /** How a log entry's bytes are read as a command: Unmarshal of Args. */
  type Reader = seq<int> -> Args

  /** What a run does not change: the key hash, the group, the state it starts in. */
  datatype Setup = Setup(hash: Hash, gid: int, start: StateMachine, read: Reader)

  function Commands(c: Setup, l: P.Log): (r: seq<Args>)
    ensures |r| == |l|
  {
    seq(|l|, i requires 0 <= i < |l| => c.read(l[i].data))
  }

  /** What the log makes of the start state. */
  function StateOfLog(c: Setup, l: P.Log): Option<StateMachine> {
    ApplyAll(c.hash, c.gid, c.start, Commands(c, l))
  }

  function Applied(c: Setup, s: StateMachine, e: P.Entry): Option<StateMachine> {
    Apply(c.hash, c.gid, s, c.read(e.data))
  }

  /** A replica's state with its AppliedIndex, as a snapshot stores it. `seen` is history, never read by a
    * step: the entries that have gone into the state, in the order in which they first did. */
  datatype Image = Image(state: StateMachine, applied: nat, seen: seq<(nat, P.Entry)>)

  predicate Has(seen: seq<(nat, P.Entry)>, i: nat) {
    exists k :: 0 <= k < |seen| && seen[k].0 == i
  }

  /** After the delivery of the entry of index `i`. */
  function Fed(seen: seq<(nat, P.Entry)>, i: nat, e: P.Entry): seq<(nat, P.Entry)> {
    if Has(seen, i) then seen else seen + [(i, e)]
  }

  function Entries(seen: seq<(nat, P.Entry)>): (r: P.Log)
    ensures |r| == |seen|
  {
    seq(|seen|, k requires 0 <= k < |seen| => seen[k].1)
  }

  /** `inFlight` is the entry that applyCommittedLogs has taken and is about to send on the apply channel;
    * `stored` is the snapshot on disk. */
  datatype Replica = Replica(image: Image, inFlight: Option<(nat, P.Entry)>, stored: Image)

  /** `mail`: snapshots that have been sent, each with the InstallSnapshot request that carries it. */
  datatype System = System(raft: P.World, replicas: seq<Replica>, mail: set<(P.Message, Image)>)

  datatype Step =
    | Inside(step: P.Step)                           // Raft on its own
    | TakeNext(s: nat)                               // applyCommittedLogs, up to the send
    | Deliver(s: nat)                                // run, a command: apply
    | CreateSnapshot(s: nat)                         // run, after apply
    | OfferSnapshot(s: nat)                          // callInstallSnapshot
    | Install(s: nat, m: P.Message, image: Image)    // run, a snapshot: CondInstallSnapshot, installSnapshot
    | Restart(s: nat)

  /** The step that Raft takes, if it takes one. */
  function RaftStep(y: System, step: Step): Option<P.Step> {
    match step
    case Inside(r) => Some(r)
    case TakeNext(s) => Some(P.ApplyNext(s))
    case Deliver(s) => None
    case CreateSnapshot(s) => if s < |y.replicas| then Some(P.TakeSnapshot(s, y.replicas[s].image.applied)) else None
    case OfferSnapshot(s) => Some(P.OfferSnapshot(s))
    case Install(s, m, image) => Some(P.CondInstallSnapshot(s, m))
    case Restart(s) => Some(P.Restart(s))
  }

  predicate Enabled(c: Setup, y: System, step: Step) {
    && |y.replicas| == |y.raft.servers|
    && (RaftStep(y, step).Some? ==> P.Enabled(y.raft, RaftStep(y, step).value))
    && match step
       case Inside(r) => P.Plain(r)
       case TakeNext(s) => y.replicas[s].inFlight == None
       case Deliver(s) =>
         && s < |y.replicas| && y.replicas[s].inFlight.Some?
         && Applied(c, y.replicas[s].image.state, y.replicas[s].inFlight.value.1).Some?
       case CreateSnapshot(s) => s < |y.replicas|
       case OfferSnapshot(s) => true
       case Install(s, m, image) => (m, image) in y.mail
       case Restart(s) => true
  }

  /** Raft and its log afterwards. */
  function RaftAfter(c: Setup, y: System, step: Step): P.World
    requires Enabled(c, y, step)
  {
    match RaftStep(y, step) case None => y.raft case Some(r) => P.Take(y.raft, r)
  }

  /** apply: duplicates change only AppliedIndex. */
  function Delivered(c: Setup, r: Replica): Replica
    requires r.inFlight.Some? && Applied(c, r.image.state, r.inFlight.value.1).Some?
  {
    var (i, e) := r.inFlight.value;
    r.(image := Image(Applied(c, r.image.state, e).value, i, Fed(r.image.seen, i, e)), inFlight := None)
  }

  function Refuses(y: System, s: nat, m: P.Message): bool
    requires s < |y.raft.servers| && m.InstallSnapshot? && y.raft.servers[s].snap <= |y.raft.servers[s].log|
  {
    P.OldSnapshot(y.raft.servers[s], m.covered)
  }

  function Take(c: Setup, y: System, step: Step): System
    requires Enabled(c, y, step)
  {
    var raft := RaftAfter(c, y, step);
    match step
    case Inside(r) => y.(raft := raft)
    case TakeNext(s) =>
      var x := y.raft.servers[s];
      var r := y.replicas[s].(inFlight := Some((x.lastApplied + 1, x.log[x.lastApplied])));
      System(raft, y.replicas[s := r], y.mail)
    case Deliver(s) => System(raft, y.replicas[s := Delivered(c, y.replicas[s])], y.mail)
    case CreateSnapshot(s) => System(raft, y.replicas[s := y.replicas[s].(stored := y.replicas[s].image)], y.mail)
    case OfferSnapshot(s) =>
      var x := y.raft.servers[s];
      System(raft, y.replicas, y.mail + {(P.InstallSnapshot(x.term, s, x.log[..x.snap]), y.replicas[s].stored)})
    case Install(s, m, image) =>
      if Refuses(y, s, m) then y.(raft := raft)
      else System(raft, y.replicas[s := y.replicas[s].(image := image, stored := image)], y.mail)
    case Restart(s) =>
      var stored := y.replicas[s].stored;
      System(raft, y.replicas[s := Replica(stored, None, stored)], y.mail)
  }

  function InitialReplica(c: Setup): Replica {
    var blank := Image(c.start, 0, []);
    Replica(blank, None, blank)
  }

  function InitialSystem(c: Setup, n: nat): System {
    System(P.InitialWorld(n), seq(n, i => InitialReplica(c)), {})
  }

  function Run(c: Setup, n: nat, steps: seq<Step>): Option<System> {
    if steps == [] then Some(InitialSystem(c, n))
    else
      var k := |steps| - 1;
      match Run(c, n, steps[..k])
      case None => None
      case Some(y) => if Enabled(c, y, steps[k]) then Some(Take(c, y, steps[k])) else None
  }

  // ---------- conditions on a step ----------

  /** Raft's part of the step is no unfair launch, no late count and no installation that keeps a conflict. */
  predicate RaftClean(c: Setup, y: System, step: Step)
    requires Enabled(c, y, step)
  {
    RaftStep(y, step).Some? ==> S.Allowed(S.Clean, y.raft, RaftStep(y, step).value)
  }

  /** A snapshot is not installed behind the entry in flight: nothing between the two is passed over. */
  predicate InstallsAtHand(c: Setup, y: System, step: Step)
    requires Enabled(c, y, step)
  {
    step.Install? && !Refuses(y, step.s, step.m) && y.replicas[step.s].inFlight.Some? ==>
      y.replicas[step.s].inFlight.value.0 <= |step.m.covered| + 1
  }

  /** An entry is delivered again, or is the next one. */
  predicate DeliversInOrder(y: System, step: Step) {
    step.Deliver? && step.s < |y.replicas| && y.replicas[step.s].inFlight.Some? ==>
      var (seen, i) := (y.replicas[step.s].image.seen, y.replicas[step.s].inFlight.value.0);
      Has(seen, i) || i == |seen| + 1
  }

  predicate InOrderRun(c: Setup, n: nat, steps: seq<Step>)
    requires Run(c, n, steps).Some?
  {
    steps == [] ||
    (var k := |steps| - 1;
     InOrderRun(c, n, steps[..k]) && DeliversInOrder(Run(c, n, steps[..k]).value, steps[k]))
  }

  predicate RaftCleanRun(c: Setup, n: nat, steps: seq<Step>)
    requires Run(c, n, steps).Some?
  {
    steps == [] ||
    (var k := |steps| - 1;
     RaftCleanRun(c, n, steps[..k]) && RaftClean(c, Run(c, n, steps[..k]).value, steps[k]))
  }

  predicate AtHandRun(c: Setup, n: nat, steps: seq<Step>)
    requires Run(c, n, steps).Some?
  {
    steps == [] ||
    (var k := |steps| - 1;
     AtHandRun(c, n, steps[..k]) && InstallsAtHand(c, Run(c, n, steps[..k]).value, steps[k]))
  }
}
