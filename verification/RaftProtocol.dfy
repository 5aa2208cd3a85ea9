/** Raft as raft/raft.go runs it: elections, replication with the CommitTerm rule, compaction,
  * snapshots, crashes. Each locked region is one step; messages may be lost, delayed, repeated. */
module RaftProtocol {
  import opened Wrappers

  datatype Entry = Entry(term: nat, index: nat, data: seq<int>)

  /** A log without compaction: the entry of index i is at position i - 1. */
  type Log = seq<Entry>

  function TermAt(l: Log, i: nat): nat
    requires i <= |l|
  {
    if i == 0 then 0 else l[i - 1].term
  }

  datatype Role = Leader | Follower | Candidate

  /** What persist() writes. */
  datatype Hard = Hard(term: nat, votedFor: Option<nat>, commit: nat, log: Log, snap: nat)

  /** The election that is still being counted: the term it was launched in, and whose replies have come in.
    * It ends with a win, a newer launch or a crash, not with a new term (raft/raft.go:946-974). */
  datatype Tally = Tally(term: nat, heard: set<nat>)

  /** A server. `log` includes the entries that compaction has dropped; the real log holds those after
    * index `snap`, and the snapshot stands for the others. */
  datatype Server = Server(
    term: nat,
    votedFor: Option<nat>,
    role: Role,
    votes: set<nat>,
    tally: Option<Tally>,
    log: Log,
    snap: nat,
    commit: nat,
    lastApplied: nat,
    matchIndex: seq<nat>,
    disk: Hard)

  datatype Message =
    | VoteRequest(term: nat, candidate: nat, lastIndex: nat, lastTerm: nat)
    | VoteReply(term: nat, voter: nat, candidate: nat)
    | AppendRequest(term: nat, leader: nat, prevIndex: nat, prevTerm: nat, entries: seq<Entry>, leaderCommit: nat, commitTerm: nat)
    | AppendReply(term: nat, follower: nat, lastIndex: nat)
    | InstallSnapshot(term: nat, leader: nat, covered: Log)

  /** History, never read by a server: how a vote was cast, and how an election was won. */
  datatype Ballot = Ballot(candidate: nat, log: Log, lastIndex: nat, lastTerm: nat)
  datatype Election = Election(leader: nat, log: Log, ballots: map<nat, Ballot>)

  datatype History = History(
    ballots: map<(nat, nat), Ballot>,     // (voter, term)
    elections: map<nat, Election>,        // term -> the election won in it
    leaderLogs: map<nat, Log>,            // term -> its leader's log, up to now or the end of its leadership
    acked: map<(nat, nat), nat>)          // (server, term) -> how far it has matched that leader's log

  datatype World = World(
    servers: seq<Server>,
    messages: set<Message>,
    history: History,
    applied: set<(nat, nat, Entry)>,      // (server, index, entry) handed to the service
    arrived: set<(nat, Message)>)         // (server, snapshot) on its way to the service

  // ---------- one server ----------

  function Persist(s: Server): Server {
    s.(disk := Hard(s.term, s.votedFor, s.commit, s.log, s.snap))
  }

  /** convertToFollower; the vote of the current term is kept. */
  function StepDown(s: Server, term: nat): Server {
    Persist(s.(term := term, role := Follower, votes := {}, votedFor := if term > s.term then None else s.votedFor))
  }

  /** notUpToDate: may a log that ends like this vote for a candidate that claims (index, term)? */
  predicate NotUpToDate(l: Log, index: nat, term: nat) {
    var last := TermAt(l, |l|);
    last < term || (last == term && |l| <= index)
  }

  /** The first entry that contradicts the log, or the number of entries. */
  function FirstConflict(l: Log, prev: nat, es: seq<Entry>, from: nat): (k: nat)
    requires from <= |es|
    ensures from <= k <= |es|
    ensures k < |es| ==> prev + k < |l| && es[k].term != l[prev + k].term
    ensures forall j :: from <= j < k && prev + j < |l| ==> es[j].term == l[prev + j].term
    decreases |es| - from
  {
    if from == |es| then from
    else if prev + from < |l| && es[from].term != l[prev + from].term then from
    else FirstConflict(l, prev, es, from + 1)
  }

  /** The log after step 3 and step 4 of AppendEntries. */
  function MergeLog(l: Log, prev: nat, es: seq<Entry>): Log
    requires prev <= |l|
  {
    var k := FirstConflict(l, prev, es, 0);
    if k < |es| then l[..prev + k] + es[k..]
    else if prev + |es| <= |l| then l
    else l + es[|l| - prev..]
  }

  predicate IsMajority(q: set<nat>, n: nat) {
    2 * |q| > n
  }

  function Max(a: nat, b: nat): nat {
    if a < b then b else a
  }

  function Min(a: nat, b: nat): nat {
    if a < b then a else b
  }

  /** A granted vote comes in; nothing is looked at. */
  function Counted(x: Server, voter: nat): Server
    requires x.tally.Some?
  {
    x.(votes := x.votes + {voter}, tally := Some(Tally(x.tally.value.term, x.tally.value.heard + {voter})))
  }

  /** What a crash leaves of a server. */
  function Restarted(x: Server): Server {
    var h := x.disk;
    Server(h.term, h.votedFor, Follower, {}, None, h.log, h.snap, h.commit, h.snap, x.matchIndex, h)
  }

  // ---------- AppendEntries at the follower ----------

  /** Does the follower hold the entry the request builds on? */
  predicate Contains(s: Server, prev: nat, prevTerm: nat) {
    s.snap <= prev <= |s.log| && TermAt(s.log, prev) == prevTerm
  }

  /** Step 5: the CommitTerm rule. */
  function FollowerCommit(l: Log, commit: nat, leaderCommit: nat, commitTerm: nat): nat {
    var c := Min(leaderCommit, |l|);
    if leaderCommit > commit && TermAt(l, c) == commitTerm then Max(commit, c) else commit
  }

  function Accept(s: Server, m: Message): Server
    requires m.AppendRequest?
    requires s.snap <= m.prevIndex <= |s.log|
  {
    var l := MergeLog(s.log, m.prevIndex, m.entries);
    var t := if l == s.log then s else Persist(s.(log := l));
    t.(commit := FollowerCommit(l, s.commit, m.leaderCommit, m.commitTerm))
  }

  // ---------- steps ----------

  datatype Step =
    | LaunchElection(s: nat, newTerm: nat)
    | SeesHigherTerm(s: nat, term: nat)
    | AskVote(s: nat)
    | AnswerVote(s: nat, m: Message)
    | CountVote(s: nat, m: Message)
    | Start(s: nat, data: seq<int>)
    | Replicate(s: nat, prev: nat, heartbeat: bool)
    | HandleAppend(s: nat, m: Message)
    | HandleReply(s: nat, m: Message)
    | OfferSnapshot(s: nat)
    | ReceiveSnapshot(s: nat, m: Message)
    | CondInstallSnapshot(s: nat, m: Message)
    | SnapshotSent(s: nat, follower: nat, index: nat)
    | TakeSnapshot(s: nat, index: nat)
    | ApplyNext(s: nat)
    | Restart(s: nat)

  /** The part of CompactForSnapshot that can go wrong: entries behind the snapshot are kept although
    * they continue a different entry at its index. */
  predicate KeepsConflict(l: Log, covered: Log) {
    |covered| < |l| && TermAt(l, |covered|) != TermAt(covered, |covered|)
  }

  /** The steps in which Raft has nothing to do with the service or its snapshots. */
  predicate Plain(step: Step) {
    !step.ApplyNext? && !step.TakeSnapshot? && !step.OfferSnapshot? && !step.CondInstallSnapshot? && !step.Restart?
  }

  predicate Enabled(w: World, step: Step) {
    step.s < |w.servers| &&
    var x := w.servers[step.s];
    match step
    case LaunchElection(s, newTerm) => newTerm >= 1   // the term the ticker was started in, plus one
    case SeesHigherTerm(s, term) => term > x.term
    case AskVote(s) => x.role == Candidate && x.snap <= |x.log|
    case AnswerVote(s, m) => m in w.messages && m.VoteRequest? && m.candidate != s
    case CountVote(s, m) =>
      && m in w.messages && m.VoteReply? && m.candidate == s
      && x.tally.Some? && m.term == x.tally.value.term && m.voter !in x.tally.value.heard
    case Start(s, data) => x.role == Leader && |x.matchIndex| == |w.servers|
    case Replicate(s, prev, heartbeat) => x.role == Leader && x.snap <= prev <= |x.log| && x.commit <= |x.log|
    case HandleAppend(s, m) => m in w.messages && m.AppendRequest? && m.leader != s
    case HandleReply(s, m) =>
      && m in w.messages && m.AppendReply? && m.term == x.term && x.role == Leader
      && m.follower < |x.matchIndex| && m.lastIndex <= |x.log|
    case OfferSnapshot(s) => x.snap <= |x.log|
    case ReceiveSnapshot(s, m) => m in w.messages && m.InstallSnapshot?
    case CondInstallSnapshot(s, m) =>
      (s, m) in w.arrived && m.InstallSnapshot? && x.snap <= |x.log|
    case SnapshotSent(s, follower, index) => x.role == Leader && follower < |x.matchIndex| && index <= x.snap
    case TakeSnapshot(s, index) => x.snap <= index <= x.commit <= |x.log|
    case ApplyNext(s) => x.lastApplied < x.commit <= |x.log|
    case Restart(s) => true
  }

  function Update(w: World, s: nat, x: Server): World
    requires s < |w.servers|
  {
    w.(servers := w.servers[s := x])
  }

  function Send(w: World, m: Message): World {
    w.(messages := w.messages + {m})
  }

  function Ack(h: History, q: nat, term: nat, k: nat): History {
    h.(acked := h.acked[(q, term) := if (q, term) in h.acked && h.acked[(q, term)] > k then h.acked[(q, term)] else k])
  }

  function Cast(h: History, v: nat, term: nat, b: Ballot): History {
    if (v, term) in h.ballots then h else h.(ballots := h.ballots[(v, term) := b])
  }

  function Lead(h: History, term: nat, l: Log): History {
    h.(leaderLogs := h.leaderLogs[term := l])
  }

  /** convertToLeader, with the election entered into the history. */
  function BecomeLeader(w: World, s: nat, x: Server): World
    requires s < |w.servers|
  {
    Update(w, s, Persist(x.(role := Leader, tally := None, matchIndex := Zeros(|w.servers|)))).(
      history := Elect(w.history, s, x))
  }

  /** The voters a candidate has counted, with the ballots they cast. */
  function ElectionOf(h: History, s: nat, x: Server): Election {
    var own := Ballot(s, x.log, |x.log|, TermAt(x.log, |x.log|));
    var cast := map v | v in x.votes && v != s && (v, x.term) in h.ballots :: h.ballots[(v, x.term)];
    Election(s, x.log, cast[s := own])
  }

  function AddElection(h: History, term: nat, e: Election): History {
    h.(elections := h.elections[term := e], leaderLogs := h.leaderLogs[term := e.log])
  }

  function Elect(h: History, s: nat, x: Server): History {
    if x.term in h.elections then h else AddElection(h, x.term, ElectionOf(h, s, x))
  }

  function Zeros(n: nat): (r: seq<nat>)
    ensures |r| == n && forall i :: 0 <= i < n ==> r[i] == 0
  {
    seq(n, i => 0)
  }

  /** The servers that have matched the leader's log up to `n`. */
  function Holders(ms: seq<nat>, n: nat): set<nat> {
    set i: nat | i < |ms| && ms[i] >= n
  }

  /** checkIfEntryShouldBeCommitted and commitEntryBeforeIndex. */
  function LeaderCommit(x: Server, n: nat): nat
    requires n <= |x.log|
  {
    if x.commit >= n || TermAt(x.log, n) < x.term then x.commit
    else if IsMajority(Holders(x.matchIndex, n), |x.matchIndex|) then n
    else x.commit
  }

  /** CondInstallSnapshot refuses a snapshot that is not ahead of its own. */
  predicate OldSnapshot(x: Server, covered: Log)
    requires x.snap <= |x.log|
  {
    var own, its := TermAt(x.log, x.snap), TermAt(covered, |covered|);
    own > its || (own == its && x.snap >= |covered|)
  }

  function Install(x: Server, covered: Log): Server {
    var l := if |covered| > |x.log| then covered else covered + x.log[|covered|..];
    Persist(x.(log := l, snap := |covered|, lastApplied := |covered|, commit := Max(x.commit, |covered|)))
  }

  function Take(w: World, step: Step): World
    requires Enabled(w, step)
  {
    var x := w.servers[step.s];
    match step
    case LaunchElection(s, newTerm) =>
      Update(w, s, Persist(x.(term := newTerm, role := Candidate, votedFor := Some(s), votes := {s},
                              tally := Some(Tally(newTerm, {}))))).(
        history := Cast(w.history, s, newTerm, Ballot(s, x.log, |x.log|, TermAt(x.log, |x.log|))))
    case SeesHigherTerm(s, term) => Update(w, s, StepDown(x, term))   // in a reply
    case AskVote(s) => Send(w, VoteRequest(x.term, s, x.snap, TermAt(x.log, x.snap)))
    case AnswerVote(s, m) =>
      if m.term < x.term then w
      else
        var y := StepDown(x, m.term);
        if (y.votedFor == None || y.votedFor == Some(m.candidate)) && NotUpToDate(y.log, m.lastIndex, m.lastTerm) then
          Send(Update(w, s, Persist(y.(votedFor := Some(m.candidate)))), VoteReply(m.term, s, m.candidate)).(
            history := Cast(w.history, s, m.term, Ballot(m.candidate, x.log, m.lastIndex, m.lastTerm)))
        else Update(w, s, y)
    case CountVote(s, m) =>
      var y := Counted(x, m.voter);
      if IsMajority(y.votes, |w.servers|) then BecomeLeader(w, s, y) else Update(w, s, y)
    case Start(s, data) =>
      var l := x.log + [Entry(x.term, |x.log| + 1, data)];
      Update(w, s, Persist(x.(log := l, matchIndex := if s < |x.matchIndex| then x.matchIndex[s := |l|] else x.matchIndex))).(
        history := Ack(Lead(w.history, x.term, l), s, x.term, |l|))
    case Replicate(s, prev, heartbeat) =>
      Send(w, AppendRequest(x.term, s, prev, TermAt(x.log, prev), if heartbeat then [] else x.log[prev..],
                            x.commit, TermAt(x.log, x.commit)))
    case HandleAppend(s, m) =>
      if m.term < x.term then w
      else
        var y := if m.term > x.term then StepDown(x, m.term) else x;
        if !Contains(y, m.prevIndex, m.prevTerm) then Update(w, s, y)
        else
          // The leader looks at the reply only when the request carried entries.
          var last := m.prevIndex + |m.entries|;
          var v := Update(w, s, Accept(y, m)).(history := Ack(w.history, s, m.term, last));
          if m.entries == [] then v else Send(v, AppendReply(m.term, s, last))
    case HandleReply(s, m) =>
      var y := x.(matchIndex := x.matchIndex[m.follower := m.lastIndex]);
      Update(w, s, y.(commit := LeaderCommit(y, m.lastIndex)))
    case OfferSnapshot(s) => Send(w, InstallSnapshot(x.term, s, x.log[..x.snap]))
    case ReceiveSnapshot(s, m) =>
      if m.term < x.term then w
      else
        var v := if m.term > x.term then Update(w, s, StepDown(x, m.term)) else w;
        v.(arrived := v.arrived + {(s, m)})
    case CondInstallSnapshot(s, m) => if OldSnapshot(x, m.covered) then w else Update(w, s, Install(x, m.covered))
    case SnapshotSent(s, follower, index) => Update(w, s, x.(matchIndex := x.matchIndex[follower := index]))
    case TakeSnapshot(s, index) =>
      Update(w, s, Persist(x.(snap := index, lastApplied := Max(x.lastApplied, index), commit := Max(x.commit, index))))
    case ApplyNext(s) =>
      Update(w, s, x.(lastApplied := x.lastApplied + 1)).(
        applied := w.applied + {(s, x.lastApplied + 1, x.log[x.lastApplied])})
    case Restart(s) => Update(w, s, Restarted(x)).(arrived := set p | p in w.arrived && p.0 != s)
  }

  /** `newTerm` is a new term, or the current one while the vote in it is free or its own. */
  predicate MayLaunch(s: nat, x: Server, newTerm: nat) {
    newTerm > x.term || (newTerm == x.term && (x.votedFor == None || x.votedFor == Some(s)))
  }

  /** The ticker that launches an election may have been started in an earlier term. */
  predicate LaunchesFairly(w: World, step: Step)
    requires Enabled(w, step)
  {
    step.LaunchElection? ==> MayLaunch(step.s, w.servers[step.s], step.newTerm)
  }

  /** A vote is counted in the term in which it was given. */
  predicate CountsInTime(w: World, step: Step)
    requires Enabled(w, step)
  {
    step.CountVote? ==> step.m.term == w.servers[step.s].term
  }

  /** An installation does not keep entries that contradict the snapshot. */
  predicate InstallsCleanly(w: World, step: Step)
    requires Enabled(w, step)
  {
    step.CondInstallSnapshot? && !OldSnapshot(w.servers[step.s], step.m.covered) ==>
      !KeepsConflict(w.servers[step.s].log, step.m.covered)
  }

  function InitialServer(n: nat): Server {
    Server(0, None, Follower, {}, None, [], 0, 0, 0, Zeros(n), Hard(0, None, 0, [], 0))
  }

  function InitialWorld(n: nat): World {
    World(seq(n, i => InitialServer(n)), {}, History(map[], map[], map[], map[]), {}, {})
  }

  /** Where a run of a cluster of `n` servers leads; None when a step cannot be taken. */
  function Run(n: nat, steps: seq<Step>): Option<World> {
    if steps == [] then Some(InitialWorld(n))
    else
      var k := |steps| - 1;
      match Run(n, steps[..k])
      case None => None
      case Some(w) => if Enabled(w, steps[k]) then Some(Take(w, steps[k])) else None
  }
}
