/** What every run of a Raft cluster guarantees: elections, logs, commitment, application, crashes. */
module RaftTheorems {
  import opened Wrappers
  import opened RaftProtocol
  import opened RaftInvariant
  import opened RaftGrowth
  import opened RaftSteps
  import opened RaftElection
  import opened RaftReplication
  import opened RaftSnapshot
  import opened RaftSafety

  // ---------- earlier and later moments of a run ----------

  lemma {:induction false} PrefixRuns(n: nat, steps: seq<Step>, i: nat)
    requires Run(n, steps).Some? && i <= |steps|
    ensures Run(n, steps[..i]).Some?
    ensures CleanRun(n, steps) ==> CleanRun(n, steps[..i])
    decreases |steps| - i
  {
    if i < |steps| {
      PrefixRuns(n, steps, i + 1);
      assert steps[..i + 1][..i] == steps[..i];
    } else {
      assert steps[..i] == steps;
    }
  }

  ghost predicate HistoryRemembers(a: History, b: History) {
    && (forall t :: t in a.elections ==> t in b.elections && b.elections[t].leader == a.elections[t].leader)
    && (forall t :: t in a.leaderLogs ==> t in b.leaderLogs && a.leaderLogs[t] <= b.leaderLogs[t])
    && (forall q, t :: (q, t) in a.acked ==> (q, t) in b.acked && a.acked[(q, t)] <= b.acked[(q, t)])
  }

  /** Elections won and entries applied stay on record. */
  ghost predicate Remembers(a: World, b: World) {
    a.applied <= b.applied && a.messages <= b.messages && HistoryRemembers(a.history, b.history)
  }

  lemma NothingTakenBack(w: World, step: Step)
    requires Enabled(w, step)
    ensures w.applied <= Take(w, step).applied && w.messages <= Take(w, step).messages
  {
  }

  /** Steps that enter no election and append to no leader's log. */
  lemma OtherStepRemembers(w: World, step: Step)
    requires Enabled(w, step) && !step.CountVote? && !step.Start?
    ensures HistoryRemembers(w.history, Take(w, step).history)
  {
  }

  lemma WinRemembers(w: World, s: nat, m: Message)
    requires WorldOk(w) && Enabled(w, CountVote(s, m))
    ensures Remembers(w, Take(w, CountVote(s, m)))
  {
    ElectRemembers(w, s, Counted(w.servers[s], m.voter));
  }

  lemma ElectRemembers(w: World, s: nat, y: Server)
    requires s < |w.servers| && w.history.elections.Keys == w.history.leaderLogs.Keys
    ensures Remembers(w, BecomeLeader(w, s, y))
  {
  }

  lemma StepRemembers(w: World, step: Step)
    requires WorldOk(w) && Enabled(w, step)
    ensures Remembers(w, Take(w, step))
  {
    match step
    case CountVote(s, m) => WinRemembers(w, s, m);
    case Start(s, data) => assert ServerOk(w.history, |w.servers|, s, w.servers[s]);
    case _ =>
      NothingTakenBack(w, step);
      OtherStepRemembers(w, step);
  }

  lemma {:induction false} RunRemembers(n: nat, steps: seq<Step>, i: nat)
    requires Run(n, steps).Some? && CleanRun(n, steps) && i <= |steps|
    ensures Run(n, steps[..i]).Some? && Remembers(Run(n, steps[..i]).value, Run(n, steps).value)
    decreases |steps|
  {
    if i == |steps| {
      assert steps[..i] == steps;
    } else {
      var k := |steps| - 1;
      RunRemembers(n, steps[..k], i);
      assert steps[..k][..i] == steps[..i];
      RunKeeps(n, steps[..k]);
      StepRemembers(Run(n, steps[..k]).value, steps[k]);
    }
  }

  /** The world after the first `i` steps. */
  function At(n: nat, steps: seq<Step>, i: nat): World
    requires Run(n, steps).Some? && i <= |steps|
  {
    PrefixRuns(n, steps, i);
    Run(n, steps[..i]).value
  }

  lemma AtIsOk(n: nat, steps: seq<Step>, i: nat, j: nat)
    requires Run(n, steps).Some? && CleanRun(n, steps) && i <= j <= |steps|
    ensures WorldOk(At(n, steps, i)) && WorldOk(At(n, steps, j)) && Remembers(At(n, steps, i), At(n, steps, j))
    ensures |At(n, steps, i).servers| == n && |At(n, steps, j).servers| == n
  {
    PrefixRuns(n, steps, i);
    PrefixRuns(n, steps, j);
    RunKeeps(n, steps[..i]);
    RunKeeps(n, steps[..j]);
    assert steps[..j][..i] == steps[..i];
    RunRemembers(n, steps[..j], i);
  }

  // ---------- logs ----------

  /** Log matching: logs with an entry of the same index and term agree up to it. */
  lemma LogMatching(n: nat, steps: seq<Step>, s: nat, t: nat, i: nat)
    requires Run(n, steps).Some? && CleanRun(n, steps) && s < n && t < n
    ensures |Run(n, steps).value.servers| == n
    ensures var a, b := Run(n, steps).value.servers[s].log, Run(n, steps).value.servers[t].log;
            1 <= i <= |a| && i <= |b| && TermAt(a, i) == TermAt(b, i) ==> a[..i] == b[..i]
  {
    RunKeeps(n, steps);
    var w := Run(n, steps).value;
    var a, b := w.servers[s].log, w.servers[t].log;
    assert ServerOk(w.history, n, s, w.servers[s]) && ServerOk(w.history, n, t, w.servers[t]);
    if 1 <= i <= |a| && i <= |b| && TermAt(a, i) == TermAt(b, i) {
      SameTermSamePrefix(w.history, a, b, i);
    }
  }

  /** Along every log terms never decrease, never exceed the server's term, and indexes count from one. */
  lemma LogsAreOrdered(n: nat, steps: seq<Step>, s: nat, i: nat, j: nat)
    requires Run(n, steps).Some? && CleanRun(n, steps) && s < n
    ensures |Run(n, steps).value.servers| == n
    ensures var x := Run(n, steps).value.servers[s];
            i <= j < |x.log| ==> x.log[i].term <= x.log[j].term <= x.term && x.log[j].index == j + 1
  {
    RunKeeps(n, steps);
    var w := Run(n, steps).value;
    var x := w.servers[s];
    assert ServerOk(w.history, n, s, x);
    if i <= j < |x.log| {
      TermsAscend(w.history, x.log, i, j);
      assert EntryOk(w.history, x.log, j);
    }
  }

  // ---------- commitment ----------

  /** What has been committed stays committed. */
  lemma CommittedPersists(a: World, b: World, n: nat, l: Log, bound: nat, more: nat)
    requires Remembers(a, b) && Committed(a.history, n, l, bound) && bound <= more
    ensures Committed(b.history, n, l, more)
  {
    if l != [] {
      var t: nat, k: nat :| t <= bound && CoveredBy(a.history, n, l, t, k);
      var q :| Quorum(a.history, n, t, k, q);
      assert Quorum(b.history, n, t, k, q);
      assert CommittedAt(b.history, n, t, k);
      assert l == a.history.leaderLogs[t][..|l|] == b.history.leaderLogs[t][..|l|];
      assert CoveredBy(b.history, n, l, t, k);
    }
  }

  lemma OwnCommitted(w: World, s: nat)
    requires WorldOk(w) && s < |w.servers|
    ensures var x := w.servers[s];
            x.snap <= x.lastApplied <= x.commit <= |x.log| && Committed(w.history, |w.servers|, x.log[..x.commit], x.term)
  {
    assert ServerOk(w.history, |w.servers|, s, w.servers[s]);
  }

  /** Leader completeness: a leader has all that any server has committed, at this or an earlier moment, in
    * its term or before. */
  lemma LeadersHaveTheCommitted(n: nat, steps: seq<Step>, i: nat, j: nat, s: nat, leader: nat)
    requires Run(n, steps).Some? && CleanRun(n, steps) && i <= j <= |steps| && s < n && leader < n
    ensures |At(n, steps, i).servers| == n && |At(n, steps, j).servers| == n
    ensures var x, y := At(n, steps, i).servers[s], At(n, steps, j).servers[leader];
            y.role == Leader && x.term <= y.term ==> x.commit <= |x.log| && x.log[..x.commit] <= y.log
  {
    AtIsOk(n, steps, i, j);
    var a, b := At(n, steps, i), At(n, steps, j);
    var x, y := a.servers[s], b.servers[leader];
    OwnCommitted(a, s);
    if x.term <= y.term {
      CommittedPersists(a, b, n, x.log[..x.commit], x.term, y.term);
      LeaderHasIt(b, leader, x.log[..x.commit]);
    }
  }

  lemma LeaderHasIt(w: World, leader: nat, l: Log)
    requires WorldOk(w) && leader < |w.servers| && Committed(w.history, |w.servers|, l, w.servers[leader].term)
    ensures w.servers[leader].role == Leader ==> l <= w.servers[leader].log
  {
    var y := w.servers[leader];
    assert ServerOk(w.history, |w.servers|, leader, y);
    HistoryIsComplete(w.history, |w.servers|);
    if y.role == Leader {
      LeaderHasCommitted(w.history, |w.servers|, l, y.term, y.term);
    }
  }

  /** Of two committed prefixes, on any two servers at any two moments, one begins the other. */
  lemma CommittedPrefixesNest(n: nat, steps: seq<Step>, i: nat, j: nat, s: nat, t: nat)
    requires Run(n, steps).Some? && CleanRun(n, steps) && i <= j <= |steps| && s < n && t < n
    ensures |At(n, steps, i).servers| == n && |At(n, steps, j).servers| == n
    ensures var x, y := At(n, steps, i).servers[s], At(n, steps, j).servers[t];
            && x.commit <= |x.log| && y.commit <= |y.log|
            && (x.commit <= y.commit ==> x.log[..x.commit] <= y.log[..y.commit])
            && (y.commit <= x.commit ==> y.log[..y.commit] <= x.log[..x.commit])
  {
    AtIsOk(n, steps, i, j);
    CommitsNest(At(n, steps, i), At(n, steps, j), n, s, t);
  }

  lemma CommitsNest(a: World, b: World, n: nat, s: nat, t: nat)
    requires WorldOk(a) && WorldOk(b) && Remembers(a, b) && |a.servers| == n && |b.servers| == n && s < n && t < n
    ensures var x, y := a.servers[s], b.servers[t];
            && x.commit <= |x.log| && y.commit <= |y.log|
            && (x.commit <= y.commit ==> x.log[..x.commit] <= y.log[..y.commit])
            && (y.commit <= x.commit ==> y.log[..y.commit] <= x.log[..x.commit])
  {
    var x, y := a.servers[s], b.servers[t];
    var bound := Max(x.term, y.term);
    OwnCommitted(a, s);
    OwnCommitted(b, t);
    CommittedPersists(a, b, n, x.log[..x.commit], x.term, bound);
    CommittedPrefix(b.history, n, y.log[..y.commit], y.commit, y.term, bound);
    assert y.log[..y.commit][..y.commit] == y.log[..y.commit];
    HistoryIsComplete(b.history, n);
    if x.commit <= y.commit {
      CommittedNest(b.history, n, x.log[..x.commit], y.log[..y.commit], bound);
    }
    if y.commit <= x.commit {
      CommittedNest(b.history, n, y.log[..y.commit], x.log[..x.commit], bound);
    }
  }

  /** State machine safety: no two servers ever apply different entries at one index. */
  lemma StateMachineSafety(n: nat, steps: seq<Step>, s: nat, t: nat, i: nat, e: Entry, f: Entry)
    requires Run(n, steps).Some? && CleanRun(n, steps)
    requires var w := Run(n, steps).value; (s, i, e) in w.applied && (t, i, f) in w.applied
    ensures e == f
  {
    var w := Run(n, steps).value;
    var h := w.history;
    RunKeeps(n, steps);
    HistoryIsComplete(h, n);
    assert AppliedOk(h, n, i, e) && AppliedOk(h, n, i, f);
    CommittedEntriesAgree(h, n, i, e, f);
  }

  lemma CommittedEntriesAgree(h: History, n: nat, i: nat, e: Entry, f: Entry)
    requires LeadersOk(h) && Complete(h, n) && AppliedOk(h, n, i, e) && AppliedOk(h, n, i, f)
    ensures e == f
  {
    var a: nat, j: nat :| IsCommittedEntry(h, n, i, e, a, j);
    var b: nat, k: nat :| IsCommittedEntry(h, n, i, f, b, k);
    CommittedAgree(h, n, a, j, b, k, i);
    assert h.leaderLogs[a][..i][i - 1] == h.leaderLogs[b][..i][i - 1];
  }

  /** What has once been applied anywhere stays in every committed prefix that reaches it, at all later moments. */
  lemma AppliedStaysCommitted(n: nat, steps: seq<Step>, k: nat, s: nat, i: nat, e: Entry, t: nat)
    requires Run(n, steps).Some? && CleanRun(n, steps) && k <= |steps| && t < n && 1 <= i
    requires (s, i, e) in At(n, steps, k).applied
    ensures |Run(n, steps).value.servers| == n
    ensures var y := Run(n, steps).value.servers[t]; i <= y.commit ==> i <= |y.log| && y.log[i - 1] == e
  {
    AtIsOk(n, steps, k, |steps|);
    assert steps[..|steps|] == steps;
    var w := Run(n, steps).value;
    var y := w.servers[t];
    HistoryIsComplete(w.history, n);
    assert AppliedOk(w.history, n, i, e);
    if i <= y.commit {
      CommittedEntryIs(w.history, n, t, y, i);
      CommittedEntriesAgree(w.history, n, i, e, y.log[i - 1]);
    }
  }

  lemma CommittedEntryIs(h: History, n: nat, t: nat, y: Server, i: nat)
    requires ServerOk(h, n, t, y) && 1 <= i <= y.commit
    ensures i <= |y.log| && AppliedOk(h, n, i, y.log[i - 1])
  {
    var l := y.log[..y.commit];
    var u: nat, k: nat :| u <= y.term && CoveredBy(h, n, l, u, k);
    assert h.leaderLogs[u][i - 1] == l[i - 1];
    assert IsCommittedEntry(h, n, i, y.log[i - 1], u, k);
  }

  /** The follower's log and Commit after a request that it accepts. */
  lemma AcceptCommits(h: History, servers: seq<Server>, s: nat, m: Message)
    requires s < |servers| && HistoryOk(h, |servers|) && ServerOk(h, |servers|, s, servers[s])
    requires m.AppendRequest? && MessageOk(h, servers, m) && servers[s].term <= m.term && m.leader != s
    requires Contains(servers[s], m.prevIndex, m.prevTerm)
    ensures var x := servers[s];
            var l := MergeLog(x.log, m.prevIndex, m.entries);
            var c := FollowerCommit(l, x.commit, m.leaderCommit, m.commitTerm);
            && m.term in h.leaderLogs
            && (c != x.commit ==> x.commit < c <= m.leaderCommit && c <= |l| && l[..c] <= h.leaderLogs[m.term])
    ensures KeepsShared(servers[s].log, h.leaderLogs[m.term], MergeLog(servers[s].log, m.prevIndex, m.entries))
  {
    var x := servers[s];
    HistoryIsComplete(h, |servers|);
    ListeningOk(h, servers, s, m);
    AcceptLogOk(h, |servers|, s, Listening(x, m), m);
    LeaderTerms(h, m.term);
    CommitTermRule(h, MergeLog(x.log, m.prevIndex, m.entries), h.leaderLogs[m.term], x.commit, m.leaderCommit);
    MergeFollowsLeader(h, x.log, h.leaderLogs[m.term], m.prevIndex, m.entries);
  }

  /** The CommitTerm rule is sound: whenever a request advances Commit, the follower's log up to there is
    * that of the leader who sent it, and Commit is at most the leader's. */
  lemma CommitFollowsLeader(n: nat, steps: seq<Step>, s: nat, m: Message)
    requires Run(n, steps).Some? && CleanRun(n, steps) && Enabled(Run(n, steps).value, HandleAppend(s, m))
    ensures var w := Run(n, steps).value;
            var x, y := w.servers[s], Take(w, HandleAppend(s, m)).servers[s];
            && m.term in w.history.leaderLogs
            && (y.commit != x.commit ==>
                  && x.commit < y.commit <= m.leaderCommit && y.commit <= |y.log|
                  && y.log[..y.commit] <= w.history.leaderLogs[m.term])
  {
    RunKeeps(n, steps);
    CommitFollowsSender(Run(n, steps).value, s, m);
  }

  lemma CommitFollowsSender(w: World, s: nat, m: Message)
    requires WorldOk(w) && Enabled(w, HandleAppend(s, m))
    ensures var x, y := w.servers[s], Take(w, HandleAppend(s, m)).servers[s];
            && m.term in w.history.leaderLogs
            && (y.commit != x.commit ==>
                  && x.commit < y.commit <= m.leaderCommit && y.commit <= |y.log|
                  && y.log[..y.commit] <= w.history.leaderLogs[m.term])
  {
    assert MessageOk(w.history, w.servers, m);
    if w.servers[s].term <= m.term && Contains(w.servers[s], m.prevIndex, m.prevTerm) {
      AcceptCommits(w.history, w.servers, s, m);
    }
  }

  /** A duplicated or overtaken request never shortens the follower's agreement with the leader who sent it. */
  lemma StaleRequestsAreHarmless(n: nat, steps: seq<Step>, s: nat, m: Message, p: Log)
    requires Run(n, steps).Some? && CleanRun(n, steps) && Enabled(Run(n, steps).value, HandleAppend(s, m))
    ensures var w := Run(n, steps).value;
            && m.term in w.history.leaderLogs
            && (p <= w.servers[s].log && p <= w.history.leaderLogs[m.term] ==> p <= Take(w, HandleAppend(s, m)).servers[s].log)
  {
    RunKeeps(n, steps);
    StaleRequestKeeps(Run(n, steps).value, s, m, p);
  }

  lemma StaleRequestKeeps(w: World, s: nat, m: Message, p: Log)
    requires WorldOk(w) && Enabled(w, HandleAppend(s, m))
    ensures m.term in w.history.leaderLogs
    ensures p <= w.servers[s].log && p <= w.history.leaderLogs[m.term] ==> p <= Take(w, HandleAppend(s, m)).servers[s].log
  {
    var x := w.servers[s];
    assert MessageOk(w.history, w.servers, m);
    if x.term <= m.term && Contains(x, m.prevIndex, m.prevTerm) {
      AcceptCommits(w.history, w.servers, s, m);
      assert Shared(p, x.log, w.history.leaderLogs[m.term]) ==> p <= MergeLog(x.log, m.prevIndex, m.entries);
    }
  }

  // ---------- crashes ----------

  /** Durability: at every moment a restart would bring back the term, the vote, the whole log and the snapshot,
    * and start from there as a follower; only Commit may fall behind. */
  lemma RestartLosesNothing(n: nat, steps: seq<Step>, s: nat)
    requires Run(n, steps).Some? && CleanRun(n, steps) && s < n
    ensures |Run(n, steps).value.servers| == n && Enabled(Run(n, steps).value, Restart(s))
    ensures var w := Run(n, steps).value;
            var x, y := w.servers[s], Take(w, Restart(s)).servers[s];
            && y.term == x.term && y.votedFor == x.votedFor && y.log == x.log && y.snap == x.snap
            && y.lastApplied == y.snap <= y.commit <= x.commit
            && y.role == Follower && y.votes == {} && y.tally == None && y.disk == x.disk
  {
    RunKeeps(n, steps);
    var w := Run(n, steps).value;
    assert ServerOk(w.history, n, s, w.servers[s]);
  }

  /** What a follower has acknowledged to a leader it still has, crashes or not, unless a later leader
    * was elected without it. */
  lemma AcknowledgedIsKept(n: nat, steps: seq<Step>, term: nat, q: nat, last: nat)
    requires Run(n, steps).Some? && CleanRun(n, steps) && AppendReply(term, q, last) in Run(n, steps).value.messages
    ensures var w := Run(n, steps).value;
            && q < |w.servers| && term in w.history.leaderLogs && last <= |w.history.leaderLogs[term]|
            && (w.history.leaderLogs[term][..last] <= w.servers[q].log
                || exists later :: Overruled(w.history, later, term, last, w.servers[q].term))
  {
    RunKeeps(n, steps);
    var w := Run(n, steps).value;
    assert MessageOk(w.history, w.servers, AppendReply(term, q, last));
    assert AcksOk(w.history, w.servers, q) && AckTermOk(w.history, w.servers, q, term);
    assert Kept(w.history, w.servers[q].log, term, last, w.servers[q].term);
  }
}
