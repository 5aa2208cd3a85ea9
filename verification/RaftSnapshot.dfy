/** Installing a snapshot keeps the invariant exactly when CompactForSnapshot does not keep entries that
  * continue another entry at the snapshot's index (extended Raft paper, section 7). */
module RaftSnapshot {
  import opened Wrappers
  import opened RaftProtocol
  import opened RaftInvariant
  import opened RaftGrowth
  import opened RaftSteps
  import opened RaftReplication

  /** Two committed prefixes: the shorter one begins the longer one. */
  lemma CommittedNest(h: History, n: nat, a: Log, b: Log, bound: nat)
    requires LeadersOk(h) && Complete(h, n) && Committed(h, n, a, bound) && Committed(h, n, b, bound) && |a| <= |b|
    ensures a <= b
  {
    if a != [] {
      var t: nat, j: nat :| t <= bound && CoveredBy(h, n, a, t, j);
      var u: nat, k: nat :| u <= bound && CoveredBy(h, n, b, u, k);
      CommittedAgree(h, n, t, j, u, k, |a|);
      assert b[..|a|] == h.leaderLogs[u][..|b|][..|a|] == h.leaderLogs[u][..|a|];
    }
  }

  /** A snapshot that is not refused is ahead of the server's own. */
  lemma SnapshotIsAhead(h: History, n: nat, s: nat, x: Server, covered: Log)
    requires LeadersOk(h) && Complete(h, n) && ServerOk(h, n, s, x)
    requires Committed(h, n, covered, x.term) && !OldSnapshot(x, covered)
    ensures x.snap < |covered| && x.log[..x.snap] <= covered
  {
    SnapshotIsCommitted(h, n, s, x);
    if |covered| <= x.snap {
      CommittedNest(h, n, covered, x.log[..x.snap], x.term);
      CommittedTermAtMost(h, x.log, |covered|, x.snap);
    }
    CommittedNest(h, n, x.log[..x.snap], covered, x.term);
  }

  lemma CommittedTermAtMost(h: History, l: Log, i: nat, j: nat)
    requires LeadersOk(h) && LogOk(h, l) && i <= j <= |l|
    ensures TermAt(l, i) <= TermAt(l, j)
  {
    if i > 0 {
      TermsAscend(h, l, i - 1, j - 1);
    }
  }

  function Installed(l: Log, covered: Log): Log {
    if |covered| > |l| then covered else covered + l[|covered|..]
  }

  /** Installation either keeps the log or replaces it by one at least as long. */
  lemma InstalledLog(h: History, l: Log, covered: Log)
    requires LogOk(h, l) && LogOk(h, covered) && !KeepsConflict(l, covered)
    ensures Installed(l, covered) == l || (Installed(l, covered) == covered && |l| <= |covered|)
    ensures covered <= Installed(l, covered)
  {
    if 0 < |covered| < |l| {
      SameTermSamePrefix(h, l, covered, |covered|);
      assert covered == covered[..|covered|];
      assert l == l[..|covered|] + l[|covered|..];
    }
  }

  lemma CoveredByLeader(h: History, n: nat, s: nat, x: Server, covered: Log)
    requires LeadersOk(h) && Complete(h, n) && x.term in h.elections && h.leaderLogs[x.term] == x.log
    requires Committed(h, n, covered, x.term)
    ensures covered <= x.log && Installed(x.log, covered) == x.log
  {
    LeaderHasCommitted(h, n, covered, x.term, x.term);
    assert x.log == x.log[..|covered|] + x.log[|covered|..];
  }

  /** What was acknowledged and is no longer than the committed log `covered` is in it. */
  lemma KeptInCovered(h: History, n: nat, l: Log, covered: Log, t: nat, k: nat, bound: nat)
    requires LeadersOk(h) && Complete(h, n) && Committed(h, n, covered, bound) && covered != []
    requires Kept(h, l, t, k, bound) && |l| <= |covered|
    ensures Kept(h, covered, t, k, bound)
  {
    var p := h.leaderLogs[t][..k];
    if p <= l {
      var u: nat, j: nat :| u <= bound && CoveredBy(h, n, covered, u, j);
      var g := h.leaderLogs[u];
      assert LeaderLogOk(h, t) && LeaderLogOk(h, u);
      if t < u {
        if !Has(h, u, t, k) {
          assert Overruled(h, u, t, k, bound);
        } else {
          assert p == g[..k] == covered[..k];
        }
      } else {
        LaterAgrees(h, n, u, j, t, |covered|);
        assert p == h.leaderLogs[t][..|covered|][..k] == covered[..k];
      }
    }
  }

  lemma InstallKeepsAcks(h: History, servers: seq<Server>, s: nat, covered: Log)
    requires s < |servers| && LeadersOk(h) && Complete(h, |servers|) && ServersOk(h, servers)
    requires Committed(h, |servers|, covered, servers[s].term) && covered != []
    requires LogOk(h, covered) && !KeepsConflict(servers[s].log, covered)
    ensures var x := servers[s];
            KeepsAcks(h, s, Installed(x.log, covered), x.term + 1, x.term)
  {
    var x := servers[s];
    assert ServerOk(h, |servers|, s, x) && AcksOk(h, servers, s);
    InstalledLog(h, x.log, covered);
    if Installed(x.log, covered) != x.log {
      forall t: nat, k: nat | Acked(h, s, t, k) && t < x.term + 1
        ensures Kept(h, covered, t, k, x.term)
      {
        assert Kept(h, x.log, t, k, x.term);
        KeptInCovered(h, |servers|, x.log, covered, t, k, x.term);
      }
    }
  }

  lemma InstalledCommitted(h: History, n: nat, s: nat, x: Server, covered: Log)
    requires LeadersOk(h) && ServerOk(h, n, s, x)
    requires Committed(h, n, covered, x.term) && LogOk(h, covered) && TermsUpTo(covered, x.term)
    requires !KeepsConflict(x.log, covered)
    ensures var l, c := Installed(x.log, covered), Max(x.commit, |covered|);
            LogOk(h, l) && TermsUpTo(l, x.term) && c <= |l| && Committed(h, n, l[..c], x.term)
  {
    InstalledLog(h, x.log, covered);
    var l, c := Installed(x.log, covered), Max(x.commit, |covered|);
    assert c == |covered| ==> l[..c] == covered;
  }

  lemma InstallOk(h: History, n: nat, s: nat, x: Server, covered: Log)
    requires LeadersOk(h) && Complete(h, n) && ServerOk(h, n, s, x)
    requires Committed(h, n, covered, x.term) && LogOk(h, covered) && TermsUpTo(covered, x.term)
    requires !OldSnapshot(x, covered) && !KeepsConflict(x.log, covered)
    ensures Advances(x, Install(x, covered)) && ServerOk(h, n, s, Install(x, covered))
  {
    var y := Install(x, covered);
    assert y.log == Installed(x.log, covered);
    SnapshotIsAhead(h, n, s, x, covered);
    InstalledLog(h, x.log, covered);
    InstalledCommitted(h, n, s, x, covered);
    if x.term in h.elections && h.elections[x.term].leader == s {
      CoveredByLeader(h, n, s, x, covered);
    }
  }

  lemma CondInstallStep(w: World, s: nat, m: Message)
    requires WorldOk(w) && Enabled(w, CondInstallSnapshot(s, m)) && InstallsCleanly(w, CondInstallSnapshot(s, m))
    ensures WorldOk(Take(w, CondInstallSnapshot(s, m)))
  {
    var h, n, x := w.history, |w.servers|, w.servers[s];
    if !OldSnapshot(x, m.covered) {
      assert ArrivalOk(h, w.servers, s, m);
      InstallIsGood(h, w.servers, s, m);
      InstalledWorld(w, s, Install(x, m.covered));
    }
  }

  lemma InstallIsGood(h: History, servers: seq<Server>, s: nat, m: Message)
    requires s < |servers| && HistoryOk(h, |servers|) && ServersOk(h, servers) && MessageOk(h, servers, m)
    requires m.InstallSnapshot? && m.term <= servers[s].term && servers[s].snap <= |servers[s].log|
    requires !OldSnapshot(servers[s], m.covered) && !KeepsConflict(servers[s].log, m.covered)
    ensures var x := servers[s];
            var y := Install(x, m.covered);
            && y.term == x.term && Advances(x, y) && ServerOk(h, |servers|, s, y) && KeepsAcks(h, s, y.log, y.term + 1, y.term)
  {
    var n, x := |servers|, servers[s];
    HistoryIsComplete(h, n);
    CommittedPrefix(h, n, m.covered, |m.covered|, m.term, x.term);
    assert m.covered[..|m.covered|] == m.covered;
    CommittedIsLog(h, n, m.covered, x.term);
    assert ServerOk(h, n, s, x);
    InstallOk(h, n, s, x, m.covered);
    InstallKeepsAcks(h, servers, s, m.covered);
  }

  lemma InstalledWorld(w: World, s: nat, y: Server)
    requires WorldOk(w) && s < |w.servers| && y.term == w.servers[s].term
    requires Advances(w.servers[s], y) && ServerOk(w.history, |w.servers|, s, y)
    requires KeepsAcks(w.history, s, y.log, y.term + 1, y.term)
    ensures WorldOk(Update(w, s, y))
  {
    OneServerStep(w, Update(w, s, y), s, y);
  }
}
