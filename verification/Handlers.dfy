/** What the handlers of Raft answer, and when exactly they change a server (raft/raft.go:203-224, 374-440,
  * 506-524, 620-732). */
module Handlers {
  import opened Wrappers
  import opened RaftProtocol
  import opened RaftInvariant
  import opened RaftGrowth
  import opened RaftReplication
  import opened CompactedLog
  import opened RaftNode
  import E = RaftElection
  import RaftSnapshot
  import RaftSteps
  import S = RaftSafety
  import T = RaftTheorems
  import C = Calls

  /** The follower retains the entry before those sent, or its snapshot ends there, and it has the term asked for. */
  predicate Reaches(x: Server, m: Message)
    requires m.AppendRequest?
  {
    x.snap <= m.prevIndex <= |x.log| && (m.prevIndex == 0 ==> m.prevTerm == 0)
    && (m.prevIndex > 0 ==> x.log[m.prevIndex - 1].term == m.prevTerm)
  }

  /** Each status for exactly one reason, and the term the follower had before. */
  lemma StatusExactly(x: Server, m: Message)
    requires m.AppendRequest? && x.snap <= |x.log| && ReplyTo(x, m).Some?
    ensures var r := ReplyTo(x, m).value;
            && r.term == x.term
            && (r.status == OldTerm <==> m.term < x.term)
            && (r.status == OldSnapshotReply <==> m.term >= x.term && m.prevIndex < x.snap)
            && (r.status == NotContain <==> m.term >= x.term && m.prevIndex >= x.snap && !Reaches(x, m))
            && (r.status == Success <==> m.term >= x.term && Reaches(x, m))
  {
  }

  predicate FirstInTerm(l: Log, snap: nat, term: nat, k: int) {
    snap <= k < |l| && l[k].term == term && forall j :: snap <= j < k ==> l[j].term != term
  }

  /** The hints of a NotContain: the end of a log that is too short, otherwise the term found and the first entry
    * of it that the follower retains. */
  lemma HintsExactly(x: Server, m: Message)
    requires m.AppendRequest? && x.snap <= |x.log| && Ascending(x.log)
    requires ReplyTo(x, m).Some? && ReplyTo(x, m).value.status == NotContain
    ensures var r := ReplyTo(x, m).value;
            && (m.prevIndex > |x.log| ==> r.xTerm == 0 && r.xLen == |x.log| + 1)
            && (m.prevIndex <= |x.log| ==>
                  && r.xLen == 0 && r.xTerm == TermAt(x.log, m.prevIndex)
                  && exists k :: FirstInTerm(x.log, x.snap, r.xTerm, k) && x.log[k].index == r.xIndex)
  {
    if m.prevIndex <= |x.log| {
      var k := FirstAtLeast(x.log, x.snap, TermAt(x.log, m.prevIndex)) - 1;
      assert FirstInTerm(x.log, x.snap, TermAt(x.log, m.prevIndex), k);
    }
  }

  /** A panic is possible only at the snapshot's own index. */
  lemma PanicsOnlyAtSnapshot(x: Server, m: Message)
    requires m.AppendRequest? && x.snap <= |x.log| && Ascending(x.log)
    requires m.term < x.term || m.prevIndex != x.snap || Reaches(x, m)
    ensures ReplyTo(x, m).Some?
  {
    if x.snap < m.prevIndex <= |x.log| {
      var t := x.log[m.prevIndex - 1].term;
      var i := FirstAtLeast(x.log, x.snap, t);
      assert i <= m.prevIndex;
      assert x.log[i - 1].term <= t;
    }
  }

  // ---------- in clean runs ----------

  lemma ServerInOrder(w: World, s: nat)
    requires WorldOk(w) && s < |w.servers|
    ensures ServerOk(w.history, |w.servers|, s, w.servers[s]) && LeadersOk(w.history)
    ensures w.servers[s].snap <= w.servers[s].commit <= |w.servers[s].log| && Ascending(w.servers[s].log)
  {
    assert ServerOk(w.history, |w.servers|, s, w.servers[s]);
    C.LogAscends(w.history, w.servers[s].log);
  }

  /** At its snapshot's index the follower agrees with every sender that is not behind it in term. */
  lemma SnapshotIsReached(w: World, s: nat, m: Message)
    requires WorldOk(w) && Enabled(w, HandleAppend(s, m)) && m.term >= w.servers[s].term && m.prevIndex == w.servers[s].snap
    ensures Reaches(w.servers[s], m)
  {
    var x, h, n := w.servers[s], w.history, |w.servers|;
    ServerInOrder(w, s);
    assert MessageOk(h, w.servers, m);
    HistoryIsComplete(h, n);
    LeaderHasCommitted(h, n, x.log[..x.commit], x.term, m.term);
    if x.snap > 0 {
      assert x.log[..x.commit][x.snap - 1] == h.leaderLogs[m.term][x.snap - 1];
    }
  }

  /** What one request does to the receiver, beside its log and Commit. */
  lemma StepsDown(w: World, s: nat, m: Message)
    requires Enabled(w, HandleAppend(s, m))
    ensures var x, y := w.servers[s], Take(w, HandleAppend(s, m)).servers[s];
            && y.term == Max(x.term, m.term) && y.snap == x.snap && y.lastApplied == x.lastApplied
            && (m.term > x.term ==> y.role == Follower && y.votedFor == None && y.votes == {})
            && (m.term <= x.term ==> y.role == x.role && y.votedFor == x.votedFor && y.votes == x.votes)
  {
  }

  /** In every clean run the receiver of a request does not panic. It answers Success exactly when it has what the
    * request builds on; then, and only then, if entries were sent, its match with that leader counts; and then
    * its log begins with the sender's up to the last entry sent. Otherwise its log and Commit stay. */
  lemma SuccessIsAMatch(n: nat, steps: seq<Step>, s: nat, m: Message)
    requires Run(n, steps).Some? && S.CleanRun(n, steps) && Enabled(Run(n, steps).value, HandleAppend(s, m))
    ensures var w := Run(n, steps).value;
            var x := w.servers[s];
            x.snap <= |x.log| && m.term in w.history.leaderLogs && ReplyTo(x, m).Some?
            && MatchesExactly(w, s, m, ReplyTo(x, m).value)
  {
    S.RunKeeps(n, steps);
    AnswerInWorld(Run(n, steps).value, s, m);
  }

  ghost predicate MatchesExactly(w: World, s: nat, m: Message, r: Reply)
    requires Enabled(w, HandleAppend(s, m)) && m.term in w.history.leaderLogs
  {
    var x, t, v := w.servers[s], w.history.leaderLogs[m.term], Take(w, HandleAppend(s, m));
    var y, last := v.servers[s], m.prevIndex + |m.entries|;
    && r.term == x.term
    && (r.status == Success <==> m.term >= x.term && Reaches(x, m))
    && (r.status == OldTerm <==> m.term < x.term)
    && v.messages == w.messages + (if r.status == Success && m.entries != [] then {AppendReply(m.term, s, last)} else {})
    && (r.status == Success ==> last <= |t| && t[..last] <= y.log)
    && (r.status != Success ==> y.log == x.log && y.commit == x.commit)
  }

  predicate Accepted(x: Server, m: Message)
    requires m.AppendRequest?
  {
    m.term >= x.term && Reaches(x, m)
  }

  lemma ReachesIsContains(x: Server, m: Message)
    requires m.AppendRequest?
    ensures Reaches(x, m) <==> Contains(x, m.prevIndex, m.prevTerm)
    ensures StepDown(x, m.term).log == x.log && StepDown(x, m.term).commit == x.commit
    ensures Reaches(StepDown(x, m.term), m) <==> Reaches(x, m)
  {
  }

  lemma TakesAccepted(w: World, s: nat, m: Message)
    requires Enabled(w, HandleAppend(s, m)) && Accepted(w.servers[s], m)
    ensures var x, v := w.servers[s], Take(w, HandleAppend(s, m));
            && v.servers[s].log == MergeLog(x.log, m.prevIndex, m.entries)
            && v.servers[s].commit == FollowerCommit(v.servers[s].log, x.commit, m.leaderCommit, m.commitTerm)
            && v.messages == w.messages + (if m.entries == [] then {} else {AppendReply(m.term, s, m.prevIndex + |m.entries|)})
  {
    ReachesIsContains(w.servers[s], m);
  }

  lemma TakesRefused(w: World, s: nat, m: Message)
    requires Enabled(w, HandleAppend(s, m)) && !Accepted(w.servers[s], m)
    ensures var x, v := w.servers[s], Take(w, HandleAppend(s, m));
            v.servers[s].log == x.log && v.servers[s].commit == x.commit && v.messages == w.messages
  {
    ReachesIsContains(w.servers[s], m);
  }

  /** What HandleAppend makes of an accepted request, and of any other. */
  lemma TakesRequest(w: World, s: nat, m: Message)
    requires Enabled(w, HandleAppend(s, m))
    ensures var x, v, last := w.servers[s], Take(w, HandleAppend(s, m)), m.prevIndex + |m.entries|;
            var y := v.servers[s];
            && v.messages == w.messages + (if Accepted(x, m) && m.entries != [] then {AppendReply(m.term, s, last)} else {})
            && (!Accepted(x, m) ==> y.log == x.log && y.commit == x.commit)
            && (Accepted(x, m) ==>
                  && y.log == MergeLog(x.log, m.prevIndex, m.entries)
                  && y.commit == FollowerCommit(y.log, x.commit, m.leaderCommit, m.commitTerm))
  {
    if Accepted(w.servers[s], m) {
      TakesAccepted(w, s, m);
    } else {
      TakesRefused(w, s, m);
    }
  }

  lemma AcceptedAgrees(h: History, servers: seq<Server>, s: nat, m: Message)
    requires s < |servers| && LeadersOk(h) && ServerOk(h, |servers|, s, servers[s])
    requires m.AppendRequest? && MessageOk(h, servers, m) && Reaches(servers[s], m)
    ensures var l, t, last := MergeLog(servers[s].log, m.prevIndex, m.entries), h.leaderLogs[m.term], m.prevIndex + |m.entries|;
            last <= |t| && t[..last] <= l
  {
    MergeFollowsSender(h, servers, s, m);
  }

  lemma AnswersWithoutPanic(w: World, s: nat, m: Message)
    requires WorldOk(w) && Enabled(w, HandleAppend(s, m))
    ensures w.servers[s].snap <= |w.servers[s].log| && ReplyTo(w.servers[s], m).Some?
  {
    var x := w.servers[s];
    ServerInOrder(w, s);
    if m.term >= x.term && m.prevIndex == x.snap {
      SnapshotIsReached(w, s, m);
    }
    PanicsOnlyAtSnapshot(x, m);
  }

  lemma RequestInOrder(w: World, s: nat, m: Message)
    requires WorldOk(w) && Enabled(w, HandleAppend(s, m))
    ensures LeadersOk(w.history) && ServerOk(w.history, |w.servers|, s, w.servers[s]) && MessageOk(w.history, w.servers, m)
  {
  }

  lemma AnswerInWorld(w: World, s: nat, m: Message)
    requires WorldOk(w) && Enabled(w, HandleAppend(s, m))
    ensures w.servers[s].snap <= |w.servers[s].log| && ReplyTo(w.servers[s], m).Some?
    ensures m.term in w.history.leaderLogs && MatchesExactly(w, s, m, ReplyTo(w.servers[s], m).value)
  {
    AnswersWithoutPanic(w, s, m);
    RequestInOrder(w, s, m);
    MatchInOrder(w, s, m);
  }

  lemma MatchInOrder(w: World, s: nat, m: Message)
    requires Enabled(w, HandleAppend(s, m)) && w.servers[s].snap <= |w.servers[s].log| && ReplyTo(w.servers[s], m).Some?
    requires LeadersOk(w.history) && ServerOk(w.history, |w.servers|, s, w.servers[s]) && MessageOk(w.history, w.servers, m)
    ensures m.term in w.history.leaderLogs && MatchesExactly(w, s, m, ReplyTo(w.servers[s], m).value)
  {
    StatusExactly(w.servers[s], m);
    TakesRequest(w, s, m);
    if Accepted(w.servers[s], m) {
      AcceptedAgrees(w.history, w.servers, s, m);
    }
  }

  // ---------- the CommitTerm rule, both ways ----------

  /** In every clean run: an accepted request brings Commit to the smaller of LeaderCommit and the length of the
    * follower's log, if that is ahead, exactly when the entry there is of the term of the sender's entry at
    * LeaderCommit; otherwise, and for any other request, Commit stays. */
  lemma CommitAdvancesExactly(n: nat, steps: seq<Step>, s: nat, m: Message)
    requires Run(n, steps).Some? && S.CleanRun(n, steps) && Enabled(Run(n, steps).value, HandleAppend(s, m))
    ensures m.term in Run(n, steps).value.history.leaderLogs && FollowsExactly(Run(n, steps).value, s, m)
  {
    S.RunKeeps(n, steps);
    CommitInWorld(Run(n, steps).value, s, m);
  }

  ghost predicate FollowsExactly(w: World, s: nat, m: Message)
    requires Enabled(w, HandleAppend(s, m)) && m.term in w.history.leaderLogs
  {
    var x, y, t := w.servers[s], Take(w, HandleAppend(s, m)).servers[s], w.history.leaderLogs[m.term];
    var c := if m.leaderCommit < |y.log| then m.leaderCommit else |y.log|;
    && m.leaderCommit <= |t|
    && (m.term >= x.term && Reaches(x, m) && c > x.commit && y.log[c - 1].term == t[m.leaderCommit - 1].term ==> y.commit == c)
    && (m.term >= x.term && Reaches(x, m) && c > x.commit && y.log[c - 1].term != t[m.leaderCommit - 1].term ==> y.commit == x.commit)
    && (m.term < x.term || !Reaches(x, m) || c <= x.commit ==> y.commit == x.commit)
  }

  lemma CommitInWorld(w: World, s: nat, m: Message)
    requires WorldOk(w) && Enabled(w, HandleAppend(s, m))
    ensures m.term in w.history.leaderLogs && FollowsExactly(w, s, m)
  {
    RequestInOrder(w, s, m);
    CommitSaid(w.history, w.servers, m);
    CommitInOrder(w, s, m, w.history.leaderLogs[m.term]);
  }

  lemma CommitSaid(h: History, servers: seq<Server>, m: Message)
    requires m.AppendRequest? && MessageOk(h, servers, m)
    ensures m.term in h.leaderLogs && m.leaderCommit <= |h.leaderLogs[m.term]|
    ensures TermAt(h.leaderLogs[m.term], m.leaderCommit) == m.commitTerm
  {
  }

  lemma CommitInOrder(w: World, s: nat, m: Message, t: Log)
    requires Enabled(w, HandleAppend(s, m)) && m.term in w.history.leaderLogs && w.history.leaderLogs[m.term] == t
    requires m.leaderCommit <= |t| && TermAt(t, m.leaderCommit) == m.commitTerm
    ensures FollowsExactly(w, s, m)
  {
    TakesRequest(w, s, m);
    var x, y := w.servers[s], Take(w, HandleAppend(s, m)).servers[s];
    if Accepted(x, m) {
      RuleExactly(y.log, x.commit, m.leaderCommit, t);
    }
  }

  lemma RuleExactly(l: Log, commit: nat, leaderCommit: nat, t: Log)
    requires leaderCommit <= |t|
    ensures var c := if leaderCommit < |l| then leaderCommit else |l|;
            FollowerCommit(l, commit, leaderCommit, TermAt(t, leaderCommit)) ==
            if c > commit && l[c - 1].term == t[leaderCommit - 1].term then c else commit
  {
  }

  // ---------- votes ----------

  /** A claim is as good as the voter's log: later in the last term, or equal in it and at least as long. */
  predicate AsGood(l: Log, index: nat, term: nat) {
    var last := if l == [] then 0 else l[|l| - 1].term;
    term > last || (term == last && index >= |l|)
  }

  /** A vote is granted exactly to a candidate that is not behind in term, whose claim is as good as the voter's
    * log, by a voter whose vote in that term is free or the candidate's already. Granted or not, a voter that is
    * not ahead in term is a follower of that term, and without votes of its own. */
  lemma GrantedExactly(w: World, s: nat, m: Message)
    requires Enabled(w, AnswerVote(s, m))
    ensures var x, v := w.servers[s], Take(w, AnswerVote(s, m));
            var y := v.servers[s];
            var free := m.term > x.term || x.votedFor == None || x.votedFor == Some(m.candidate);
            var granted := m.term >= x.term && free && AsGood(x.log, m.lastIndex, m.lastTerm);
            && v.messages == w.messages + (if granted then {VoteReply(m.term, s, m.candidate)} else {})
            && (E.Grants(x, m) <==> granted)
            && (granted ==> y.votedFor == Some(m.candidate))
            && (!granted ==> y.votedFor == if m.term > x.term then None else x.votedFor)
            && (m.term < x.term ==> y == x)
            && (m.term >= x.term ==> y.term == m.term && y.role == Follower && y.votes == {})
            && y.disk.votedFor == (if m.term < x.term then x.disk.votedFor else y.votedFor)
            && y.log == x.log && y.commit == x.commit && y.snap == x.snap && y.lastApplied == x.lastApplied
  {
  }

  // ---------- the leader's count ----------

  /** More than half of the servers, the leader counted like any other, and all of them have matched `k` entries. */
  ghost predicate HaveMatched(x: Server, k: nat, q: set<nat>) {
    2 * |q| > |x.matchIndex| && forall i :: i in q ==> i < |x.matchIndex| && x.matchIndex[i] >= k
  }

  ghost predicate MatchedByMajority(x: Server, k: nat) {
    exists q :: HaveMatched(x, k, q)
  }

  lemma SomeMajority(x: Server, k: nat)
    ensures MatchedByMajority(x, k) <==> IsMajority(Holders(x.matchIndex, k), |x.matchIndex|)
  {
    var all := Holders(x.matchIndex, k);
    if MatchedByMajority(x, k) {
      var q :| HaveMatched(x, k, q);
      assert q <= all;
      assert all == q + (all - q);
    }
    if IsMajority(all, |x.matchIndex|) {
      assert HaveMatched(x, k, all);
    }
  }

  /** In every clean run: a Success brings the leader's Commit to the index it reports exactly when that is ahead,
    * its entry is of the leader's own term, and a majority has matched it by now; otherwise Commit stays. */
  lemma LeaderCommitsExactly(n: nat, steps: seq<Step>, s: nat, m: Message)
    requires Run(n, steps).Some? && S.CleanRun(n, steps) && Enabled(Run(n, steps).value, HandleReply(s, m))
    ensures var w := Run(n, steps).value;
            var x, y := w.servers[s], Take(w, HandleReply(s, m)).servers[s];
            && y.matchIndex == x.matchIndex[m.follower := m.lastIndex] && y.log == x.log
            && (x.commit < m.lastIndex && x.log[m.lastIndex - 1].term == x.term && MatchedByMajority(y, m.lastIndex) ==>
                  y.commit == m.lastIndex)
            && (x.commit >= m.lastIndex || x.log[m.lastIndex - 1].term != x.term || !MatchedByMajority(y, m.lastIndex) ==>
                  y.commit == x.commit)
  {
    S.RunKeeps(n, steps);
    var w := Run(n, steps).value;
    var x, y := w.servers[s], Take(w, HandleReply(s, m)).servers[s];
    ServerInOrder(w, s);
    SomeMajority(y, m.lastIndex);
    assert x.commit < m.lastIndex ==> x.log[m.lastIndex - 1].term <= x.term;
  }

  // ---------- installing a snapshot ----------

  /** In every clean run: a snapshot that has arrived, of whatever age, is installed exactly when it covers more
    * than the server's own. The server then has its entries and, behind them, those it had; it has applied
    * what the snapshot covers, and at least that is committed. */
  lemma InstallsExactly(n: nat, steps: seq<Step>, s: nat, m: Message)
    requires Run(n, steps).Some? && S.CleanRun(n, steps) && Enabled(Run(n, steps).value, CondInstallSnapshot(s, m))
    requires InstallsCleanly(Run(n, steps).value, CondInstallSnapshot(s, m))
    ensures var w := Run(n, steps).value;
            var x, y := w.servers[s], Take(w, CondInstallSnapshot(s, m)).servers[s];
            var k := |m.covered|;
            && (k <= x.snap ==> y == x)
            && (k > x.snap ==>
                  && y.snap == k && y.lastApplied == k && y.commit == Max(x.commit, k)
                  && m.covered <= y.log && |y.log| == Max(|x.log|, k)
                  && (forall i :: k <= i < |x.log| ==> y.log[i] == x.log[i])
                  && y.disk.log == y.log && y.disk.snap == k
                  && y.term == x.term && y.votedFor == x.votedFor && y.role == x.role)
  {
    S.RunKeeps(n, steps);
    InstallInWorld(Run(n, steps).value, s, m);
  }

  lemma InstallInWorld(w: World, s: nat, m: Message)
    requires WorldOk(w) && Enabled(w, CondInstallSnapshot(s, m))
    ensures OldSnapshot(w.servers[s], m.covered) <==> |m.covered| <= w.servers[s].snap
  {
    var x, h, n := w.servers[s], w.history, |w.servers|;
    ServerInOrder(w, s);
    assert ArrivalOk(h, w.servers, s, m);
    HistoryIsComplete(h, n);
    RaftSteps.SnapshotIsCommitted(h, n, s, x);
    T.CommittedPersists(w, w, n, m.covered, m.term, x.term);
    if |m.covered| <= x.snap {
      RaftSnapshot.CommittedNest(h, n, m.covered, x.log[..x.snap], x.term);
      RaftSnapshot.CommittedTermAtMost(h, x.log, |m.covered|, x.snap);
    } else {
      RaftSnapshot.CommittedNest(h, n, x.log[..x.snap], m.covered, x.term);
      RaftSteps.CommittedIsLog(h, n, m.covered, x.term);
      RaftSnapshot.CommittedTermAtMost(h, m.covered, x.snap, |m.covered|);
    }
  }
}
