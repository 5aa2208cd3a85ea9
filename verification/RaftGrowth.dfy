/** The invariant of a Raft world, and what stays true while history grows and servers advance. */
module RaftGrowth {
  import opened Wrappers
  import opened RaftProtocol
  import opened RaftInvariant

  // ---------- the invariant ----------

  /** Counted votes are ballots cast in the server's term. */
  ghost predicate VotesOk(h: History, s: nat, x: Server) {
    forall v :: v in x.votes ==> (v, x.term) in h.ballots && h.ballots[(v, x.term)].candidate == s
  }

  /** The election being counted began with a vote for itself. */
  ghost predicate TallyOk(h: History, s: nat, x: Server) {
    x.tally.Some? ==>
      var t := x.tally.value.term; t <= x.term && (s, t) in h.ballots && h.ballots[(s, t)].candidate == s
  }

  /** A leader has its own log, and knows of its followers only what is acknowledged or committed. */
  ghost predicate LeaderOk(h: History, s: nat, x: Server) {
    && x.term in h.elections && x.term in h.leaderLogs
    && h.elections[x.term].leader == s && h.leaderLogs[x.term] == x.log
    && (forall q: nat :: q < |x.matchIndex| ==> x.matchIndex[q] <= x.commit || Acked(h, q, x.term, x.matchIndex[q]))
  }

  /** persist() has been called since the last change that matters. */
  ghost predicate DiskOk(x: Server) {
    && x.disk.term == x.term && x.disk.votedFor == x.votedFor && x.disk.log == x.log && x.disk.snap == x.snap
    && x.snap <= x.disk.commit <= x.commit
  }

  /** The terms this server has won are not ahead of it, and while it is in one its log is that leader's. */
  ghost predicate OwnTermsOk(h: History, s: nat, x: Server) {
    forall t :: t in h.elections && h.elections[t].leader == s ==>
                  t <= x.term && (t == x.term ==> t in h.leaderLogs && h.leaderLogs[t] == x.log)
  }

  ghost predicate ServerOk(h: History, n: nat, s: nat, x: Server) {
    && LogOk(h, x.log) && TermsUpTo(x.log, x.term)
    && x.snap <= x.lastApplied <= x.commit <= |x.log|
    && Committed(h, n, x.log[..x.commit], x.term)
    && |x.matchIndex| == n
    && (x.role == Leader ==> LeaderOk(h, s, x))
    && VotesOk(h, s, x) && TallyOk(h, s, x)
    && (x.role == Candidate ==> s in x.votes)
    && OwnTermsOk(h, s, x)
    && DiskOk(x)
  }

  ghost predicate ClaimStands(x: Server, index: nat, term: nat) {
    index <= x.snap <= |x.log| && TermAt(x.log, index) == term
  }

  ghost predicate BallotOk(h: History, servers: seq<Server>, v: nat, term: nat)
    requires (v, term) in h.ballots
  {
    var b := h.ballots[(v, term)];
    && v < |servers| && 1 <= term <= servers[v].term
    && (term == servers[v].term ==> servers[v].votedFor == Some(b.candidate))
    && b.candidate < |servers| && term <= servers[b.candidate].term
    && BallotFair(v, b)
    && (v != b.candidate ==> ClaimStands(servers[b.candidate], b.lastIndex, b.lastTerm))
    && LogOk(h, b.log)
    && KeepsAcks(h, v, b.log, term, term)
  }

  ghost predicate MessageOk(h: History, servers: seq<Server>, m: Message) {
    match m
    case VoteRequest(t, c, i, lt) => c < |servers| && 1 <= t <= servers[c].term && ClaimStands(servers[c], i, lt)
    case VoteReply(t, v, c) => v != c && (v, t) in h.ballots && h.ballots[(v, t)].candidate == c
    case AppendRequest(t, l, prev, pt, es, lc, ct) =>
      && t in h.leaderLogs && t in h.elections && h.elections[t].leader == l
      && prev + |es| <= |h.leaderLogs[t]| && es == h.leaderLogs[t][prev..prev + |es|] && TermAt(h.leaderLogs[t], prev) == pt
      && lc <= |h.leaderLogs[t]| && TermAt(h.leaderLogs[t], lc) == ct
      && Committed(h, |servers|, h.leaderLogs[t][..lc], t)
    case AppendReply(t, q, last) => q < |servers| && Acked(h, q, t, last)
    case InstallSnapshot(t, l, covered) => Committed(h, |servers|, covered, t)
  }

  /** The entry is one that some leader has committed at that index. */
  ghost predicate AppliedOk(h: History, n: nat, i: nat, e: Entry) {
    exists term: nat, k: nat :: IsCommittedEntry(h, n, i, e, term, k)
  }

  ghost predicate IsCommittedEntry(h: History, n: nat, i: nat, e: Entry, term: nat, k: nat) {
    CommittedAt(h, n, term, k) && 1 <= i <= k && h.leaderLogs[term][i - 1] == e
  }

  ghost predicate AcksOk(h: History, servers: seq<Server>, q: nat) {
    q < |servers| ==> KeepsAcks(h, q, servers[q].log, servers[q].term + 1, servers[q].term)
  }

  ghost predicate AckTermOk(h: History, servers: seq<Server>, q: nat, term: nat) {
    (q, term) in h.acked ==> q < |servers| && term <= servers[q].term
  }

  ghost predicate ServersOk(h: History, servers: seq<Server>) {
    && (forall s: nat :: s < |servers| ==> ServerOk(h, |servers|, s, servers[s]))
    && (forall s: nat :: AcksOk(h, servers, s))
    && (forall q, term :: AckTermOk(h, servers, q, term))
  }

  ghost predicate BallotsOk(h: History, servers: seq<Server>) {
    forall v, term :: (v, term) in h.ballots ==> BallotOk(h, servers, v, term)
  }

  ghost predicate MessagesOk(h: History, servers: seq<Server>, messages: set<Message>) {
    forall m :: m in messages ==> MessageOk(h, servers, m)
  }

  ghost predicate AllAppliedOk(h: History, n: nat, applied: set<(nat, nat, Entry)>) {
    forall s, i, e :: (s, i, e) in applied ==> AppliedOk(h, n, i, e)
  }

  /** A snapshot that has reached a server is no newer than it. */
  ghost predicate ArrivalOk(h: History, servers: seq<Server>, s: nat, m: Message) {
    s < |servers| && m.InstallSnapshot? && m.term <= servers[s].term && MessageOk(h, servers, m)
  }

  ghost predicate ArrivalsOk(h: History, servers: seq<Server>, arrived: set<(nat, Message)>) {
    forall s: nat, m :: (s, m) in arrived ==> ArrivalOk(h, servers, s, m)
  }

  ghost predicate WorldOk(w: World) {
    && HistoryOk(w.history, |w.servers|)
    && ServersOk(w.history, w.servers)
    && BallotsOk(w.history, w.servers)
    && MessagesOk(w.history, w.servers, w.messages)
    && AllAppliedOk(w.history, |w.servers|, w.applied)
    && ArrivalsOk(w.history, w.servers, w.arrived)
  }

  // ---------- growing history ----------

  /** `b` continues `a`, and what is new in it was added on behalf of server `s`, in term `term`. */
  ghost predicate Extends(a: History, b: History, s: nat, term: nat) {
    && (forall t :: t in a.elections ==> t in b.elections && b.elections[t] == a.elections[t])
    && (forall t :: t in b.elections && t !in a.elections ==> t == term && b.elections[t].leader == s)
    && (forall t :: t in a.leaderLogs ==> t in b.leaderLogs && a.leaderLogs[t] <= b.leaderLogs[t])
    && (forall t :: t in a.leaderLogs && t != term ==> b.leaderLogs[t] == a.leaderLogs[t])
    && (forall q, t :: (q, t) in a.acked ==> (q, t) in b.acked && a.acked[(q, t)] <= b.acked[(q, t)])
    && (forall q: nat, t: nat, k: nat :: Acked(b, q, t, k) && !Acked(a, q, t, k) ==> q == s && t == term)
    && (forall q, t :: (q, t) in b.acked && (q, t) !in a.acked ==> q == s && t == term)
    && (forall v, t :: (v, t) in a.ballots ==> (v, t) in b.ballots && b.ballots[(v, t)] == a.ballots[(v, t)])
    && (forall v, t :: (v, t) in b.ballots && (v, t) !in a.ballots ==> v == s && t == term)
  }

  lemma LogGrows(a: History, b: History, s: nat, term: nat, l: Log)
    requires Extends(a, b, s, term) && LogOk(a, l)
    ensures LogOk(b, l)
  {
    forall i: nat | i < |l|
      ensures EntryOk(b, l, i)
    {
      assert EntryOk(a, l, i);
      var t := l[i].term;
      assert a.leaderLogs[t][..i + 1] == b.leaderLogs[t][..i + 1];
    }
  }

  lemma AckedGrows(a: History, b: History, s: nat, term: nat, q: nat, t: nat, k: nat)
    requires Extends(a, b, s, term) && Acked(a, q, t, k)
    ensures Acked(b, q, t, k)
  {
  }

  lemma CommittedAtGrows(a: History, b: History, s: nat, term: nat, n: nat, t: nat, k: nat)
    requires Extends(a, b, s, term) && CommittedAt(a, n, t, k)
    ensures CommittedAt(b, n, t, k)
    ensures forall i :: 0 <= i <= k ==> a.leaderLogs[t][..i] == b.leaderLogs[t][..i]
  {
    var q :| Quorum(a, n, t, k, q);
    assert Quorum(b, n, t, k, q);
  }

  lemma CommittedGrows(a: History, b: History, s: nat, term: nat, n: nat, l: Log, bound: nat, more: nat)
    requires Extends(a, b, s, term) && Committed(a, n, l, bound) && bound <= more
    ensures Committed(b, n, l, more)
  {
    if l != [] {
      var t: nat, k: nat :| t <= bound && CoveredBy(a, n, l, t, k);
      CommittedAtGrows(a, b, s, term, n, t, k);
      assert CoveredBy(b, n, l, t, k);
    }
  }

  lemma KeptGrows(a: History, b: History, s: nat, term: nat, l: Log, t: nat, k: nat, bound: int, more: int)
    requires Extends(a, b, s, term) && Kept(a, l, t, k, bound) && bound <= more
    ensures Kept(b, l, t, k, more)
  {
    assert a.leaderLogs[t][..k] == b.leaderLogs[t][..k];
    if !(a.leaderLogs[t][..k] <= l) {
      var later :| Overruled(a, later, t, k, bound);
      assert Overruled(b, later, t, k, more);
    }
  }

  /** Nothing new has been acknowledged before term `before`. */
  lemma KeepsAcksGrows(a: History, b: History, s: nat, term: nat, q: nat, l: Log, before: int, bound: int, more: int)
    requires Extends(a, b, s, term) && KeepsAcks(a, q, l, before, bound) && bound <= more
    requires q != s || before <= term
    ensures KeepsAcks(b, q, l, before, more)
  {
    forall t: nat, k: nat | Acked(b, q, t, k) && t < before
      ensures Kept(b, l, t, k, more)
    {
      assert Acked(a, q, t, k);
      assert Kept(a, l, t, k, bound);
      KeptGrows(a, b, s, term, l, t, k, bound, more);
    }
  }

  lemma VoterGrows(a: History, b: History, s: nat, term: nat, n: nat, t: nat, v: nat)
    requires Extends(a, b, s, term) && t in a.elections && v in a.elections[t].ballots && VoterOk(a, n, t, v)
    requires v != s || t <= term
    ensures VoterOk(b, n, t, v)
  {
    LogGrows(a, b, s, term, a.elections[t].ballots[v].log);
    KeepsAcksGrows(a, b, s, term, v, a.elections[t].ballots[v].log, t, t - 1, t - 1);
  }

  lemma AppliedGrows(a: History, b: History, s: nat, term: nat, n: nat, i: nat, e: Entry)
    requires Extends(a, b, s, term) && AppliedOk(a, n, i, e)
    ensures AppliedOk(b, n, i, e)
  {
    var t: nat, k: nat :| IsCommittedEntry(a, n, i, e, t, k);
    CommittedAtGrows(a, b, s, term, n, t, k);
    assert a.leaderLogs[t][..k][i - 1] == b.leaderLogs[t][..k][i - 1];
    assert IsCommittedEntry(b, n, i, e, t, k);
  }

  /** Only the log of leader `s` has grown. */
  ghost predicate LeaderLogsOf(a: History, b: History, s: nat) {
    forall t :: t in a.leaderLogs && t in a.elections && a.elections[t].leader != s ==>
                  t in b.leaderLogs && b.leaderLogs[t] == a.leaderLogs[t]
  }

  // ---------- advancing servers ----------

  /** Terms, votes within a term, and what the snapshot covers are never taken back. */
  ghost predicate Advances(x: Server, y: Server) {
    && x.term <= y.term
    && (x.term == y.term && x.votedFor.Some? ==> y.votedFor == x.votedFor)
    && x.snap <= y.snap <= |y.log|
    && (x.snap <= |x.log| ==> y.log[..x.snap] == x.log[..x.snap])
  }

  lemma ClaimAdvances(x: Server, y: Server, index: nat, term: nat)
    requires Advances(x, y) && ClaimStands(x, index, term)
    ensures ClaimStands(y, index, term)
  {
    if index > 0 {
      assert x.log[index - 1] == x.log[..x.snap][index - 1] == y.log[..x.snap][index - 1] == y.log[index - 1];
    }
  }

  /** A server that does nothing stays in order. */
  lemma IdleServer(a: History, b: History, s: nat, term: nat, n: nat, q: nat, x: Server)
    requires Extends(a, b, s, term) && q != s && ServerOk(a, n, q, x)
    requires LeaderLogsOf(a, b, s)
    ensures ServerOk(b, n, q, x)
  {
    LogGrows(a, b, s, term, x.log);
    CommittedGrows(a, b, s, term, n, x.log[..x.commit], x.term, x.term);
    if x.role == Leader {
      forall r: nat | r < |x.matchIndex|
        ensures x.matchIndex[r] <= x.commit || Acked(b, r, x.term, x.matchIndex[r])
      {
        if x.matchIndex[r] > x.commit {
          AckedGrows(a, b, s, term, r, x.term, x.matchIndex[r]);
        }
      }
    }
  }

  lemma BallotAdvances(a: History, b: History, s: nat, term: nat, servers: seq<Server>, y: Server, v: nat, t: nat)
    requires s < |servers| && Extends(a, b, s, term) && Advances(servers[s], y) && y.term == term
    requires (v, t) in a.ballots && BallotOk(a, servers, v, t)
    ensures BallotOk(b, servers[s := y], v, t)
  {
    var c := a.ballots[(v, t)];
    LogGrows(a, b, s, term, c.log);
    KeepsAcksGrows(a, b, s, term, v, c.log, t, t, t);
    if v != c.candidate && c.candidate == s {
      ClaimAdvances(servers[s], y, c.lastIndex, c.lastTerm);
    }
  }

  lemma RequestAdvances(a: History, b: History, s: nat, term: nat, servers: seq<Server>, y: Server, m: Message)
    requires s < |servers| && Extends(a, b, s, term) && m.AppendRequest? && MessageOk(a, servers, m)
    ensures MessageOk(b, servers[s := y], m)
  {
    var p, q := a.leaderLogs[m.term], b.leaderLogs[m.term];
    var last := m.prevIndex + |m.entries|;
    assert p[m.prevIndex..last] == q[m.prevIndex..last];
    assert p[..m.leaderCommit] == q[..m.leaderCommit];
    CommittedGrows(a, b, s, term, |servers|, p[..m.leaderCommit], m.term, m.term);
  }

  lemma MessageAdvances(a: History, b: History, s: nat, term: nat, servers: seq<Server>, y: Server, m: Message)
    requires s < |servers| && Extends(a, b, s, term) && Advances(servers[s], y) && MessageOk(a, servers, m)
    ensures MessageOk(b, servers[s := y], m)
  {
    match m
    case VoteRequest(t, c, i, lt) =>
      if c == s {
        ClaimAdvances(servers[s], y, i, lt);
      }
    case VoteReply(t, v, c) =>
    case AppendRequest(t, l, prev, pt, es, lc, ct) => RequestAdvances(a, b, s, term, servers, y, m);
    case AppendReply(t, q, last) => AckedGrows(a, b, s, term, q, t, last);
    case InstallSnapshot(t, l, covered) => CommittedGrows(a, b, s, term, |servers|, covered, t, t);
  }

  // ---------- one server takes a step ----------

  /** What is to be shown of a step in which server `s` becomes `y`. */
  ghost predicate GoodStep(w: World, v: World, s: nat, y: Server) {
    && s < |w.servers| && v.servers == w.servers[s := y]
    && Extends(w.history, v.history, s, y.term) && LeaderLogsOf(w.history, v.history, s)
    && Advances(w.servers[s], y)
    && ServerOk(v.history, |w.servers|, s, y)
    && KeepsAcks(v.history, s, y.log, y.term + 1, y.term)
  }

  ghost predicate GoodHistory(w: World, v: World) {
    && LeadersOk(v.history)
    && (forall t :: t in v.history.elections && t !in w.history.elections ==> NewElectionOk(v.history, |w.servers|, t))
  }

  ghost predicate NewElectionOk(h: History, n: nat, t: nat)
    requires t in h.elections
  {
    && 1 <= t
    && h.elections[t].leader < n
    && IsMajority(h.elections[t].ballots.Keys, n)
    && (forall v {:trigger VoterOk(h, n, t, v)} :: v in h.elections[t].ballots ==> VoterOk(h, n, t, v))
  }

  ghost predicate GoodNews(w: World, v: World) {
    && (forall q, t :: (q, t) in v.history.ballots && (q, t) !in w.history.ballots ==> BallotOk(v.history, v.servers, q, t))
    && (forall m :: m in v.messages && m !in w.messages ==> MessageOk(v.history, v.servers, m))
    && (forall s, i, e :: (s, i, e) in v.applied && (s, i, e) !in w.applied ==> AppliedOk(v.history, |v.servers|, i, e))
    && v.arrived <= w.arrived
  }

  lemma ElectionsStay(w: World, v: World, s: nat, y: Server)
    requires HistoryOk(w.history, |w.servers|) && BallotsOk(w.history, w.servers) && GoodStep(w, v, s, y) && GoodHistory(w, v)
    ensures HistoryOk(v.history, |v.servers|)
  {
    var a, b, n := w.history, v.history, |w.servers|;
    forall t | t in b.elections
      ensures NewElectionOk(b, n, t)
    {
      if t in a.elections {
        forall q | q in b.elections[t].ballots
          ensures VoterOk(b, n, t, q)
        {
          assert VoterOk(a, n, t, q);
          assert BallotOk(a, w.servers, q, t);
          VoterGrows(a, b, s, y.term, n, t, q);
        }
      }
    }
  }

  lemma ServersStay(w: World, v: World, s: nat, y: Server)
    requires GoodStep(w, v, s, y) && ServersOk(w.history, w.servers)
    ensures ServersOk(v.history, v.servers)
  {
    forall q: nat | q < |v.servers|
      ensures ServerOk(v.history, |v.servers|, q, v.servers[q]) && AcksOk(v.history, v.servers, q)
    {
      if q != s {
        var x := w.servers[q];
        assert AcksOk(w.history, w.servers, q);
        IdleServer(w.history, v.history, s, y.term, |w.servers|, q, x);
        KeepsAcksGrows(w.history, v.history, s, y.term, q, x.log, x.term + 1, x.term, x.term);
      }
    }
    forall q, t
      ensures AckTermOk(v.history, v.servers, q, t)
    {
      assert AckTermOk(w.history, w.servers, q, t);
    }
  }

  lemma BallotsStay(w: World, v: World, s: nat, y: Server)
    requires GoodStep(w, v, s, y) && BallotsOk(w.history, w.servers)
    requires forall q, t :: (q, t) in v.history.ballots && (q, t) !in w.history.ballots ==> BallotOk(v.history, v.servers, q, t)
    ensures BallotsOk(v.history, v.servers)
  {
    forall q, t | (q, t) in v.history.ballots
      ensures BallotOk(v.history, v.servers, q, t)
    {
      if (q, t) in w.history.ballots {
        BallotAdvances(w.history, v.history, s, y.term, w.servers, y, q, t);
      }
    }
  }

  lemma MessagesStay(w: World, v: World, s: nat, y: Server)
    requires GoodStep(w, v, s, y) && MessagesOk(w.history, w.servers, w.messages)
    requires forall m :: m in v.messages && m !in w.messages ==> MessageOk(v.history, v.servers, m)
    ensures MessagesOk(v.history, v.servers, v.messages)
  {
    forall m | m in v.messages
      ensures MessageOk(v.history, v.servers, m)
    {
      if m in w.messages {
        MessageAdvances(w.history, v.history, s, y.term, w.servers, y, m);
      }
    }
  }

  lemma AppliedStays(w: World, v: World, s: nat, y: Server)
    requires GoodStep(w, v, s, y) && AllAppliedOk(w.history, |w.servers|, w.applied)
    requires forall k, i, e :: (k, i, e) in v.applied && (k, i, e) !in w.applied ==> AppliedOk(v.history, |v.servers|, i, e)
    ensures AllAppliedOk(v.history, |v.servers|, v.applied)
  {
    forall k, i, e | (k, i, e) in v.applied
      ensures AppliedOk(v.history, |v.servers|, i, e)
    {
      if (k, i, e) in w.applied {
        AppliedGrows(w.history, v.history, s, y.term, |w.servers|, i, e);
      }
    }
  }

  lemma ArrivalsStay(w: World, v: World, s: nat, y: Server)
    requires GoodStep(w, v, s, y) && ArrivalsOk(w.history, w.servers, w.arrived) && v.arrived <= w.arrived
    ensures ArrivalsOk(v.history, v.servers, v.arrived)
  {
    forall q: nat, m | (q, m) in v.arrived
      ensures ArrivalOk(v.history, v.servers, q, m)
    {
      assert ArrivalOk(w.history, w.servers, q, m);
      MessageAdvances(w.history, v.history, s, y.term, w.servers, y, m);
    }
  }

  lemma OneServerStep(w: World, v: World, s: nat, y: Server)
    requires WorldOk(w) && GoodStep(w, v, s, y) && GoodHistory(w, v) && GoodNews(w, v)
    ensures WorldOk(v)
  {
    ElectionsStay(w, v, s, y);
    ServersStay(w, v, s, y);
    BallotsStay(w, v, s, y);
    MessagesStay(w, v, s, y);
    AppliedStays(w, v, s, y);
    ArrivalsStay(w, v, s, y);
  }
}
