/** Appending, merging, committing by the CommitTerm rule and installing snapshots keep the invariant
  * (extended Raft paper, sections 5.3, 5.4 and 7). */
module RaftReplication {
  import opened Wrappers
  import opened RaftProtocol
  import opened RaftInvariant
  import opened RaftGrowth
  import opened RaftSteps

  // ---------- the leader appends ----------

  function Appended(s: nat, x: Server, data: seq<int>): Server {
    var l := x.log + [Entry(x.term, |x.log| + 1, data)];
    Persist(x.(log := l, matchIndex := if s < |x.matchIndex| then x.matchIndex[s := |l|] else x.matchIndex))
  }

  function AppendedHistory(h: History, s: nat, x: Server, l: Log): History {
    Ack(Lead(h, x.term, l), s, x.term, |l|)
  }

  lemma AckExtends(h: History, s: nat, term: nat, k: nat)
    ensures Extends(h, Ack(h, s, term, k), s, term) && LeaderLogsOf(h, Ack(h, s, term, k), s)
    ensures Acked(Ack(h, s, term, k), s, term, k)
    ensures forall t: nat, j: nat :: Acked(Ack(h, s, term, k), s, t, j) && !Acked(h, s, t, j) ==> t == term && j <= k
  {
  }

  lemma LeadExtends(h: History, s: nat, term: nat, l: Log)
    requires term in h.elections && h.elections[term].leader == s
    requires term in h.leaderLogs && h.leaderLogs[term] <= l
    ensures Extends(h, Lead(h, term, l), s, term) && LeaderLogsOf(h, Lead(h, term, l), s)
  {
  }

  lemma AppendExtends(h: History, s: nat, x: Server, l: Log)
    requires x.term in h.elections && h.elections[x.term].leader == s
    requires x.term in h.leaderLogs && h.leaderLogs[x.term] <= l
    ensures Extends(h, AppendedHistory(h, s, x, l), s, x.term) && LeaderLogsOf(h, AppendedHistory(h, s, x, l), s)
  {
    LeadExtends(h, s, x.term, l);
    AckExtends(Lead(h, x.term, l), s, x.term, |l|);
  }

  lemma AppendedLogOk(h: History, b: History, s: nat, x: Server, l: Log, e: Entry)
    requires Extends(h, b, s, x.term) && LogOk(h, x.log) && l == x.log + [e]
    requires 1 <= x.term && x.term in b.leaderLogs && b.leaderLogs[x.term] == l && e.term == x.term && e.index == |l|
    ensures LogOk(b, l)
  {
    LogGrows(h, b, s, x.term, x.log);
    forall i: nat | i < |l|
      ensures EntryOk(b, l, i)
    {
      if i < |x.log| {
        assert EntryOk(b, x.log, i);
        assert l[..i + 1] == x.log[..i + 1];
      }
    }
  }

  lemma AppendLeadersOk(h: History, n: nat, s: nat, x: Server, e: Entry)
    requires LeadersOk(h) && ServerOk(h, n, s, x) && x.role == Leader && 1 <= x.term
    requires e.term == x.term && e.index == |x.log| + 1
    ensures LeadersOk(AppendedHistory(h, s, x, x.log + [e]))
    ensures LogOk(AppendedHistory(h, s, x, x.log + [e]), x.log + [e])
  {
    var l := x.log + [e];
    var b := AppendedHistory(h, s, x, l);
    AppendExtends(h, s, x, l);
    AppendedLogOk(h, b, s, x, l, e);
    forall t | t in b.elections
      ensures LeaderLogOk(b, t)
    {
      assert LeaderLogOk(h, t);
      if t != x.term {
        LogGrows(h, b, s, x.term, h.leaderLogs[t]);
      }
    }
  }

  lemma AppendedKeeps(h: History, servers: seq<Server>, s: nat, e: Entry)
    requires s < |servers| && ServersOk(h, servers) && servers[s].role == Leader
    ensures var x := servers[s];
            KeepsAcks(AppendedHistory(h, s, x, x.log + [e]), s, x.log + [e], x.term + 1, x.term)
  {
    var x := servers[s];
    var l := x.log + [e];
    var b := AppendedHistory(h, s, x, l);
    assert ServerOk(h, |servers|, s, x) && AcksOk(h, servers, s);
    AppendExtends(h, s, x, l);
    forall t: nat, k: nat | Acked(b, s, t, k) && t < x.term + 1
      ensures Kept(b, l, t, k, x.term)
    {
      if Acked(h, s, t, k) {
        assert Kept(h, x.log, t, k, x.term);
        KeptGrows(h, b, s, x.term, x.log, t, k, x.term, x.term);
        assert x.log <= l;
      } else {
        AckExtends(Lead(h, x.term, l), s, x.term, |l|);
      }
    }
  }

  lemma AppendedLeaderOk(h: History, s: nat, x: Server, data: seq<int>)
    requires LeaderOk(h, s, x)
    ensures var y := Appended(s, x, data);
            LeaderOk(AppendedHistory(h, s, x, y.log), s, y)
  {
    var y := Appended(s, x, data);
    var b := AppendedHistory(h, s, x, y.log);
    AppendExtends(h, s, x, y.log);
    AckExtends(Lead(h, x.term, y.log), s, x.term, |y.log|);
    forall q: nat | q < |y.matchIndex|
      ensures y.matchIndex[q] <= y.commit || Acked(b, q, y.term, y.matchIndex[q])
    {
      if q != s && x.matchIndex[q] > x.commit {
        AckedGrows(h, b, s, x.term, q, x.term, x.matchIndex[q]);
      }
    }
  }

  lemma AppendedCommitted(h: History, n: nat, s: nat, x: Server, l: Log)
    requires ServerOk(h, n, s, x) && x.role == Leader && x.log <= l
    ensures Committed(AppendedHistory(h, s, x, l), n, l[..x.commit], x.term)
  {
    AppendExtends(h, s, x, l);
    CommittedGrows(h, AppendedHistory(h, s, x, l), s, x.term, n, x.log[..x.commit], x.term, x.term);
    assert l[..x.commit] == x.log[..x.commit];
  }

  lemma AppendedOk(h: History, n: nat, s: nat, x: Server, data: seq<int>)
    requires LeadersOk(h) && ServerOk(h, n, s, x) && x.role == Leader && 1 <= x.term
    ensures var y := Appended(s, x, data);
            Advances(x, y) && ServerOk(AppendedHistory(h, s, x, y.log), n, s, y)
  {
    var y := Appended(s, x, data);
    AppendLeadersOk(h, n, s, x, Entry(x.term, |x.log| + 1, data));
    AppendedCommitted(h, n, s, x, y.log);
    AppendedLeaderOk(h, s, x, data);
    assert y.log[..x.snap] == x.log[..x.snap];
  }

  lemma StartStep(w: World, s: nat, data: seq<int>)
    requires WorldOk(w) && Enabled(w, Start(s, data))
    ensures WorldOk(Take(w, Start(s, data)))
  {
    var x, n, h, v := w.servers[s], |w.servers|, w.history, Take(w, Start(s, data));
    var y := Appended(s, x, data);
    LeaderTermPositive(h, n, s, x);
    AppendedOk(h, n, s, x, data);
    AppendLeadersOk(h, n, s, x, Entry(x.term, |x.log| + 1, data));
    AppendedKeeps(h, w.servers, s, Entry(x.term, |x.log| + 1, data));
    AppendExtends(h, s, x, y.log);
    OneServerStep(w, v, s, y);
  }

  lemma LeaderTermPositive(h: History, n: nat, s: nat, x: Server)
    requires ElectionsOk(h, n) && ServerOk(h, n, s, x) && x.role == Leader
    ensures 1 <= x.term
  {
  }

  // ---------- the follower merges ----------

  /** `p` is a common beginning of two logs. */
  ghost predicate Shared(p: Log, l: Log, t: Log) {
    p <= l && p <= t
  }

  /** `m` begins with all that `l` and `t` share. */
  ghost predicate KeepsShared(l: Log, t: Log, m: Log) {
    forall p: Log {:trigger Shared(p, l, t)} :: Shared(p, l, t) ==> p <= m
  }

  /** The request describes the log `t`, and builds on an entry that both have. */
  ghost predicate Describes(t: Log, prev: nat, es: seq<Entry>) {
    prev + |es| <= |t| && es == t[prev..prev + |es|]
  }

  lemma TermsAgreeUpToConflict(l: Log, t: Log, prev: nat, es: seq<Entry>)
    requires Describes(t, prev, es) && prev <= |l| && TermAt(l, prev) == TermAt(t, prev)
    ensures var c := Min(prev + FirstConflict(l, prev, es, 0), |l|);
            c <= |t| && TermAt(l, c) == TermAt(t, c)
    ensures var k := FirstConflict(l, prev, es, 0);
            k < |es| ==> prev + k < |l| && l[prev + k] != t[prev + k]
  {
    var k := FirstConflict(l, prev, es, 0);
    var c := Min(prev + k, |l|);
    if c > prev {
      assert es[c - 1 - prev] == t[c - 1];
    }
  }

  /** Up to the first conflict the follower agrees with the leader. */
  lemma AgreesUpToConflict(h: History, l: Log, t: Log, prev: nat, es: seq<Entry>)
    requires LogOk(h, l) && LogOk(h, t) && Describes(t, prev, es)
    requires prev <= |l| && TermAt(l, prev) == TermAt(t, prev)
    ensures var c := Min(prev + FirstConflict(l, prev, es, 0), |l|);
            c <= |t| && l[..c] == t[..c]
  {
    TermsAgreeUpToConflict(l, t, prev, es);
    var c := Min(prev + FirstConflict(l, prev, es, 0), |l|);
    if c > 0 {
      SameTermSamePrefix(h, l, t, c);
    }
  }

  lemma SharedIndex(p: Log, l: Log, t: Log, i: nat)
    requires Shared(p, l, t)
    ensures i < |p| ==> i < |l| && i < |t| && l[i] == t[i]
  {
  }

  /** After the two loops of AppendEntries the follower has the leader's entries up to the last one
    * sent, and nothing that agreed with the leader has been removed. */
  lemma MergeFollowsLeader(h: History, l: Log, t: Log, prev: nat, es: seq<Entry>)
    requires LogOk(h, l) && LogOk(h, t) && Describes(t, prev, es)
    requires prev <= |l| && TermAt(l, prev) == TermAt(t, prev)
    ensures var m := MergeLog(l, prev, es);
            var last := prev + |es|;
            && t[..last] <= m && (m == l || m == t[..last]) && KeepsShared(l, t, m)
  {
    var m, last, k := MergeLog(l, prev, es), prev + |es|, FirstConflict(l, prev, es, 0);
    AgreesUpToConflict(h, l, t, prev, es);
    TermsAgreeUpToConflict(l, t, prev, es);
    if k < |es| {
      assert es[k..] == t[prev + k..last];
      assert m == t[..last];
    } else if last <= |l| {
      assert l[..last] == t[..last];
    } else {
      assert es[|l| - prev..] == t[|l|..last];
      assert l == l[..|l|] == t[..|l|];
      assert m == t[..last];
    }
    forall p: Log {:trigger Shared(p, l, t)} | Shared(p, l, t)
      ensures p <= m
    {
      SharedIndex(p, l, t, prev + k);
      assert m == t[..last] ==> p == t[..|p|] == t[..last][..|p|];
    }
  }

  /** The merged log is again one, with terms up to that of the leader. */
  lemma MergedOk(h: History, l: Log, prev: nat, es: seq<Entry>, term: nat)
    requires LeadersOk(h) && LogOk(h, l) && TermsUpTo(l, term) && term in h.elections
    requires prev <= |l| && Describes(h.leaderLogs[term], prev, es) && TermAt(l, prev) == TermAt(h.leaderLogs[term], prev)
    ensures LogOk(h, MergeLog(l, prev, es)) && TermsUpTo(MergeLog(l, prev, es), term)
  {
    LeaderTerms(h, term);
    MergeFollowsLeader(h, l, h.leaderLogs[term], prev, es);
    PrefixIsLog(h, h.leaderLogs[term], prev + |es|);
  }

  lemma LeaderTerms(h: History, term: nat)
    requires LeadersOk(h) && term in h.elections
    ensures LogOk(h, h.leaderLogs[term]) && TermsUpTo(h.leaderLogs[term], term)
  {
    assert LeaderLogOk(h, term);
    forall i | 0 <= i < |h.leaderLogs[term]|
      ensures h.leaderLogs[term][i].term <= term
    {
      OwnTermAfterElection(h, term, i);
    }
  }

  /** A kept prefix of leader `t` stays kept when the log is merged with that of the leader of `term`. */
  lemma KeptThroughMerge(h: History, l: Log, m: Log, t: nat, k: nat, bound: nat, term: nat)
    requires LeadersOk(h) && Kept(h, l, t, k, bound) && bound <= term && t <= term && term in h.elections
    requires KeepsShared(l, h.leaderLogs[term], m)
    ensures Kept(h, m, t, k, term)
  {
    var p := h.leaderLogs[t][..k];
    if p <= l {
      if t < term && !Has(h, term, t, k) {
        assert Overruled(h, term, t, k, term);
      } else {
        assert LeaderLogOk(h, term);
        assert Shared(p, l, h.leaderLogs[term]);
      }
    } else {
      var later :| Overruled(h, later, t, k, bound);
      assert Overruled(h, later, t, k, term);
    }
  }

  /** A committed prefix of the follower is one of the leader it listens to. */
  lemma LeaderHasCommitted(h: History, n: nat, l: Log, bound: nat, term: nat)
    requires LeadersOk(h) && Complete(h, n) && Committed(h, n, l, bound) && bound <= term && term in h.elections
    ensures l <= h.leaderLogs[term]
  {
    if l != [] {
      var t: nat, k: nat :| t <= bound && CoveredBy(h, n, l, t, k);
      LaterAgrees(h, n, t, k, term, |l|);
    }
  }

  /** The CommitTerm rule: whenever it advances Commit, to an index at or below LeaderCommit, the
    * follower's log up to there is the leader's, although Figure 2's bound by the last new entry is missing. */
  lemma CommitTermRule(h: History, l: Log, t: Log, commit: nat, leaderCommit: nat)
    requires LogOk(h, l) && LogOk(h, t) && leaderCommit <= |t| && commit <= |l|
    ensures var c := FollowerCommit(l, commit, leaderCommit, TermAt(t, leaderCommit));
            && commit <= c <= |l|
            && (c != commit ==> c <= leaderCommit && l[..c] == t[..c])
  {
    var c := Min(leaderCommit, |l|);
    if leaderCommit > commit && TermAt(l, c) == TermAt(t, leaderCommit) && c > commit {
      assert EntryOk(h, l, c - 1) && EntryOk(h, t, leaderCommit - 1);
      var u := h.leaderLogs[TermAt(l, c)];
      assert t[..c] == t[..leaderCommit][..c] == u[..leaderCommit][..c] == u[..c];
    }
  }

  // ---------- HandleAppend ----------

  lemma AcceptLogOk(h: History, n: nat, s: nat, x: Server, m: Message)
    requires LeadersOk(h) && Complete(h, n) && ServerOk(h, n, s, x) && x.term == m.term
    requires m.AppendRequest? && m.term in h.elections && m.term in h.leaderLogs
    requires x.snap <= m.prevIndex <= |x.log| && TermAt(x.log, m.prevIndex) == m.prevTerm
    requires Describes(h.leaderLogs[m.term], m.prevIndex, m.entries)
    requires TermAt(h.leaderLogs[m.term], m.prevIndex) == m.prevTerm
    ensures var l := MergeLog(x.log, m.prevIndex, m.entries);
            && LogOk(h, l) && TermsUpTo(l, x.term)
            && x.commit <= |l| && l[..x.commit] == x.log[..x.commit]
  {
    var t, l := h.leaderLogs[m.term], MergeLog(x.log, m.prevIndex, m.entries);
    assert LeaderLogOk(h, m.term);
    MergedOk(h, x.log, m.prevIndex, m.entries, m.term);
    MergeFollowsLeader(h, x.log, t, m.prevIndex, m.entries);
    LeaderHasCommitted(h, n, x.log[..x.commit], x.term, m.term);
    assert Shared(x.log[..x.commit], x.log, t);
  }

  lemma AcceptCommitOk(h: History, n: nat, s: nat, x: Server, m: Message, l: Log)
    requires LeadersOk(h) && ServerOk(h, n, s, x) && x.term == m.term
    requires m.AppendRequest? && m.term in h.elections && m.term in h.leaderLogs
    requires m.leaderCommit <= |h.leaderLogs[m.term]| && TermAt(h.leaderLogs[m.term], m.leaderCommit) == m.commitTerm
    requires Committed(h, n, h.leaderLogs[m.term][..m.leaderCommit], m.term)
    requires LogOk(h, l) && x.commit <= |l| && l[..x.commit] == x.log[..x.commit]
    ensures var c := FollowerCommit(l, x.commit, m.leaderCommit, m.commitTerm);
            && x.commit <= c <= |l| && Committed(h, n, l[..c], x.term)
  {
    var t := h.leaderLogs[m.term];
    var c := FollowerCommit(l, x.commit, m.leaderCommit, m.commitTerm);
    assert LeaderLogOk(h, m.term);
    CommitTermRule(h, l, t, x.commit, m.leaderCommit);
    if c != x.commit {
      CommittedPrefix(h, n, t[..m.leaderCommit], c, m.term, m.term);
      assert t[..m.leaderCommit][..c] == l[..c];
    }
  }

  lemma AcceptOk(h: History, n: nat, s: nat, x: Server, m: Message)
    requires LeadersOk(h) && Complete(h, n) && ServerOk(h, n, s, x) && x.term == m.term && x.role != Leader
    requires m.AppendRequest? && m.term in h.elections && m.term in h.leaderLogs && h.elections[m.term].leader != s
    requires x.snap <= m.prevIndex <= |x.log| && TermAt(x.log, m.prevIndex) == m.prevTerm
    requires Describes(h.leaderLogs[m.term], m.prevIndex, m.entries)
    requires TermAt(h.leaderLogs[m.term], m.prevIndex) == m.prevTerm
    requires m.leaderCommit <= |h.leaderLogs[m.term]| && TermAt(h.leaderLogs[m.term], m.leaderCommit) == m.commitTerm
    requires Committed(h, n, h.leaderLogs[m.term][..m.leaderCommit], m.term)
    ensures Advances(x, Accept(x, m)) && ServerOk(h, n, s, Accept(x, m))
  {
    var l := MergeLog(x.log, m.prevIndex, m.entries);
    AcceptLogOk(h, n, s, x, m);
    AcceptCommitOk(h, n, s, x, m, l);
    assert l[..x.snap] == l[..x.commit][..x.snap] == x.log[..x.snap];
    AcceptKeepsRest(h, s, x, m);
  }

  lemma AcceptKeepsRest(h: History, s: nat, x: Server, m: Message)
    requires m.AppendRequest? && x.snap <= m.prevIndex <= |x.log| && DiskOk(x) && x.snap <= x.commit
    requires OwnTermsOk(h, s, x) && m.term in h.elections && h.elections[m.term].leader != s && x.term == m.term
    ensures DiskOk(Accept(x, m)) && OwnTermsOk(h, s, Accept(x, m))
  {
  }


  lemma AckKeepsServer(h: History, n: nat, s: nat, y: Server, term: nat, k: nat)
    requires ServerOk(h, n, s, y) && y.term == term
    ensures ServerOk(Ack(h, s, term, k), n, s, y)
  {
    var b := Ack(h, s, term, k);
    AckExtends(h, s, term, k);
    LogGrows(h, b, s, term, y.log);
    CommittedGrows(h, b, s, term, n, y.log[..y.commit], y.term, y.term);
    if y.role == Leader {
      forall q: nat | q < |y.matchIndex|
        ensures y.matchIndex[q] <= y.commit || Acked(b, q, y.term, y.matchIndex[q])
      {
        if y.matchIndex[q] > y.commit {
          AckedGrows(h, b, s, term, q, y.term, y.matchIndex[q]);
        }
      }
    }
  }

  /** All the follower has acknowledged, the new match included, is kept after the merge. */
  lemma AckedAfterMerge(h: History, servers: seq<Server>, s: nat, m: Log, term: nat, last: nat)
    requires s < |servers| && ServersOk(h, servers) && LeadersOk(h) && servers[s].term <= term && term in h.elections
    requires KeepsShared(servers[s].log, h.leaderLogs[term], m)
    requires last <= |h.leaderLogs[term]| && h.leaderLogs[term][..last] <= m
    ensures KeepsAcks(Ack(h, s, term, last), s, m, term + 1, term)
  {
    var x, b := servers[s], Ack(h, s, term, last);
    AckExtends(h, s, term, last);
    assert AcksOk(h, servers, s);
    forall t: nat, k: nat | Acked(b, s, t, k) && t < term + 1
      ensures Kept(b, m, t, k, term)
    {
      if Acked(h, s, t, k) {
        assert AckTermOk(h, servers, s, t);
        assert Kept(h, x.log, t, k, x.term);
        KeptThroughMerge(h, x.log, m, t, k, x.term, term);
        KeptGrows(h, b, s, term, m, t, k, term, term);
      } else {
        assert h.leaderLogs[term][..k] <= m;
      }
    }
  }

  lemma AckLeadersOk(h: History, s: nat, term: nat, k: nat)
    requires LeadersOk(h)
    ensures LeadersOk(Ack(h, s, term, k))
  {
    var b := Ack(h, s, term, k);
    AckExtends(h, s, term, k);
    forall t | t in b.elections
      ensures LeaderLogOk(b, t)
    {
      assert LeaderLogOk(h, t);
      LogGrows(h, b, s, term, h.leaderLogs[t]);
    }
  }

  /** The follower as it is when it compares logs. */
  function Listening(x: Server, m: Message): Server {
    if m.term > x.term then StepDown(x, m.term) else x
  }

  lemma ListeningOk(h: History, servers: seq<Server>, s: nat, m: Message)
    requires s < |servers| && ServerOk(h, |servers|, s, servers[s]) && servers[s].term <= m.term
    requires m.AppendRequest? && m.leader != s && MessageOk(h, servers, m)
    ensures var y := Listening(servers[s], m);
            && Advances(servers[s], y) && ServerOk(h, |servers|, s, y) && y.term == m.term && y.role != Leader && y.log == servers[s].log
  {
    StepDownOk(h, |servers|, s, servers[s], m.term);
  }

  /** The server and the history after an accepted request. */
  lemma AcceptedServer(h: History, servers: seq<Server>, s: nat, m: Message)
    requires s < |servers| && HistoryOk(h, |servers|) && ServersOk(h, servers) && servers[s].term <= m.term
    requires m.AppendRequest? && m.leader != s && MessageOk(h, servers, m)
    requires Contains(Listening(servers[s], m), m.prevIndex, m.prevTerm)
    ensures var z := Accept(Listening(servers[s], m), m);
            var last := m.prevIndex + |m.entries|;
            && z.term == m.term && Advances(servers[s], z)
            && ServerOk(Ack(h, s, m.term, last), |servers|, s, z)
            && KeepsAcks(Ack(h, s, m.term, last), s, z.log, m.term + 1, m.term)
  {
    var n, x, y, last := |servers|, servers[s], Listening(servers[s], m), m.prevIndex + |m.entries|;
    assert ServerOk(h, n, s, x);
    HistoryIsComplete(h, n);
    ListeningOk(h, servers, s, m);
    AcceptOk(h, n, s, y, m);
    var z := Accept(y, m);
    AckKeepsServer(h, n, s, z, m.term, last);
    AdvancesTwice(x, y, z);
    MergeKeepsAcks(h, servers, s, m);
  }

  lemma MergeFollowsSender(h: History, servers: seq<Server>, s: nat, m: Message)
    requires s < |servers| && LeadersOk(h) && ServerOk(h, |servers|, s, servers[s])
    requires m.AppendRequest? && MessageOk(h, servers, m)
    requires m.prevIndex <= |servers[s].log| && TermAt(servers[s].log, m.prevIndex) == m.prevTerm
    ensures var l, t := MergeLog(servers[s].log, m.prevIndex, m.entries), h.leaderLogs[m.term];
            && m.prevIndex + |m.entries| <= |t| && t[..m.prevIndex + |m.entries|] <= l
            && KeepsShared(servers[s].log, t, l)
  {
    LeaderTerms(h, m.term);
    MergeFollowsLeader(h, servers[s].log, h.leaderLogs[m.term], m.prevIndex, m.entries);
  }

  lemma MergeKeepsAcks(h: History, servers: seq<Server>, s: nat, m: Message)
    requires s < |servers| && LeadersOk(h) && ServersOk(h, servers) && servers[s].term <= m.term
    requires m.AppendRequest? && MessageOk(h, servers, m)
    requires m.prevIndex <= |servers[s].log| && TermAt(servers[s].log, m.prevIndex) == m.prevTerm
    ensures var last := m.prevIndex + |m.entries|;
            KeepsAcks(Ack(h, s, m.term, last), s, MergeLog(servers[s].log, m.prevIndex, m.entries), m.term + 1, m.term)
  {
    var x := servers[s];
    MergeFollowsSender(h, servers, s, m);
    AckedAfterMerge(h, servers, s, MergeLog(x.log, m.prevIndex, m.entries), m.term, m.prevIndex + |m.entries|);
  }

  lemma AckNews(w: World, v: World, s: nat, z: Server, m: Message)
    requires s < |w.servers| && v.servers == w.servers[s := z] && v.applied == w.applied && v.arrived == w.arrived
    requires m.AppendRequest?
    requires v.history == Ack(w.history, s, m.term, m.prevIndex + |m.entries|)
    requires forall r :: r in v.messages && r !in w.messages ==> r == AppendReply(m.term, s, m.prevIndex + |m.entries|)
    ensures GoodNews(w, v)
  {
    AckExtends(w.history, s, m.term, m.prevIndex + |m.entries|);
  }

  lemma AcceptedWorld(w: World, s: nat, m: Message) returns (v: World, z: Server)
    requires Enabled(w, HandleAppend(s, m)) && w.servers[s].term <= m.term
    requires Contains(Listening(w.servers[s], m), m.prevIndex, m.prevTerm)
    ensures v == Take(w, HandleAppend(s, m)) && z == Accept(Listening(w.servers[s], m), m)
    ensures v.servers == w.servers[s := z] && v.applied == w.applied && v.arrived == w.arrived
    ensures v.history == Ack(w.history, s, m.term, m.prevIndex + |m.entries|)
    ensures forall r :: r in v.messages && r !in w.messages ==> r == AppendReply(m.term, s, m.prevIndex + |m.entries|)
  {
    v, z := Take(w, HandleAppend(s, m)), Accept(Listening(w.servers[s], m), m);
  }

  /** Server `z` is in order after `x` has acknowledged the first `k` entries of the leader of its term. */
  ghost predicate InOrder(h: History, n: nat, s: nat, x: Server, z: Server, k: nat) {
    && Advances(x, z)
    && ServerOk(Ack(h, s, z.term, k), n, s, z)
    && KeepsAcks(Ack(h, s, z.term, k), s, z.log, z.term + 1, z.term)
  }

  lemma AcceptedInOrder(w: World, s: nat, m: Message)
    requires WorldOk(w) && Enabled(w, HandleAppend(s, m)) && w.servers[s].term <= m.term
    requires Contains(Listening(w.servers[s], m), m.prevIndex, m.prevTerm)
    ensures var z := Accept(Listening(w.servers[s], m), m);
            z.term == m.term && InOrder(w.history, |w.servers|, s, w.servers[s], z, m.prevIndex + |m.entries|)
  {
    assert MessageOk(w.history, w.servers, m);
    AcceptedServer(w.history, w.servers, s, m);
  }

  lemma AckStep(w: World, v: World, s: nat, z: Server, k: nat)
    requires WorldOk(w) && s < |w.servers| && v.servers == w.servers[s := z] && v.history == Ack(w.history, s, z.term, k)
    requires InOrder(w.history, |w.servers|, s, w.servers[s], z, k)
    requires GoodNews(w, v)
    ensures WorldOk(v)
  {
    AckExtends(w.history, s, z.term, k);
    AckLeadersOk(w.history, s, z.term, k);
    OneServerStep(w, v, s, z);
  }

  lemma AcceptedStep(w: World, s: nat, m: Message) returns (v: World, z: Server)
    requires WorldOk(w) && Enabled(w, HandleAppend(s, m)) && w.servers[s].term <= m.term
    requires Contains(Listening(w.servers[s], m), m.prevIndex, m.prevTerm)
    ensures v == Take(w, HandleAppend(s, m))
    ensures v.servers == w.servers[s := z] && v.history == Ack(w.history, s, z.term, m.prevIndex + |m.entries|)
    ensures InOrder(w.history, |w.servers|, s, w.servers[s], z, m.prevIndex + |m.entries|)
    ensures GoodNews(w, v)
  {
    AcceptedInOrder(w, s, m);
    v, z := AcceptedWorld(w, s, m);
    AckNews(w, v, s, z, m);
  }

  lemma AppendAccepted(w: World, s: nat, m: Message)
    requires WorldOk(w) && Enabled(w, HandleAppend(s, m)) && w.servers[s].term <= m.term
    requires Contains(Listening(w.servers[s], m), m.prevIndex, m.prevTerm)
    ensures WorldOk(Take(w, HandleAppend(s, m)))
  {
    var v, z := AcceptedStep(w, s, m);
    AckStep(w, v, s, z, m.prevIndex + |m.entries|);
  }

  lemma AdvancesTwice(x: Server, y: Server, z: Server)
    requires Advances(x, y) && Advances(y, z)
    ensures Advances(x, z)
  {
    if x.snap <= |x.log| {
      assert z.log[..x.snap] == z.log[..y.snap][..x.snap] == y.log[..y.snap][..x.snap] == y.log[..x.snap];
    }
  }

  lemma HandleAppendStep(w: World, s: nat, m: Message)
    requires WorldOk(w) && Enabled(w, HandleAppend(s, m))
    ensures WorldOk(Take(w, HandleAppend(s, m)))
  {
    var x := w.servers[s];
    if x.term <= m.term {
      var y := Listening(x, m);
      if Contains(y, m.prevIndex, m.prevTerm) {
        AppendAccepted(w, s, m);
      } else {
        assert MessageOk(w.history, w.servers, m);
        ListeningOk(w.history, w.servers, s, m);
        QuietStep(w, s, y);
      }
    }
  }
}
