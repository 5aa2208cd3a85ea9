/** Launching elections, voting and winning keep the invariant; at most one leader per term
  * (extended Raft paper, section 5.2). */
module RaftElection {
  import opened Wrappers
  import opened RaftProtocol
  import opened RaftInvariant
  import opened RaftGrowth
  import opened RaftSteps

  lemma SameLogs(a: History, b: History, s: nat, term: nat)
    requires Extends(a, b, s, term) && LeadersOk(a) && b.elections == a.elections && b.leaderLogs == a.leaderLogs
    ensures LeadersOk(b)
  {
    forall t | t in b.elections
      ensures LeaderLogOk(b, t)
    {
      assert LeaderLogOk(a, t);
      LogGrows(a, b, s, term, a.leaderLogs[t]);
    }
  }

  // ---------- launching ----------

  function Launched(s: nat, x: Server, newTerm: nat): Server {
    Persist(x.(term := newTerm, role := Candidate, votedFor := Some(s), votes := {s}, tally := Some(Tally(newTerm, {}))))
  }

  function OwnBallot(s: nat, x: Server): Ballot {
    Ballot(s, x.log, |x.log|, TermAt(x.log, |x.log|))
  }

  /** A ballot that it has already cast in that term is its own. */
  lemma OwnBallotInTerm(h: History, servers: seq<Server>, s: nat, newTerm: nat)
    requires BallotsOk(h, servers) && s < |servers| && MayLaunch(s, servers[s], newTerm)
    ensures var b := Cast(h, s, newTerm, OwnBallot(s, servers[s]));
            (s, newTerm) in b.ballots && b.ballots[(s, newTerm)].candidate == s
  {
    if (s, newTerm) in h.ballots {
      assert BallotOk(h, servers, s, newTerm);
    }
  }

  lemma CastExtends(h: History, s: nat, term: nat, b: Ballot)
    ensures Extends(h, Cast(h, s, term, b), s, term)
    ensures LeaderLogsOf(h, Cast(h, s, term, b), s)
  {
  }

  lemma LaunchedOk(h: History, n: nat, s: nat, x: Server, newTerm: nat)
    requires ServerOk(h, n, s, x) && MayLaunch(s, x, newTerm)
    requires var b := Cast(h, s, newTerm, OwnBallot(s, x)); b.ballots[(s, newTerm)].candidate == s
    ensures Advances(x, Launched(s, x, newTerm))
    ensures ServerOk(Cast(h, s, newTerm, OwnBallot(s, x)), n, s, Launched(s, x, newTerm))
  {
    var b := Cast(h, s, newTerm, OwnBallot(s, x));
    CastExtends(h, s, newTerm, OwnBallot(s, x));
    LogGrows(h, b, s, newTerm, x.log);
    CommittedGrows(h, b, s, newTerm, n, x.log[..x.commit], x.term, newTerm);
    LaunchedOwnTerms(h, s, x, newTerm);
  }

  lemma LaunchedOwnTerms(h: History, s: nat, x: Server, newTerm: nat)
    requires OwnTermsOk(h, s, x) && x.term <= newTerm
    ensures OwnTermsOk(Cast(h, s, newTerm, OwnBallot(s, x)), s, Launched(s, x, newTerm))
  {
  }

  /** A ballot cast for itself, in a term in which it has cast none. */
  lemma LaunchBallotOk(h: History, servers: seq<Server>, s: nat, newTerm: nat)
    requires ServersOk(h, servers) && s < |servers| && 1 <= newTerm && servers[s].term <= newTerm
    requires (s, newTerm) !in h.ballots
    ensures BallotOk(Cast(h, s, newTerm, OwnBallot(s, servers[s])), servers[s := Launched(s, servers[s], newTerm)], s, newTerm)
  {
    var x, c := servers[s], OwnBallot(s, servers[s]);
    var b := Cast(h, s, newTerm, c);
    assert ServerOk(h, |servers|, s, x);
    CastExtends(h, s, newTerm, c);
    LogGrows(h, b, s, newTerm, x.log);
    LaterTermKeeps(h, servers, s, newTerm);
    KeepsAcksSame(h, b, s, x.log, newTerm + 1, newTerm);
    KeepsFewer(b, s, x.log, newTerm + 1, newTerm, newTerm);
  }

  lemma LaunchStep(w: World, s: nat, newTerm: nat)
    requires WorldOk(w) && Enabled(w, LaunchElection(s, newTerm)) && LaunchesFairly(w, LaunchElection(s, newTerm))
    ensures WorldOk(Take(w, LaunchElection(s, newTerm)))
  {
    var x, v := w.servers[s], Take(w, LaunchElection(s, newTerm));
    var y, a, b := Launched(s, x, newTerm), w.history, v.history;
    OwnBallotInTerm(a, w.servers, s, newTerm);
    LaunchedOk(a, |w.servers|, s, x, newTerm);
    CastExtends(a, s, newTerm, OwnBallot(s, x));
    LaterTermKeeps(a, w.servers, s, newTerm);
    KeepsAcksSame(a, b, s, x.log, newTerm + 1, newTerm);
    SameLogs(a, b, s, newTerm);
    if (s, newTerm) !in a.ballots {
      LaunchBallotOk(a, w.servers, s, newTerm);
    }
    OneServerStep(w, v, s, y);
  }

  lemma KeepsAcksSame(a: History, b: History, q: nat, l: Log, before: int, bound: int)
    requires KeepsAcks(a, q, l, before, bound)
    requires b.acked == a.acked && b.elections == a.elections && b.leaderLogs == a.leaderLogs
    ensures KeepsAcks(b, q, l, before, bound)
  {
    forall t: nat, k: nat | Acked(b, q, t, k) && t < before
      ensures Kept(b, l, t, k, bound)
    {
      assert Acked(a, q, t, k);
      assert Kept(a, l, t, k, bound);
      if !(a.leaderLogs[t][..k] <= l) {
        var later :| Overruled(a, later, t, k, bound);
        assert Overruled(b, later, t, k, bound);
      }
    }
  }

  // ---------- voting ----------

  function Voted(s: nat, x: Server, m: Message): Server
    requires m.VoteRequest?
  {
    Persist(StepDown(x, m.term).(votedFor := Some(m.candidate)))
  }

  predicate Grants(x: Server, m: Message)
    requires m.VoteRequest?
  {
    var y := StepDown(x, m.term);
    x.term <= m.term
    && (y.votedFor == None || y.votedFor == Some(m.candidate)) && NotUpToDate(y.log, m.lastIndex, m.lastTerm)
  }

  lemma VotedOk(h: History, n: nat, s: nat, x: Server, m: Message)
    requires m.VoteRequest? && ServerOk(h, n, s, x) && Grants(x, m)
    ensures var b := Cast(h, s, m.term, Ballot(m.candidate, x.log, m.lastIndex, m.lastTerm));
            Advances(x, Voted(s, x, m)) && ServerOk(b, n, s, Voted(s, x, m))
  {
    var c := Ballot(m.candidate, x.log, m.lastIndex, m.lastTerm);
    var b := Cast(h, s, m.term, c);
    CastExtends(h, s, m.term, c);
    LogGrows(h, b, s, m.term, x.log);
    CommittedGrows(h, b, s, m.term, n, x.log[..x.commit], x.term, m.term);
  }

  /** The ballot a voter casts is fair, and agrees with any it has cast before in that term. */
  lemma NewBallotOk(h: History, servers: seq<Server>, s: nat, m: Message)
    requires BallotsOk(h, servers) && ServersOk(h, servers) && s < |servers|
    requires m.VoteRequest? && m.candidate != s && MessageOk(h, servers, m) && Grants(servers[s], m) && 1 <= m.term
    ensures var c := Ballot(m.candidate, servers[s].log, m.lastIndex, m.lastTerm);
            var b := Cast(h, s, m.term, c);
            && b.ballots[(s, m.term)].candidate == m.candidate
            && ((s, m.term) !in h.ballots ==> BallotOk(b, servers[s := Voted(s, servers[s], m)], s, m.term))
  {
    var x := servers[s];
    var c := Ballot(m.candidate, x.log, m.lastIndex, m.lastTerm);
    var b := Cast(h, s, m.term, c);
    if (s, m.term) in h.ballots {
      assert BallotOk(h, servers, s, m.term);
    } else {
      assert ServerOk(h, |servers|, s, x);
      CastExtends(h, s, m.term, c);
      LogGrows(h, b, s, m.term, x.log);
      LaterTermKeeps(h, servers, s, m.term);
      KeepsAcksSame(h, b, s, x.log, m.term + 1, m.term);
      KeepsFewer(b, s, x.log, m.term + 1, m.term, m.term);
    }
  }

  lemma KeepsFewer(h: History, q: nat, l: Log, before: int, less: int, bound: int)
    requires KeepsAcks(h, q, l, before, bound) && less <= before
    ensures KeepsAcks(h, q, l, less, bound)
  {
    forall t: nat, k: nat | Acked(h, q, t, k) && t < less
      ensures Kept(h, l, t, k, bound)
    {
    }
  }

  /** The world after a vote is granted. */
  function GrantedWorld(w: World, s: nat, m: Message): World
    requires s < |w.servers| && m.VoteRequest?
  {
    var x := w.servers[s];
    Send(Update(w, s, Voted(s, x, m)), VoteReply(m.term, s, m.candidate)).(
      history := Cast(w.history, s, m.term, Ballot(m.candidate, x.log, m.lastIndex, m.lastTerm)))
  }

  lemma GrantStep(w: World, s: nat, m: Message)
    requires WorldOk(w) && s < |w.servers| && m in w.messages && m.VoteRequest? && m.candidate != s && Grants(w.servers[s], m)
    ensures WorldOk(GrantedWorld(w, s, m))
  {
    var x, v, a := w.servers[s], GrantedWorld(w, s, m), w.history;
    var y, c := Voted(s, x, m), Ballot(m.candidate, x.log, m.lastIndex, m.lastTerm);
    VotedOk(a, |w.servers|, s, x, m);
    NewBallotOk(a, w.servers, s, m);
    CastExtends(a, s, m.term, c);
    LaterTermKeeps(a, w.servers, s, m.term);
    KeepsAcksSame(a, v.history, s, x.log, y.term + 1, y.term);
    SameLogs(a, v.history, s, y.term);
    OneServerStep(w, v, s, y);
  }

  lemma AnswerVoteStep(w: World, s: nat, m: Message)
    requires WorldOk(w) && Enabled(w, AnswerVote(s, m))
    ensures WorldOk(Take(w, AnswerVote(s, m)))
  {
    var x := w.servers[s];
    if x.term <= m.term {
      if Grants(x, m) {
        GrantStep(w, s, m);
      } else {
        StepDownOk(w.history, |w.servers|, s, x, m.term);
        QuietStep(w, s, StepDown(x, m.term));
      }
    }
  }

  // ---------- winning ----------

  /** Election safety: a term in which a candidate has a majority has no other winner. */
  lemma NobodyElse(h: History, servers: seq<Server>, s: nat, votes: set<nat>)
    requires s < |servers| && ElectionsOk(h, |servers|) && ServerOk(h, |servers|, s, servers[s])
    requires IsMajority(votes, |servers|)
    requires forall v :: v in votes ==> v < |servers| && (v, servers[s].term) in h.ballots && h.ballots[(v, servers[s].term)].candidate == s
    ensures servers[s].term in h.elections ==> h.elections[servers[s].term].leader == s
  {
    var t := servers[s].term;
    if t in h.elections {
      forall v | v in h.elections[t].ballots.Keys
        ensures v < |servers|
      {
        assert VoterOk(h, |servers|, t, v);
      }
      var v := MajoritiesMeet(|servers|, votes, h.elections[t].ballots.Keys);
      VoterChoseWinner(h, |servers|, t, v);
    }
  }

  lemma VoterChoseWinner(h: History, n: nat, t: nat, v: nat)
    requires ElectionsOk(h, n) && t in h.elections && v in h.elections[t].ballots
    ensures (v, t) in h.ballots && h.ballots[(v, t)].candidate == h.elections[t].leader
  {
    assert VoterOk(h, n, t, v);
  }

  lemma AddExtends(h: History, term: nat, e: Election)
    requires h.elections.Keys == h.leaderLogs.Keys && term !in h.elections
    ensures Extends(h, AddElection(h, term, e), e.leader, term) && LeaderLogsOf(h, AddElection(h, term, e), e.leader)
  {
  }

  lemma ElectExtends(h: History, s: nat, x: Server)
    requires LeadersOk(h) && x.term !in h.elections
    ensures Extends(h, Elect(h, s, x), s, x.term) && LeaderLogsOf(h, Elect(h, s, x), s)
  {
    AddExtends(h, x.term, ElectionOf(h, s, x));
  }

  lemma ElectLeadersOk(h: History, n: nat, s: nat, x: Server)
    requires LeadersOk(h) && x.term !in h.elections && LogOk(h, x.log) && TermsUpTo(x.log, x.term)
    ensures LeadersOk(Elect(h, s, x))
  {
    var b := Elect(h, s, x);
    ElectExtends(h, s, x);
    forall t | t in b.elections
      ensures LeaderLogOk(b, t)
    {
      if t == x.term {
        LogGrows(h, b, s, x.term, x.log);
        forall i | 0 <= i < |x.log|
          ensures x.log[i].term <= x.term - 1
        {
          assert EntryOk(h, x.log, i);
        }
      } else {
        assert LeaderLogOk(h, t);
        LogGrows(h, b, s, x.term, h.leaderLogs[t]);
      }
    }
  }

  /** Before the election nobody else can be blamed in this very term. */
  lemma BlameIsEarlier(h: History, q: nat, l: Log, before: int, term: nat)
    requires KeepsAcks(h, q, l, before, term) && term !in h.elections
    ensures KeepsAcks(h, q, l, before, term - 1)
  {
    forall t: nat, k: nat | Acked(h, q, t, k) && t < before
      ensures Kept(h, l, t, k, term - 1)
    {
      assert Kept(h, l, t, k, term);
      if !(h.leaderLogs[t][..k] <= l) {
        var later :| Overruled(h, later, t, k, term);
        assert Overruled(h, later, t, k, term - 1);
      }
    }
  }

  /** The ballots of the winner's voters, before the election is entered. */
  lemma CountedBallotOk(h: History, servers: seq<Server>, s: nat, x: Server, v: nat)
    requires s < |servers| && x.(votes := servers[s].votes, tally := servers[s].tally) == servers[s]
    requires BallotsOk(h, servers) && ServersOk(h, servers) && x.term !in h.elections
    requires (v in x.votes || v == s) && (v, x.term) in h.ballots && h.ballots[(v, x.term)].candidate == s
    ensures v in ElectionOf(h, s, x).ballots
    ensures var c := ElectionOf(h, s, x).ballots[v];
            && c.candidate == s && LogOk(h, c.log) && (v == s ==> c.log == x.log)
            && BallotFair(v, c) && ClaimHolds(x.log, c.lastIndex, c.lastTerm)
            && KeepsAcks(h, v, c.log, x.term, x.term - 1)
  {
    var c := ElectionOf(h, s, x).ballots[v];
    assert ServerOk(h, |servers|, s, servers[s]);
    if v == s {
      LaterTermKeeps(h, servers, s, x.term);
      KeepsFewer(h, s, x.log, x.term + 1, x.term, x.term);
    } else {
      assert BallotOk(h, servers, v, x.term);
    }
    BlameIsEarlier(h, v, c.log, x.term, x.term);
  }

  lemma ElectVoterOk(h: History, n: nat, s: nat, x: Server, v: nat)
    requires LeadersOk(h) && x.term !in h.elections && v < n
    requires (v, x.term) in h.ballots && h.ballots[(v, x.term)].candidate == s
    requires v in ElectionOf(h, s, x).ballots
    requires var c := ElectionOf(h, s, x).ballots[v];
             && c.candidate == s && LogOk(h, c.log) && (v == s ==> c.log == x.log)
             && BallotFair(v, c) && ClaimHolds(x.log, c.lastIndex, c.lastTerm)
             && KeepsAcks(h, v, c.log, x.term, x.term - 1)
    ensures VoterOk(Elect(h, s, x), n, x.term, v)
  {
    var c := ElectionOf(h, s, x).ballots[v];
    ElectExtends(h, s, x);
    KeepsAcksGrows(h, Elect(h, s, x), s, x.term, v, c.log, x.term, x.term - 1, x.term - 1);
    LogGrows(h, Elect(h, s, x), s, x.term, c.log);
  }

  function Crowned(n: nat, x: Server): Server {
    Persist(x.(role := Leader, tally := None, matchIndex := Zeros(n)))
  }

  lemma CrownedOk(h: History, n: nat, s: nat, x: Server, y: Server)
    requires LeadersOk(h) && ServerOk(h, n, s, x) && x.term !in h.elections
    requires y == x.(votes := y.votes, tally := y.tally) && VotesOk(h, s, y)
    ensures Advances(x, Crowned(n, y)) && ServerOk(Elect(h, s, y), n, s, Crowned(n, y))
  {
    var b := Elect(h, s, y);
    ElectExtends(h, s, y);
    LogGrows(h, b, s, x.term, x.log);
    CommittedGrows(h, b, s, x.term, n, x.log[..x.commit], x.term, x.term);
  }

  /** `x` is server `s` with one more vote, and together with the vote for itself it has a majority. */
  ghost predicate HasWon(w: World, s: nat, x: Server) {
    && s < |w.servers| && x.(votes := w.servers[s].votes, tally := w.servers[s].tally) == w.servers[s]
    && IsMajority(x.votes, |w.servers|) && 1 <= x.term
    && (s, x.term) in w.history.ballots && w.history.ballots[(s, x.term)].candidate == s
    && (forall v :: v in x.votes ==> v < |w.servers|) && VotesOk(w.history, s, x)
  }

  lemma MoreIsMajority(q: set<nat>, s: nat, n: nat)
    requires IsMajority(q, n)
    ensures IsMajority(q + {s}, n)
  {
    if s in q {
      assert q + {s} == q;
    }
  }

  lemma WinStep(w: World, s: nat, x: Server)
    requires WorldOk(w) && HasWon(w, s, x) && x.term !in w.history.elections
    ensures WorldOk(BecomeLeader(w, s, x))
  {
    var n, a, v := |w.servers|, w.history, BecomeLeader(w, s, x);
    var b, y := v.history, Crowned(n, x);
    CrownedOk(a, n, s, w.servers[s], x);
    ElectExtends(a, s, x);
    ElectLeadersOk(a, n, s, x);
    LaterTermKeeps(a, w.servers, s, x.term);
    WinnerKeeps(a, w.servers, s, x);
    NewElection(w, s, x);
    OneServerStep(w, v, s, y);
  }

  lemma NewElection(w: World, s: nat, x: Server)
    requires WorldOk(w) && HasWon(w, s, x) && x.term !in w.history.elections
    ensures x.term in Elect(w.history, s, x).elections && NewElectionOk(Elect(w.history, s, x), |w.servers|, x.term)
  {
    var n, a, b := |w.servers|, w.history, Elect(w.history, s, x);
    var voters := b.elections[x.term].ballots.Keys;
    assert voters == x.votes + {s};
    MoreIsMajority(x.votes, s, n);
    forall q {:trigger VoterOk(b, n, x.term, q)} | q in b.elections[x.term].ballots
      ensures VoterOk(b, n, x.term, q)
    {
      CountedBallotOk(a, w.servers, s, x, q);
      ElectVoterOk(a, n, s, x, q);
    }
  }

  lemma WinnerKeeps(h: History, servers: seq<Server>, s: nat, x: Server)
    requires s < |servers| && LeadersOk(h) && ServersOk(h, servers) && x.term !in h.elections
    requires x.(votes := servers[s].votes, tally := servers[s].tally) == servers[s]
    ensures KeepsAcks(Elect(h, s, x), s, x.log, x.term + 1, x.term)
  {
    var b := Elect(h, s, x);
    ElectExtends(h, s, x);
    assert AcksOk(h, servers, s);
    forall t: nat, k: nat | Acked(b, s, t, k) && t < x.term + 1
      ensures Kept(b, x.log, t, k, x.term)
    {
      assert Acked(h, s, t, k);
      assert Kept(h, x.log, t, k, x.term);
      KeptGrows(h, b, s, x.term, x.log, t, k, x.term, x.term);
    }
  }

  /** A server that launches once more in a term that it has won, and wins it again. */
  lemma WinAgainOk(h: History, n: nat, s: nat, y: Server)
    requires ServerOk(h, n, s, y) && y.term in h.elections && h.elections[y.term].leader == s
    ensures Advances(y, Crowned(n, y)) && ServerOk(h, n, s, Crowned(n, y))
  {
  }

  /** Counting in the term of the vote, whatever the server's role is by then. */
  lemma CountVoteStep(w: World, s: nat, m: Message)
    requires WorldOk(w) && Enabled(w, CountVote(s, m)) && CountsInTime(w, CountVote(s, m))
    ensures WorldOk(Take(w, CountVote(s, m)))
  {
    var x := w.servers[s];
    var y := Counted(x, m.voter);
    VotesAreBallots(w.history, w.servers, w.messages, s, m);
    if IsMajority(y.votes, |w.servers|) {
      NobodyElse(w.history, w.servers, s, y.votes);
      if x.term in w.history.elections {
        WinAgainOk(w.history, |w.servers|, s, y);
        QuietStep(w, s, Crowned(|w.servers|, y));
      } else {
        WinStep(w, s, y);
      }
    } else {
      QuietStep(w, s, y);
    }
  }

  lemma VotesAreBallots(h: History, servers: seq<Server>, messages: set<Message>, s: nat, m: Message)
    requires s < |servers| && ServersOk(h, servers) && BallotsOk(h, servers) && MessagesOk(h, servers, messages)
    requires m in messages && m.VoteReply? && m.candidate == s && m.term == servers[s].term
    requires servers[s].tally.Some? && servers[s].tally.value.term == m.term
    ensures var x := servers[s];
            var y := Counted(x, m.voter);
            && 1 <= x.term && (s, x.term) in h.ballots && h.ballots[(s, x.term)].candidate == s
            && (forall v :: v in y.votes ==> v < |servers|) && VotesOk(h, s, y)
            && ServerOk(h, |servers|, s, y) && Advances(x, y)
  {
    var x := servers[s];
    assert ServerOk(h, |servers|, s, x);
    assert MessageOk(h, servers, m);
    assert BallotOk(h, servers, s, x.term);
    forall v | v in x.votes + {m.voter}
      ensures v < |servers| && (v, x.term) in h.ballots && h.ballots[(v, x.term)].candidate == s
    {
      assert BallotOk(h, servers, v, x.term);
    }
  }
}
