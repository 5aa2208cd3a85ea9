/** Elections, replication by the leader, snapshots and restarts keep the invariant. */
module RaftSteps {
  import opened Wrappers
  import opened RaftProtocol
  import opened RaftInvariant
  import opened RaftGrowth

  // ---------- committed prefixes ----------

  lemma CommittedPrefix(h: History, n: nat, l: Log, i: nat, bound: nat, more: nat)
    requires Committed(h, n, l, bound) && i <= |l| && bound <= more
    ensures Committed(h, n, l[..i], more)
  {
    if i > 0 {
      var t: nat, k: nat :| t <= bound && CoveredBy(h, n, l, t, k);
      assert l[..i] == h.leaderLogs[t][..|l|][..i] == h.leaderLogs[t][..i];
      assert CoveredBy(h, n, l[..i], t, k);
    }
  }

  /** Committed entries are entries of a leader no later than the bound. */
  lemma CommittedIsLog(h: History, n: nat, l: Log, bound: nat)
    requires LeadersOk(h) && Committed(h, n, l, bound)
    ensures LogOk(h, l) && TermsUpTo(l, bound)
  {
    if l != [] {
      var t: nat, k: nat :| t <= bound && CoveredBy(h, n, l, t, k);
      assert LeaderLogOk(h, t);
      PrefixIsLog(h, h.leaderLogs[t], |l|);
      forall i | 0 <= i < |l|
        ensures l[i].term <= bound
      {
        OwnTermAfterElection(h, t, i);
        assert l[i] == h.leaderLogs[t][i];
      }
    }
  }

  lemma PrefixIsLog(h: History, l: Log, k: nat)
    requires LogOk(h, l) && k <= |l|
    ensures LogOk(h, l[..k])
  {
    forall i: nat | i < k
      ensures EntryOk(h, l[..k], i)
    {
      assert EntryOk(h, l, i);
      assert l[..k][..i + 1] == l[..i + 1];
    }
  }

  // ---------- steps that change only what history does not see ----------

  /** A later term makes no difference to what is kept. */
  lemma LaterTermKeeps(h: History, servers: seq<Server>, s: nat, term: nat)
    requires ServersOk(h, servers) && s < |servers| && servers[s].term <= term
    ensures KeepsAcks(h, s, servers[s].log, term + 1, term)
  {
    var x := servers[s];
    assert AcksOk(h, servers, s);
    forall t: nat, k: nat | Acked(h, s, t, k)
      ensures Kept(h, x.log, t, k, term)
    {
      assert AckTermOk(h, servers, s, t);
      assert Kept(h, x.log, t, k, x.term);
      if !(h.leaderLogs[t][..k] <= x.log) {
        var later :| Overruled(h, later, t, k, x.term);
        assert Overruled(h, later, t, k, term);
      }
    }
  }

  /** Server `s` becomes `y` without touching history, messages or its log. */
  lemma QuietStep(w: World, s: nat, y: Server)
    requires WorldOk(w) && s < |w.servers| && y.log == w.servers[s].log
    requires Advances(w.servers[s], y) && ServerOk(w.history, |w.servers|, s, y)
    ensures WorldOk(Update(w, s, y))
  {
    LaterTermKeeps(w.history, w.servers, s, y.term);
    OneServerStep(w, Update(w, s, y), s, y);
  }

  lemma SendStep(w: World, m: Message)
    requires WorldOk(w) && MessageOk(w.history, w.servers, m)
    ensures WorldOk(Send(w, m))
  {
    assert MessagesOk(w.history, w.servers, w.messages + {m});
  }

  lemma StepDownOk(h: History, n: nat, s: nat, x: Server, term: nat)
    requires ServerOk(h, n, s, x) && x.term <= term
    ensures Advances(x, StepDown(x, term)) && ServerOk(h, n, s, StepDown(x, term))
  {
    CommittedPrefix(h, n, x.log[..x.commit], x.commit, x.term, term);
  }

  lemma ReceiveSnapshotStep(w: World, step: Step)
    requires WorldOk(w) && Enabled(w, step) && step.ReceiveSnapshot?
    ensures WorldOk(Take(w, step))
  {
    var x, m := w.servers[step.s], step.m;
    if m.term >= x.term {
      var v := w;
      if m.term > x.term {
        StepDownOk(w.history, |w.servers|, step.s, x, m.term);
        QuietStep(w, step.s, StepDown(x, m.term));
        v := Update(w, step.s, StepDown(x, m.term));
      }
      assert MessageOk(v.history, v.servers, m);
      OneMoreArrived(v, step.s, m);
    }
  }

  lemma OneMoreArrived(w: World, s: nat, m: Message)
    requires WorldOk(w) && ArrivalOk(w.history, w.servers, s, m)
    ensures WorldOk(w.(arrived := w.arrived + {(s, m)}))
  {
    assert ArrivalsOk(w.history, w.servers, w.arrived + {(s, m)});
  }

  lemma FewerArrived(w: World, arrived: set<(nat, Message)>)
    requires WorldOk(w) && arrived <= w.arrived
    ensures WorldOk(w.(arrived := arrived))
  {
  }

  lemma SeesHigherTermStep(w: World, step: Step)
    requires WorldOk(w) && Enabled(w, step) && step.SeesHigherTerm?
    ensures WorldOk(Take(w, step))
  {
    StepDownOk(w.history, |w.servers|, step.s, w.servers[step.s], step.term);
    QuietStep(w, step.s, StepDown(w.servers[step.s], step.term));
  }

  lemma AskVoteStep(w: World, step: Step)
    requires WorldOk(w) && Enabled(w, step) && step.AskVote?
    ensures WorldOk(Take(w, step))
  {
    var x := w.servers[step.s];
    assert ServerOk(w.history, |w.servers|, step.s, x);
    assert BallotOk(w.history, w.servers, step.s, x.term);
    SendStep(w, VoteRequest(x.term, step.s, x.snap, TermAt(x.log, x.snap)));
  }

  /** What a leader sends describes its own log, and what it calls committed is. */
  lemma RequestDescribesLeader(h: History, servers: seq<Server>, s: nat, prev: nat, heartbeat: bool)
    requires s < |servers| && ServerOk(h, |servers|, s, servers[s]) && servers[s].role == Leader && prev <= |servers[s].log|
    ensures var x := servers[s];
            MessageOk(h, servers, AppendRequest(x.term, s, prev, TermAt(x.log, prev), if heartbeat then [] else x.log[prev..],
                                                x.commit, TermAt(x.log, x.commit)))
  {
    var x := servers[s];
    var es := if heartbeat then [] else x.log[prev..];
    assert es == x.log[prev..prev + |es|];
  }

  lemma ReplicateStep(w: World, step: Step)
    requires WorldOk(w) && Enabled(w, step) && step.Replicate?
    ensures WorldOk(Take(w, step))
  {
    var x := w.servers[step.s];
    RequestDescribesLeader(w.history, w.servers, step.s, step.prev, step.heartbeat);
    SendStep(w, AppendRequest(x.term, step.s, step.prev, TermAt(x.log, step.prev), if step.heartbeat then [] else x.log[step.prev..],
                              x.commit, TermAt(x.log, x.commit)));
  }

  lemma SnapshotIsCommitted(h: History, n: nat, s: nat, x: Server)
    requires ServerOk(h, n, s, x)
    ensures Committed(h, n, x.log[..x.snap], x.term)
  {
    CommittedPrefix(h, n, x.log[..x.commit], x.snap, x.term, x.term);
    assert x.log[..x.commit][..x.snap] == x.log[..x.snap];
  }

  lemma OfferSnapshotStep(w: World, step: Step)
    requires WorldOk(w) && Enabled(w, step) && step.OfferSnapshot?
    ensures WorldOk(Take(w, step))
  {
    var x := w.servers[step.s];
    SnapshotIsCommitted(w.history, |w.servers|, step.s, x);
    SendStep(w, InstallSnapshot(x.term, step.s, x.log[..x.snap]));
  }

  /** The leader learns of a match, and commits by counting only entries of its own term. */
  lemma ReplyCommits(h: History, n: nat, s: nat, x: Server, q: nat, last: nat)
    requires LeadersOk(h) && ServerOk(h, n, s, x) && x.role == Leader
    requires q < n && last <= |x.log| && Acked(h, q, x.term, last)
    ensures var y := x.(matchIndex := x.matchIndex[q := last]);
            ServerOk(h, n, s, y.(commit := LeaderCommit(y, last)))
  {
    var y := x.(matchIndex := x.matchIndex[q := last]);
    var c := LeaderCommit(y, last);
    if c != x.commit {
      assert Quorum(h, n, x.term, last, Holders(y.matchIndex, last));
      assert CommittedAt(h, n, x.term, last);
      assert CoveredBy(h, n, x.log[..last], x.term, last);
    }
  }

  lemma HandleReplyStep(w: World, step: Step)
    requires WorldOk(w) && Enabled(w, step) && step.HandleReply?
    ensures WorldOk(Take(w, step))
  {
    var x := w.servers[step.s];
    assert MessageOk(w.history, w.servers, step.m);
    ReplyCommits(w.history, |w.servers|, step.s, x, step.m.follower, step.m.lastIndex);
    QuietStep(w, step.s, Take(w, step).servers[step.s]);
  }

  lemma LocalStepOk(h: History, n: nat, s: nat, x: Server, i: nat, f: nat)
    requires ServerOk(h, n, s, x)
    ensures x.role == Leader && f < n && i <= x.snap ==> ServerOk(h, n, s, x.(matchIndex := x.matchIndex[f := i]))
    ensures x.snap <= i <= x.commit ==>
              ServerOk(h, n, s, Persist(x.(snap := i, lastApplied := Max(x.lastApplied, i), commit := Max(x.commit, i))))
    ensures x.lastApplied < x.commit ==> ServerOk(h, n, s, x.(lastApplied := x.lastApplied + 1))
  {
  }

  /** A restart brings back term, vote, log and snapshot as they were; only Commit may fall behind. */
  lemma RestartOk(h: History, n: nat, s: nat, x: Server)
    requires ServerOk(h, n, s, x)
    ensures ServerOk(h, n, s, Restarted(x)) && Advances(x, Restarted(x))
  {
    CommittedPrefix(h, n, x.log[..x.commit], x.disk.commit, x.term, x.term);
    assert x.log[..x.commit][..x.disk.commit] == x.log[..x.disk.commit];
  }

  lemma LocalStep(w: World, step: Step)
    requires WorldOk(w) && Enabled(w, step) && (step.SnapshotSent? || step.TakeSnapshot?)
    ensures WorldOk(Take(w, step))
  {
    var x := w.servers[step.s];
    LocalStepOk(w.history, |w.servers|, step.s, x, step.index, if step.SnapshotSent? then step.follower else 0);
    QuietStep(w, step.s, Take(w, step).servers[step.s]);
  }

  lemma RestartStep(w: World, step: Step)
    requires WorldOk(w) && Enabled(w, step) && step.Restart?
    ensures WorldOk(Take(w, step))
  {
    var x := w.servers[step.s];
    RestartOk(w.history, |w.servers|, step.s, x);
    QuietStep(w, step.s, Restarted(x));
    FewerArrived(Update(w, step.s, Restarted(x)), Take(w, step).arrived);
  }

  lemma CommittedEntryApplies(h: History, n: nat, s: nat, x: Server)
    requires ServerOk(h, n, s, x) && x.lastApplied < x.commit
    ensures AppliedOk(h, n, x.lastApplied + 1, x.log[x.lastApplied])
  {
    var l := x.log[..x.commit];
    var t: nat, k: nat :| t <= x.term && CoveredBy(h, n, l, t, k);
    assert h.leaderLogs[t][x.lastApplied] == l[x.lastApplied];
    assert IsCommittedEntry(h, n, x.lastApplied + 1, x.log[x.lastApplied], t, k);
  }

  lemma AppliedWith(h: History, n: nat, applied: set<(nat, nat, Entry)>, s: nat, i: nat, e: Entry)
    requires AllAppliedOk(h, n, applied) && AppliedOk(h, n, i, e)
    ensures AllAppliedOk(h, n, applied + {(s, i, e)})
  {
  }

  lemma OneMoreApplied(w: World, s: nat, i: nat, e: Entry)
    requires WorldOk(w) && AppliedOk(w.history, |w.servers|, i, e)
    ensures WorldOk(w.(applied := w.applied + {(s, i, e)}))
  {
    AppliedWith(w.history, |w.servers|, w.applied, s, i, e);
  }

  lemma ApplyNextStep(w: World, step: Step)
    requires WorldOk(w) && Enabled(w, step) && step.ApplyNext?
    ensures WorldOk(Take(w, step))
  {
    var x := w.servers[step.s];
    var e, y := x.log[x.lastApplied], x.(lastApplied := x.lastApplied + 1);
    ApplyNextOk(w.history, |w.servers|, step.s, x);
    OneMoreApplied(w, step.s, x.lastApplied + 1, e);
    var u := w.(applied := w.applied + {(step.s, x.lastApplied + 1, e)});
    QuietStep(u, step.s, y);
    assert Take(w, step) == Update(u, step.s, y);
  }

  lemma ApplyNextOk(h: History, n: nat, s: nat, x: Server)
    requires ServerOk(h, n, s, x) && x.lastApplied < x.commit
    ensures AppliedOk(h, n, x.lastApplied + 1, x.log[x.lastApplied])
    ensures ServerOk(h, n, s, x.(lastApplied := x.lastApplied + 1)) && Advances(x, x.(lastApplied := x.lastApplied + 1))
  {
    CommittedEntryApplies(h, n, s, x);
    LocalStepOk(h, n, s, x, 0, 0);
  }
}
