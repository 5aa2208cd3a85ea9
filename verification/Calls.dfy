/** What the methods of RaftNode.Raft ask of their callers holds in every clean run. */
module Calls {
  import opened Wrappers
  import opened RaftProtocol
  import opened RaftInvariant
  import opened CompactedLog
  import opened RaftNode
  import G = RaftGrowth
  import R = RaftReplication
  import S = RaftSafety
  import RaftSteps

  /** A request carries consecutive entries; the log it reaches ascends; and if its term is the receiver's
    * own, the receiver does not lead in it. So a delivered request meets what AppendEntries asks, but for the
    * width of its numbers. */
  lemma RequestsAreInOrder(n: nat, steps: seq<Step>, s: nat, m: Message)
    requires Run(n, steps).Some? && S.CleanRun(n, steps) && Enabled(Run(n, steps).value, HandleAppend(s, m))
    ensures var x := Run(n, steps).value.servers[s];
            Follows(m) && Ascending(x.log) && (m.term == x.term ==> x.role != Leader)
  {
    S.RunKeeps(n, steps);
    var w := Run(n, steps).value;
    assert G.MessageOk(w.history, w.servers, m) && G.ServerOk(w.history, n, s, w.servers[s]);
    RequestFollows(w.history, m);
    LogAscends(w.history, w.servers[s].log);
  }

  /** A snapshot that reaches a leader covers no more than its log: what CondInstallSnapshot asks. */
  lemma SnapshotsFitLeader(n: nat, steps: seq<Step>, s: nat, m: Message)
    requires Run(n, steps).Some? && S.CleanRun(n, steps) && Enabled(Run(n, steps).value, CondInstallSnapshot(s, m))
    ensures var x := Run(n, steps).value.servers[s];
            (|m.covered| < TwoTo64 - 1 ==> Indexed(m.covered)) && (x.role == Leader ==> |m.covered| <= |x.log|)
  {
    S.RunKeeps(n, steps);
    var w := Run(n, steps).value;
    assert G.ArrivalOk(w.history, w.servers, s, m) && G.ServerOk(w.history, n, s, w.servers[s]);
    HistoryIsComplete(w.history, n);
    if |m.covered| < TwoTo64 - 1 {
      CommittedIsIndexed(w.history, n, m.covered, m.term);
    }
    if w.servers[s].role == Leader {
      R.LeaderHasCommitted(w.history, n, m.covered, m.term, w.servers[s].term);
    }
  }

  lemma CommittedIsIndexed(h: History, n: nat, l: Log, bound: nat)
    requires LeadersOk(h) && Committed(h, n, l, bound) && |l| < TwoTo64 - 1
    ensures Indexed(l)
  {
    if l != [] {
      RaftSteps.CommittedIsLog(h, n, l, bound);
      forall i | 0 <= i < |l|
        ensures l[i].index == i + 1
      {
        assert EntryOk(h, l, i);
      }
    }
  }

  lemma RequestFollows(h: History, m: Message)
    requires LeadersOk(h) && m.AppendRequest? && m.term in h.elections
    requires R.Describes(h.leaderLogs[m.term], m.prevIndex, m.entries)
    ensures Follows(m)
  {
    R.LeaderTerms(h, m.term);
    forall k | 0 <= k < |m.entries|
      ensures m.entries[k].index == m.prevIndex + 1 + k
    {
      assert EntryOk(h, h.leaderLogs[m.term], m.prevIndex + k);
    }
  }

  lemma LogAscends(h: History, l: Log)
    requires LeadersOk(h) && LogOk(h, l)
    ensures Ascending(l)
  {
    forall i, j | 0 <= i <= j < |l|
      ensures l[i].term <= l[j].term
    {
      TermsAscend(h, l, i, j);
    }
  }
}
