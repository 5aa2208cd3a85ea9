/** Accelerated back-off: the NotContain answer of AppendEntries together with the reply half of
  * callAppendEntries (raft/raft.go, raft/raft_log.go). */
module Backoff {
  import opened Wrappers
  import opened RaftProtocol
  import opened RaftInvariant
  import opened CompactedLog
  import opened RaftNode
  import G = RaftGrowth
  import S = RaftSafety
  import T = RaftTheorems

  /** Follower `f` lacks the leader's entry at `prev`. */
  predicate Lacks(l: Log, f: Log, prev: nat)
    requires prev <= |l|
  {
    prev > |f| || TermAt(f, prev) != TermAt(l, prev)
  }

  /** Entries of one term at two indexes, in two logs: the logs agree up to the smaller one. */
  lemma SameTermAgrees(h: History, l: Log, f: Log, i: nat, j: nat)
    requires LogOk(h, l) && LogOk(h, f) && 1 <= i <= j && i <= |f| && j <= |l| && TermAt(f, i) == TermAt(l, j)
    ensures f[..i] == l[..i] && TermAt(f, i) == TermAt(l, i)
  {
    assert EntryOk(h, f, i - 1) && EntryOk(h, l, j - 1);
    var t := h.leaderLogs[TermAt(l, j)];
    assert l[..i] == l[..j][..i] == t[..j][..i] == t[..i];
    assert f[..i][i - 1] == l[..i][i - 1];
  }

  /** The follower finds the first retained entry of a term that it has at `prev`, at or before `prev`. */
  lemma FirstIsFound(h: History, f: Log, snap: nat, prev: nat)
    requires LeadersOk(h) && LogOk(h, f) && snap < prev <= |f|
    ensures var r := FirstOf(f, snap, TermAt(f, prev)); r.Some? && 1 <= r.value.index <= prev
  {
    var t := TermAt(f, prev);
    var i := FirstAtLeast(f, snap, t);
    assert f[prev - 1].term == t;
    assert i <= prev;
    TermsAscend(h, f, i - 1, prev - 1);
    assert EntryOk(h, f, i - 1);
  }

  /** Where the leader has entries of the follower's term, the last of them lies before `prev`. */
  lemma LastIsBefore(h: History, l: Log, lsnap: nat, f: Log, prev: nat)
    requires LeadersOk(h) && LogOk(h, l) && LogOk(h, f) && lsnap <= |l| && 1 <= prev <= |l| && prev <= |f| && Lacks(l, f, prev)
    ensures var r := BehindLastOf(l, lsnap, TermAt(f, prev)); r.Some? ==> 1 <= r.value.index <= prev
  {
    var t := TermAt(f, prev);
    var i := FirstAtLeast(l, lsnap, t + 1);
    if lsnap + 1 < i <= |l| && l[i - 2].term == t {
      assert EntryOk(h, l, i - 1);
      if i > prev {
        SameTermAgrees(h, l, f, prev, i - 1);
      }
    }
  }

  /** Each NotContain round lowers nextIndex, and keeps it at least 1. */
  lemma RoundLowersNextIndex(h: History, l: Log, lsnap: nat, f: Log, fsnap: nat, next: nat, term: nat)
    requires LeadersOk(h) && LogOk(h, l) && LogOk(h, f) && lsnap < next <= |l| + 1
    requires fsnap <= |f| && (next - 1 > fsnap || next - 1 > |f|) && Lacks(l, f, next - 1)
    ensures var r := NotContainReply(term, f, fsnap, next - 1);
            r.Some? && 1 <= NextIndexAfter(l, lsnap, next, r.value) < next
  {
    var prev := next - 1;
    if prev <= |f| {
      assert prev >= 1;
      assert EntryOk(h, f, prev - 1);
      FirstIsFound(h, f, fsnap, prev);
      LastIsBefore(h, l, lsnap, f, prev);
    }
  }

  lemma TermsGrow(h: History, l: Log, i: nat, j: nat)
    requires LeadersOk(h) && LogOk(h, l) && i <= j <= |l|
    ensures TermAt(l, i) <= TermAt(l, j)
  {
    if i > 0 {
      TermsAscend(h, l, i - 1, j - 1);
    }
  }

  /** Behind the last retained entry of a term the terms are later. */
  lemma BehindIsLater(h: History, l: Log, lsnap: nat, term: nat, m: nat)
    requires LeadersOk(h) && LogOk(h, l) && lsnap <= |l|
    requires BehindLastOf(l, lsnap, term).Some? && BehindLastOf(l, lsnap, term).value.index <= m <= |l|
    ensures TermAt(l, m) > term
  {
    var i := FirstAtLeast(l, lsnap, term + 1);
    assert EntryOk(h, l, i - 1);
    TermsGrow(h, l, i, m);
  }

  /** A term of which nothing is retained is that of no retained entry. */
  lemma NoneOfTerm(h: History, l: Log, lsnap: nat, term: nat, m: nat)
    requires LeadersOk(h) && LogOk(h, l) && lsnap < m <= |l| && FirstOf(l, lsnap, term).None?
    ensures TermAt(l, m) != term
  {
    var i := FirstAtLeast(l, lsnap, term);
    if TermAt(l, m) == term {
      assert l[m - 1].term == term && i <= m;
      TermsGrow(h, l, i, m);
    }
  }

  /** Between the first retained entry of the term at `prev` and `prev`, all entries are of that term. */
  lemma OneTermBetween(h: History, f: Log, fsnap: nat, prev: nat, m: nat)
    requires LeadersOk(h) && LogOk(h, f) && fsnap < prev <= |f|
    requires FirstOf(f, fsnap, TermAt(f, prev)).Some? && FirstOf(f, fsnap, TermAt(f, prev)).value.index <= m <= prev
    ensures fsnap < m && TermAt(f, m) == TermAt(f, prev)
  {
    var i := FirstAtLeast(f, fsnap, TermAt(f, prev));
    assert EntryOk(h, f, i - 1);
    TermsGrow(h, f, i, m);
    TermsGrow(h, f, m, prev);
  }

  /** A round turns back over no agreement: wherever it does not look again, above the leader's snapshot, the
    * follower lacks the leader's entry. */
  lemma NothingJumped(h: History, l: Log, lsnap: nat, f: Log, fsnap: nat, next: nat, term: nat, m: nat)
    requires LeadersOk(h) && LogOk(h, l) && LogOk(h, f) && lsnap < next <= |l| + 1
    requires fsnap <= |f| && (next - 1 > fsnap || next - 1 > |f|) && Lacks(l, f, next - 1)
    requires NotContainReply(term, f, fsnap, next - 1).Some?
    requires NextIndexAfter(l, lsnap, next, NotContainReply(term, f, fsnap, next - 1).value) <= m < next && lsnap < m
    ensures Lacks(l, f, m)
  {
    var prev := next - 1;
    if prev <= |f| {
      var t := TermAt(f, prev);
      assert EntryOk(h, f, prev - 1);
      TermsGrow(h, f, m, prev);
      if FirstOf(l, lsnap, t).None? {
        OneTermBetween(h, f, fsnap, prev, m);
        NoneOfTerm(h, l, lsnap, t, m);
      } else if BehindLastOf(l, lsnap, t).Some? {
        BehindIsLater(h, l, lsnap, t, m);
      }
    }
  }

  /** Nor over the follower's snapshot. */
  lemma StaysAboveSnapshot(h: History, l: Log, lsnap: nat, f: Log, fsnap: nat, next: nat, term: nat)
    requires LeadersOk(h) && LogOk(h, l) && LogOk(h, f) && lsnap < next <= |l| + 1
    requires fsnap <= |f| && (next - 1 > fsnap || next - 1 > |f|) && Lacks(l, f, next - 1) && SnapshotAgrees(l, f, fsnap)
    requires NotContainReply(term, f, fsnap, next - 1).Some?
    ensures NextIndexAfter(l, lsnap, next, NotContainReply(term, f, fsnap, next - 1).value) > fsnap
  {
    var prev := next - 1;
    if prev <= |f| {
      var t := TermAt(f, prev);
      assert EntryOk(h, f, prev - 1);
      if FirstOf(l, lsnap, t).None? {
        FirstIsFound(h, f, fsnap, prev);
        OneTermBetween(h, f, fsnap, prev, FirstOf(f, fsnap, t).value.index);
      } else if BehindLastOf(l, lsnap, t).Some? && BehindLastOf(l, lsnap, t).value.index <= fsnap {
        BehindIsLater(h, l, lsnap, t, fsnap);
        SamePrefixSameTerm(l, f, fsnap);
        TermsGrow(h, f, fsnap, prev);
      }
    }
  }

  /** Where the follower's term at `prev` is one of the leader's retained ones, it is not that of its last entry. */
  lemma NotTheLastTerm(h: History, l: Log, lsnap: nat, f: Log, prev: nat)
    requires LeadersOk(h) && LogOk(h, l) && LogOk(h, f) && lsnap <= |l| && 1 <= prev <= |l| && prev <= |f| && Lacks(l, f, prev)
    requires FirstOf(l, lsnap, TermAt(f, prev)).Some?
    ensures BehindLastOf(l, lsnap, TermAt(f, prev)).Some?
    ensures var i := BehindLastOf(l, lsnap, TermAt(f, prev)).value.index;
            1 < i <= |l| && TermAt(l, i - 1) == TermAt(f, prev)
  {
    var t := TermAt(f, prev);
    var j, i := FirstAtLeast(l, lsnap, t), FirstAtLeast(l, lsnap, t + 1);
    assert l[j - 1].term == t && j < i;
    TermsGrow(h, l, j, i - 1);
    if i == |l| + 1 {
      SameTermAgrees(h, l, f, prev, |l|);
    } else {
      assert EntryOk(h, l, i - 1);
    }
  }

  /** Each round leaves a term of the follower behind: if the next one fails again within its log, it does so at an
    * earlier term. */
  lemma LeavesATerm(h: History, l: Log, lsnap: nat, f: Log, fsnap: nat, next: nat, term: nat)
    requires LeadersOk(h) && LogOk(h, l) && LogOk(h, f) && lsnap < next <= |l| + 1
    requires fsnap < next - 1 <= |f| && Lacks(l, f, next - 1)
    requires NotContainReply(term, f, fsnap, next - 1).Some?
    requires fsnap < NextIndexAfter(l, lsnap, next, NotContainReply(term, f, fsnap, next - 1).value) - 1 < next - 1
    requires Lacks(l, f, NextIndexAfter(l, lsnap, next, NotContainReply(term, f, fsnap, next - 1).value) - 1)
    ensures TermAt(f, NextIndexAfter(l, lsnap, next, NotContainReply(term, f, fsnap, next - 1).value) - 1) < TermAt(f, next - 1)
  {
    var prev := next - 1;
    var t := TermAt(f, prev);
    var n := NextIndexAfter(l, lsnap, next, NotContainReply(term, f, fsnap, prev).value);
    assert EntryOk(h, f, prev - 1);
    TermsGrow(h, f, n - 1, prev);
    if FirstOf(l, lsnap, t).Some? {
      NotTheLastTerm(h, l, lsnap, f, prev);
    } else {
      var i := FirstAtLeast(f, fsnap, t);
      assert EntryOk(h, f, i - 1);
      assert f[i - 2].term < t;
    }
  }

  /** The terms among the first `i` entries. */
  function TermsOf(f: Log, i: nat): set<nat>
    requires i <= |f|
  {
    set k | 0 <= k < i :: f[k].term
  }

  lemma OneTermFewer(h: History, f: Log, i: nat, j: nat)
    requires LeadersOk(h) && LogOk(h, f) && i < j <= |f| && (i == 0 || TermAt(f, i) < TermAt(f, j))
    ensures |TermsOf(f, i)| < |TermsOf(f, j)|
  {
    var t := f[j - 1].term;
    assert t in TermsOf(f, j) && TermsOf(f, i) <= TermsOf(f, j);
    forall k | 0 <= k < i
      ensures f[k].term != t
    {
      TermsGrow(h, f, k + 1, i);
    }
    assert TermsOf(f, i) <= TermsOf(f, j) - {t};
    SubsetSize(TermsOf(f, i), TermsOf(f, j) - {t});
  }

  lemma SubsetSize(a: set<nat>, b: set<nat>)
    requires a <= b
    ensures |a| <= |b|
  {
    assert b == a + (b - a);
  }

  lemma MatchAgrees(h: History, l: Log, f: Log, prev: nat)
    requires LogOk(h, l) && LogOk(h, f) && prev <= |l| && !Lacks(l, f, prev)
    ensures l[..prev] == f[..prev]
  {
    if prev > 0 {
      SameTermAgrees(h, l, f, prev, prev);
    }
  }

  datatype Outcome = Matched(prev: nat) | NeedsSnapshot | FollowerCompacted(prev: nat)

  /** How a search ends, after how many NotContain answers. */
  datatype Search = Search(outcome: Outcome, refusals: nat)

  /** The follower's snapshot does not contradict the leader. */
  predicate SnapshotAgrees(l: Log, f: Log, fsnap: nat)
    requires fsnap <= |f|
  {
    fsnap <= |l| ==> f[..fsnap] == l[..fsnap]
  }

  /** The refusals to come: one for a log that is too short, and one for each of the follower's terms. */
  function AtMost(f: Log, next: nat): nat
    requires next >= 1
  {
    if next - 1 > |f| then |TermsOf(f, |f|)| + 1 else |TermsOf(f, next - 1)|
  }

  /** All rounds with both logs fixed, from `next` on. They end at the last agreement before `next`; or below the
    * leader's snapshot, when there is none above it; or at once, if the follower has compacted further. */
  ghost function Rounds(h: History, l: Log, lsnap: nat, f: Log, fsnap: nat, next: nat): (r: Search)
    requires LeadersOk(h) && LogOk(h, l) && LogOk(h, f) && lsnap <= |l| && 1 <= next <= |l| + 1
    requires fsnap <= |f| && SnapshotAgrees(l, f, fsnap)
    ensures var o := r.outcome;
            && (o.Matched? ==> lsnap <= o.prev < next && fsnap <= o.prev <= |f| && l[..o.prev] == f[..o.prev]
                               && forall m :: o.prev < m < next ==> Lacks(l, f, m))
            && (o.NeedsSnapshot? ==> forall m :: lsnap < m < next ==> Lacks(l, f, m))
            && (o.FollowerCompacted? ==> o.prev == next - 1 < fsnap)
    ensures r.refusals <= AtMost(f, next)
    decreases next
  {
    var prev := next - 1;
    if next <= lsnap then Search(NeedsSnapshot, 0)
    else if prev < fsnap then Search(FollowerCompacted(prev), 0)
    else if !Lacks(l, f, prev) then
      MatchAgrees(h, l, f, prev);
      Search(Matched(prev), 0)
    else
      AtSnapshotMatches(l, f, fsnap, prev);
      RoundLowersNextIndex(h, l, lsnap, f, fsnap, next, 0);
      var after := NextIndexAfter(l, lsnap, next, NotContainReply(0, f, fsnap, prev).value);
      var rest := Rounds(h, l, lsnap, f, fsnap, after);
      RoundIsGood(h, l, lsnap, f, fsnap, next);
      Search(rest.outcome, rest.refusals + 1)
  }

  /** What one round contributes to the search. */
  lemma RoundIsGood(h: History, l: Log, lsnap: nat, f: Log, fsnap: nat, next: nat)
    requires LeadersOk(h) && LogOk(h, l) && LogOk(h, f) && lsnap < next <= |l| + 1
    requires fsnap <= |f| && SnapshotAgrees(l, f, fsnap) && (next - 1 > fsnap || next - 1 > |f|) && Lacks(l, f, next - 1)
    requires NotContainReply(0, f, fsnap, next - 1).Some?
    requires 1 <= NextIndexAfter(l, lsnap, next, NotContainReply(0, f, fsnap, next - 1).value) < next
    ensures var after := NextIndexAfter(l, lsnap, next, NotContainReply(0, f, fsnap, next - 1).value);
            && after > fsnap
            && (forall m :: after <= m < next && lsnap < m ==> Lacks(l, f, m))
            && AtMost(f, next) >= 1
            && (lsnap < after && Lacks(l, f, after - 1) ==> AtMost(f, after) < AtMost(f, next))
  {
    var after := NextIndexAfter(l, lsnap, next, NotContainReply(0, f, fsnap, next - 1).value);
    StaysAboveSnapshot(h, l, lsnap, f, fsnap, next, 0);
    forall m | after <= m < next && lsnap < m
      ensures Lacks(l, f, m)
    {
      NothingJumped(h, l, lsnap, f, fsnap, next, 0, m);
    }
    if next - 1 <= |f| {
      OneTermFewer(h, f, 0, next - 1);
      if lsnap < after && Lacks(l, f, after - 1) {
        AtSnapshotMatches(l, f, fsnap, after - 1);
        LeavesATerm(h, l, lsnap, f, fsnap, next, 0);
        OneTermFewer(h, f, after - 1, next - 1);
      }
    }
  }

  lemma AtSnapshotMatches(l: Log, f: Log, fsnap: nat, prev: nat)
    requires fsnap <= |f| && fsnap <= prev <= |l| && SnapshotAgrees(l, f, fsnap) && Lacks(l, f, prev)
    ensures prev > fsnap || prev > |f|
  {
    SamePrefixSameTerm(l, f, fsnap);
  }

  lemma SamePrefixSameTerm(l: Log, f: Log, i: nat)
    requires i <= |l| && i <= |f| && f[..i] == l[..i]
    ensures TermAt(f, i) == TermAt(l, i)
  {
    if i > 0 {
      assert f[..i][i - 1] == l[..i][i - 1];
    }
  }

  /** At the index of its own snapshot the leader may turn back over an agreement: the term there is not looked
    * for, since no entry of it is retained, and the follower gets a snapshot that it could do without. */
  lemma SnapshotDespiteAgreement() returns (l: Log, f: Log)
    ensures |l| == 4 && |f| == 4 && !Lacks(l, f, 2) && Lacks(l, f, 3)
    ensures var r := NotContainReply(2, f, 0, 3); r.Some? && NextIndexAfter(l, 2, 4, r.value) <= 2
  {
    l := [Entry(1, 1, []), Entry(1, 2, []), Entry(2, 3, []), Entry(2, 4, [])];
    f := [Entry(1, 1, []), Entry(1, 2, []), Entry(1, 3, []), Entry(1, 4, [])];
    assert FirstAtLeast(f, 0, 1) == 1 && FirstAtLeast(l, 2, 1) == 3;
  }

  /** In every run: a follower not ahead in term answers a leader without panicking, and the leader turns
    * back, but not below 1. */
  lemma BackoffProgresses(n: nat, steps: seq<Step>, s: nat, q: nat, next: nat)
    requires Run(n, steps).Some? && S.CleanRun(n, steps) && s < n && q < n
    requires |Run(n, steps).value.servers| == n
    requires var x, y := Run(n, steps).value.servers[s], Run(n, steps).value.servers[q];
             && x.role == Leader && y.term <= x.term && x.snap < next <= |x.log| + 1
             && y.snap <= next - 1 && Lacks(x.log, y.log, next - 1)
    ensures var x, y := Run(n, steps).value.servers[s], Run(n, steps).value.servers[q];
            && x.snap <= |x.log| && y.snap <= |y.log|
            && var r := NotContainReply(y.term, y.log, y.snap, next - 1);
               r.Some? && 1 <= NextIndexAfter(x.log, x.snap, next, r.value) < next
  {
    var w := Run(n, steps).value;
    var x, y := w.servers[s], w.servers[q];
    S.RunKeeps(n, steps);
    LogsOf(w, s);
    LogsOf(w, q);
    T.OwnCommitted(w, q);
    T.CommittedPersists(w, w, n, y.log[..y.commit], y.term, x.term);
    T.LeaderHasIt(w, s, y.log[..y.commit]);
    RoundProgresses(w.history, x.log, x.snap, y, next);
  }

  lemma RoundProgresses(h: History, l: Log, lsnap: nat, y: Server, next: nat)
    requires LeadersOk(h) && LogOk(h, l) && LogOk(h, y.log) && lsnap < next <= |l| + 1
    requires y.snap <= y.commit <= |y.log| && y.log[..y.commit] <= l && y.snap <= next - 1 && Lacks(l, y.log, next - 1)
    ensures var r := NotContainReply(y.term, y.log, y.snap, next - 1);
            r.Some? && 1 <= NextIndexAfter(l, lsnap, next, r.value) < next
  {
    assert y.log[..y.snap] == y.log[..y.commit][..y.snap] == l[..y.commit][..y.snap] == l[..y.snap];
    AtSnapshotMatches(l, y.log, y.snap, next - 1);
    RoundLowersNextIndex(h, l, lsnap, y.log, y.snap, next, y.term);
  }

  lemma LogsOf(w: World, s: nat)
    requires G.WorldOk(w) && s < |w.servers|
    ensures LeadersOk(w.history) && LogOk(w.history, w.servers[s].log)
    ensures w.servers[s].snap <= w.servers[s].commit <= |w.servers[s].log|
  {
    assert G.ServerOk(w.history, |w.servers|, s, w.servers[s]);
  }
}
