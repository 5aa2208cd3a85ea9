/** What every reachable world of RaftProtocol satisfies, and leader completeness, which follows from
  * it (extended Raft paper, sections 5.2 to 5.4). */
module RaftInvariant {
  import opened Wrappers
  import opened RaftProtocol

  // ---------- logs ----------

  /** Entry `i` and all before it are those of the leader whose term it carries. */
  ghost predicate EntryOk(h: History, l: Log, i: nat)
    requires i < |l|
  {
    && l[i].index == i + 1
    && 1 <= l[i].term && l[i].term in h.leaderLogs
    && i < |h.leaderLogs[l[i].term]| && l[..i + 1] == h.leaderLogs[l[i].term][..i + 1]
  }

  ghost predicate LogOk(h: History, l: Log) {
    forall i: nat :: i < |l| ==> EntryOk(h, l, i)
  }

  ghost predicate TermsUpTo(l: Log, term: int) {
    forall i :: 0 <= i < |l| ==> l[i].term <= term
  }

  /** What a leader had when elected, followed by entries of its own term. */
  ghost predicate LeaderLogOk(h: History, term: nat)
    requires term in h.elections && term in h.leaderLogs
  {
    && h.elections[term].log <= h.leaderLogs[term]
    && LogOk(h, h.leaderLogs[term])
    && TermsUpTo(h.elections[term].log, term - 1)
    && (forall i :: |h.elections[term].log| <= i < |h.leaderLogs[term]| ==> h.leaderLogs[term][i].term == term)
  }

  ghost predicate LeadersOk(h: History) {
    h.elections.Keys == h.leaderLogs.Keys && forall term :: term in h.elections ==> LeaderLogOk(h, term)
  }

  // ---------- acknowledgements ----------

  /** The leader of `later` was elected with the first `k` entries of the leader of `term`. */
  ghost predicate Has(h: History, later: nat, term: nat, k: nat)
    requires later in h.elections && term in h.leaderLogs && k <= |h.leaderLogs[term]|
  {
    h.leaderLogs[term][..k] <= h.elections[later].log
  }

  ghost predicate Overruled(h: History, later: nat, term: nat, k: nat, bound: int)
    requires term in h.leaderLogs && k <= |h.leaderLogs[term]|
  {
    term < later <= bound && later in h.elections && !Has(h, later, term, k)
  }

  /** The log has the first `k` entries of the leader of `term`, unless a later leader, up to `bound`,
    * was elected without them. */
  ghost predicate Kept(h: History, l: Log, term: nat, k: nat, bound: int) {
    && term in h.leaderLogs && k <= |h.leaderLogs[term]|
    && (h.leaderLogs[term][..k] <= l || exists later :: Overruled(h, later, term, k, bound))
  }

  ghost predicate Acked(h: History, q: nat, term: nat, k: nat) {
    (q, term) in h.acked && k <= h.acked[(q, term)]
  }

  /** Everything `q` has acknowledged, in terms before `before`, is kept in `l`. */
  ghost predicate KeepsAcks(h: History, q: nat, l: Log, before: int, bound: int) {
    forall term: nat, k: nat {:trigger Kept(h, l, term, k, bound)} ::
      Acked(h, q, term, k) && term < before ==> Kept(h, l, term, k, bound)
  }

  // ---------- votes ----------

  /** A ballot of another server went to a claim at least as up to date as the voter's log. */
  ghost predicate BallotFair(v: nat, b: Ballot) {
    v != b.candidate ==> NotUpToDate(b.log, b.lastIndex, b.lastTerm)
  }

  ghost predicate ClaimHolds(l: Log, index: nat, term: nat) {
    index <= |l| && TermAt(l, index) == term
  }

  /** One ballot of the winner's majority. */
  ghost predicate VoterOk(h: History, n: nat, term: nat, v: nat)
    requires term in h.elections && v in h.elections[term].ballots
  {
    var x := h.elections[term];
    var b := x.ballots[v];
    && v < n
    && (v, term) in h.ballots && h.ballots[(v, term)].candidate == x.leader
    && b.candidate == x.leader
    && LogOk(h, b.log)
    && (v == x.leader ==> b.log == x.log)
    && BallotFair(v, b) && ClaimHolds(x.log, b.lastIndex, b.lastTerm)
    && KeepsAcks(h, v, b.log, term, term - 1)
  }

  ghost predicate ElectionsOk(h: History, n: nat) {
    forall term :: term in h.elections ==>
                     && 1 <= term
                     && h.elections[term].leader < n
                     && IsMajority(h.elections[term].ballots.Keys, n)
                     && (forall v {:trigger VoterOk(h, n, term, v)} :: v in h.elections[term].ballots ==> VoterOk(h, n, term, v))
  }

  ghost predicate HistoryOk(h: History, n: nat) {
    LeadersOk(h) && ElectionsOk(h, n)
  }

  // ---------- commitment ----------

  ghost predicate Quorum(h: History, n: nat, term: nat, k: nat, q: set<nat>) {
    IsMajority(q, n) && forall v :: v in q ==> v < n && Acked(h, v, term, k)
  }

  /** Entry `k` of the leader of `term`, of that very term, has been acknowledged by a majority. */
  ghost predicate CommittedAt(h: History, n: nat, term: nat, k: nat) {
    && term in h.elections && term in h.leaderLogs
    && 1 <= k <= |h.leaderLogs[term]| && h.leaderLogs[term][k - 1].term == term
    && exists q :: Quorum(h, n, term, k, q)
  }

  ghost predicate CoveredBy(h: History, n: nat, l: Log, term: nat, k: nat) {
    CommittedAt(h, n, term, k) && |l| <= k && l == h.leaderLogs[term][..|l|]
  }

  /** `l` is a prefix of what some leader, not after `bound`, has committed. */
  ghost predicate Committed(h: History, n: nat, l: Log, bound: nat) {
    l == [] || exists term: nat, k: nat :: term <= bound && CoveredBy(h, n, l, term, k)
  }

  // ---------- leader completeness ----------

  lemma {:induction false} CardinalityUpTo(n: nat, q: set<nat>)
    requires forall v :: v in q ==> v < n
    ensures |q| <= n
  {
    if n == 0 {
      assert q == {};
    } else {
      CardinalityUpTo(n - 1, q - {n - 1});
    }
  }

  /** Two majorities share a server. */
  lemma MajoritiesMeet(n: nat, a: set<nat>, b: set<nat>) returns (v: nat)
    requires IsMajority(a, n) && IsMajority(b, n)
    requires (forall x :: x in a ==> x < n) && (forall x :: x in b ==> x < n)
    ensures v in a && v in b
  {
    if a * b == {} {
      assert |a + b| == |a| + |b|;
      CardinalityUpTo(n, a + b);
    }
    v :| v in a * b;
  }

  lemma SameTermSamePrefix(h: History, a: Log, b: Log, i: nat)
    requires LogOk(h, a) && LogOk(h, b) && 1 <= i <= |a| && i <= |b| && TermAt(a, i) == TermAt(b, i)
    ensures a[..i] == b[..i]
  {
    assert EntryOk(h, a, i - 1) && EntryOk(h, b, i - 1);
  }

  /** Terms never decrease along a log. */
  lemma TermsAscend(h: History, l: Log, i: nat, j: nat)
    requires LeadersOk(h) && LogOk(h, l) && i <= j < |l|
    ensures l[i].term <= l[j].term
  {
    assert EntryOk(h, l, j);
    var t := l[j].term;
    assert LeaderLogOk(h, t);
    assert l[i] == l[..j + 1][i] == h.leaderLogs[t][i];
    if i < |h.elections[t].log| {
      assert h.elections[t].log[i] == h.leaderLogs[t][i];
    }
  }

  lemma PrefixOfPrefix(a: Log, b: Log, k: nat, c: nat)
    requires k <= c <= |b| && k <= |a| && a[..k] <= b
    ensures a[..k] <= b[..c] && a[..k] == b[..k]
  {
  }

  /** The voter's log ends in the claimed term: then it is a prefix of the winner's. */
  lemma ClaimInSameTerm(h: History, l: Log, x: Log, c: nat)
    requires LeadersOk(h) && LogOk(h, l) && LogOk(h, x) && l != [] && |l| <= c <= |x|
    requires TermAt(x, c) == TermAt(l, |l|)
    ensures l <= x
  {
    assert EntryOk(h, l, |l| - 1) && EntryOk(h, x, c - 1);
    var t := h.leaderLogs[TermAt(x, c)];
    assert l == l[..|l|] == t[..|l|];
    assert x[..c] == t[..c];
    assert x[..|l|] == x[..c][..|l|] == t[..c][..|l|] == t[..|l|];
  }

  lemma OwnTermAfterElection(h: History, u: nat, i: nat)
    requires u in h.elections && u in h.leaderLogs && LeaderLogOk(h, u) && i < |h.leaderLogs[u]|
    ensures h.leaderLogs[u][i].term == u ==> |h.elections[u].log| <= i
    ensures i < |h.elections[u].log| ==> h.leaderLogs[u][i] == h.elections[u].log[i]
  {
  }

  /** The claim is of a later leader `u` that has the committed prefix: then the winner has it too. */
  lemma ClaimInLaterTerm(h: History, p: Log, x: Log, c: nat)
    requires LeadersOk(h) && LogOk(h, x) && 1 <= c <= |x|
    requires var u := TermAt(x, c); u in h.elections && p <= h.elections[u].log
    ensures p <= x
  {
    var u := TermAt(x, c);
    assert EntryOk(h, x, c - 1);
    assert LeaderLogOk(h, u);
    var e, t := h.elections[u].log, h.leaderLogs[u];
    assert t[c - 1] == t[..c][c - 1] == x[..c][c - 1] == x[c - 1];
    OwnTermAfterElection(h, u, c - 1);
    assert |p| <= |e| < c;
    assert p == t[..|p|];
    assert x[..|p|] == x[..c][..|p|] == t[..c][..|p|] == t[..|p|];
  }

  /** The candidate's log reaches what its voter had, if no leader in between had been elected without it. */
  lemma VoteCarriesOver(h: History, n: nat, term: nat, k: nat, later: nat, v: nat)
    requires LeadersOk(h) && later in h.elections && v in h.elections[later].ballots && VoterOk(h, n, later, v)
    requires term in h.leaderLogs && 1 <= k <= |h.leaderLogs[term]| && h.leaderLogs[term][k - 1].term == term < later
    requires h.leaderLogs[term][..k] <= h.elections[later].ballots[v].log
    requires forall mid :: term < mid < later && mid in h.elections ==> Has(h, mid, term, k)
    ensures Has(h, later, term, k)
  {
    var x := h.elections[later];
    var b, p := x.ballots[v], h.leaderLogs[term][..k];
    if v != x.leader {
      ElectedLogOk(h, later);
      assert b.log[k - 1] == p[k - 1];
      TermsAscend(h, b.log, k - 1, |b.log| - 1);
      if b.lastTerm == TermAt(b.log, |b.log|) {
        ClaimInSameTerm(h, b.log, x.log, b.lastIndex);
      } else {
        ClaimIsElection(h, x.log, b.lastIndex, later);
        assert Has(h, b.lastTerm, term, k);
        ClaimInLaterTerm(h, p, x.log, b.lastIndex);
      }
    }
  }

  lemma ClaimIsElection(h: History, x: Log, c: nat, later: nat)
    requires LeadersOk(h) && later in h.elections && x == h.elections[later].log && 1 <= c <= |x|
    ensures TermAt(x, c) in h.elections && TermAt(x, c) < later
  {
    ElectedLogOk(h, later);
    assert LeaderLogOk(h, later);
    assert EntryOk(h, x, c - 1);
  }

  lemma ElectedLogOk(h: History, term: nat)
    requires LeadersOk(h) && term in h.elections
    ensures LogOk(h, h.elections[term].log)
  {
    assert LeaderLogOk(h, term);
    var l, t := h.elections[term].log, h.leaderLogs[term];
    forall i: nat | i < |l|
      ensures EntryOk(h, l, i)
    {
      assert EntryOk(h, t, i);
      assert t[i] == l[i] && t[..i + 1] == l[..i + 1];
    }
  }

  /** Leader completeness: every later leader was elected with all that had been committed, or ever
    * will be, in an earlier term. */
  lemma {:induction false} LeaderCompleteness(h: History, n: nat, term: nat, k: nat, later: nat)
    requires HistoryOk(h, n) && CommittedAt(h, n, term, k) && later in h.elections && term < later
    ensures Has(h, later, term, k)
    decreases later
  {
    var q :| Quorum(h, n, term, k, q);
    var x := h.elections[later];
    forall v | v in x.ballots.Keys
      ensures v < n
    {
      assert VoterOk(h, n, later, v);
    }
    var v := MajoritiesMeet(n, q, x.ballots.Keys);
    assert VoterOk(h, n, later, v) && Acked(h, v, term, k);
    forall mid | term < mid < later && mid in h.elections
      ensures Has(h, mid, term, k)
    {
      LeaderCompleteness(h, n, term, k, mid);
    }
    assert Kept(h, x.ballots[v].log, term, k, later - 1);
    VoteCarriesOver(h, n, term, k, later, v);
  }

  lemma HasAgrees(h: History, a: nat, j: nat, b: nat, i: nat)
    requires LeadersOk(h) && a in h.leaderLogs && b in h.elections && i <= j <= |h.leaderLogs[a]| && Has(h, b, a, j)
    ensures i <= |h.leaderLogs[b]| && h.leaderLogs[a][..i] == h.leaderLogs[b][..i]
  {
    assert LeaderLogOk(h, b);
    PrefixOfPrefix(h.leaderLogs[a], h.leaderLogs[b], j, |h.leaderLogs[b]|);
    assert h.leaderLogs[a][..i] == h.leaderLogs[a][..j][..i] == h.leaderLogs[b][..j][..i] == h.leaderLogs[b][..i];
  }

  /** Leader completeness for all terms at once. */
  ghost predicate Complete(h: History, n: nat) {
    forall a: nat, j: nat, b: nat :: CommittedAt(h, n, a, j) && b in h.elections && a < b ==> Has(h, b, a, j)
  }

  lemma HistoryIsComplete(h: History, n: nat)
    requires HistoryOk(h, n)
    ensures Complete(h, n)
  {
    forall a: nat, j: nat, b: nat | CommittedAt(h, n, a, j) && b in h.elections && a < b
      ensures Has(h, b, a, j)
    {
      LeaderCompleteness(h, n, a, j, b);
    }
  }

  lemma LaterAgrees(h: History, n: nat, a: nat, j: nat, b: nat, i: nat)
    requires LeadersOk(h) && Complete(h, n) && CommittedAt(h, n, a, j) && b in h.elections && a <= b && i <= j
    ensures i <= |h.leaderLogs[a]| && b in h.leaderLogs && i <= |h.leaderLogs[b]| && h.leaderLogs[a][..i] == h.leaderLogs[b][..i]
  {
    if a < b {
      HasAgrees(h, a, j, b, i);
    }
  }

  /** Two committed prefixes agree as far as both reach. */
  lemma CommittedAgree(h: History, n: nat, a: nat, j: nat, b: nat, k: nat, i: nat)
    requires LeadersOk(h) && Complete(h, n) && CommittedAt(h, n, a, j) && CommittedAt(h, n, b, k) && i <= j && i <= k
    ensures i <= |h.leaderLogs[a]| && i <= |h.leaderLogs[b]| && h.leaderLogs[a][..i] == h.leaderLogs[b][..i]
  {
    if a <= b {
      LaterAgrees(h, n, a, j, b, i);
    } else {
      LaterAgrees(h, n, b, k, a, i);
    }
  }
}
