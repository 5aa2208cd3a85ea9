/** Single steps and short sequences of them, to put runs together by hand. */
module RaftStories {
  import opened Wrappers
  import opened RaftProtocol
  import opened RaftSafety
  import opened RaftElection
  import opened RaftReplication

  ghost predicate Kept(g: Guard, p: World -> bool) {
    forall w, step :: Plain(step) && Enabled(w, step) && Allowed(g, w, step) && p(w) ==> p(Take(w, step))
  }

  lemma Next(g: Guard, p: World -> bool, w: World, step: Step) returns (v: World)
    requires Kept(g, p) && p(w) && Plain(step) && Enabled(w, step) && Allowed(g, w, step)
    ensures p(v) && v == Take(w, step)
  {
    v := Take(w, step);
  }

  /** `v` follows `w`: server `s` has become `y`, and nothing has been unsent or unapplied. */
  ghost predicate Goes(p: World -> bool, w: World, v: World, s: nat, y: Server) {
    && p(v) && s < |w.servers| && v.servers == w.servers[s := y]
    && w.messages <= v.messages && v.applied == w.applied
  }

  // ---------- elections ----------

  lemma Launch(g: Guard, p: World -> bool, w: World, s: nat, newTerm: nat) returns (v: World)
    requires Kept(g, p) && p(w) && s < |w.servers| && newTerm >= 1
    requires g.fairLaunches ==> MayLaunch(s, w.servers[s], newTerm)
    ensures Goes(p, w, v, s, Launched(s, w.servers[s], newTerm))
  {
    v := Next(g, p, w, LaunchElection(s, newTerm));
  }

  function Request(s: nat, x: Server): Message
    requires x.snap <= |x.log|
  {
    VoteRequest(x.term, s, x.snap, TermAt(x.log, x.snap))
  }

  lemma Ask(g: Guard, p: World -> bool, w: World, s: nat) returns (v: World)
    requires Kept(g, p) && p(w) && s < |w.servers| && w.servers[s].role == Candidate && w.servers[s].snap <= |w.servers[s].log|
    ensures Goes(p, w, v, s, w.servers[s]) && Request(s, w.servers[s]) in v.messages
  {
    v := Next(g, p, w, AskVote(s));
  }

  lemma Grant(g: Guard, p: World -> bool, w: World, s: nat, m: Message) returns (v: World)
    requires Kept(g, p) && p(w) && s < |w.servers| && m in w.messages && m.VoteRequest? && m.candidate != s && Grants(w.servers[s], m)
    ensures Goes(p, w, v, s, Voted(s, w.servers[s], m)) && VoteReply(m.term, s, m.candidate) in v.messages
  {
    v := Next(g, p, w, AnswerVote(s, m));
  }

  /** The reply of `v` in the election that `s` is still counting. */
  ghost predicate Awaits(g: Guard, w: World, s: nat, v: nat) {
    && s < |w.servers| && w.servers[s].tally.Some? && v !in w.servers[s].tally.value.heard
    && VoteReply(w.servers[s].tally.value.term, v, s) in w.messages
    && (g.timelyCounts ==> w.servers[s].tally.value.term == w.servers[s].term)
  }

  lemma Count(g: Guard, p: World -> bool, w: World, s: nat, v: nat) returns (u: World)
    requires Kept(g, p) && p(w) && Awaits(g, w, s, v)
    ensures var y := Counted(w.servers[s], v);
            Goes(p, w, u, s, if IsMajority(y.votes, |w.servers|) then Crowned(|w.servers|, y) else y)
  {
    u := Next(g, p, w, CountVote(s, VoteReply(w.servers[s].tally.value.term, v, s)));
  }

  /** Two votes are a majority of three. */
  lemma WinByTwo(g: Guard, p: World -> bool, w: World, s: nat, a: nat) returns (v: World)
    requires Kept(g, p) && p(w) && |w.servers| == 3 && Awaits(g, w, s, a)
    requires |w.servers[s].votes + {a}| == 2
    ensures Goes(p, w, v, s, Crowned(3, w.servers[s].(votes := w.servers[s].votes + {a})))
  {
    v := Count(g, p, w, s, a);
  }

  /** Its own vote and those of two others are a majority of five. */
  lemma WinByThree(g: Guard, p: World -> bool, w: World, s: nat, a: nat, b: nat) returns (v: World)
    requires Kept(g, p) && p(w) && |w.servers| == 5 && a != s && b != s && a != b
    requires Awaits(g, w, s, a) && Awaits(g, w, s, b) && w.servers[s].votes == {s}
    ensures Goes(p, w, v, s, Crowned(5, w.servers[s].(votes := {s, a, b})))
  {
    assert |{s, a}| == 2 && {s} + {a} == {s, a};
    var u := Count(g, p, w, s, a);
    assert |{s, a, b}| == 3 && {s, a} + {b} == {s, a, b};
    v := Count(g, p, u, s, b);
  }

  /** A whole election among five: `s` wins with the votes of `a` and `b`. */
  lemma ElectionOfFive(g: Guard, p: World -> bool, w: World, s: nat, a: nat, b: nat) returns (v: World)
    requires Kept(g, p) && p(w) && |w.servers| == 5 && s < 5 && a < 5 && b < 5 && a != s && b != s && a != b
    requires w.servers[s].snap <= |w.servers[s].log|
    requires var m := Request(s, Launched(s, w.servers[s], w.servers[s].term + 1)); Grants(w.servers[a], m) && Grants(w.servers[b], m)
    ensures p(v) && w.messages <= v.messages && v.applied == w.applied
    ensures var y := Launched(s, w.servers[s], w.servers[s].term + 1);
            var m := Request(s, y);
            v.servers == w.servers[s := Crowned(5, y.(votes := {s, a, b}))]
                                  [a := Voted(a, w.servers[a], m)][b := Voted(b, w.servers[b], m)]
  {
    var m := Request(s, Launched(s, w.servers[s], w.servers[s].term + 1));
    var v1 := Launch(g, p, w, s, w.servers[s].term + 1);
    var v2 := Ask(g, p, v1, s);
    var v3 := Grant(g, p, v2, a, m);
    var v4 := Grant(g, p, v3, b, m);
    v := WinByThree(g, p, v4, s, a, b);
  }

  // ---------- replication ----------

  lemma Append(g: Guard, p: World -> bool, w: World, s: nat, data: seq<int>) returns (v: World)
    requires Kept(g, p) && p(w) && s < |w.servers| && w.servers[s].role == Leader && |w.servers[s].matchIndex| == |w.servers|
    ensures Goes(p, w, v, s, Appended(s, w.servers[s], data))
  {
    v := Next(g, p, w, Start(s, data));
  }

  function Sent(s: nat, x: Server, prev: nat): Message
    requires prev <= |x.log| && x.commit <= |x.log|
  {
    AppendRequest(x.term, s, prev, TermAt(x.log, prev), x.log[prev..], x.commit, TermAt(x.log, x.commit))
  }

  /** The leader sends all it has after `prev`, and `q` accepts. */
  lemma Feed(g: Guard, p: World -> bool, w: World, s: nat, q: nat, prev: nat) returns (v: World)
    requires Kept(g, p) && p(w) && s < |w.servers| && q < |w.servers| && s != q && w.servers[s].role == Leader
    requires w.servers[s].snap <= prev <= |w.servers[s].log| && w.servers[s].commit <= |w.servers[s].log|
    requires var m := Sent(s, w.servers[s], prev);
             && w.servers[q].term <= m.term && Contains(w.servers[q], prev, m.prevTerm)
    ensures var m := Sent(s, w.servers[s], prev);
            && Goes(p, w, v, q, Accept(Listening(w.servers[q], m), m))
            && (m.entries != [] ==> AppendReply(m.term, q, |w.servers[s].log|) in v.messages)
  {
    var u := Next(g, p, w, Replicate(s, prev, false));
    var m := Sent(s, w.servers[s], prev);
    assert m in u.messages && u.servers == w.servers;
    v := Next(g, p, u, HandleAppend(q, m));
  }

  function Heard(x: Server, q: nat, last: nat): Server
    requires q < |x.matchIndex| && last <= |x.log|
  {
    var y := x.(matchIndex := x.matchIndex[q := last]);
    y.(commit := LeaderCommit(y, last))
  }

  lemma Hear(g: Guard, p: World -> bool, w: World, s: nat, q: nat, last: nat) returns (v: World)
    requires Kept(g, p) && p(w) && s < |w.servers| && w.servers[s].role == Leader && q < |w.servers[s].matchIndex|
    requires last <= |w.servers[s].log| && AppendReply(w.servers[s].term, q, last) in w.messages
    ensures Goes(p, w, v, s, Heard(w.servers[s], q, last))
  {
    v := Next(g, p, w, HandleReply(s, AppendReply(w.servers[s].term, q, last)));
  }

  lemma TwoOfThree(x: Server, s: nat, a: nat, last: nat)
    requires |x.matchIndex| == 3 && s < 3 && a < 3 && s != a && x.matchIndex[s] >= last && x.matchIndex[a] >= last
    ensures IsMajority(Holders(x.matchIndex, last), 3)
  {
    var q := Holders(x.matchIndex, last);
    assert |{s, a}| == 2;
    assert |{s, a}| + |q - {s, a}| == |q|;
  }

  /** The leader of three hears from one other about its last entry, and commits it. */
  lemma HearOne(g: Guard, p: World -> bool, w: World, s: nat, a: nat) returns (v: World)
    requires Kept(g, p) && p(w) && |w.servers| == 3 && s < 3 && a < 3 && s != a
    requires var x := w.servers[s];
             && x.role == Leader && |x.matchIndex| == 3 && x.matchIndex[s] == |x.log|
             && x.commit < |x.log| && TermAt(x.log, |x.log|) == x.term
             && AppendReply(x.term, a, |x.log|) in w.messages
    ensures var x := w.servers[s];
            Goes(p, w, v, s, x.(matchIndex := x.matchIndex[a := |x.log|], commit := |x.log|))
  {
    var x := w.servers[s];
    TwoOfThree(x.(matchIndex := x.matchIndex[a := |x.log|]), s, a, |x.log|);
    v := Hear(g, p, w, s, a, |x.log|);
  }

  lemma ThreeOfFive(x: Server, s: nat, a: nat, b: nat, last: nat)
    requires |x.matchIndex| == 5 && s < 5 && a < 5 && b < 5 && s != a && s != b && a != b
    requires x.matchIndex[s] >= last && x.matchIndex[a] >= last && x.matchIndex[b] >= last
    ensures IsMajority(Holders(x.matchIndex, last), 5)
  {
    var q := Holders(x.matchIndex, last);
    assert |{s, a, b}| == 3;
    assert |{s, a, b}| + |q - {s, a, b}| == |q|;
  }

  /** The leader of five hears from two others about its last entry, and commits it. */
  lemma HearBoth(g: Guard, p: World -> bool, w: World, s: nat, a: nat, b: nat) returns (v: World)
    requires Kept(g, p) && p(w) && |w.servers| == 5 && s < 5 && a < 5 && b < 5 && s != a && s != b && a != b
    requires var x := w.servers[s];
             && x.role == Leader && |x.matchIndex| == 5 && x.matchIndex[s] == |x.log|
             && x.commit < |x.log| && TermAt(x.log, |x.log|) == x.term
             && AppendReply(x.term, a, |x.log|) in w.messages && AppendReply(x.term, b, |x.log|) in w.messages
    ensures var x := w.servers[s];
            Goes(p, w, v, s, x.(matchIndex := x.matchIndex[a := |x.log|][b := |x.log|], commit := |x.log|))
  {
    var last := |w.servers[s].log|;
    var u := Hear(g, p, w, s, a, last);
    var y := u.servers[s];
    ThreeOfFive(y.(matchIndex := y.matchIndex[b := last]), s, a, b, last);
    v := Hear(g, p, u, s, b, last);
  }

  // ---------- runs from the start ----------

  /** The property holds at the start, and every step keeps it. */
  ghost predicate Inductive(g: Guard, n: nat, p: World -> bool) {
    p(InitialWorld(n)) && forall w, step :: Enabled(w, step) && Allowed(g, w, step) && p(w) ==> p(Take(w, step))
  }

  ghost predicate Reachable(g: Guard, n: nat, w: World) {
    forall p: World -> bool :: Inductive(g, n, p) ==> p(w)
  }

  ghost predicate HasRun(g: Guard, n: nat, w: World) {
    exists steps :: Run(n, steps) == Some(w) && Guarded(g, n, steps)
  }

  lemma ReachableHasRun(g: Guard, n: nat, w: World)
    requires Reachable(g, n, w)
    ensures HasRun(g, n, w)
  {
    assert Run(n, []) == Some(InitialWorld(n)) && Guarded(g, n, []);
    forall u, step | Enabled(u, step) && Allowed(g, u, step) && HasRun(g, n, u)
      ensures HasRun(g, n, Take(u, step))
    {
      var steps :| Run(n, steps) == Some(u) && Guarded(g, n, steps);
      assert (steps + [step])[..|steps|] == steps;
      assert Run(n, steps + [step]) == Some(Take(u, step)) && Guarded(g, n, steps + [step]);
    }
    assert Inductive(g, n, u => HasRun(g, n, u));
  }

  lemma ReachableNext(g: Guard, n: nat, w: World, step: Step) returns (v: World)
    requires Reachable(g, n, w) && Enabled(w, step) && Allowed(g, w, step)
    ensures Reachable(g, n, v) && v == Take(w, step)
  {
    v := Take(w, step);
  }

  /** Being reachable, as a property that the lemmas above can carry along. */
  lemma Reaching(g: Guard, n: nat) returns (p: World -> bool)
    ensures Kept(g, p) && forall w :: p(w) == Reachable(g, n, w)
  {
    p := w => Reachable(g, n, w);
    forall w, step | Plain(step) && Enabled(w, step) && Allowed(g, w, step) && Reachable(g, n, w)
      ensures Reachable(g, n, Take(w, step))
    {
      var v := ReachableNext(g, n, w, step);
    }
  }

  lemma ApplyOne(g: Guard, n: nat, w: World, s: nat) returns (v: World)
    requires Reachable(g, n, w) && s < |w.servers| && w.servers[s].lastApplied < w.servers[s].commit <= |w.servers[s].log|
    ensures Reachable(g, n, v) && v.servers == w.servers[s := w.servers[s].(lastApplied := w.servers[s].lastApplied + 1)]
    ensures v.messages == w.messages
    ensures v.applied == w.applied + {(s, w.servers[s].lastApplied + 1, w.servers[s].log[w.servers[s].lastApplied])}
  {
    v := ReachableNext(g, n, w, ApplyNext(s));
  }

  /** `s` compacts its log up to `index` and the snapshot reaches `q`, which installs it. */
  lemma Ship(g: Guard, n: nat, w: World, s: nat, q: nat, index: nat) returns (v: World)
    requires Reachable(g, n, w) && s < |w.servers| && q < |w.servers| && s != q
    requires w.servers[s].snap <= index <= w.servers[s].lastApplied <= w.servers[s].commit <= |w.servers[s].log|
    requires w.servers[q].term < w.servers[s].term && w.servers[q].snap <= |w.servers[q].log|
    requires !OldSnapshot(w.servers[q], w.servers[s].log[..index])
    requires !g.cleanInstalls || !KeepsConflict(w.servers[q].log, w.servers[s].log[..index])
    ensures Reachable(g, n, v) && w.messages <= v.messages && v.applied == w.applied
    ensures v.servers == w.servers[s := Persist(w.servers[s].(snap := index))]
                                  [q := Install(StepDown(w.servers[q], w.servers[s].term), w.servers[s].log[..index])]
  {
    var m := InstallSnapshot(w.servers[s].term, s, w.servers[s].log[..index]);
    var v1 := ReachableNext(g, n, w, TakeSnapshot(s, index));
    assert v1.servers == w.servers[s := Persist(w.servers[s].(snap := index))];
    var v2 := ReachableNext(g, n, v1, OfferSnapshot(s));
    assert m in v2.messages;
    var v3 := ReachableNext(g, n, v2, ReceiveSnapshot(q, m));
    v := ReachableNext(g, n, v3, CondInstallSnapshot(q, m));
  }

  /** What a story depends on. */
  predicate Looks(x: Server, term: nat, role: Role, log: Log, snap: nat, commit: nat, applied: nat) {
    && x.term == term && x.role == role && x.log == log && x.snap == snap
    && x.commit == commit && x.lastApplied == applied
  }

  // ---------- two leaders of one term ----------

  /** Servers 0 and 1 of three lead in term `t`; server 2 is in no later one. Nothing is in any log. */
  predicate Split(w: World, t: nat) {
    && |w.servers| == 3 && |w.servers[0].matchIndex| == |w.servers[1].matchIndex| == 3
    && Looks(w.servers[0], t, Leader, [], 0, 0, 0) && Looks(w.servers[1], t, Leader, [], 0, 0, 0)
    && w.servers[2].term <= t && Looks(w.servers[2], w.servers[2].term, Follower, [], 0, 0, 0)
  }

  /** Two leaders of term `t` have applied different entries at index 1. */
  predicate Torn(w: World, t: nat) {
    && |w.servers| == 3
    && w.servers[0].role == Leader && w.servers[1].role == Leader && w.servers[0].term == w.servers[1].term == t
    && (0, 1, Entry(t, 1, [10])) in w.applied && (1, 1, Entry(t, 1, [20])) in w.applied
  }

  lemma SplitIsTorn(g: Guard, u: World, t: nat) returns (w: World)
    requires Reachable(g, 3, u) && Split(u, t)
    ensures Reachable(g, 3, w) && Torn(w, t)
  {
    w := FirstApplied(g, u, t);
    w := OtherApplied(g, w, t);
  }

  lemma FirstApplied(g: Guard, u: World, t: nat) returns (w: World)
    requires Reachable(g, 3, u) && Split(u, t)
    ensures Reachable(g, 3, w) && |w.servers| == 3 && (0, 1, Entry(t, 1, [10])) in w.applied
    ensures w.servers[0].role == Leader && w.servers[0].term == t && w.servers[1] == u.servers[1]
    ensures w.servers[2].term == t && w.servers[2].log == [Entry(t, 1, [10])] && w.servers[2].snap == 0
  {
    var p := Reaching(g, 3);
    w := Append(g, p, u, 0, [10]);
    assert w.servers[0].log == [Entry(t, 1, [10])];
    w := Feed(g, p, w, 0, 2, 0);
    w := HearOne(g, p, w, 0, 2);
    w := ApplyOne(g, 3, w, 0);
  }

  /** Server 2 has an entry of that term at that index already, and takes it for the other leader's. */
  lemma OtherApplied(g: Guard, u: World, t: nat) returns (w: World)
    requires Reachable(g, 3, u) && |u.servers| == 3 && (0, 1, Entry(t, 1, [10])) in u.applied
    requires u.servers[0].role == Leader && u.servers[0].term == t
    requires Looks(u.servers[1], t, Leader, [], 0, 0, 0) && |u.servers[1].matchIndex| == 3
    requires u.servers[2].term == t && u.servers[2].log == [Entry(t, 1, [10])] && u.servers[2].snap == 0
    ensures Reachable(g, 3, w) && Torn(w, t)
  {
    var p := Reaching(g, 3);
    w := Append(g, p, u, 1, [20]);
    assert w.servers[1].log == [Entry(t, 1, [20])];
    w := Feed(g, p, w, 1, 2, 0);
    w := HearOne(g, p, w, 1, 2);
    w := ApplyOne(g, 3, w, 1);
  }
}
