/** Two runs of two groups. In one a write is executed and its answer lost for good, because the group to which
  * the shard moves has refused the request before; in the other the move completes, and the value is read in
  * its new place (server/server.go:160-300, 412-426; session/session.go:106-115). */
module TwoGroupRuns {
  import opened Wrappers
  import opened Sessions
  import opened StateMachines
  import opened Answers
  import opened Migration
  import opened MigrationInvariant
  import opened MigrationSteps
  import opened MigrationCommit
  import opened AnswerRuns
  import T = MigrationTheorems
  import opened MigrationProgress

  /** Configuration 1 gives all shards to group 1, all later ones give shard 0 to group 2; all keys are in shard 0. */
  function TwoGroups(): Deployment {
    Deployment({1, 2}, n => Config(n, seq(NSHARDS, i => if n == 0 then 0 else if n >= 2 && i == 0 then 2 else 1)), key => 0)
  }

  lemma TwoGroupsSound()
    ensures Sound(TwoGroups())
  {
  }

  const H := SessionHeader(5, 1)
  const Write := Args(H, PUT("k", "v"))
  const Done := Reply(OK, "")

  /** Group `g` is in configuration `num` after `n` entries, and `answer` is stored for the write. */
  ghost predicate Stands(w: World, g: int, n: nat, num: nat, answer: Option<Reply>) {
    && g in w.history && |w.history[g]| == n >= 1 && Last(w, g).current.num == num
    && var t := Last(w, g).sessions;
       && (forall c :: c in t ==> c == 5 || (c == 10 + g && t[c].processedSeq == num))
       && (answer.None? ==> 5 !in t)
       && (answer.Some? ==> 5 in t && t[5].processedSeq == 1 && t[5].lastResponse == answer)
  }

  ghost predicate Story(steps: seq<Step>, w: World) {
    Run(TwoGroups(), steps) == Some(w) && OneCommandPerNumber(w)
  }

  /** Nothing else has been proposed under the header, unless it was the same command. */
  ghost predicate Unused(w: World, a: Args) {
    forall g, b :: (g, b) in w.proposed && b.header == a.header ==> b.command == a.command
  }

  /** What a commit by `g` does not touch. */
  ghost predicate Committed(w: World, v: World, g: int, a: Args) {
    && g in w.history && w.history[g] != [] && v.history.Keys == w.history.Keys
    && (forall k :: k in w.history && k != g ==> v.history[k] == w.history[k])
    && Apply(TwoGroups().hash, g, Last(w, g), a).Some?
    && v.history[g] == w.history[g] + [Apply(TwoGroups().hash, g, Last(w, g), a).value]
    && v.events == w.events + EventsOf(TwoGroups(), g, Last(w, g), a)
    && v.proposed == w.proposed
  }

  lemma ProposeOne(w: World, g: int, a: Args)
    requires OneCommandPerNumber(w) && Unused(w, a)
    ensures OneCommandPerNumber(Propose(w, g, a))
  {
  }

  lemma CommitOne(steps: seq<Step>, w: World, g: int, a: Args) returns (more: seq<Step>, v: World)
    requires Story(steps, w) && (g, a) in w.proposed
    ensures Story(more, v) && Committed(w, v, g, a)
  {
    TwoGroupsSound();
    T.NoPanic(TwoGroups(), steps, g, a);
    more, v := Go(TwoGroups(), steps, w, Commit(g, a));
  }

  /** A step that proposes `a` to `g`, and its commit. */
  lemma ProposeAndCommit(steps: seq<Step>, w: World, step: Step, g: int, a: Args) returns (more: seq<Step>, v: World)
    requires Story(steps, w) && Enabled(TwoGroups(), w, step) && g in w.history && w.history[g] != []
    requires Take(TwoGroups(), w, step) == Propose(w, g, a) && Unused(w, a)
    ensures Story(more, v) && Committed(Propose(w, g, a), v, g, a)
  {
    var s1, u := Go(TwoGroups(), steps, w, step);
    ProposeOne(w, g, a);
    more, v := CommitOne(s1, u, g, a);
  }

  lemma ServingEarly(steps: seq<Step>, w: World, g: int)
    requires Run(TwoGroups(), steps) == Some(w) && g in w.history && w.history[g] != []
    ensures Last(w, g).current.num >= 0 && StateOk(TwoGroups(), g, Last(w, g))
    ensures Last(w, g).current.num <= 1 ==> AllServing(Last(w, g))
  {
    TwoGroupsSound();
    T.RunOwnership(TwoGroups(), steps, w);
    assert StateOk(TwoGroups(), g, w.history[g][|w.history[g]| - 1]);
  }

  function ConfigArgs(g: int, num: nat): Args {
    Args(SessionHeader(10 + g, num), RECONFIGURE(TwoGroups().configs(num)))
  }

  lemma Entered(w: World, v: World, g: int, n: nat, num: nat, answer: Option<Reply>)
    requires Stands(w, g, n, num, answer) && StateOk(TwoGroups(), g, Last(w, g)) && AllServing(Last(w, g)) && g in {1, 2}
    requires Committed(Propose(w, g, ConfigArgs(g, num + 1)), v, g, ConfigArgs(g, num + 1))
    ensures Stands(v, g, n + 1, num + 1, answer) && NextConfig(TwoGroups(), w.history, g, Last(v, g)) && v.events == w.events
  {
    TwoGroupsSound();
    assert LastOf(w.history, g) == Last(w, g) == Last(Propose(w, g, ConfigArgs(g, num + 1)), g);
    ReconfigureNextConfig(TwoGroups(), w.history, g, ConfigArgs(g, num + 1));
    assert Last(v, g) == Apply(TwoGroups().hash, g, Last(w, g), ConfigArgs(g, num + 1)).value;
  }

  lemma MayEnter(w: World, g: int, n: nat, num: nat, answer: Option<Reply>)
    requires Stands(w, g, n, num, answer) && AllServing(Last(w, g))
    ensures var a := ConfigArgs(g, num + 1);
            var step := ProposeConfig(g, n - 1, a.header);
            Enabled(TwoGroups(), w, step) && Take(TwoGroups(), w, step) == Propose(w, g, a)
  {
  }

  /** Group `g` enters the next configuration. */
  lemma Enter(steps: seq<Step>, w: World, g: int, n: nat, num: nat, answer: Option<Reply>) returns (more: seq<Step>, v: World)
    requires Story(steps, w) && Stands(w, g, n, num, answer) && num <= 1 && g in {1, 2} && Unused(w, ConfigArgs(g, num + 1))
    ensures Story(more, v) && Stands(v, g, n + 1, num + 1, answer) && Committed(Propose(w, g, ConfigArgs(g, num + 1)), v, g, ConfigArgs(g, num + 1))
    ensures v.events == w.events && NextConfig(TwoGroups(), w.history, g, Last(v, g))
  {
    ServingEarly(steps, w, g);
    var a := ConfigArgs(g, num + 1);
    MayEnter(w, g, n, num, answer);
    more, v := ProposeAndCommit(steps, w, ProposeConfig(g, n - 1, a.header), g, a);
    Entered(w, v, g, n, num, answer);
  }

  // ---------- the story ----------

  /** Group 2, which does not hold the shard, has refused the write. */
  ghost predicate Scene1(steps: seq<Step>, w: World) {
    && Story(steps, w) && w.events == [] && w.proposed == {(2, Write)}
    && Stands(w, 1, 1, 0, None) && Stands(w, 2, 2, 0, Some(Refusal))
  }

  lemma Refused() returns (steps: seq<Step>, w: World)
    ensures Scene1(steps, w)
  {
    steps, w := [], InitialWorld(TwoGroups());
    assert Last(w, 2) == InitialState();
    steps, w := ProposeAndCommit(steps, w, ClientRequest(2, Write), 2, Write);
  }

  /** Group 1 owns the shards and has executed it. */
  ghost predicate Scene2(steps: seq<Step>, w: World) {
    && Story(steps, w) && w.events == [Event(1, H, Write.command, Done)]
    && w.proposed == {(2, Write), (1, ConfigArgs(1, 1)), (1, Write)}
    && Stands(w, 1, 3, 1, Some(Done)) && Stands(w, 2, 2, 0, Some(Refusal))
  }

  lemma Executed(before: seq<Step>, u: World) returns (steps: seq<Step>, w: World)
    requires Scene1(before, u)
    ensures Scene2(steps, w)
  {
    steps, w := Enter(before, u, 1, 1, 0, None);
    assert Stands(w, 2, 2, 0, Some(Refusal));
    steps, w := WriteInOne(steps, w);
  }

  lemma WriteTakesEffect(x: StateMachine)
    requires 5 !in x.sessions && CheckShard(1, x, 0)
    ensures Apply(TwoGroups().hash, 1, x, Write).Some?
    ensures var y := Apply(TwoGroups().hash, 1, x, Write).value;
            y.current == x.current && y.sessions == x.sessions[5 := ServerSession(5, 1, Some(Done))]
    ensures EventsOf(TwoGroups(), 1, x, Write) == [Event(1, H, Write.command, Done)]
  {
  }

  lemma WriteStands(u: World, w: World)
    requires Stands(u, 1, 2, 1, None) && Stands(u, 2, 2, 0, Some(Refusal)) && CheckShard(1, Last(u, 1), 0)
    requires Committed(Propose(u, 1, Write), w, 1, Write)
    ensures Stands(w, 1, 3, 1, Some(Done)) && Stands(w, 2, 2, 0, Some(Refusal))
    ensures w.events == u.events + [Event(1, H, Write.command, Done)]
  {
    WriteTakesEffect(Last(u, 1));
    assert Last(Propose(u, 1, Write), 1) == Last(u, 1);
    assert Last(w, 1) == Apply(TwoGroups().hash, 1, Last(u, 1), Write).value;
  }

  lemma WriteInOne(before: seq<Step>, u: World) returns (steps: seq<Step>, w: World)
    requires Story(before, u) && u.events == [] && u.proposed == {(2, Write), (1, ConfigArgs(1, 1))}
    requires Stands(u, 1, 2, 1, None) && Stands(u, 2, 2, 0, Some(Refusal))
    ensures Scene2(steps, w)
  {
    ServingEarly(before, u, 1);
    assert CheckShard(1, Last(u, 1), 0);
    steps, w := ProposeAndCommit(before, u, ClientRequest(1, Write), 1, Write);
    WriteStands(u, w);
  }

  /** Both are in configuration 2, and group 2 is waiting for the shards. */
  ghost predicate Scene3(steps: seq<Step>, w: World) {
    && Story(steps, w) && w.events == [Event(1, H, Write.command, Done)]
    && Stands(w, 1, 4, 2, Some(Done)) && Stands(w, 2, 4, 2, Some(Refusal))
    && 0 in Last(w, 2).shards && Last(w, 2).shards[0].status == PULLING
  }

  lemma ShardsMove(before: seq<Step>, u: World) returns (steps: seq<Step>, w: World)
    requires Scene2(before, u)
    ensures Scene3(steps, w)
  {
    steps, w := Enter(before, u, 1, 3, 1, Some(Done));
    steps, w := BothMoved(steps, w);
  }

  lemma BothMoved(before: seq<Step>, u: World) returns (steps: seq<Step>, w: World)
    requires Story(before, u) && u.events == [Event(1, H, Write.command, Done)]
    requires u.proposed == {(2, Write), (1, ConfigArgs(1, 1)), (1, Write), (1, ConfigArgs(1, 2))}
    requires Stands(u, 1, 4, 2, Some(Done)) && Stands(u, 2, 2, 0, Some(Refusal))
    ensures Scene3(steps, w)
  {
    steps, w := Enter(before, u, 2, 2, 0, Some(Refusal));
    assert Stands(w, 1, 4, 2, Some(Done));
    steps, w := GroupTwoMoves(steps, w);
  }

  lemma GroupTwoMoves(before: seq<Step>, u: World) returns (steps: seq<Step>, w: World)
    requires Story(before, u) && u.events == [Event(1, H, Write.command, Done)] && Unused(u, ConfigArgs(2, 2))
    requires Stands(u, 1, 4, 2, Some(Done)) && Stands(u, 2, 3, 1, Some(Refusal))
    ensures Scene3(steps, w)
  {
    steps, w := Enter(before, u, 2, 3, 1, Some(Refusal));
    assert Stands(w, 1, 4, 2, Some(Done));
    assert Gained(TwoGroups(), 2, 2, 0) && StateOk(TwoGroups(), 2, Last(w, 2));
  }

  const Wanted := ShardRequest(2, 1, 2, [0])

  lemma Pulled(before: seq<Step>, u: World) returns (steps: seq<Step>, w: World, p: PullReply)
    requires Scene3(before, u)
    ensures Story(steps, w) && w.history == u.history && w.events == u.events
    ensures 0 in Last(u, 1).shards && p in w.pullReplies && p == PullReply(Wanted, PullAnswer(Last(u, 1), Wanted))
  {
    ServingEarly(before, u, 1);
    ServingEarly(before, u, 2);
    assert u.history[2][3] == Last(u, 2) && u.history[1][3] == Last(u, 1);
    assert NamedByLastConfig(Last(u, 2), PULLING, 1, [0]);
    steps, w := Go(TwoGroups(), before, u, SendPull(2, 3, 1, [0]));
    steps, w := Go(TwoGroups(), steps, w, AnswerPull(Wanted, 3));
    p := PullReply(Wanted, PullAnswer(Last(u, 1), Wanted));
  }

  /** The shard arrives, with the answer; the refusal stays. */
  lemma ShardArrives(steps: seq<Step>, w: World, p: PullReply, from: StateMachine) returns (more: seq<Step>, v: World)
    requires Story(steps, w) && w.events == [Event(1, H, Write.command, Done)] && p in w.pullReplies
    requires Stands(w, 2, 4, 2, Some(Refusal)) && 0 in Last(w, 2).shards && Last(w, 2).shards[0].status == PULLING
    requires 0 in from.shards && from.shards[0].ID == 0 && p == PullReply(Wanted, PullAnswer(from, Wanted))
    requires 5 in from.sessions && from.sessions[5].processedSeq == 1 && 99 !in from.sessions
    ensures Story(more, v) && v.events == w.events && 2 in v.history && v.history[2] != []
    ensures CheckShard(2, Last(v, 2), 0) && StoredAnswer(Last(v, 2).sessions, H) == Some(Refusal)
  {
    TwoGroupsSound();
    NextHeaderUnused(TwoGroups(), steps, w, 99);
    var a := Args(NextHeader(w, 99), INSERT_SHARDS(p.response));
    ServingEarly(steps, w, 2);
    more, v := ProposeAndCommit(steps, w, ProposeInsert(p, a.header), 2, a);
    assert Last(Propose(w, 2, a), 2) == Last(w, 2);
    InsertsShard(Last(w, 2), p.response, from);
    assert Last(v, 2) == Apply(TwoGroups().hash, 2, Last(w, 2), a).value;
  }

  lemma InsertsShard(y: StateMachine, r: PullShardsResponse, from: StateMachine)
    requires 0 in y.shards && y.shards[0].status == PULLING
    requires 0 in from.shards && from.shards[0].ID == 0 && r == PullAnswer(from, Wanted)
    ensures InsertLoop(y.shards, r.shards) == Some(y.shards[0 := from.shards[0].(status := GC)])
  {
    assert r.shards == [from.shards[0]] && r.shards[1..] == [];
  }

  /** Two groups, a write that the first one has executed, and that the second one, serving the shard now,
    * answers with a refusal, however often it is retried. */
  lemma AnswerIsLost() returns (steps: seq<Step>)
    ensures Sound(TwoGroups()) && Run(TwoGroups(), steps).Some?
    ensures var w := Run(TwoGroups(), steps).value;
            && OneCommandPerNumber(w) && w.events == [Event(1, H, Write.command, Done)] && ServedBy(TwoGroups(), w, 0, 2, 0)
            && StoredAnswer(Last(w, 2).sessions, H) == Some(Refusal)
            && Apply(TwoGroups().hash, 2, Last(w, 2), Write) == Some(Last(w, 2))
  {
    TwoGroupsSound();
    var w, u, p;
    steps, w := Refused();
    steps, w := Executed(steps, w);
    steps, u := ShardsMove(steps, w);
    ServingEarly(steps, u, 1);
    steps, w, p := Pulled(steps, u);
    steps, w := ShardArrives(steps, w, p, Last(u, 1));
  }

  // ---------- and how a move ends ----------

  ghost predicate Settled(w: World, g: int) {
    g in w.history && w.history[g] != [] && Last(w, g).current.num == 2 && AllServing(Last(w, g))
  }

  lemma SettledWhenServing(steps: seq<Step>, w: World, g: int)
    requires Run(TwoGroups(), steps) == Some(w) && g in {1, 2} && g in w.history && w.history[g] != []
    requires Last(w, g).current.num == 2 && 0 in Last(w, g).shards && Last(w, g).shards[0].status == SERVING
    ensures Settled(w, g) && (CheckShard(g, Last(w, g), 0) <==> g == 2)
  {
    var d := TwoGroups();
    ServingEarly(steps, w, g);
    forall i | i in Last(w, g).shards
      ensures Last(w, g).shards[i].status == SERVING
    {
      assert StatusOk(d, g, 2, i, Last(w, g).shards[i].status);
    }
  }

  /** Group 2, which serves the shard, is asked for the key. */
  lemma ReadThere(steps: seq<Step>, w: World) returns (more: seq<Step>, v: World)
    requires Run(TwoGroups(), steps) == Some(w) && Settled(w, 1) && Settled(w, 2) && CheckShard(2, Last(w, 2), 0)
    requires w.events == [Event(1, H, Write.command, Done)]
    ensures Run(TwoGroups(), more) == Some(v)
    ensures |v.events| == 2 && v.events[0] == w.events[0] && v.events[1].gid == 2 && v.events[1].command == GET("k")
    ensures 1 in v.history && v.history[1] == w.history[1]
    ensures 2 in v.history && v.history[2] != [] && Last(v, 2).current == Last(w, 2).current && Last(v, 2).shards == Last(w, 2).shards
  {
    TwoGroupsSound();
    NextHeaderIsNew(TwoGroups(), steps, w, 6, 2);
    var a := Args(NextHeader(w, 6), GET("k"));
    more, v := Go(TwoGroups(), steps, w, ClientRequest(2, a));
    assert Last(v, 2) == Last(w, 2);
    more, v := Go(TwoGroups(), more, v, Commit(2, a));
  }

  /** The same two groups, from the same write on: the move completes, both groups serve all they hold in
    * configuration 2, and group 2 reads what group 1 has written. */
  lemma BothSettle() returns (steps: seq<Step>)
    ensures Sound(TwoGroups()) && Run(TwoGroups(), steps).Some?
    ensures var w := Run(TwoGroups(), steps).value;
            && Settled(w, 1) && !CheckShard(1, Last(w, 1), 0) && Settled(w, 2) && CheckShard(2, Last(w, 2), 0)
            && |w.events| == 2 && w.events[0] == Event(1, H, PUT("k", "v"), Done)
            && w.events[1].gid == 2 && w.events[1].command == GET("k") && w.events[1].reply == Reply(OK, "v")
  {
    var u, w;
    TwoGroupsSound();
    steps, u := Refused();
    steps, u := Executed(steps, u);
    steps, u := ShardsMove(steps, u);
    steps, w := MoveEnds(steps, u);
    steps, w := ReadThere(steps, w);
    T.ReadBehindWrite(TwoGroups(), steps, 0, 1, "k");
  }

  lemma MoveEnds(steps: seq<Step>, u: World) returns (more: seq<Step>, w: World)
    requires Scene3(steps, u)
    ensures Run(TwoGroups(), more) == Some(w) && w.events == u.events
    ensures Settled(w, 1) && !CheckShard(1, Last(w, 1), 0) && Settled(w, 2) && CheckShard(2, Last(w, 2), 0)
  {
    TwoGroupsSound();
    ServingEarly(steps, u, 2);
    more := MoveCompletes(TwoGroups(), steps, 2, 1, 0);
    w := Run(TwoGroups(), more).value;
    SettledWhenServing(more, w, 1);
    SettledWhenServing(more, w, 2);
  }
}
