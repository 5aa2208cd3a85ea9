/** A move that has begun can always be completed: pull, adopt, wipe, release (server/server.go: migratingAction,
  * gcAction and the handlers they call). */
module MigrationProgress {
  import opened Wrappers
  import opened Sessions
  import opened StateMachines
  import opened Migration
  import opened MigrationInvariant
  import opened MigrationCommit
  import opened MigrationSafety
  import E = Effects
  import T = MigrationTheorems

  // ---------- taking steps ----------

  lemma Go(d: Deployment, steps: seq<Step>, w: World, step: Step) returns (more: seq<Step>, v: World)
    requires Run(d, steps) == Some(w) && Enabled(d, w, step)
    ensures Run(d, more) == Some(v) && v == Take(d, w, step) && steps <= more
  {
    more, v := steps + [step], Take(d, w, step);
    assert more[..|more| - 1] == steps;
  }

  /** A header that clerk `c` has not used. */
  function NextHeader(w: World, c: int): SessionHeader {
    SessionHeader(c, if c in w.issued then w.issued[c] + 1 else 1)
  }

  lemma NextHeaderIsNew(d: Deployment, steps: seq<Step>, w: World, c: int, g: int)
    requires Sound(d) && Run(d, steps) == Some(w) && g in w.history && w.history[g] != []
    ensures Fresh(w.issued, NextHeader(w, c)) && E.IsNew(Last(w, g), NextHeader(w, c))
  {
    RunKeeps(d, steps);
    assert Within(w.history[g][|w.history[g]| - 1].sessions, w.issued);
  }

  lemma NextHeaderUnused(d: Deployment, steps: seq<Step>, w: World, c: int)
    requires Sound(d) && Run(d, steps) == Some(w)
    ensures forall g, a :: (g, a) in w.proposed ==> a.header != NextHeader(w, c)
  {
    RunKeeps(d, steps);
    forall g, a | (g, a) in w.proposed
      ensures a.header != NextHeader(w, c)
    {
      assert HeaderInUse(a.header, w.issued);
    }
  }

  /** Group `g` alone has got one more entry, and is in state `x`. */
  ghost predicate Appended(w: World, v: World, g: int, x: StateMachine) {
    && g in w.history && v.history == w.history[g := w.history[g] + [x]]
    && v.events == w.events && w.deleteReplies <= v.deleteReplies
  }

  lemma CommitProposed(d: Deployment, steps: seq<Step>, w: World, g: int, a: Args) returns (more: seq<Step>, v: World)
    requires Run(d, steps) == Some(w) && (g, a) in w.proposed && g in w.history && w.history[g] != []
    requires Apply(d.hash, g, Last(w, g), a).Some? && EventsOf(d, g, Last(w, g), a) == []
    ensures Run(d, more) == Some(v) && steps <= more && Appended(w, v, g, Apply(d.hash, g, Last(w, g), a).value)
  {
    more, v := Go(d, steps, w, Commit(g, a));
  }

  // ---------- one move ----------

  /** Groups `g` and `k` are both in configuration `num`, and shard `s` has the two statuses there. */
  ghost predicate Moving(d: Deployment, w: World, g: int, k: int, num: int, s: int, atTarget: ShardStatus, atSource: ShardStatus) {
    && g in w.history && w.history[g] != [] && k in w.history && w.history[k] != [] && g != k
    && Last(w, g).current.num == num && Last(w, k).current.num == num
    && s in Last(w, g).shards && s in Last(w, k).shards
    && Last(w, g).shards[s].status == atTarget && Last(w, k).shards[s].status == atSource
    && Last(w, g).shards[s].ID == s && Last(w, k).shards[s].ID == s
    && Last(w, g).last.Some? && 0 <= s < |Last(w, g).last.value.shards| && Last(w, g).last.value.shards[s] == k
  }

  /** The other shards, and the configurations, are as before. */
  predicate OneShard(t: StateMachine, before: StateMachine, s: int, data: ShardData) {
    t.shards == before.shards[s := data] && t.current == before.current && t.last == before.last
  }

  lemma OneChanged(t: ShardTable, before: ShardTable, s: int, data: ShardData)
    requires t.Keys == before.Keys && s in before && t[s] == data
    requires forall i :: i in before && i != s ==> t[i] == before[i]
    ensures t == before[s := data]
  {
  }

  lemma AdoptsOne(hash: Hash, g: int, x: StateMachine, h: SessionHeader, r: PullShardsResponse, s: int, data: ShardData)
    requires E.IsNew(x, h) && (h.id in r.serverSessions ==> r.serverSessions[h.id].processedSeq <= h.seqNum)
    requires s in x.shards && x.shards[s].status == PULLING && data.ID == s && r.shards == [data] && r.configNum == x.current.num
    ensures var t := Apply(hash, g, x, Args(h, INSERT_SHARDS(r)));
            t.Some? && OneShard(t.value, x, s, ShardData(s, data.KV, GC))
  {
    E.InsertEffect(hash, g, x, h, r);
    assert E.FirstNamed(r.shards, s, 0);
    OneChanged(Apply(hash, g, x, Args(h, INSERT_SHARDS(r))).value.shards, x.shards, s, ShardData(s, data.KV, GC));
  }

  lemma DeletesOne(hash: Hash, g: int, x: StateMachine, h: SessionHeader, s: int, data: ShardData)
    requires E.IsNew(x, h) && s in x.shards && x.shards[s].ID == s
    requires || (x.shards[s].status == BE_PULLING && data == ShardData(s, map[], SERVING))
             || (x.shards[s].status == GC && data == ShardData(s, x.shards[s].KV, SERVING))
    ensures var t := Apply(hash, g, x, Args(h, DELETE_SHARDS(x.current.num, [s])));
            t.Some? && OneShard(t.value, x, s, data)
  {
    E.DeleteEffect(hash, g, x, h, x.current.num, [s]);
    OneChanged(Apply(hash, g, x, Args(h, DELETE_SHARDS(x.current.num, [s]))).value.shards, x.shards, s, data);
  }

  lemma Pull(d: Deployment, steps: seq<Step>, w: World, g: int, k: int, num: int, s: int)
    returns (more: seq<Step>, v: World, p: PullReply)
    requires Run(d, steps) == Some(w) && Moving(d, w, g, k, num, s, PULLING, BE_PULLING)
    ensures Run(d, more) == Some(v) && steps <= more && v.history == w.history && v.events == w.events
    ensures p in v.pullReplies && p.request == ShardRequest(g, k, num, [s]) && p.response.configNum == num
    ensures p.response.shards == [Last(w, k).shards[s]] && p.response.serverSessions == Last(w, k).sessions
  {
    var r := ShardRequest(g, k, num, [s]);
    more, v := Go(d, steps, w, SendPull(g, |w.history[g]| - 1, k, [s]));
    more, v := Go(d, more, v, AnswerPull(r, |w.history[k]| - 1));
    p := PullReply(r, PullAnswer(Last(w, k), r));
  }

  lemma Adopt(d: Deployment, steps: seq<Step>, w: World, g: int, k: int, num: int, s: int) returns (more: seq<Step>, v: World)
    requires Sound(d) && Run(d, steps) == Some(w) && Moving(d, w, g, k, num, s, PULLING, BE_PULLING)
    ensures Run(d, more) == Some(v) && steps <= more && Moving(d, v, g, k, num, s, GC, BE_PULLING)
    ensures v.events == w.events && Last(v, k) == Last(w, k)
    ensures OneShard(Last(v, g), Last(w, g), s, ShardData(s, Last(w, k).shards[s].KV, GC))
  {
    var p, u;
    more, u, p := Pull(d, steps, w, g, k, num, s);
    var h := NextHeader(u, 0);
    var a := Args(h, INSERT_SHARDS(p.response));
    NextHeaderIsNew(d, more, u, 0, g);
    NextHeaderIsNew(d, more, u, 0, k);
    more, v := Go(d, more, u, ProposeInsert(p, h));
    assert Last(v, g) == Last(u, g) == Last(w, g) && Last(u, k) == Last(w, k);
    AdoptsOne(d.hash, g, Last(w, g), h, p.response, s, Last(w, k).shards[s]);
    var x := Apply(d.hash, g, Last(w, g), a).value;
    more, v := CommitProposed(d, more, v, g, a);
    assert Last(v, g) == x;
  }

  /** A delete of one shard, proposed under a new number, is committed. */
  lemma CommitDelete(d: Deployment, steps: seq<Step>, w: World, g: int, h: SessionHeader, s: int, data: ShardData)
    returns (more: seq<Step>, v: World)
    requires Run(d, steps) == Some(w) && g in w.history && w.history[g] != [] && E.IsNew(Last(w, g), h)
    requires (g, Args(h, DELETE_SHARDS(Last(w, g).current.num, [s]))) in w.proposed
    requires s in Last(w, g).shards && Last(w, g).shards[s].ID == s
    requires || (Last(w, g).shards[s].status == BE_PULLING && data == ShardData(s, map[], SERVING))
             || (Last(w, g).shards[s].status == GC && data == ShardData(s, Last(w, g).shards[s].KV, SERVING))
    ensures Run(d, more) == Some(v) && steps <= more && v.events == w.events && w.deleteReplies <= v.deleteReplies
    ensures v.history.Keys == w.history.Keys && v.history[g] != [] && OneShard(Last(v, g), Last(w, g), s, data)
    ensures forall k :: k in w.history && k != g ==> v.history[k] == w.history[k]
  {
    var x, a := Last(w, g), Args(h, DELETE_SHARDS(Last(w, g).current.num, [s]));
    DeletesOne(d.hash, g, x, h, s, data);
    more, v := CommitProposed(d, steps, w, g, a);
    assert Last(v, g) == Apply(d.hash, g, x, a).value;
  }

  lemma Wipe(d: Deployment, steps: seq<Step>, w: World, g: int, k: int, num: int, s: int) returns (more: seq<Step>, v: World)
    requires Sound(d) && Run(d, steps) == Some(w) && Moving(d, w, g, k, num, s, GC, BE_PULLING)
    ensures Run(d, more) == Some(v) && steps <= more && Moving(d, v, g, k, num, s, GC, SERVING)
    ensures v.events == w.events && Last(v, g) == Last(w, g) && ShardRequest(g, k, num, [s]) in v.deleteReplies
    ensures OneShard(Last(v, k), Last(w, k), s, ShardData(s, map[], SERVING))
  {
    var r := ShardRequest(g, k, num, [s]);
    var u;
    more, u := Go(d, steps, w, SendDelete(g, |w.history[g]| - 1, k, [s]));
    var h := NextHeader(u, 0);
    NextHeaderIsNew(d, more, u, 0, k);
    assert Last(u, k) == Last(w, k);
    more, v := Go(d, more, u, AnswerDelete(r, |w.history[k]| - 1, h, true));
    assert Last(v, k) == Last(w, k);
    more, v := CommitDelete(d, more, v, k, h, s, ShardData(s, map[], SERVING));
  }

  lemma Release(d: Deployment, steps: seq<Step>, w: World, g: int, k: int, num: int, s: int) returns (more: seq<Step>, v: World)
    requires Sound(d) && Run(d, steps) == Some(w) && Moving(d, w, g, k, num, s, GC, SERVING)
    requires ShardRequest(g, k, num, [s]) in w.deleteReplies
    ensures Run(d, more) == Some(v) && steps <= more && Moving(d, v, g, k, num, s, SERVING, SERVING)
    ensures v.events == w.events && Last(v, k) == Last(w, k)
    ensures OneShard(Last(v, g), Last(w, g), s, Last(w, g).shards[s].(status := SERVING))
  {
    var h := NextHeader(w, 0);
    NextHeaderIsNew(d, steps, w, 0, g);
    more, v := Go(d, steps, w, ProposeRelease(ShardRequest(g, k, num, [s]), h));
    assert Last(v, g) == Last(w, g);
    more, v := CommitDelete(d, more, v, g, h, s, Last(w, g).shards[s].(status := SERVING));
  }

  // ---------- from every reachable world ----------

  /** While the new owner is waiting, the owner named by its last configuration, once in that configuration too,
    * is holding the shard back. */
  lemma SourceHoldsBack(d: Deployment, h: History, g: int, k: int, s: int)
    requires Sound(d) && GroupsOk(d, h) && WaitingOk(d, h) && WipedOk(d, h) && g in h && k in h
    requires s in LastOf(h, g).shards && LastOf(h, g).shards[s].status == PULLING
    requires LastOf(h, g).last.Some? && 0 <= s < |LastOf(h, g).last.value.shards| && LastOf(h, g).last.value.shards[s] == k
    requires LastOf(h, k).current.num == LastOf(h, g).current.num
    ensures g != k && s in LastOf(h, k).shards && LastOf(h, k).shards[s].status == BE_PULLING
    ensures LastOf(h, g).shards[s].ID == s && LastOf(h, k).shards[s].ID == s
  {
    var x, y, n := LastOf(h, g), LastOf(h, k), LastOf(h, g).current.num;
    assert StateOk(d, g, h[g][|h[g]| - 1]) && StateOk(d, k, h[k][|h[k]| - 1]);
    assert StatusOk(d, g, n, s, x.shards[s].status) && StatusOk(d, k, n, s, y.shards[s].status);
    assert Lost(d, k, n, s);
    StillHeldBack(d, h, k, n, s);
  }

  lemma StillHeldBack(d: Deployment, h: History, k: int, n: int, s: int)
    requires WipedOk(d, h) && k in h && h[k] != [] && LastOf(h, k).current.num == n && s in LastOf(h, k).shards
    requires Lost(d, k, n, s) && !Acquired(d, h, n, s)
    ensures LastOf(h, k).shards[s].status != SERVING
  {
  }

  /** Of any reachable world: a shard that a group is waiting for, and whose former owner is in the same
    * configuration, can be moved. There is a continuation after which the new owner serves exactly what the
    * former one held, the former one is rid of it, all else in both groups is as it was, and no client has been
    * served meanwhile. */
  lemma MoveCompletes(d: Deployment, steps: seq<Step>, g: int, k: int, s: int) returns (more: seq<Step>)
    requires Sound(d) && Run(d, steps).Some?
    requires var w := Run(d, steps).value;
             && g in w.history && w.history[g] != [] && k in w.history && w.history[k] != []
             && s in Last(w, g).shards && Last(w, g).shards[s].status == PULLING
             && Last(w, g).last.Some? && 0 <= s < |Last(w, g).last.value.shards| && Last(w, g).last.value.shards[s] == k
             && Last(w, k).current.num == Last(w, g).current.num
    ensures steps <= more && Run(d, more).Some?
    ensures var w, v := Run(d, steps).value, Run(d, more).value;
            && v.events == w.events && g != k
            && g in v.history && v.history[g] != [] && k in v.history && v.history[k] != []
            && s in Last(w, k).shards
            && OneShard(Last(v, g), Last(w, g), s, ShardData(s, Last(w, k).shards[s].KV, SERVING))
            && OneShard(Last(v, k), Last(w, k), s, ShardData(s, map[], SERVING))
  {
    var w := Run(d, steps).value;
    var num := Last(w, g).current.num;
    MayMove(d, steps, w, g, k, s);
    var u;
    more, u := Adopt(d, steps, w, g, k, num, s);
    more, u := Wipe(d, more, u, g, k, num, s);
    more, u := Release(d, more, u, g, k, num, s);
  }

  lemma MayMove(d: Deployment, steps: seq<Step>, w: World, g: int, k: int, s: int)
    requires Sound(d) && Run(d, steps) == Some(w)
    requires g in w.history && w.history[g] != [] && k in w.history && w.history[k] != []
    requires s in Last(w, g).shards && Last(w, g).shards[s].status == PULLING
    requires Last(w, g).last.Some? && 0 <= s < |Last(w, g).last.value.shards| && Last(w, g).last.value.shards[s] == k
    requires Last(w, k).current.num == Last(w, g).current.num
    ensures Moving(d, w, g, k, Last(w, g).current.num, s, PULLING, BE_PULLING)
  {
    RunWaits(d, steps, w);
    assert LastOf(w.history, g) == Last(w, g) && LastOf(w.history, k) == Last(w, k);
    SourceHoldsBack(d, w.history, g, k, s);
  }

  lemma RunWaits(d: Deployment, steps: seq<Step>, w: World)
    requires Sound(d) && Run(d, steps) == Some(w)
    ensures GroupsOk(d, w.history) && WaitingOk(d, w.history) && WipedOk(d, w.history)
  {
    RunKeeps(d, steps);
  }

  // ---------- a shard that nobody had ----------

  /** What has been acquired has been acquired from a group, all the way down. */
  lemma AcquiredFromGroups(d: Deployment, h: History, n: int, m: int, s: int)
    requires GroupsOk(d, h) && ChainOk(d, h) && 1 <= m <= n && IsShard(s) && Acquired(d, h, n, s)
    ensures Owner(d, m, s) in d.gids
  {
    AcquiredBefore(d, h, n, m, s);
  }

  /** One entry later the group is still waiting, in the same configuration. */
  lemma StillWaiting(d: Deployment, h: History, g: int, j: nat, s: int)
    requires GroupsOk(d, h) && ChainOk(d, h) && HopsOk(h) && g in h && j + 1 < |h[g]|
    requires s in h[g][j].shards && h[g][j].shards[s].status == PULLING && Owner(d, h[g][j].current.num - 1, s) !in d.gids
    ensures s in h[g][j + 1].shards && h[g][j + 1].shards[s].status == PULLING && h[g][j + 1].current == h[g][j].current
  {
    var x, y := h[g][j], h[g][j + 1];
    assert StateOk(d, g, x) && StateOk(d, g, y) && h[g][(j + 1) - 1] == x;
    var n := x.current.num;
    assert StatusOk(d, g, n, s, x.shards[s].status) && StatusOk(d, g, n, s, y.shards[s].status);
    if HoldsAt(y, n, s) {
      assert HoldsAt(h[g][j + 1], n, s);
      AcquiredFromGroups(d, h, n, n - 1, s);
    }
  }

  lemma {:induction false} WaitsOn(d: Deployment, h: History, g: int, i: nat, j: nat, s: int)
    requires GroupsOk(d, h) && ChainOk(d, h) && HopsOk(h) && g in h && i <= j < |h[g]|
    requires s in h[g][i].shards && h[g][i].shards[s].status == PULLING && Owner(d, h[g][i].current.num - 1, s) !in d.gids
    ensures s in h[g][j].shards && h[g][j].shards[s].status == PULLING && h[g][j].current == h[g][i].current
    decreases j
  {
    if i < j {
      WaitsOn(d, h, g, i, j - 1, s);
      StillWaiting(d, h, g, j - 1, s);
    }
  }

  /** Entry `i` of `g`'s log leaves it waiting for a shard that its configuration takes from no group. */
  ghost predicate WaitsForNobody(d: Deployment, h: History, g: int, i: nat, s: int) {
    && g in h && i < |h[g]| && s in h[g][i].shards && h[g][i].shards[s].status == PULLING
    && Owner(d, h[g][i].current.num - 1, s) !in d.gids
  }

  /** A shard that a group gets from nobody, because the configuration before gave it to no group, never comes: the
    * group waits for it, in that configuration, through all the rest of its log. */
  lemma WaitsForever(d: Deployment, steps: seq<Step>, g: int, i: nat, j: nat, s: int)
    requires Sound(d) && Run(d, steps).Some?
    requires var h := Run(d, steps).value.history; WaitsForNobody(d, h, g, i, s) && i <= j < |h[g]|
    ensures var h := Run(d, steps).value.history;
            WaitsForNobody(d, h, g, j, s) && h[g][j].current == h[g][i].current
  {
    T.RunHops(d, steps, Run(d, steps).value);
    WaitsOn(d, Run(d, steps).value.history, g, i, j, s);
  }

  /** And such a shard is lost for all later owners, too: a group serves a shard only if every configuration from the
    * first to its own has given it to a group. */
  lemma ServedOnlyIfAlwaysOwned(d: Deployment, steps: seq<Step>, g: int, s: int, m: int)
    requires Sound(d) && Run(d, steps).Some?
    requires var w := Run(d, steps).value;
             && g in w.history && w.history[g] != [] && CheckShard(g, Last(w, g), s) && 1 <= m <= Last(w, g).current.num
    ensures Owner(d, m, s) in d.gids
  {
    var w := Run(d, steps).value;
    T.RunOwnership(d, steps, w);
    assert LastOf(w.history, g) == Last(w, g);
    ServerHasAcquired(d, w.history, g, s);
    AcquiredFromGroups(d, w.history, Last(w, g).current.num, m, s);
  }

  /** Configuration 1 gives the shards to nobody, all later ones give them to group 1. */
  function LateOwner(): Deployment {
    Deployment({1}, n => Config(n, seq(NSHARDS, i => if n >= 2 then 1 else 0)), key => 0)
  }

  lemma EnterNext(steps: seq<Step>, w: World) returns (more: seq<Step>, v: World)
    requires Sound(LateOwner()) && Run(LateOwner(), steps) == Some(w) && 1 in w.history && w.history[1] != [] && AllServing(Last(w, 1))
    requires var x := Last(w, 1);
             && 0 <= x.current.num <= 1 && |x.current.shards| == NSHARDS && (forall i :: 0 <= i < NSHARDS ==> x.current.shards[i] == 0)
             && (forall i :: i in x.shards <==> 0 <= i < NSHARDS)
    ensures Run(LateOwner(), more) == Some(v) && 1 in v.history && v.history[1] != []
    ensures var x, y := Last(w, 1), Last(v, 1);
            && y.current == LateOwner().configs(x.current.num + 1) && y.shards.Keys == x.shards.Keys
            && (x.current.num == 0 ==> y.shards == x.shards)
            && (x.current.num == 1 ==> y.shards[0].status == PULLING)
  {
    var d, x := LateOwner(), Last(w, 1);
    var h, next := NextHeader(w, 0), d.configs(x.current.num + 1);
    NextHeaderIsNew(d, steps, w, 0, 1);
    more, v := Go(d, steps, w, ProposeConfig(1, |w.history[1]| - 1, h));
    assert Last(v, 1) == x;
    E.ReconfigureEffect(d.hash, 1, x, h, next);
    more, v := CommitProposed(d, more, v, 1, Args(h, RECONFIGURE(next)));
    assert Last(v, 1) == Apply(d.hash, 1, x, Args(h, RECONFIGURE(next))).value;
  }

  /** It does happen: a group that waits, for good, for a shard that nobody has had before. */
  lemma WaitingHappens() returns (steps: seq<Step>, i: nat)
    ensures Sound(LateOwner()) && Run(LateOwner(), steps).Some?
    ensures WaitsForNobody(LateOwner(), Run(LateOwner(), steps).value.history, 1, i, 0)
  {
    var w := InitialWorld(LateOwner());
    assert Last(w, 1) == InitialState();
    steps := [];
    steps, w := EnterNext(steps, w);
    steps, w := EnterNext(steps, w);
    i := |w.history[1]| - 1;
  }
}
