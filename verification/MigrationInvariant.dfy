/** What every reachable world of Migration satisfies. `h` is the history of all groups, `e` the
  * events so far; nothing else of the world decides whether data is safe. */
module MigrationInvariant {
  import opened Wrappers
  import opened Sessions
  import opened StateMachines
  import opened Migration

  type History = map<int, seq<StateMachine>>

  // ---------- vocabulary ----------

  /** Configuration `n` takes shard `s` away from group `g`. */
  ghost predicate Lost(d: Deployment, g: int, n: int, s: int) {
    n >= 2 && Owner(d, n - 1, s) == g && Owner(d, n, s) != g
  }

  /** Configuration `n` gives shard `s` to group `g`, and another group had it. */
  ghost predicate Gained(d: Deployment, g: int, n: int, s: int) {
    n >= 2 && Owner(d, n - 1, s) != g && Owner(d, n, s) == g
  }

  ghost function LastOf(h: History, g: int): StateMachine
    requires g in h && h[g] != []
  {
    h[g][|h[g]| - 1]
  }

  ghost predicate Reached(h: History, g: int, n: int) {
    g in h && h[g] != [] && n <= LastOf(h, g).current.num
  }

  ghost predicate HoldsAt(x: StateMachine, n: int, s: int) {
    x.current.num == n && s in x.shards && Holds(x.shards[s].status)
  }

  /** Some time ago or now, the owner of `s` in configuration `n` has had its data under that configuration. */
  ghost predicate Acquired(d: Deployment, h: History, n: int, s: int) {
    && Owner(d, n, s) in h
    && exists i :: 0 <= i < |h[Owner(d, n, s)]| && HoldsAt(h[Owner(d, n, s)][i], n, s)
  }

  /** `g` answers clients on shard `s` now. */
  ghost predicate Serves(d: Deployment, h: History, g: int, s: int) {
    g in h && h[g] != [] && CheckShard(g, LastOf(h, g), s)
  }

  ghost predicate EventOn(d: Deployment, v: Event, s: int) {
    (v.command.GET? || v.command.PUT? || v.command.APPEND?) && d.hash(v.command.key) == s
  }

  function Effect(kv: map<string, string>, c: Command): map<string, string> {
    match c
    case PUT(key, value) => kv[key := value]
    case APPEND(key, value) => Appended(kv, key, value)
    case _ => kv
  }

  /** What shard `s` contains after the events, whichever groups executed them. */
  ghost function Contents(d: Deployment, e: seq<Event>, s: int): map<string, string> {
    if e == [] then map[]
    else
      var n := |e| - 1;
      if EventOn(d, e[n], s) then Effect(Contents(d, e[..n], s), e[n].command) else Contents(d, e[..n], s)
  }

  /** Every request executed on shard `s` so far is known to these sessions. */
  ghost predicate Covers(d: Deployment, e: seq<Event>, s: int, sessions: SessionTable) {
    forall i :: 0 <= i < |e| && EventOn(d, e[i], s) ==> Processed(sessions, e[i].header.id, e[i].header.seqNum)
  }

  /** This copy of shard `s`, with these sessions, has missed nothing. */
  ghost predicate UpToDate(d: Deployment, e: seq<Event>, s: int, kv: map<string, string>, sessions: SessionTable) {
    kv == Contents(d, e, s) && Covers(d, e, s, sessions)
  }

  // ---------- one group ----------

  ghost predicate StatusOk(d: Deployment, g: int, n: int, s: int, status: ShardStatus) {
    if Lost(d, g, n, s) then status == BE_PULLING || status == SERVING
    else if Gained(d, g, n, s) then status != BE_PULLING
    else status == SERVING
  }

  ghost predicate StateOk(d: Deployment, g: int, x: StateMachine) {
    && 0 <= x.current.num
    && x.current == d.configs(x.current.num)
    && (x.current.num >= 1 ==> x.last == Some(d.configs(x.current.num - 1)))
    && (forall s :: s in x.shards <==> IsShard(s))
    && (forall s :: s in x.shards ==> x.shards[s].ID == s && StatusOk(d, g, x.current.num, s, x.shards[s].status))
    && (x.current.num == 0 ==> forall s :: s in x.shards ==> x.shards[s].KV == map[])
  }

  ghost predicate GroupsOk(d: Deployment, h: History) {
    && h.Keys == d.gids
    && (forall g :: g in h ==> h[g] != [])
    && (forall g, i :: g in h && 0 <= i < |h[g]| ==> StateOk(d, g, h[g][i]))
    && (forall g, i :: g in h && 0 <= i < |h[g]| ==> h[g][i].current.num <= LastOf(h, g).current.num)
  }

  // ---------- between groups ----------

  /** Configurations are acquired in order, and the next owner only after this one has moved on. */
  ghost predicate ChainOk(d: Deployment, h: History) {
    forall n, s :: 1 <= n && IsShard(s) && Acquired(d, h, n + 1, s) ==>
                     Acquired(d, h, n, s) && Reached(h, Owner(d, n, s), n + 1)
  }

  ghost predicate WaitingOk(d: Deployment, h: History) {
    forall g, s :: g in h && h[g] != [] && s in LastOf(h, g).shards && LastOf(h, g).shards[s].status == PULLING ==>
                     !Acquired(d, h, LastOf(h, g).current.num, s)
  }

  /** Only a copy that the next owner has adopted is gone. */
  ghost predicate WipedOk(d: Deployment, h: History) {
    forall g, i, s :: g in h && 0 <= i < |h[g]| && s in h[g][i].shards && Lost(d, g, h[g][i].current.num, s)
                      && h[g][i].shards[s].status == SERVING ==>
                        Acquired(d, h, h[g][i].current.num, s)
  }

  ghost predicate PastOk(d: Deployment, h: History) {
    forall g, m, s :: g in h && IsShard(s) && 1 <= m && Reached(h, g, m + 1) && (Owner(d, m, s) == g || Lost(d, g, m, s)) ==>
                        Acquired(d, h, m, s)
  }

  ghost predicate SettledOk(h: History) {
    forall g, i :: g in h && 0 <= i < |h[g]| && AllServing(h[g][i]) && h[g][i].current.num == LastOf(h, g).current.num ==>
                     AllServing(LastOf(h, g))
  }

  ghost predicate ServedOk(d: Deployment, h: History, e: seq<Event>) {
    forall g, s :: Serves(d, h, g, s) ==> UpToDate(d, e, s, LastOf(h, g).shards[s].KV, LastOf(h, g).sessions)
  }

  ghost predicate FrozenOk(d: Deployment, h: History, e: seq<Event>) {
    forall g, i, s :: g in h && 0 <= i < |h[g]| && s in h[g][i].shards && Lost(d, g, h[g][i].current.num, s)
                      && !Acquired(d, h, h[g][i].current.num, s) ==>
                        UpToDate(d, e, s, h[g][i].shards[s].KV, h[g][i].sessions)
  }

  ghost predicate UntouchedOk(d: Deployment, h: History, e: seq<Event>) {
    forall i, s :: 0 <= i < |e| && IsShard(s) && EventOn(d, e[i], s) ==> Acquired(d, h, 1, s)
  }

  /** Entry `j` of `g`'s log turned shard `s` from PULLING into GC under configuration `n`. */
  ghost predicate AdoptedAt(h: History, g: int, j: int, n: int, s: int) {
    && g in h && 1 <= j < |h[g]|
    && h[g][j - 1].current.num == n && h[g][j].current.num == n
    && s in h[g][j - 1].shards && h[g][j - 1].shards[s].status == PULLING
    && s in h[g][j].shards && h[g][j].shards[s].status == GC
  }

  /** What `a` kept frozen under configuration `n` is `kv`. */
  ghost predicate FrozenIs(h: History, a: int, n: int, s: int, kv: map<string, string>) {
    a in h && forall i :: 0 <= i < |h[a]| && h[a][i].current.num == n && s in h[a][i].shards && h[a][i].shards[s].status == BE_PULLING ==>
                            h[a][i].shards[s].KV == kv
  }

  ghost predicate AdoptedSometime(h: History, g: int, n: int, s: int) {
    exists j :: AdoptedAt(h, g, j, n, s)
  }

  /** A shard that changed hands was acquired by an adoption, and every adoption took exactly what
    * the former owner had frozen. */
  ghost predicate ConservedOk(d: Deployment, h: History) {
    && (forall n, s :: IsShard(s) && Acquired(d, h, n, s) && Gained(d, Owner(d, n, s), n, s) ==>
                         AdoptedSometime(h, Owner(d, n, s), n, s))
    && (forall g, j, n, s :: AdoptedAt(h, g, j, n, s) ==>
                               Owner(d, n, s) == g && FrozenIs(h, Owner(d, n - 1, s), n, s, h[g][j].shards[s].KV))
  }

  ghost predicate HistoryInv(d: Deployment, h: History, e: seq<Event>) {
    && GroupsOk(d, h)
    && ChainOk(d, h)
    && WaitingOk(d, h)
    && WipedOk(d, h)
    && PastOk(d, h)
    && SettledOk(h)
    && ServedOk(d, h, e)
    && FrozenOk(d, h, e)
    && UntouchedOk(d, h, e)
    && ConservedOk(d, h)
  }

  // ---------- consequences ----------

  lemma {:induction false} AcquiredBefore(d: Deployment, h: History, n: int, m: int, s: int)
    requires ChainOk(d, h)
    requires 1 <= m <= n && IsShard(s) && Acquired(d, h, n, s)
    ensures Acquired(d, h, m, s)
    decreases n - m
  {
    if m == n {
    } else {
      assert Acquired(d, h, (n - 1) + 1, s);
      AcquiredBefore(d, h, n - 1, m, s);
    }
  }

  /** Every owner before an acquired configuration has moved on from its own. */
  lemma OwnerMovedOn(d: Deployment, h: History, n: int, m: int, s: int)
    requires ChainOk(d, h)
    requires 1 <= n < m && IsShard(s) && Acquired(d, h, m, s)
    ensures Reached(h, Owner(d, n, s), n + 1)
  {
    AcquiredBefore(d, h, m, n + 1, s);
  }

  lemma ServerHasAcquired(d: Deployment, h: History, g: int, s: int)
    requires Sound(d) && GroupsOk(d, h) && Serves(d, h, g, s)
    ensures IsShard(s) && Owner(d, LastOf(h, g).current.num, s) == g
    ensures 1 <= LastOf(h, g).current.num && Acquired(d, h, LastOf(h, g).current.num, s)
  {
    var x := LastOf(h, g);
    assert StateOk(d, g, x);
    assert HoldsAt(h[g][|h[g]| - 1], x.current.num, s);
  }

  /** Whoever serves a shard is at least as far as any owner that has acquired it and moved on. */
  lemma ServerIsLatest(d: Deployment, h: History, g: int, m: int, s: int)
    requires Sound(d) && GroupsOk(d, h) && ChainOk(d, h) && Serves(d, h, g, s)
    requires 1 <= m && Acquired(d, h, m, s) && Reached(h, Owner(d, m, s), m + 1)
    ensures m + 1 <= LastOf(h, g).current.num
  {
    ServerHasAcquired(d, h, g, s);
    if LastOf(h, g).current.num < m {
      OwnerMovedOn(d, h, LastOf(h, g).current.num, m, s);
    }
  }

  lemma OneServer(d: Deployment, h: History, g: int, k: int, s: int)
    requires Sound(d) && GroupsOk(d, h) && ChainOk(d, h)
    requires Serves(d, h, g, s) && Serves(d, h, k, s)
    ensures g == k
  {
    ServerHasAcquired(d, h, g, s);
    ServerHasAcquired(d, h, k, s);
    var n, m := LastOf(h, g).current.num, LastOf(h, k).current.num;
    if n < m {
      OwnerMovedOn(d, h, n, m, s);
    } else if m < n {
      OwnerMovedOn(d, h, m, n, s);
    }
  }

  /** While somebody serves the shard, no older owner's copy is still waiting to be adopted. */
  lemma NothingPending(d: Deployment, h: History, g: int, a: int, m: int, s: int)
    requires Sound(d) && GroupsOk(d, h) && ChainOk(d, h) && PastOk(d, h) && Serves(d, h, g, s)
    requires Lost(d, a, m, s) && Reached(h, a, m)
    ensures Acquired(d, h, m, s)
  {
    ServerHasAcquired(d, h, g, s);
    assert Reached(h, a, (m - 1) + 1);
    assert Acquired(d, h, m - 1, s);
    ServerIsLatest(d, h, g, m - 1, s);
    AcquiredBefore(d, h, LastOf(h, g).current.num, m, s);
  }

  lemma {:induction false} NoEventsNoContents(d: Deployment, e: seq<Event>, s: int)
    requires forall i :: 0 <= i < |e| ==> !EventOn(d, e[i], s)
    ensures Contents(d, e, s) == map[]
  {
    if e == [] {
    } else {
      NoEventsNoContents(d, e[..|e| - 1], s);
    }
  }
}
