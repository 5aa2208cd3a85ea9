/** One more log entry keeps the invariant: entries within a configuration, entries that serve a
  * client, and entries that enter the next configuration. */
module MigrationSteps {
  import opened Wrappers
  import opened Sessions
  import opened StateMachines
  import opened Migration
  import opened MigrationInvariant

  ghost function Grow(h: History, g: int, x: StateMachine): History
    requires g in h
  {
    h[g := h[g] + [x]]
  }

  /** The structural part of the invariant: everything that does not look at events. */
  ghost predicate StructureInv(d: Deployment, h: History) {
    && GroupsOk(d, h)
    && ChainOk(d, h)
    && WaitingOk(d, h)
    && WipedOk(d, h)
    && PastOk(d, h)
    && SettledOk(h)
    && ConservedOk(d, h)
  }

  /** What a log entry may do to one shard under configuration `n`. */
  ghost predicate Moved(d: Deployment, h: History, n: int, s: int, a: ShardData, b: ShardData) {
    || (b.status == a.status && (a.status == BE_PULLING ==> b == a))
    || (a.status == PULLING && b.status == GC && Reached(h, Owner(d, n - 1, s), n) && FrozenIs(h, Owner(d, n - 1, s), n, s, b.KV))
    || (a.status == BE_PULLING && b.status == SERVING && Acquired(d, h, n, s))
    || (a.status == GC && b.status == SERVING)
  }

  /** `x` follows the last state of `g` without a reconfiguration. */
  ghost predicate SameConfig(d: Deployment, h: History, g: int, x: StateMachine) {
    && g in h && h[g] != []
    && x.current == LastOf(h, g).current && x.last == LastOf(h, g).last
    && StateOk(d, g, x)
    && x.shards.Keys == LastOf(h, g).shards.Keys
    && NotAhead(LastOf(h, g).sessions, x.sessions)
    && forall s :: s in x.shards ==> Moved(d, h, x.current.num, s, LastOf(h, g).shards[s], x.shards[s])
  }

  /** `x` follows the last state of `g` by a successful RECONFIGURE that found all shards SERVING. */
  ghost predicate NextConfig(d: Deployment, h: History, g: int, x: StateMachine) {
    && g in h && h[g] != []
    && x.current.num == LastOf(h, g).current.num + 1
    && StateOk(d, g, x)
    && AllServing(LastOf(h, g))
    && NotAhead(LastOf(h, g).sessions, x.sessions)
    && x.shards.Keys == LastOf(h, g).shards.Keys
    && (forall s :: s in x.shards ==> x.shards[s].KV == LastOf(h, g).shards[s].KV)
    && (forall s :: s in x.shards ==>
                      x.shards[s].status == if Lost(d, g, x.current.num, s) then BE_PULLING
                                            else if Gained(d, g, x.current.num, s) then PULLING
                                            else SERVING)
  }

  // ---------- growing a history ----------

  lemma GrownAt(h: History, g: int, x: StateMachine)
    requires g in h && h[g] != []
    ensures var k: History := Grow(h, g, x);
            && k.Keys == h.Keys && LastOf(k, g) == x
            && (forall a :: a in h && a != g ==> k[a] == h[a])
            && (forall i :: 0 <= i < |h[g]| ==> k[g][i] == h[g][i])
            && |k[g]| == |h[g]| + 1 && k[g][|h[g]|] == x
  {
  }

  lemma AcquiredGrows(d: Deployment, h: History, g: int, x: StateMachine, n: int, s: int)
    requires g in h
    ensures Acquired(d, h, n, s) ==> Acquired(d, Grow(h, g, x), n, s)
    ensures Acquired(d, Grow(h, g, x), n, s) ==> Acquired(d, h, n, s) || (Owner(d, n, s) == g && HoldsAt(x, n, s))
    ensures Owner(d, n, s) == g && HoldsAt(x, n, s) ==> Acquired(d, Grow(h, g, x), n, s)
  {
    var o := Owner(d, n, s);
    var k: History := Grow(h, g, x);
    if Acquired(d, h, n, s) {
      var i :| 0 <= i < |h[o]| && HoldsAt(h[o][i], n, s);
      assert HoldsAt(k[o][i], n, s);
    }
    if o == g && HoldsAt(x, n, s) {
      assert HoldsAt(k[o][|h[g]|], n, s);
    }
    if Acquired(d, k, n, s) {
      var i :| 0 <= i < |k[o]| && HoldsAt(k[o][i], n, s);
      if o != g || i < |h[g]| {
        assert HoldsAt(h[o][i], n, s);
      }
    }
  }

  lemma ReachedGrows(h: History, g: int, x: StateMachine, a: int, n: int)
    requires g in h && h[g] != [] && LastOf(h, g).current.num <= x.current.num
    ensures Reached(h, a, n) ==> Reached(Grow(h, g, x), a, n)
    ensures Reached(Grow(h, g, x), a, n) && (a != g || n <= LastOf(h, g).current.num) ==> Reached(h, a, n)
  {
  }

  lemma GroupsGrow(d: Deployment, h: History, g: int, x: StateMachine)
    requires GroupsOk(d, h) && g in h && StateOk(d, g, x) && LastOf(h, g).current.num <= x.current.num
    ensures GroupsOk(d, Grow(h, g, x))
  {
    GrownAt(h, g, x);
    var k: History := Grow(h, g, x);
    forall a, i | a in k && 0 <= i < |k[a]|
      ensures StateOk(d, a, k[a][i]) && k[a][i].current.num <= LastOf(k, a).current.num
    {
      if a != g || i < |h[g]| {
        assert k[a][i] == h[a][i];
      }
    }
  }

  // ---------- within a configuration ----------

  lemma HoldingIsAcquired(d: Deployment, h: History, g: int, n: int, s: int)
    requires g in h && h[g] != []
    ensures Owner(d, n, s) == g && HoldsAt(LastOf(h, g), n, s) ==> Acquired(d, h, n, s)
  {
    assert LastOf(h, g) == h[g][|h[g]| - 1];
  }

  lemma FormerOwnerAcquired(d: Deployment, h: History, n: int, s: int)
    requires PastOk(d, h) && 1 <= n && IsShard(s) && Reached(h, Owner(d, n, s), n + 1)
    ensures Acquired(d, h, n, s)
  {
  }

  /** Under the current configuration only an adoption acquires anything new. */
  lemma NewlyAcquired(d: Deployment, h: History, g: int, x: StateMachine, n: int, s: int)
    requires GroupsOk(d, h) && SameConfig(d, h, g, x) && IsShard(s)
    requires Acquired(d, Grow(h, g, x), n, s) && !Acquired(d, h, n, s)
    ensures n == x.current.num && Owner(d, n, s) == g && s in x.shards
    ensures LastOf(h, g).shards[s].status == PULLING && x.shards[s].status == GC
    ensures Gained(d, g, n, s) && Reached(h, Owner(d, n - 1, s), n)
    ensures FrozenIs(h, Owner(d, n - 1, s), n, s, x.shards[s].KV)
  {
    AcquiredGrows(d, h, g, x, n, s);
    HoldingIsAcquired(d, h, g, n, s);
    assert StateOk(d, g, LastOf(h, g));
  }

  lemma ChainSame(d: Deployment, h: History, g: int, x: StateMachine)
    requires GroupsOk(d, h) && ChainOk(d, h) && PastOk(d, h) && SameConfig(d, h, g, x)
    ensures ChainOk(d, Grow(h, g, x))
  {
    var k: History := Grow(h, g, x);
    forall n, s | 1 <= n && IsShard(s) && Acquired(d, k, n + 1, s)
      ensures Acquired(d, k, n, s) && Reached(k, Owner(d, n, s), n + 1)
    {
      ChainSameAt(d, h, g, x, n, s);
    }
  }

  lemma ChainSameAt(d: Deployment, h: History, g: int, x: StateMachine, n: int, s: int)
    requires GroupsOk(d, h) && ChainOk(d, h) && PastOk(d, h) && SameConfig(d, h, g, x)
    requires 1 <= n && IsShard(s) && Acquired(d, Grow(h, g, x), n + 1, s)
    ensures Acquired(d, Grow(h, g, x), n, s) && Reached(Grow(h, g, x), Owner(d, n, s), n + 1)
  {
    if !Acquired(d, h, n + 1, s) {
      NewlyAcquired(d, h, g, x, n + 1, s);
      FormerOwnerAcquired(d, h, n, s);
    }
    AcquiredGrows(d, h, g, x, n, s);
    ReachedGrows(h, g, x, Owner(d, n, s), n + 1);
  }

  lemma WaitingSame(d: Deployment, h: History, g: int, x: StateMachine)
    requires GroupsOk(d, h) && WaitingOk(d, h) && SameConfig(d, h, g, x)
    ensures WaitingOk(d, Grow(h, g, x))
  {
    GrownAt(h, g, x);
    var k: History := Grow(h, g, x);
    forall a, s | a in k && s in LastOf(k, a).shards && LastOf(k, a).shards[s].status == PULLING
      ensures !Acquired(d, k, LastOf(k, a).current.num, s)
    {
      WaitingSameAt(d, h, g, x, a, s);
    }
  }

  lemma WaitingSameAt(d: Deployment, h: History, g: int, x: StateMachine, a: int, s: int)
    requires GroupsOk(d, h) && WaitingOk(d, h) && SameConfig(d, h, g, x) && a in h && s in LastOf(Grow(h, g, x), a).shards
    requires LastOf(Grow(h, g, x), a).shards[s].status == PULLING
    ensures !Acquired(d, Grow(h, g, x), LastOf(Grow(h, g, x), a).current.num, s)
  {
    GrownAt(h, g, x);
    var k: History := Grow(h, g, x);
    if Acquired(d, k, LastOf(k, a).current.num, s) {
      assert LastOf(h, a).shards[s].status == PULLING;
      NewlyAcquired(d, h, g, x, LastOf(k, a).current.num, s);
    }
  }

  lemma WipedSame(d: Deployment, h: History, g: int, x: StateMachine)
    requires GroupsOk(d, h) && WipedOk(d, h) && SameConfig(d, h, g, x)
    ensures WipedOk(d, Grow(h, g, x))
  {
    GrownAt(h, g, x);
    var k: History := Grow(h, g, x);
    forall a, i, s | a in k && 0 <= i < |k[a]| && s in k[a][i].shards && Lost(d, a, k[a][i].current.num, s)
                     && k[a][i].shards[s].status == SERVING
      ensures Acquired(d, k, k[a][i].current.num, s)
    {
      AcquiredGrows(d, h, g, x, k[a][i].current.num, s);
      if a == g && i == |h[g]| {
        var y := h[g][|h[g]| - 1];
        assert StateOk(d, g, y);
        assert y.shards[s].status == SERVING ==> Acquired(d, h, y.current.num, s);
      } else {
        assert k[a][i] == h[a][i];
      }
    }
  }

  lemma PastSame(d: Deployment, h: History, g: int, x: StateMachine)
    requires PastOk(d, h) && SameConfig(d, h, g, x)
    ensures PastOk(d, Grow(h, g, x))
  {
    var k: History := Grow(h, g, x);
    forall a, m, s | a in k && IsShard(s) && 1 <= m && Reached(k, a, m + 1) && (Owner(d, m, s) == a || Lost(d, a, m, s))
      ensures Acquired(d, k, m, s)
    {
      ReachedGrows(h, g, x, a, m + 1);
      AcquiredGrows(d, h, g, x, m, s);
    }
  }

  lemma SettledSame(d: Deployment, h: History, g: int, x: StateMachine)
    requires SettledOk(h) && SameConfig(d, h, g, x)
    ensures SettledOk(Grow(h, g, x))
  {
    GrownAt(h, g, x);
    var k: History := Grow(h, g, x);
    forall a, i | a in k && 0 <= i < |k[a]| && AllServing(k[a][i]) && k[a][i].current.num == LastOf(k, a).current.num
      ensures AllServing(LastOf(k, a))
    {
      if a != g || i < |h[g]| {
        assert AllServing(h[a][i]) && AllServing(LastOf(h, a));
      }
    }
  }

  lemma FrozenIsGrows(d: Deployment, h: History, g: int, x: StateMachine, a: int, n: int, s: int, kv: map<string, string>)
    requires SameConfig(d, h, g, x) && FrozenIs(h, a, n, s, kv)
    ensures FrozenIs(Grow(h, g, x), a, n, s, kv)
  {
    GrownAt(h, g, x);
    var k: History := Grow(h, g, x);
    forall i | 0 <= i < |k[a]| && k[a][i].current.num == n && s in k[a][i].shards && k[a][i].shards[s].status == BE_PULLING
      ensures k[a][i].shards[s].KV == kv
    {
      if a == g && i == |h[g]| {
        assert h[g][|h[g]| - 1].shards[s] == x.shards[s];
      } else {
        assert k[a][i] == h[a][i];
      }
    }
  }

  lemma AdoptedGrows(h: History, g: int, x: StateMachine, o: int, n: int, s: int)
    requires g in h && h[g] != []
    ensures AdoptedSometime(h, o, n, s) ==> AdoptedSometime(Grow(h, g, x), o, n, s)
  {
    GrownAt(h, g, x);
    var k: History := Grow(h, g, x);
    if j :| AdoptedAt(h, o, j, n, s) {
      assert k[o][j] == h[o][j] && k[o][j - 1] == h[o][j - 1];
      assert AdoptedAt(k, o, j, n, s);
    }
  }

  /** Every adoption is an old one, or the one this entry performs. */
  lemma OldOrNewAdoption(h: History, g: int, x: StateMachine, o: int, j: int, n: int, s: int)
    requires g in h && h[g] != [] && AdoptedAt(Grow(h, g, x), o, j, n, s)
    ensures (AdoptedAt(h, o, j, n, s) && h[o][j] == Grow(h, g, x)[o][j])
            || (o == g && j == |h[g]| && x.current.num == n == LastOf(h, g).current.num
                && s in x.shards && x.shards[s].status == GC
                && s in LastOf(h, g).shards && LastOf(h, g).shards[s].status == PULLING)
  {
    GrownAt(h, g, x);
  }

  lemma ConservedSame(d: Deployment, h: History, g: int, x: StateMachine)
    requires GroupsOk(d, h) && ConservedOk(d, h) && SameConfig(d, h, g, x)
    ensures ConservedOk(d, Grow(h, g, x))
  {
    GrownAt(h, g, x);
    var k: History := Grow(h, g, x);
    forall n, s | IsShard(s) && Acquired(d, k, n, s) && Gained(d, Owner(d, n, s), n, s)
      ensures AdoptedSometime(k, Owner(d, n, s), n, s)
    {
      if Acquired(d, h, n, s) {
        AdoptedGrows(h, g, x, Owner(d, n, s), n, s);
      } else {
        NewlyAcquired(d, h, g, x, n, s);
        assert AdoptedAt(k, g, |h[g]|, n, s);
      }
    }
    forall o, j, n, s | AdoptedAt(k, o, j, n, s)
      ensures Owner(d, n, s) == o && FrozenIs(k, Owner(d, n - 1, s), n, s, k[o][j].shards[s].KV)
    {
      OldOrNewAdoption(h, g, x, o, j, n, s);
      if !AdoptedAt(h, o, j, n, s) {
        assert Moved(d, h, n, s, LastOf(h, g).shards[s], x.shards[s]);
      }
      FrozenIsGrows(d, h, g, x, Owner(d, n - 1, s), n, s, k[o][j].shards[s].KV);
    }
  }

  lemma StructureSame(d: Deployment, h: History, g: int, x: StateMachine)
    requires StructureInv(d, h) && SameConfig(d, h, g, x)
    ensures StructureInv(d, Grow(h, g, x))
  {
    GroupsGrow(d, h, g, x);
    ChainSame(d, h, g, x);
    WaitingSame(d, h, g, x);
    WipedSame(d, h, g, x);
    PastSame(d, h, g, x);
    SettledSame(d, h, g, x);
    ConservedSame(d, h, g, x);
  }

  // ---------- within a configuration: data ----------

  /** Copies that are served stay as they were, or are up to date when they start being served. */
  ghost predicate KeepsData(d: Deployment, h: History, e: seq<Event>, g: int, x: StateMachine)
    requires g in h && h[g] != []
  {
    var a := LastOf(h, g);
    forall s :: s in x.shards && Owner(d, x.current.num, s) == g && Holds(x.shards[s].status) ==>
                  || UpToDate(d, e, s, x.shards[s].KV, x.sessions)
                  || (s in a.shards && Holds(a.shards[s].status) && x.shards[s].KV == a.shards[s].KV)
  }

  lemma UpToDateLater(d: Deployment, e: seq<Event>, s: int, kv: map<string, string>, a: SessionTable, b: SessionTable)
    requires UpToDate(d, e, s, kv, a) && NotAhead(a, b)
    ensures UpToDate(d, e, s, kv, b)
  {
  }

  lemma ServedSame(d: Deployment, h: History, e: seq<Event>, g: int, x: StateMachine)
    requires GroupsOk(d, h) && ServedOk(d, h, e) && SameConfig(d, h, g, x) && KeepsData(d, h, e, g, x)
    ensures ServedOk(d, Grow(h, g, x), e)
  {
    GrownAt(h, g, x);
    var k: History := Grow(h, g, x);
    forall a, s | Serves(d, k, a, s)
      ensures UpToDate(d, e, s, LastOf(k, a).shards[s].KV, LastOf(k, a).sessions)
    {
      if a != g {
        assert Serves(d, h, a, s);
      } else if !UpToDate(d, e, s, x.shards[s].KV, x.sessions) {
        assert Serves(d, h, g, s);
        UpToDateLater(d, e, s, LastOf(h, g).shards[s].KV, LastOf(h, g).sessions, x.sessions);
      }
    }
  }

  /** A copy waiting to be adopted is still the one from before. */
  lemma FrozenSame(d: Deployment, h: History, e: seq<Event>, g: int, x: StateMachine)
    requires GroupsOk(d, h) && WipedOk(d, h) && FrozenOk(d, h, e) && SameConfig(d, h, g, x)
    ensures FrozenOk(d, Grow(h, g, x), e)
  {
    GrownAt(h, g, x);
    var k: History := Grow(h, g, x);
    forall a, i, s | a in k && 0 <= i < |k[a]| && s in k[a][i].shards && Lost(d, a, k[a][i].current.num, s)
                     && !Acquired(d, k, k[a][i].current.num, s)
      ensures UpToDate(d, e, s, k[a][i].shards[s].KV, k[a][i].sessions)
    {
      AcquiredGrows(d, h, g, x, k[a][i].current.num, s);
      if a == g && i == |h[g]| {
        var y := h[g][|h[g]| - 1];
        assert StateOk(d, g, y);
        assert UpToDate(d, e, s, y.shards[s].KV, y.sessions);
        UpToDateLater(d, e, s, y.shards[s].KV, y.sessions, x.sessions);
      } else {
        assert k[a][i] == h[a][i];
      }
    }
  }

  lemma UntouchedGrows(d: Deployment, h: History, e: seq<Event>, g: int, x: StateMachine)
    requires UntouchedOk(d, h, e) && g in h
    ensures UntouchedOk(d, Grow(h, g, x), e)
  {
    forall i, s | 0 <= i < |e| && IsShard(s) && EventOn(d, e[i], s)
      ensures Acquired(d, Grow(h, g, x), 1, s)
    {
      AcquiredGrows(d, h, g, x, 1, s);
    }
  }

  /** An entry that is no client operation keeps everything. */
  lemma QuietStep(d: Deployment, h: History, e: seq<Event>, g: int, x: StateMachine)
    requires HistoryInv(d, h, e) && SameConfig(d, h, g, x) && KeepsData(d, h, e, g, x)
    ensures HistoryInv(d, Grow(h, g, x), e)
  {
    StructureSame(d, h, g, x);
    ServedSame(d, h, e, g, x);
    FrozenSame(d, h, e, g, x);
    UntouchedGrows(d, h, e, g, x);
  }

  // ---------- within a configuration: serving a client ----------

  /** `x` is the last state of `g` after it executed `v` on a shard it serves. */
  ghost predicate ServesEvent(d: Deployment, h: History, g: int, x: StateMachine, v: Event, s: int) {
    && SameConfig(d, h, g, x)
    && Serves(d, h, g, s) && EventOn(d, v, s)
    && Processed(x.sessions, v.header.id, v.header.seqNum)
    && (forall t :: t in x.shards ==>
                      x.shards[t] == if t == s then LastOf(h, g).shards[s].(KV := Effect(LastOf(h, g).shards[s].KV, v.command))
                                     else LastOf(h, g).shards[t])
  }

  lemma OneMoreEvent(d: Deployment, e: seq<Event>, v: Event, s: int)
    ensures Contents(d, e + [v], s) == if EventOn(d, v, s) then Effect(Contents(d, e, s), v.command) else Contents(d, e, s)
    ensures forall t :: Covers(d, e, s, t) && (EventOn(d, v, s) ==> Processed(t, v.header.id, v.header.seqNum)) ==> Covers(d, e + [v], s, t)
  {
    assert (e + [v])[..|e|] == e;
  }

  lemma ServedServe(d: Deployment, h: History, e: seq<Event>, g: int, x: StateMachine, v: Event, s: int)
    requires Sound(d) && GroupsOk(d, h) && ChainOk(d, h) && ServedOk(d, h, e) && ServesEvent(d, h, g, x, v, s)
    ensures ServedOk(d, Grow(h, g, x), e + [v])
  {
    GrownAt(h, g, x);
    var k: History := Grow(h, g, x);
    forall a, t | Serves(d, k, a, t)
      ensures UpToDate(d, e + [v], t, LastOf(k, a).shards[t].KV, LastOf(k, a).sessions)
    {
      assert Serves(d, h, a, t);
      if t == s {
        OneServer(d, h, g, a, s);
      }
      UpToDateLater(d, e, t, LastOf(h, a).shards[t].KV, LastOf(h, a).sessions, LastOf(k, a).sessions);
      OneMoreEvent(d, e, v, t);
    }
  }

  lemma FrozenServe(d: Deployment, h: History, e: seq<Event>, g: int, x: StateMachine, v: Event, s: int)
    requires Sound(d) && GroupsOk(d, h) && ChainOk(d, h) && PastOk(d, h) && WipedOk(d, h)
    requires FrozenOk(d, h, e) && ServesEvent(d, h, g, x, v, s)
    ensures FrozenOk(d, Grow(h, g, x), e + [v])
  {
    FrozenSame(d, h, e, g, x);
    GrownAt(h, g, x);
    var k: History := Grow(h, g, x);
    forall a, i, t | a in k && 0 <= i < |k[a]| && t in k[a][i].shards && Lost(d, a, k[a][i].current.num, t)
                     && !Acquired(d, k, k[a][i].current.num, t)
      ensures UpToDate(d, e + [v], t, k[a][i].shards[t].KV, k[a][i].sessions)
    {
      if t == s {
        assert i < |h[a]| ==> k[a][i] == h[a][i];
        assert Reached(h, a, k[a][i].current.num);
        NothingPending(d, h, g, a, k[a][i].current.num, s);
        AcquiredGrows(d, h, g, x, k[a][i].current.num, s);
      }
      OneMoreEvent(d, e, v, t);
    }
  }

  lemma ServeStep(d: Deployment, h: History, e: seq<Event>, g: int, x: StateMachine, v: Event, s: int)
    requires Sound(d) && HistoryInv(d, h, e) && ServesEvent(d, h, g, x, v, s)
    ensures HistoryInv(d, Grow(h, g, x), e + [v])
  {
    StructureSame(d, h, g, x);
    ServedServe(d, h, e, g, x, v, s);
    FrozenServe(d, h, e, g, x, v, s);
    UntouchedServe(d, h, e, g, x, v, s);
  }

  lemma UntouchedServe(d: Deployment, h: History, e: seq<Event>, g: int, x: StateMachine, v: Event, s: int)
    requires Sound(d) && GroupsOk(d, h) && ChainOk(d, h) && UntouchedOk(d, h, e) && ServesEvent(d, h, g, x, v, s)
    ensures UntouchedOk(d, Grow(h, g, x), e + [v])
  {
    UntouchedGrows(d, h, e, g, x);
    ServerHasAcquired(d, h, g, s);
    AcquiredBefore(d, h, LastOf(h, g).current.num, 1, s);
    AcquiredGrows(d, h, g, x, 1, s);
  }

  // ---------- into the next configuration ----------

  lemma NotYetAcquired(d: Deployment, h: History, m: int, s: int)
    requires GroupsOk(d, h)
    requires Owner(d, m, s) in h ==> LastOf(h, Owner(d, m, s)).current.num < m
    ensures !Acquired(d, h, m, s)
  {
  }

  /** Keeping a shard across a reconfiguration is the only way to acquire by one. */
  lemma NewlyKept(d: Deployment, h: History, g: int, x: StateMachine, m: int, s: int)
    requires GroupsOk(d, h) && NextConfig(d, h, g, x) && IsShard(s)
    requires Acquired(d, Grow(h, g, x), m, s) && !Acquired(d, h, m, s)
    ensures m == x.current.num && Owner(d, m, s) == g && !Gained(d, g, m, s)
    ensures m >= 2 ==> Owner(d, m - 1, s) == g && Acquired(d, h, m - 1, s)
  {
    AcquiredGrows(d, h, g, x, m, s);
    assert StateOk(d, g, LastOf(h, g));
    HoldingIsAcquired(d, h, g, m - 1, s);
  }

  lemma ChainNext(d: Deployment, h: History, g: int, x: StateMachine)
    requires GroupsOk(d, h) && ChainOk(d, h) && NextConfig(d, h, g, x)
    ensures ChainOk(d, Grow(h, g, x))
  {
    var k: History := Grow(h, g, x);
    forall n, s | 1 <= n && IsShard(s) && Acquired(d, k, n + 1, s)
      ensures Acquired(d, k, n, s) && Reached(k, Owner(d, n, s), n + 1)
    {
      ChainNextAt(d, h, g, x, n, s);
    }
  }

  lemma ChainNextAt(d: Deployment, h: History, g: int, x: StateMachine, n: int, s: int)
    requires GroupsOk(d, h) && ChainOk(d, h) && NextConfig(d, h, g, x)
    requires 1 <= n && IsShard(s) && Acquired(d, Grow(h, g, x), n + 1, s)
    ensures Acquired(d, Grow(h, g, x), n, s) && Reached(Grow(h, g, x), Owner(d, n, s), n + 1)
  {
    if !Acquired(d, h, n + 1, s) {
      NewlyKept(d, h, g, x, n + 1, s);
    }
    AcquiredGrows(d, h, g, x, n, s);
    ReachedGrows(h, g, x, Owner(d, n, s), n + 1);
  }

  lemma WaitingNext(d: Deployment, h: History, g: int, x: StateMachine)
    requires GroupsOk(d, h) && WaitingOk(d, h) && NextConfig(d, h, g, x)
    ensures WaitingOk(d, Grow(h, g, x))
  {
    GrownAt(h, g, x);
    var k: History := Grow(h, g, x);
    forall a, s | a in k && s in LastOf(k, a).shards && LastOf(k, a).shards[s].status == PULLING
      ensures !Acquired(d, k, LastOf(k, a).current.num, s)
    {
      AcquiredGrows(d, h, g, x, LastOf(k, a).current.num, s);
      if a == g {
        NotYetAcquired(d, h, x.current.num, s);
      }
    }
  }

  lemma WipedNext(d: Deployment, h: History, g: int, x: StateMachine)
    requires WipedOk(d, h) && NextConfig(d, h, g, x)
    ensures WipedOk(d, Grow(h, g, x))
  {
    GrownAt(h, g, x);
    var k: History := Grow(h, g, x);
    forall a, i, s | a in k && 0 <= i < |k[a]| && s in k[a][i].shards && Lost(d, a, k[a][i].current.num, s)
                     && k[a][i].shards[s].status == SERVING
      ensures Acquired(d, k, k[a][i].current.num, s)
    {
      assert k[a][i] == h[a][i];
      AcquiredGrows(d, h, g, x, k[a][i].current.num, s);
    }
  }

  /** Leaving a configuration with all shards SERVING: what was owned is acquired, what was lost is adopted. */
  lemma LeftInOrder(d: Deployment, h: History, g: int, x: StateMachine, s: int)
    requires GroupsOk(d, h) && WipedOk(d, h) && NextConfig(d, h, g, x) && IsShard(s)
    requires Owner(d, x.current.num - 1, s) == g || Lost(d, g, x.current.num - 1, s)
    ensures Acquired(d, h, x.current.num - 1, s)
  {
    var y := h[g][|h[g]| - 1];
    assert StateOk(d, g, y) && y.shards[s].status == SERVING;
    HoldingIsAcquired(d, h, g, x.current.num - 1, s);
  }

  lemma OnlyTheNextIsNew(h: History, g: int, x: StateMachine, a: int, m: int)
    requires g in h && h[g] != [] && x.current.num == LastOf(h, g).current.num + 1
    requires Reached(Grow(h, g, x), a, m + 1) && !Reached(h, a, m + 1) && a in h && h[a] != []
    ensures a == g && m == x.current.num - 1
  {
  }

  lemma PastOne(d: Deployment, h: History, g: int, x: StateMachine, a: int, m: int, s: int)
    requires GroupsOk(d, h) && WipedOk(d, h) && PastOk(d, h) && NextConfig(d, h, g, x)
    requires a in h && IsShard(s) && 1 <= m && Reached(Grow(h, g, x), a, m + 1) && (Owner(d, m, s) == a || Lost(d, a, m, s))
    ensures Acquired(d, h, m, s)
  {
    if !Reached(h, a, m + 1) {
      OnlyTheNextIsNew(h, g, x, a, m);
      LeftInOrder(d, h, g, x, s);
    }
  }

  lemma PastNext(d: Deployment, h: History, g: int, x: StateMachine)
    requires GroupsOk(d, h) && WipedOk(d, h) && PastOk(d, h) && NextConfig(d, h, g, x)
    ensures PastOk(d, Grow(h, g, x))
  {
    forall a, m, s | a in h && IsShard(s) && 1 <= m && Reached(Grow(h, g, x), a, m + 1) && (Owner(d, m, s) == a || Lost(d, a, m, s))
      ensures Acquired(d, Grow(h, g, x), m, s)
    {
      PastOne(d, h, g, x, a, m, s);
      AcquiredGrows(d, h, g, x, m, s);
    }
  }

  lemma SettledNext(d: Deployment, h: History, g: int, x: StateMachine)
    requires GroupsOk(d, h) && SettledOk(h) && NextConfig(d, h, g, x)
    ensures SettledOk(Grow(h, g, x))
  {
    GrownAt(h, g, x);
    var k: History := Grow(h, g, x);
    forall a, i | a in k && 0 <= i < |k[a]| && AllServing(k[a][i]) && k[a][i].current.num == LastOf(k, a).current.num
      ensures AllServing(LastOf(k, a))
    {
      if a != g || i < |h[g]| {
        assert k[a][i] == h[a][i];
      }
    }
  }

  lemma FrozenIsNext(h: History, g: int, x: StateMachine, a: int, n: int, s: int, kv: map<string, string>)
    requires g in h && h[g] != [] && FrozenIs(h, a, n, s, kv) && (a == g ==> n != x.current.num)
    ensures FrozenIs(Grow(h, g, x), a, n, s, kv)
  {
    GrownAt(h, g, x);
    var k: History := Grow(h, g, x);
    forall i | 0 <= i < |k[a]| && k[a][i].current.num == n && s in k[a][i].shards && k[a][i].shards[s].status == BE_PULLING
      ensures k[a][i].shards[s].KV == kv
    {
      assert k[a][i] == h[a][i];
    }
  }

  /** The former owner has reached the configuration in which its shard is adopted. */
  lemma AdoptedAfterFreeze(d: Deployment, h: History, o: int, j: int, n: int, s: int)
    requires ChainOk(d, h) && ConservedOk(d, h) && AdoptedAt(h, o, j, n, s) && n >= 2 && IsShard(s)
    ensures Reached(h, Owner(d, n - 1, s), n)
  {
    assert HoldsAt(h[o][j], n, s);
    assert Acquired(d, h, (n - 1) + 1, s);
  }

  lemma AdoptionIsGain(d: Deployment, h: History, o: int, j: int, n: int, s: int)
    requires GroupsOk(d, h) && AdoptedAt(h, o, j, n, s)
    ensures n >= 2 && IsShard(s) && Gained(d, o, n, s)
  {
    assert StateOk(d, o, h[o][j]);
  }

  lemma ConservedNext(d: Deployment, h: History, g: int, x: StateMachine)
    requires GroupsOk(d, h) && ChainOk(d, h) && ConservedOk(d, h) && NextConfig(d, h, g, x)
    ensures ConservedOk(d, Grow(h, g, x))
  {
    GrownAt(h, g, x);
    var k: History := Grow(h, g, x);
    forall n, s | IsShard(s) && Acquired(d, k, n, s) && Gained(d, Owner(d, n, s), n, s)
      ensures AdoptedSometime(k, Owner(d, n, s), n, s)
    {
      if !Acquired(d, h, n, s) {
        NewlyKept(d, h, g, x, n, s);
      }
      AdoptedGrows(h, g, x, Owner(d, n, s), n, s);
    }
    forall o, j, n, s | AdoptedAt(k, o, j, n, s)
      ensures Owner(d, n, s) == o && FrozenIs(k, Owner(d, n - 1, s), n, s, k[o][j].shards[s].KV)
    {
      OldOrNewAdoption(h, g, x, o, j, n, s);
      AdoptionIsGain(d, h, o, j, n, s);
      AdoptedAfterFreeze(d, h, o, j, n, s);
      FrozenIsNext(h, g, x, Owner(d, n - 1, s), n, s, k[o][j].shards[s].KV);
    }
  }

  lemma ServedNext(d: Deployment, h: History, e: seq<Event>, g: int, x: StateMachine)
    requires Sound(d) && GroupsOk(d, h) && ServedOk(d, h, e) && UntouchedOk(d, h, e) && NextConfig(d, h, g, x)
    ensures ServedOk(d, Grow(h, g, x), e)
  {
    GrownAt(h, g, x);
    var k: History := Grow(h, g, x);
    forall a, s | Serves(d, k, a, s)
      ensures UpToDate(d, e, s, LastOf(k, a).shards[s].KV, LastOf(k, a).sessions)
    {
      if a != g {
        assert Serves(d, h, a, s);
      } else {
        assert StateOk(d, g, h[g][|h[g]| - 1]);
        if x.current.num == 1 {
          NotYetAcquired(d, h, 1, s);
          NoEventsNoContents(d, e, s);
        } else {
          assert Serves(d, h, g, s);
          UpToDateLater(d, e, s, LastOf(h, g).shards[s].KV, LastOf(h, g).sessions, x.sessions);
        }
      }
    }
  }

  lemma FrozenNext(d: Deployment, h: History, e: seq<Event>, g: int, x: StateMachine)
    requires Sound(d) && GroupsOk(d, h) && ServedOk(d, h, e) && FrozenOk(d, h, e) && NextConfig(d, h, g, x)
    ensures FrozenOk(d, Grow(h, g, x), e)
  {
    GrownAt(h, g, x);
    var k: History := Grow(h, g, x);
    forall a, i, s | a in k && 0 <= i < |k[a]| && s in k[a][i].shards && Lost(d, a, k[a][i].current.num, s)
                     && !Acquired(d, k, k[a][i].current.num, s)
      ensures UpToDate(d, e, s, k[a][i].shards[s].KV, k[a][i].sessions)
    {
      AcquiredGrows(d, h, g, x, k[a][i].current.num, s);
      if a == g && i == |h[g]| {
        assert StateOk(d, g, h[g][|h[g]| - 1]);
        assert Serves(d, h, g, s);
        UpToDateLater(d, e, s, LastOf(h, g).shards[s].KV, LastOf(h, g).sessions, x.sessions);
      } else {
        assert k[a][i] == h[a][i];
      }
    }
  }

  lemma ReconfigureStep(d: Deployment, h: History, e: seq<Event>, g: int, x: StateMachine)
    requires Sound(d) && HistoryInv(d, h, e) && NextConfig(d, h, g, x)
    ensures HistoryInv(d, Grow(h, g, x), e)
  {
    GroupsGrow(d, h, g, x);
    ChainNext(d, h, g, x);
    WaitingNext(d, h, g, x);
    WipedNext(d, h, g, x);
    PastNext(d, h, g, x);
    SettledNext(d, h, g, x);
    ConservedNext(d, h, g, x);
    ServedNext(d, h, e, g, x);
    FrozenNext(d, h, e, g, x);
    UntouchedGrows(d, h, e, g, x);
  }
}