/** Every command the protocol lets a group propose applies without panicking and keeps the
  * invariant, whenever it is committed. */
module MigrationCommit {
  import opened Wrappers
  import opened Sessions
  import opened StateMachines
  import opened Loops
  import opened Migration
  import opened MigrationInvariant
  import opened MigrationSteps

  // ---------- messages ----------

  /** All processed sequence numbers are among those in use. */
  ghost predicate Within(t: SessionTable, issued: map<int, nat>) {
    forall c :: c in t ==> c in issued && t[c].processedSeq <= issued[c]
  }

  ghost predicate RequestOk(d: Deployment, h: History, r: ShardRequest) {
    && r.configNum >= 2
    && Reached(h, r.requester, r.configNum)
    && (forall k :: 0 <= k < |r.shardIDs| ==>
                      IsShard(r.shardIDs[k]) && Gained(d, r.requester, r.configNum, r.shardIDs[k])
                      && Owner(d, r.configNum - 1, r.shardIDs[k]) == r.source)
  }

  ghost predicate DeleteOk(d: Deployment, h: History, n: int, ids: seq<int>) {
    forall k :: 0 <= k < |ids| ==> IsShard(ids[k]) && Acquired(d, h, n, ids[k])
  }

  ghost predicate ReplyOk(d: Deployment, h: History, e: seq<Event>, p: PullReply) {
    var r, q := p.response, p.request;
    && RequestOk(d, h, q)
    && Reached(h, q.source, q.configNum)
    && r.configNum == q.configNum && |r.shards| == |q.shardIDs|
    && (forall k :: 0 <= k < |r.shards| ==> r.shards[k].ID == q.shardIDs[k])
    && (forall k :: 0 <= k < |r.shards| && !Acquired(d, h, r.configNum, q.shardIDs[k]) ==>
                      UpToDate(d, e, q.shardIDs[k], r.shards[k].KV, r.serverSessions))
  }

  ghost predicate ProposalOk(d: Deployment, h: History, replies: set<PullReply>, g: int, a: Args) {
    match a.command
    case INSERT_SHARDS(r) =>
      && (exists p :: p in replies && p.request.requester == g && p.response == r)
      && (a.header.id in r.serverSessions ==> r.serverSessions[a.header.id].processedSeq < a.header.seqNum)
    case DELETE_SHARDS(n, ids) => DeleteOk(d, h, n, ids)
    case RECONFIGURE(c) =>
      && 1 <= c.num && c == d.configs(c.num)
      && (Reached(h, g, c.num) || (g in h && h[g] != [] && LastOf(h, g).current.num == c.num - 1 && AllServing(LastOf(h, g))))
    case _ => true
  }

  // ---------- one command at a time ----------

  /** What committing `a` on top of the last state of `g` must achieve. */
  ghost predicate Good(d: Deployment, h: History, e: seq<Event>, g: int, a: Args)
    requires g in h && h[g] != []
  {
    var y := LastOf(h, g);
    var x := Apply(d.hash, g, y, a);
    && x.Some?
    && HistoryInv(d, Grow(h, g, x.value), e + EventsOf(d, g, y, a))
    && (x.value.current.num == y.current.num || (x.value.current.num == y.current.num + 1 && AllServing(y)))
    && NotAhead(y.sessions, x.value.sessions)
  }

  /** Only the sessions change. */
  lemma OnlySessions(d: Deployment, h: History, e: seq<Event>, g: int, x: StateMachine)
    requires HistoryInv(d, h, e) && g in h && h[g] != []
    requires x == LastOf(h, g).(sessions := x.sessions) && NotAhead(LastOf(h, g).sessions, x.sessions)
    ensures HistoryInv(d, Grow(h, g, x), e)
  {
    assert LastOf(h, g) == h[g][|h[g]| - 1];
    assert StateOk(d, g, LastOf(h, g));
    assert StateOk(d, g, x);
    QuietStep(d, h, e, g, x);
  }

  lemma CommitRejected(d: Deployment, h: History, e: seq<Event>, g: int, a: Args)
    requires HistoryInv(d, h, e) && g in h && h[g] != []
    requires Duplicate(LastOf(h, g).sessions, a.header)
             || a.command.EMPTY?
             || (a.command.INSERT_SHARDS? && a.command.pulled.configNum < LastOf(h, g).current.num)
             || (a.command.DELETE_SHARDS? && a.command.configNum != LastOf(h, g).current.num)
             || (a.command.RECONFIGURE? && a.command.nextConfig.num != LastOf(h, g).current.num + 1)
    ensures Good(d, h, e, g, a)
  {
    var x := Apply(d.hash, g, LastOf(h, g), a).value;
    OnlySessions(d, h, e, g, x);
    assert e + [] == e;
  }

  /** A client command on a served shard is exactly one event. */
  lemma ClientServed(d: Deployment, h: History, g: int, a: Args)
    requires g in h && h[g] != [] && StateOk(d, g, LastOf(h, g))
    requires !Duplicate(LastOf(h, g).sessions, a.header)
    requires a.command.GET? || a.command.PUT? || a.command.APPEND?
    requires Serves(d, h, g, d.hash(a.command.key)) && LastOf(h, g).current.num >= 1
    ensures var x := Apply(d.hash, g, LastOf(h, g), a);
            && x.Some?
            && |EventsOf(d, g, LastOf(h, g), a)| == 1
            && ServesEvent(d, h, g, x.value, EventsOf(d, g, LastOf(h, g), a)[0], d.hash(a.command.key))
  {
    var y, s := LastOf(h, g), d.hash(a.command.key);
    var x := Apply(d.hash, g, y, a).value;
    assert x.shards.Keys == y.shards.Keys;
    assert forall t :: t in x.shards ==>
             x.shards[t] == if t == s then y.shards[s].(KV := Effect(y.shards[s].KV, a.command)) else y.shards[t];
  }

  lemma ClientRefused(d: Deployment, h: History, g: int, a: Args)
    requires g in h && h[g] != []
    requires a.command.GET? || a.command.PUT? || a.command.APPEND?
    requires !Serves(d, h, g, d.hash(a.command.key))
    ensures var x := Apply(d.hash, g, LastOf(h, g), a);
            && x.Some?
            && EventsOf(d, g, LastOf(h, g), a) == []
            && x.value == LastOf(h, g).(sessions := x.value.sessions)
            && NotAhead(LastOf(h, g).sessions, x.value.sessions)
  {
  }

  lemma CommitClient(d: Deployment, h: History, e: seq<Event>, g: int, a: Args)
    requires Sound(d) && HistoryInv(d, h, e) && g in h && h[g] != []
    requires !Duplicate(LastOf(h, g).sessions, a.header)
    requires a.command.GET? || a.command.PUT? || a.command.APPEND?
    ensures Good(d, h, e, g, a)
  {
    var s := d.hash(a.command.key);
    if Serves(d, h, g, s) {
      ServerHasAcquired(d, h, g, s);
      assert LastOf(h, g) == h[g][|h[g]| - 1];
      ClientServed(d, h, g, a);
      var v := EventsOf(d, g, LastOf(h, g), a);
      ServeStep(d, h, e, g, Apply(d.hash, g, LastOf(h, g), a).value, v[0], s);
      assert v == [v[0]];
    } else {
      ClientRefused(d, h, g, a);
      OnlySessions(d, h, e, g, Apply(d.hash, g, LastOf(h, g), a).value);
      assert e + [] == e;
    }
  }

  /** An adopted shard is what its former owner froze, and it is up to date. */
  lemma AdoptionMoves(d: Deployment, h: History, e: seq<Event>, g: int, p: PullReply, k: int)
    requires WaitingOk(d, h) && FrozenOk(d, h, e) && ReplyOk(d, h, e, p) && p.request.requester == g && g in h && h[g] != []
    requires 0 <= k < |p.response.shards| && p.response.configNum == LastOf(h, g).current.num
    requires var s := p.response.shards[k].ID; s in LastOf(h, g).shards && LastOf(h, g).shards[s].status == PULLING
    ensures var b, n, s := p.response.shards[k].(status := GC), p.response.configNum, p.response.shards[k].ID;
            && Moved(d, h, n, s, LastOf(h, g).shards[s], b)
            && UpToDate(d, e, s, b.KV, p.response.serverSessions)
  {
    var n, s, f := p.response.configNum, p.response.shards[k].ID, p.request.source;
    assert !Acquired(d, h, n, s);
    assert Lost(d, f, n, s);
    AwaitedIsFrozen(d, h, e, f, n, s);
  }

  lemma AwaitedIsFrozen(d: Deployment, h: History, e: seq<Event>, f: int, n: int, s: int)
    requires FrozenOk(d, h, e) && Lost(d, f, n, s) && !Acquired(d, h, n, s) && f in h
    ensures FrozenIs(h, f, n, s, Contents(d, e, s))
  {
    forall i | 0 <= i < |h[f]| && h[f][i].current.num == n && s in h[f][i].shards && h[f][i].shards[s].status == BE_PULLING
      ensures h[f][i].shards[s].KV == Contents(d, e, s)
    {
      assert UpToDate(d, e, s, h[f][i].shards[s].KV, h[f][i].sessions);
    }
  }

  /** The state after an accepted INSERT_SHARDS. */
  lemma InsertEffect(hash: Hash, g: int, y: StateMachine, a: Args)
    requires a.command.INSERT_SHARDS? && !Duplicate(y.sessions, a.header) && a.command.pulled.configNum >= y.current.num
    requires var t := a.command.pulled.serverSessions; a.header.id in t ==> t[a.header.id].processedSeq < a.header.seqNum
    requires forall k :: 0 <= k < |a.command.pulled.shards| ==> a.command.pulled.shards[k].ID in y.shards
    ensures var x := Apply(hash, g, y, a);
            && x.Some?
            && InsertLoop(y.shards, a.command.pulled.shards) == Some(x.value.shards)
            && x.value.current == y.current && x.value.last == y.last
            && NotAhead(y.sessions, x.value.sessions) && NotAhead(a.command.pulled.serverSessions, x.value.sessions)
  {
    InsertLoopEffect(y.shards, a.command.pulled.shards);
    MergeIsLeastUpperBound(y.sessions, a.command.pulled.serverSessions, map[]);
  }

  lemma InsertSameConfig(d: Deployment, h: History, e: seq<Event>, g: int, x: StateMachine, p: PullReply)
    requires WaitingOk(d, h) && FrozenOk(d, h, e) && g in h && h[g] != [] && StateOk(d, g, LastOf(h, g))
    requires ReplyOk(d, h, e, p) && p.request.requester == g && p.response.configNum == LastOf(h, g).current.num
    requires InsertLoop(LastOf(h, g).shards, p.response.shards) == Some(x.shards)
    requires x.current == LastOf(h, g).current && x.last == LastOf(h, g).last
    requires NotAhead(LastOf(h, g).sessions, x.sessions) && NotAhead(p.response.serverSessions, x.sessions)
    ensures SameConfig(d, h, g, x) && KeepsData(d, h, e, g, x)
  {
    var y, t := LastOf(h, g), x.shards;
    assert forall k :: 0 <= k < |p.response.shards| ==> p.response.shards[k].ID in y.shards;
    InsertLoopEffect(y.shards, p.response.shards);
    forall s | s in y.shards
      ensures t[s].ID == s && StatusOk(d, g, y.current.num, s, t[s].status)
      ensures Moved(d, h, y.current.num, s, y.shards[s], t[s])
      ensures t[s] == y.shards[s] || UpToDate(d, e, s, t[s].KV, x.sessions)
    {
      if t[s] != y.shards[s] {
        InsertedShard(d, h, e, g, p, s, t[s], x.sessions);
      }
    }
    assert StateOk(d, g, x);
  }

  lemma InsertedShard(d: Deployment, h: History, e: seq<Event>, g: int, p: PullReply, s: int, b: ShardData, sessions: SessionTable)
    requires WaitingOk(d, h) && FrozenOk(d, h, e) && g in h && h[g] != [] && StateOk(d, g, LastOf(h, g))
    requires ReplyOk(d, h, e, p) && p.request.requester == g && p.response.configNum == LastOf(h, g).current.num
    requires s in LastOf(h, g).shards && NotAhead(p.response.serverSessions, sessions)
    requires exists k :: AdoptedFrom(LastOf(h, g).shards[s], b, p.response.shards, s, k)
    ensures b.ID == s && StatusOk(d, g, LastOf(h, g).current.num, s, b.status)
    ensures Moved(d, h, LastOf(h, g).current.num, s, LastOf(h, g).shards[s], b) && UpToDate(d, e, s, b.KV, sessions)
  {
    var k :| AdoptedFrom(LastOf(h, g).shards[s], b, p.response.shards, s, k);
    AdoptionMoves(d, h, e, g, p, k);
    UpToDateLater(d, e, s, b.KV, p.response.serverSessions, sessions);
  }

  lemma CommitInsert(d: Deployment, h: History, e: seq<Event>, g: int, a: Args, p: PullReply)
    requires HistoryInv(d, h, e) && g in h && h[g] != []
    requires a.command.INSERT_SHARDS? && a.command.pulled == p.response
    requires ReplyOk(d, h, e, p) && p.request.requester == g
    requires a.header.id in p.response.serverSessions ==> p.response.serverSessions[a.header.id].processedSeq < a.header.seqNum
    requires !Duplicate(LastOf(h, g).sessions, a.header) && p.response.configNum >= LastOf(h, g).current.num
    ensures Good(d, h, e, g, a)
  {
    assert LastOf(h, g) == h[g][|h[g]| - 1];
    assert StateOk(d, g, LastOf(h, g));
    InsertEffect(d.hash, g, LastOf(h, g), a);
    var x := Apply(d.hash, g, LastOf(h, g), a).value;
    InsertSameConfig(d, h, e, g, x, p);
    QuietStep(d, h, e, g, x);
    assert e + [] == e;
  }

  lemma DeleteSameConfig(d: Deployment, h: History, e: seq<Event>, g: int, a: Args)
    requires g in h && h[g] != [] && StateOk(d, g, LastOf(h, g))
    requires a.command.DELETE_SHARDS? && DeleteOk(d, h, a.command.configNum, a.command.shardIDs)
    requires !Duplicate(LastOf(h, g).sessions, a.header) && a.command.configNum == LastOf(h, g).current.num
    ensures var x := Apply(d.hash, g, LastOf(h, g), a);
            x.Some? && SameConfig(d, h, g, x.value) && KeepsData(d, h, e, g, x.value)
  {
    var y, ids := LastOf(h, g), a.command.shardIDs;
    DeleteLoopEffect(y.shards, ids);
    var t := DeleteLoop(y.shards, ids).value;
    forall s | s in y.shards
      ensures t[s].ID == s && StatusOk(d, g, y.current.num, s, t[s].status)
      ensures Moved(d, h, y.current.num, s, y.shards[s], t[s])
      ensures Owner(d, y.current.num, s) == g ==> t[s].KV == y.shards[s].KV && (Holds(t[s].status) ==> Holds(y.shards[s].status))
      ensures y.current.num == 0 ==> t[s].KV == map[]
    {
    }
    assert StateOk(d, g, Apply(d.hash, g, y, a).value);
  }

  lemma CommitDelete(d: Deployment, h: History, e: seq<Event>, g: int, a: Args)
    requires HistoryInv(d, h, e) && g in h && h[g] != []
    requires a.command.DELETE_SHARDS? && DeleteOk(d, h, a.command.configNum, a.command.shardIDs)
    requires !Duplicate(LastOf(h, g).sessions, a.header) && a.command.configNum == LastOf(h, g).current.num
    ensures Good(d, h, e, g, a)
  {
    assert LastOf(h, g) == h[g][|h[g]| - 1];
    DeleteSameConfig(d, h, e, g, a);
    QuietStep(d, h, e, g, Apply(d.hash, g, LastOf(h, g), a).value);
    assert e + [] == e;
  }

  lemma ReconfigureNextConfig(d: Deployment, h: History, g: int, a: Args)
    requires Sound(d) && g in h && h[g] != [] && StateOk(d, g, LastOf(h, g)) && AllServing(LastOf(h, g))
    requires a.command.RECONFIGURE? && 1 <= a.command.nextConfig.num == LastOf(h, g).current.num + 1
    requires a.command.nextConfig == d.configs(a.command.nextConfig.num)
    requires !Duplicate(LastOf(h, g).sessions, a.header)
    ensures var x := Apply(d.hash, g, LastOf(h, g), a); x.Some? && NextConfig(d, h, g, x.value)
  {
    var y, c := LastOf(h, g), a.command.nextConfig;
    assert NewConfig(c).shards == c.shards;
    StatusLoopEffect(g, y.current.shards, c.shards, y.shards, |c.shards|);
    var x := Apply(d.hash, g, y, a).value;
    assert StateOk(d, g, x);
  }

  lemma CommitReconfigure(d: Deployment, h: History, e: seq<Event>, g: int, a: Args)
    requires Sound(d) && HistoryInv(d, h, e) && g in h && h[g] != [] && AllServing(LastOf(h, g))
    requires a.command.RECONFIGURE? && 1 <= a.command.nextConfig.num == LastOf(h, g).current.num + 1
    requires a.command.nextConfig == d.configs(a.command.nextConfig.num)
    requires !Duplicate(LastOf(h, g).sessions, a.header)
    ensures Good(d, h, e, g, a)
  {
    assert LastOf(h, g) == h[g][|h[g]| - 1];
    assert StateOk(d, g, LastOf(h, g));
    ReconfigureNextConfig(d, h, g, a);
    ReconfigureStep(d, h, e, g, Apply(d.hash, g, LastOf(h, g), a).value);
    assert e + [] == e;
  }

  /** Every proposal that may exist is good, whenever it is committed. */
  lemma CommitProposal(d: Deployment, h: History, e: seq<Event>, replies: set<PullReply>, g: int, a: Args)
    requires Sound(d) && HistoryInv(d, h, e) && g in h && h[g] != []
    requires forall p :: p in replies ==> ReplyOk(d, h, e, p)
    requires ProposalOk(d, h, replies, g, a)
    ensures Good(d, h, e, g, a)
  {
    var y := LastOf(h, g);
    if Duplicate(y.sessions, a.header) {
      CommitRejected(d, h, e, g, a);
    } else {
      match a.command
      case EMPTY => CommitRejected(d, h, e, g, a);
      case GET(_) => CommitClient(d, h, e, g, a);
      case PUT(_, _) => CommitClient(d, h, e, g, a);
      case APPEND(_, _) => CommitClient(d, h, e, g, a);
      case INSERT_SHARDS(r) =>
        if r.configNum < y.current.num {
          CommitRejected(d, h, e, g, a);
        } else {
          var p :| p in replies && p.request.requester == g && p.response == r;
          CommitInsert(d, h, e, g, a, p);
        }
      case DELETE_SHARDS(n, ids) =>
        if n != y.current.num {
          CommitRejected(d, h, e, g, a);
        } else {
          CommitDelete(d, h, e, g, a);
        }
      case RECONFIGURE(c) =>
        if c.num != y.current.num + 1 {
          CommitRejected(d, h, e, g, a);
        } else {
          CommitReconfigure(d, h, e, g, a);
        }
    }
  }
}
