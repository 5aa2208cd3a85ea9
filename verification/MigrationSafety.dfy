/** The guarantees of live shard migration, over every run. */
module MigrationSafety {
  import opened Wrappers
  import opened Sessions
  import opened StateMachines
  import opened Migration
  import opened MigrationInvariant
  import opened MigrationSteps
  import opened MigrationCommit

  // ---------- what clients see ----------

  /** One key-value store for the whole system: the effects of all events, whoever executed them. */
  function Store(e: seq<Event>): map<string, string> {
    if e == [] then map[] else Effect(Store(e[..|e| - 1]), e[|e| - 1].command)
  }

  /** What a client must be told when the store holds `kv`. */
  function Answer(kv: map<string, string>, c: Command): Reply {
    match c
    case GET(key) => Lookup(kv, key)
    case _ => Reply(OK, "")
  }

  ghost predicate KeyedEvents(e: seq<Event>) {
    forall i :: 0 <= i < |e| ==> e[i].command.GET? || e[i].command.PUT? || e[i].command.APPEND?
  }

  ghost predicate Truthful(d: Deployment, e: seq<Event>) {
    forall i :: 0 <= i < |e| && (e[i].command.GET? || e[i].command.PUT? || e[i].command.APPEND?) ==>
                  e[i].reply == Answer(Contents(d, e[..i], d.hash(e[i].command.key)), e[i].command)
  }

  /** On each shard, the executed requests of a client come in increasing order. */
  ghost predicate InOrder(d: Deployment, e: seq<Event>) {
    forall i, j, s :: 0 <= i < j < |e| && EventOn(d, e[i], s) && EventOn(d, e[j], s) && e[i].header.id == e[j].header.id ==>
                        e[i].header.seqNum < e[j].header.seqNum
  }

  // ---------- the invariant of worlds ----------

  /** A group changes configuration one at a time, and only with all its shards SERVING. */
  ghost predicate HopsOk(h: History) {
    forall g, i :: g in h && 1 <= i < |h[g]| ==>
                     || h[g][i].current.num == h[g][i - 1].current.num
                     || (h[g][i].current.num == h[g][i - 1].current.num + 1 && AllServing(h[g][i - 1]))
  }

  ghost predicate HeaderInUse(h: SessionHeader, issued: map<int, nat>) {
    h.id in issued && h.seqNum <= issued[h.id]
  }

  ghost predicate SessionsOk(w: World) {
    && (forall g, i :: g in w.history && 0 <= i < |w.history[g]| ==> Within(w.history[g][i].sessions, w.issued))
    && (forall p :: p in w.pullReplies ==> Within(p.response.serverSessions, w.issued))
    && (forall g, a :: (g, a) in w.proposed ==> HeaderInUse(a.header, w.issued))
  }

  ghost predicate MessagesOk(d: Deployment, w: World) {
    && (forall r :: r in w.pulls ==> RequestOk(d, w.history, r))
    && (forall p :: p in w.pullReplies ==> ReplyOk(d, w.history, w.events, p))
    && (forall r :: r in w.deletes ==> DeleteOk(d, w.history, r.configNum, r.shardIDs) && r.requester in w.history)
    && w.deleteReplies <= w.deletes
    && (forall g, a :: (g, a) in w.proposed ==> g in w.history && ProposalOk(d, w.history, w.pullReplies, g, a))
  }

  ghost predicate EventsOk(d: Deployment, e: seq<Event>) {
    KeyedEvents(e) && Truthful(d, e) && InOrder(d, e)
  }

  ghost predicate WorldInv(d: Deployment, w: World) {
    && HistoryInv(d, w.history, w.events)
    && HopsOk(w.history)
    && SessionsOk(w)
    && MessagesOk(d, w)
    && EventsOk(d, w.events)
  }

  // ---------- steps that only send and propose ----------

  lemma IssueGrows(issued: map<int, nat>, h: SessionHeader, t: SessionTable)
    ensures Within(t, issued) ==> Within(t, Issue(issued, h))
    ensures forall k :: HeaderInUse(k, issued) ==> HeaderInUse(k, Issue(issued, h))
    ensures HeaderInUse(h, Issue(issued, h))
  {
  }

  lemma ProposeSessions(w: World, g: int, a: Args)
    requires SessionsOk(w)
    ensures SessionsOk(Propose(w, g, a))
  {
    var v := Propose(w, g, a);
    forall k, i | k in v.history && 0 <= i < |v.history[k]|
      ensures Within(v.history[k][i].sessions, v.issued)
    {
      IssueGrows(w.issued, a.header, w.history[k][i].sessions);
    }
    forall p | p in v.pullReplies
      ensures Within(p.response.serverSessions, v.issued)
    {
      IssueGrows(w.issued, a.header, p.response.serverSessions);
    }
    IssueGrows(w.issued, a.header, map[]);
  }

  /** The shards a replica finds PULLING or GC were gained from the owner its last configuration names. */
  lemma LastConfigNamesTheSource(d: Deployment, g: int, x: StateMachine, status: ShardStatus, source: int, ids: seq<int>)
    requires StateOk(d, g, x) && NamedByLastConfig(x, status, source, ids) && (status == PULLING || status == GC)
    ensures forall k :: 0 <= k < |ids| ==>
                          && IsShard(ids[k]) && x.current.num >= 2
                          && Gained(d, g, x.current.num, ids[k])
                          && Owner(d, x.current.num - 1, ids[k]) == source
  {
    forall k | 0 <= k < |ids|
      ensures IsShard(ids[k]) && x.current.num >= 2 && Gained(d, g, x.current.num, ids[k])
              && Owner(d, x.current.num - 1, ids[k]) == source
    {
      assert StatusOk(d, g, x.current.num, ids[k], x.shards[ids[k]].status);
    }
  }

  /** A copy that configuration `n` took away is the frozen one, unless the new owner has adopted it. */
  lemma FrozenOrAdopted(d: Deployment, h: History, e: seq<Event>, f: int, i: nat, n: int, s: int)
    requires GroupsOk(d, h) && PastOk(d, h) && FrozenOk(d, h, e)
    requires f in h && i < |h[f]| && IsShard(s) && Lost(d, f, n, s) && n <= h[f][i].current.num && !Acquired(d, h, n, s)
    ensures s in h[f][i].shards && UpToDate(d, e, s, h[f][i].shards[s].KV, h[f][i].sessions)
  {
    assert StateOk(d, f, h[f][i]);
    LeftIsAcquired(d, h, f, n, s);
  }

  lemma LeftIsAcquired(d: Deployment, h: History, f: int, n: int, s: int)
    requires PastOk(d, h) && f in h && IsShard(s) && Lost(d, f, n, s)
    ensures Reached(h, f, n + 1) ==> Acquired(d, h, n, s)
  {
  }

  /** What a replica of the source may answer. */
  lemma AnswerIsOk(d: Deployment, h: History, e: seq<Event>, q: ShardRequest, i: nat)
    requires GroupsOk(d, h) && PastOk(d, h) && FrozenOk(d, h, e)
    requires RequestOk(d, h, q) && q.source in h && i < |h[q.source]|
    requires q.configNum <= h[q.source][i].current.num
    requires forall k :: 0 <= k < |q.shardIDs| ==> q.shardIDs[k] in h[q.source][i].shards
    ensures ReplyOk(d, h, e, PullReply(q, PullAnswer(h[q.source][i], q)))
  {
    var x := h[q.source][i];
    var r := PullAnswer(x, q);
    forall k | 0 <= k < |r.shards|
      ensures r.shards[k].ID == q.shardIDs[k]
      ensures !Acquired(d, h, q.configNum, q.shardIDs[k]) ==>
                UpToDate(d, e, q.shardIDs[k], r.shards[k].KV, r.serverSessions)
    {
      assert StateOk(d, q.source, x);
      if !Acquired(d, h, q.configNum, q.shardIDs[k]) {
        FrozenOrAdopted(d, h, e, q.source, i, q.configNum, q.shardIDs[k]);
      }
    }
  }

  lemma ProposalStays(d: Deployment, h: History, replies: set<PullReply>, more: set<PullReply>, g: int, a: Args)
    requires ProposalOk(d, h, replies, g, a) && replies <= more
    ensures ProposalOk(d, h, more, g, a)
  {
  }

  // ---------- a step that commits ----------

  lemma ApplyWithin(hash: Hash, g: int, y: StateMachine, a: Args, issued: map<int, nat>)
    requires Apply(hash, g, y, a).Some? && Within(y.sessions, issued) && HeaderInUse(a.header, issued)
    requires a.command.INSERT_SHARDS? ==> Within(a.command.pulled.serverSessions, issued)
    ensures Within(Apply(hash, g, y, a).value.sessions, issued)
  {
  }

  lemma DeleteOkGrows(d: Deployment, h: History, g: int, x: StateMachine, n: int, ids: seq<int>)
    requires g in h && DeleteOk(d, h, n, ids)
    ensures DeleteOk(d, Grow(h, g, x), n, ids)
  {
    forall k | 0 <= k < |ids|
      ensures Acquired(d, Grow(h, g, x), n, ids[k])
    {
      AcquiredGrows(d, h, g, x, n, ids[k]);
    }
  }

  /** At most one event, on a shard that `g` serves. */
  ghost predicate FromServer(d: Deployment, h: History, g: int, v: seq<Event>) {
    |v| <= 1 && forall i :: 0 <= i < |v| ==> exists s :: EventOn(d, v[i], s) && Serves(d, h, g, s)
  }

  /** A reply in flight stays up to date as long as nobody has adopted its shards. */
  lemma ReplyGrows(d: Deployment, h: History, e: seq<Event>, g: int, x: StateMachine, v: seq<Event>, p: PullReply)
    requires Sound(d) && GroupsOk(d, h) && ChainOk(d, h) && PastOk(d, h) && ReplyOk(d, h, e, p)
    requires g in h && LastOf(h, g).current.num <= x.current.num
    requires FromServer(d, h, g, v)
    ensures ReplyOk(d, Grow(h, g, x), e + v, p)
  {
    var k: History := Grow(h, g, x);
    var r, q := p.response, p.request;
    ReachedGrows(h, g, x, q.requester, q.configNum);
    ReachedGrows(h, g, x, q.source, q.configNum);
    forall j | 0 <= j < |r.shards| && !Acquired(d, k, r.configNum, q.shardIDs[j])
      ensures UpToDate(d, e + v, q.shardIDs[j], r.shards[j].KV, r.serverSessions)
    {
      ReplyDataGrows(d, h, e, g, x, v, p, j);
    }
  }

  lemma ReplyDataGrows(d: Deployment, h: History, e: seq<Event>, g: int, x: StateMachine, v: seq<Event>, p: PullReply, j: nat)
    requires Sound(d) && GroupsOk(d, h) && ChainOk(d, h) && PastOk(d, h) && ReplyOk(d, h, e, p)
    requires g in h && FromServer(d, h, g, v) && j < |p.response.shards|
    requires !Acquired(d, Grow(h, g, x), p.response.configNum, p.request.shardIDs[j])
    ensures UpToDate(d, e + v, p.request.shardIDs[j], p.response.shards[j].KV, p.response.serverSessions)
  {
    var r, q := p.response, p.request;
    AcquiredGrows(d, h, g, x, r.configNum, q.shardIDs[j]);
    PendingStays(d, h, e, g, v, q.source, r.configNum, q.shardIDs[j], r.shards[j].KV, r.serverSessions);
  }

  /** What a client does elsewhere leaves a copy that is waiting to be adopted up to date. */
  lemma PendingStays(d: Deployment, h: History, e: seq<Event>, g: int, v: seq<Event>, a: int, m: int, s: int,
                     kv: map<string, string>, sessions: SessionTable)
    requires Sound(d) && GroupsOk(d, h) && ChainOk(d, h) && PastOk(d, h) && FromServer(d, h, g, v)
    requires Lost(d, a, m, s) && Reached(h, a, m) && !Acquired(d, h, m, s) && UpToDate(d, e, s, kv, sessions)
    ensures UpToDate(d, e + v, s, kv, sessions)
  {
    if v == [] {
      assert e + v == e;
    } else {
      var t :| EventOn(d, v[0], t) && Serves(d, h, g, t);
      if t == s {
        NothingPending(d, h, g, a, m, s);
      }
      assert v == [v[0]];
      OneMoreEvent(d, e, v[0], s);
    }
  }

  lemma ProposalGrows(d: Deployment, h: History, replies: set<PullReply>, g: int, x: StateMachine, k: int, a: Args)
    requires g in h && h[g] != [] && ProposalOk(d, h, replies, k, a)
    requires x.current.num == LastOf(h, g).current.num || x.current.num == LastOf(h, g).current.num + 1
    requires SettledOk(Grow(h, g, x))
    ensures ProposalOk(d, Grow(h, g, x), replies, k, a)
  {
    GrownAt(h, g, x);
    match a.command
    case DELETE_SHARDS(n, ids) => DeleteOkGrows(d, h, g, x, n, ids);
    case RECONFIGURE(c) =>
      ReachedGrows(h, g, x, k, c.num);
      if k == g && !Reached(h, k, c.num) {
        assert Grow(h, g, x)[g][|h[g]| - 1] == LastOf(h, g);
      }
    case _ =>
  }

  /** A new event is truthful and later than everything the client had executed on that shard. */
  lemma EventExtends(d: Deployment, h: History, e: seq<Event>, g: int, a: Args)
    requires g in h && h[g] != [] && ServedOk(d, h, e) && EventsOk(d, e)
    ensures EventsOk(d, e + EventsOf(d, g, LastOf(h, g), a))
    ensures FromServer(d, h, g, EventsOf(d, g, LastOf(h, g), a))
  {
    var y, v := LastOf(h, g), EventsOf(d, g, LastOf(h, g), a);
    if v == [] {
      assert e + v == e;
    } else {
      var s := d.hash(a.command.key);
      assert Serves(d, h, g, s) && EventOn(d, v[0], s);
      assert UpToDate(d, e, s, y.shards[s].KV, y.sessions);
      var f := e + v;
      forall i | 0 <= i < |f|
        ensures f[i].reply == Answer(Contents(d, f[..i], d.hash(f[i].command.key)), f[i].command)
      {
        assert f[..i] == e[..i];
        assert e[..|e|] == e;
      }
    }
  }

  ghost predicate CommitOk(d: Deployment, w: World, g: int, a: Args) {
    && (g, a) in w.proposed && g in w.history && w.history[g] != []
    && Good(d, w.history, w.events, g, a)
  }

  lemma ProposalsApply(d: Deployment, w: World, g: int, a: Args)
    requires Sound(d) && HistoryInv(d, w.history, w.events) && MessagesOk(d, w) && (g, a) in w.proposed
    ensures CommitOk(d, w, g, a)
  {
    CommitProposal(d, w.history, w.events, w.pullReplies, g, a);
  }

  lemma CommitReplies(d: Deployment, w: World, g: int, x: StateMachine, v: seq<Event>)
    requires Sound(d) && GroupsOk(d, w.history) && ChainOk(d, w.history) && PastOk(d, w.history)
    requires g in w.history && w.history[g] != [] && LastOf(w.history, g).current.num <= x.current.num
    requires FromServer(d, w.history, g, v)
    requires forall p :: p in w.pullReplies ==> ReplyOk(d, w.history, w.events, p)
    ensures forall p :: p in w.pullReplies ==> ReplyOk(d, Grow(w.history, g, x), w.events + v, p)
  {
    forall p | p in w.pullReplies
      ensures ReplyOk(d, Grow(w.history, g, x), w.events + v, p)
    {
      ReplyGrows(d, w.history, w.events, g, x, v, p);
    }
  }

  lemma CommitOthers(d: Deployment, w: World, g: int, x: StateMachine)
    requires g in w.history && w.history[g] != [] && MessagesOk(d, w) && SettledOk(Grow(w.history, g, x))
    requires x.current.num == LastOf(w.history, g).current.num || x.current.num == LastOf(w.history, g).current.num + 1
    ensures forall r :: r in w.pulls ==> RequestOk(d, Grow(w.history, g, x), r)
    ensures forall r :: r in w.deletes ==> DeleteOk(d, Grow(w.history, g, x), r.configNum, r.shardIDs)
    ensures forall k, b :: (k, b) in w.proposed ==> ProposalOk(d, Grow(w.history, g, x), w.pullReplies, k, b)
  {
    var h := w.history;
    forall r | r in w.pulls
      ensures RequestOk(d, Grow(h, g, x), r)
    {
      ReachedGrows(h, g, x, r.requester, r.configNum);
    }
    forall r | r in w.deletes
      ensures DeleteOk(d, Grow(h, g, x), r.configNum, r.shardIDs)
    {
      DeleteOkGrows(d, h, g, x, r.configNum, r.shardIDs);
    }
    forall k, b | (k, b) in w.proposed
      ensures ProposalOk(d, Grow(h, g, x), w.pullReplies, k, b)
    {
      ProposalGrows(d, h, w.pullReplies, g, x, k, b);
    }
  }

  lemma CommittedWithin(d: Deployment, w: World, g: int, a: Args)
    requires MessagesOk(d, w) && SessionsOk(w) && CommitOk(d, w, g, a)
    ensures Within(Apply(d.hash, g, LastOf(w.history, g), a).value.sessions, w.issued)
  {
    var h := w.history;
    ApplyWithin(d.hash, g, LastOf(h, g), a, w.issued) by {
      assert LastOf(h, g) == h[g][|h[g]| - 1];
      assert ProposalOk(d, h, w.pullReplies, g, a);
    }
  }

  lemma SessionsGrow(w: World, v: World, g: int, x: StateMachine)
    requires SessionsOk(w) && g in w.history && w.history[g] != [] && Within(x.sessions, w.issued)
    requires v.history == Grow(w.history, g, x) && v.issued == w.issued && v.proposed == w.proposed && v.pullReplies == w.pullReplies
    ensures SessionsOk(v)
  {
    GrownAt(w.history, g, x);
  }

  lemma CommitSessions(d: Deployment, w: World, g: int, a: Args)
    requires MessagesOk(d, w) && SessionsOk(w) && CommitOk(d, w, g, a)
    ensures SessionsOk(Take(d, w, Commit(g, a)))
  {
    var h := w.history;
    CommittedWithin(d, w, g, a);
    SessionsGrow(w, Take(d, w, Commit(g, a)), g, Apply(d.hash, g, LastOf(h, g), a).value);
  }

  lemma CommitKeeps(d: Deployment, w: World, g: int, a: Args)
    requires Sound(d) && WorldInv(d, w) && Enabled(d, w, Commit(g, a))
    ensures WorldInv(d, Take(d, w, Commit(g, a)))
  {
    var h := w.history;
    ProposalsApply(d, w, g, a);
    var x := Apply(d.hash, g, LastOf(h, g), a).value;
    EventExtends(d, h, w.events, g, a);
    CommitReplies(d, w, g, x, EventsOf(d, g, LastOf(h, g), a));
    CommitOthers(d, w, g, x);
    CommitSessions(d, w, g, a);
    GrownAt(h, g, x);
    assert Take(d, w, Commit(g, a)).history == Grow(h, g, x);
    HopsGrow(h, g, x);
  }

  lemma HopsGrow(h: History, g: int, x: StateMachine)
    requires g in h && h[g] != [] && HopsOk(h)
    requires x.current.num == LastOf(h, g).current.num || (x.current.num == LastOf(h, g).current.num + 1 && AllServing(LastOf(h, g)))
    ensures HopsOk(Grow(h, g, x))
  {
    GrownAt(h, g, x);
  }

  // ---------- all steps ----------

  lemma ProposeKeeps(d: Deployment, w: World, g: int, a: Args)
    requires WorldInv(d, w) && g in w.history && ProposalOk(d, w.history, w.pullReplies, g, a)
    ensures WorldInv(d, Propose(w, g, a))
  {
    ProposeSessions(w, g, a);
  }

  lemma ProposeConfigKeeps(d: Deployment, w: World, step: Step)
    requires Sound(d) && WorldInv(d, w) && Enabled(d, w, step) && step.ProposeConfig?
    ensures WorldInv(d, Take(d, w, step))
  {
    var x := w.history[step.g][step.i];
    var c := d.configs(x.current.num + 1);
    var a := Args(step.header, RECONFIGURE(c));
    assert ProposalOk(d, w.history, w.pullReplies, step.g, a);
    ProposeKeeps(d, w, step.g, a);
  }

  lemma RequestIsOk(d: Deployment, h: History, g: int, i: nat, status: ShardStatus, source: int, ids: seq<int>)
    requires GroupsOk(d, h) && g in h && i < |h[g]|
    requires NamedByLastConfig(h[g][i], status, source, ids) && (status == PULLING || status == GC)
    ensures RequestOk(d, h, ShardRequest(g, source, h[g][i].current.num, ids))
    ensures status == GC ==> DeleteOk(d, h, h[g][i].current.num, ids)
  {
    var x := h[g][i];
    assert StateOk(d, g, x);
    LastConfigNamesTheSource(d, g, x, status, source, ids);
    assert ids[0] in x.shards;
    if status == GC {
      forall k | 0 <= k < |ids|
        ensures Acquired(d, h, x.current.num, ids[k])
      {
        assert HoldsAt(h[g][i], x.current.num, ids[k]);
      }
    }
  }

  lemma SendKeeps(d: Deployment, w: World, step: Step)
    requires WorldInv(d, w) && Enabled(d, w, step) && (step.SendPull? || step.SendDelete?)
    ensures WorldInv(d, Take(d, w, step))
  {
    RequestIsOk(d, w.history, step.g, step.i, if step.SendPull? then PULLING else GC, step.source, step.ids);
  }

  lemma AnswerPullKeeps(d: Deployment, w: World, step: Step)
    requires WorldInv(d, w) && Enabled(d, w, step) && step.AnswerPull?
    ensures WorldInv(d, Take(d, w, step))
  {
    AnswerIsOk(d, w.history, w.events, step.request, step.i);
    var v := Take(d, w, step);
    forall g, a | (g, a) in v.proposed
      ensures ProposalOk(d, v.history, v.pullReplies, g, a)
    {
      ProposalStays(d, w.history, w.pullReplies, v.pullReplies, g, a);
    }
  }

  lemma StepKeeps(d: Deployment, w: World, step: Step)
    requires Sound(d) && WorldInv(d, w) && Enabled(d, w, step)
    ensures WorldInv(d, Take(d, w, step))
  {
    match step
    case ClientRequest(g, args) => ProposeKeeps(d, w, g, args);
    case ProposeConfig(g, i, header) => ProposeConfigKeeps(d, w, step);
    case SendPull(g, i, source, ids) => SendKeeps(d, w, step);
    case AnswerPull(request, i) => AnswerPullKeeps(d, w, step);
    case ProposeInsert(p, header) => ProposeInsertKeeps(d, w, p, header);
    case SendDelete(g, i, source, ids) => SendKeeps(d, w, step);
    case AnswerDelete(request, i, header, started) => AnswerDeleteKeeps(d, w, step);
    case ProposeRelease(r, header) =>
      ProposeKeeps(d, w, r.requester, Args(header, DELETE_SHARDS(r.configNum, r.shardIDs)));
    case Commit(g, args) => CommitKeeps(d, w, g, args);
  }

  lemma ProposeInsertKeeps(d: Deployment, w: World, p: PullReply, header: SessionHeader)
    requires WorldInv(d, w) && p in w.pullReplies && Fresh(w.issued, header)
    ensures WorldInv(d, Propose(w, p.request.requester, Args(header, INSERT_SHARDS(p.response))))
  {
    assert ReplyOk(d, w.history, w.events, p) && Within(p.response.serverSessions, w.issued);
    ProposeKeeps(d, w, p.request.requester, Args(header, INSERT_SHARDS(p.response)));
  }

  lemma AnswerDeleteKeeps(d: Deployment, w: World, step: Step)
    requires WorldInv(d, w) && Enabled(d, w, step) && step.AnswerDelete?
    ensures WorldInv(d, Take(d, w, step))
  {
    var r := step.request;
    var answered := w.(deleteReplies := w.deleteReplies + {r});
    assert WorldInv(d, answered);
    if w.history[r.source][step.i].current.num <= r.configNum && step.started {
      ProposeKeeps(d, answered, r.source, Args(step.header, DELETE_SHARDS(r.configNum, r.shardIDs)));
    }
  }

  lemma InitialGroups(d: Deployment, h: History)
    requires Sound(d) && h == InitialWorld(d).history
    ensures GroupsOk(d, h)
    ensures forall n, s :: n >= 1 ==> !Acquired(d, h, n, s)
    ensures forall g :: g in h ==> |h[g]| == 1 && h[g][0].current.num == 0 && AllServing(h[g][0])
  {
    assert d.configs(0) == InitialState().current;
    forall g, i | g in h && 0 <= i < |h[g]|
      ensures StateOk(d, g, h[g][i])
    {
    }
  }

  ghost predicate Untouched(d: Deployment, h: History) {
    && (forall n, s :: n >= 1 ==> !Acquired(d, h, n, s))
    && (forall g :: g in h ==> |h[g]| == 1 && h[g][0].current.num == 0 && AllServing(h[g][0]))
  }

  lemma InitialOwnership(d: Deployment, h: History)
    requires GroupsOk(d, h) && Untouched(d, h)
    ensures ChainOk(d, h) && WaitingOk(d, h) && SettledOk(h) && HopsOk(h)
  {
  }

  lemma InitialPast(d: Deployment, h: History)
    requires GroupsOk(d, h) && Untouched(d, h)
    ensures WipedOk(d, h) && PastOk(d, h)
  {
  }

  lemma InitialAdoptions(d: Deployment, h: History)
    requires Untouched(d, h)
    ensures ConservedOk(d, h)
  {
    forall n, s | Gained(d, Owner(d, n, s), n, s)
      ensures !Acquired(d, h, n, s)
    {
    }
  }

  lemma InitialData(d: Deployment, h: History)
    requires Sound(d) && GroupsOk(d, h) && Untouched(d, h)
    ensures ServedOk(d, h, []) && FrozenOk(d, h, []) && UntouchedOk(d, h, [])
  {
    forall g, s
      ensures !Serves(d, h, g, s)
    {
      if Serves(d, h, g, s) {
        ServerHasAcquired(d, h, g, s);
      }
    }
  }

  lemma InitialInv(d: Deployment)
    requires Sound(d)
    ensures WorldInv(d, InitialWorld(d))
  {
    var h: History := InitialWorld(d).history;
    InitialGroups(d, h);
    InitialOwnership(d, h);
    InitialPast(d, h);
    InitialAdoptions(d, h);
    InitialData(d, h);
  }

  /** Every world that any run reaches satisfies the invariant. */
  lemma {:induction false} RunKeeps(d: Deployment, steps: seq<Step>)
    requires Sound(d) && Run(d, steps).Some?
    ensures WorldInv(d, Run(d, steps).value)
  {
    if steps == [] {
      InitialInv(d);
    } else {
      var n := |steps| - 1;
      RunKeeps(d, steps[..n]);
      StepKeeps(d, Run(d, steps[..n]).value, steps[n]);
    }
  }
}
