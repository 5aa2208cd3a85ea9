/** Any number of replica groups moving shards between each other (server/server.go). A group is
  * the sequence of states its log has driven it through; a replica may answer from any of them. */
module Migration {
  import opened Wrappers
  import opened Sessions
  import opened StateMachines

  /** What a run does not change: the groups, the configuration history and the key hash. */
  datatype Deployment = Deployment(gids: set<int>, configs: nat -> Config, hash: Hash)

  /** gid 0 means "nobody"; configuration 0 assigns nothing; every configuration covers all shards. */
  ghost predicate Sound(d: Deployment) {
    && 0 !in d.gids
    && (forall n: nat :: d.configs(n).num == n && |d.configs(n).shards| == NSHARDS)
    && (forall s :: 0 <= s < NSHARDS ==> d.configs(0).shards[s] == 0)
  }

  predicate IsShard(s: int) {
    0 <= s < NSHARDS
  }

  function Owner(d: Deployment, n: int, s: int): int {
    if n < 0 || s < 0 || s >= |d.configs(n).shards| then 0 else d.configs(n).shards[s]
  }

  // ---------- messages ----------

  /** Shards that group `requester` asks `source` for (or asks it to delete) at configuration `configNum`. */
  datatype ShardRequest = ShardRequest(requester: int, source: int, configNum: int, shardIDs: seq<int>)

  datatype PullReply = PullReply(request: ShardRequest, response: PullShardsResponse)

  /** A client command that a group executed on a shard it serves, and what it answered. */
  datatype Event = Event(gid: int, header: SessionHeader, command: Command, reply: Reply)

  // ---------- the system ----------

  datatype World = World(
    history: map<int, seq<StateMachine>>,   // per group: the state after each log entry
    proposed: set<(int, Args)>,             // commands that may be committed by a group, any number of times
    pulls: set<ShardRequest>,
    pullReplies: set<PullReply>,
    deletes: set<ShardRequest>,
    deleteReplies: set<ShardRequest>,
    issued: map<int, nat>,                  // per client id: the largest sequence number in use
    events: seq<Event>)                     // everything clients have been served, in order

  function InitialState(): StateMachine {
    StateMachine(
      map s | 0 <= s < NSHARDS :: ShardData(s, map[], SERVING),
      map[],
      Config(0, seq(NSHARDS, i => 0)),
      None)
  }

  function InitialWorld(d: Deployment): World {
    World(map g | g in d.gids :: [InitialState()], {}, {}, {}, {}, {}, map[], [])
  }

  function Last(w: World, g: int): StateMachine
    requires g in w.history && w.history[g] != []
  {
    w.history[g][|w.history[g]| - 1]
  }

  predicate AllServing(s: StateMachine) {
    forall i :: i in s.shards ==> s.shards[i].status == SERVING
  }

  /** getGid2ShardsOnLastConfigByStatus: some shards of that status which the last configuration gave to `source`. */
  predicate NamedByLastConfig(s: StateMachine, status: ShardStatus, source: int, ids: seq<int>) {
    && ids != [] && s.last.Some?
    && (forall k :: 0 <= k < |ids| ==>
                      && ids[k] in s.shards
                      && s.shards[ids[k]].status == status
                      && 0 <= ids[k] < |s.last.value.shards|
                      && s.last.value.shards[ids[k]] == source)
  }

  predicate ClientCommand(c: Command) {
    c.EMPTY? || c.GET? || c.PUT? || c.APPEND?
  }

  function Issue(issued: map<int, nat>, h: SessionHeader): map<int, nat> {
    issued[h.id := if h.id in issued && issued[h.id] > h.seqNum then issued[h.id] else h.seqNum]
  }

  /** A number the clerk `h.id` has not handed out before. */
  predicate Fresh(issued: map<int, nat>, h: SessionHeader) {
    h.id in issued ==> issued[h.id] < h.seqNum
  }

  /** The event, if any, that executing `a` in state `s` adds. */
  function EventsOf(d: Deployment, g: int, s: StateMachine, a: Args): seq<Event> {
    if Duplicate(s.sessions, a.header) || !(a.command.GET? || a.command.PUT? || a.command.APPEND?) then []
    else if !CheckShard(g, s, d.hash(a.command.key)) then []
    else
      match Execute(d.hash, g, s, a.command)
      case None => []
      case Some(x) => [Event(g, a.header, a.command, x.1)]
  }

  datatype Step =
    | ClientRequest(g: int, args: Args)                             // Execute RPC, or an EMPTY entry
    | ProposeConfig(g: int, i: nat, header: SessionHeader)          // configureAction
    | SendPull(g: int, i: nat, source: int, ids: seq<int>)          // migratingAction, up to the RPC
    | AnswerPull(request: ShardRequest, i: nat)                     // PullShards
    | ProposeInsert(pulled: PullReply, header: SessionHeader)       // migratingAction, after the RPC
    | SendDelete(g: int, i: nat, source: int, ids: seq<int>)        // gcAction, up to the RPC
    | AnswerDelete(request: ShardRequest, i: nat, header: SessionHeader, started: bool)  // DeleteShards
    | ProposeRelease(request: ShardRequest, header: SessionHeader)  // gcAction, after the RPC
    | Commit(g: int, args: Args)                                    // apply, on the next log entry

  /** State `i` of group `g`: what some replica may have applied up to now. */
  predicate At(w: World, g: int, i: nat) {
    g in w.history && i < |w.history[g]|
  }

  /** When the step can be taken. */
  predicate Enabled(d: Deployment, w: World, step: Step) {
    match step
    case ClientRequest(g, args) => g in d.gids && ClientCommand(args.command)
    case ProposeConfig(g, i, header) => At(w, g, i) && AllServing(w.history[g][i]) && w.history[g][i].current.num >= 0
    case SendPull(g, i, source, ids) => At(w, g, i) && NamedByLastConfig(w.history[g][i], PULLING, source, ids)
    case AnswerPull(request, i) =>
      && request in w.pulls
      && At(w, request.source, i)
      && request.configNum <= w.history[request.source][i].current.num
      && (forall k :: 0 <= k < |request.shardIDs| ==> request.shardIDs[k] in w.history[request.source][i].shards)
    case ProposeInsert(pulled, header) => pulled in w.pullReplies && Fresh(w.issued, header)
    case SendDelete(g, i, source, ids) => At(w, g, i) && NamedByLastConfig(w.history[g][i], GC, source, ids)
    case AnswerDelete(request, i, header, started) => request in w.deletes && At(w, request.source, i)
    case ProposeRelease(request, header) => request in w.deleteReplies
    case Commit(g, args) =>
      && (g, args) in w.proposed
      && g in w.history && w.history[g] != []
      && Apply(d.hash, g, Last(w, g), args).Some?
  }

  /** What the source's reply carries: the shards as they are in state `s`, and all sessions. */
  function PullAnswer(s: StateMachine, request: ShardRequest): PullShardsResponse
    requires forall k :: 0 <= k < |request.shardIDs| ==> request.shardIDs[k] in s.shards
  {
    PullShardsResponse(
      seq(|request.shardIDs|, k requires 0 <= k < |request.shardIDs| => s.shards[request.shardIDs[k]]),
      s.sessions,
      request.configNum)
  }

  function Propose(w: World, g: int, a: Args): World {
    w.(proposed := w.proposed + {(g, a)}, issued := Issue(w.issued, a.header))
  }

  function Take(d: Deployment, w: World, step: Step): World
    requires Enabled(d, w, step)
  {
    match step
    case ClientRequest(g, args) => Propose(w, g, args)
    case ProposeConfig(g, i, header) =>
      Propose(w, g, Args(header, RECONFIGURE(d.configs(w.history[g][i].current.num + 1))))
    case SendPull(g, i, source, ids) =>
      w.(pulls := w.pulls + {ShardRequest(g, source, w.history[g][i].current.num, ids)})
    case AnswerPull(request, i) =>
      w.(pullReplies := w.pullReplies + {PullReply(request, PullAnswer(w.history[request.source][i], request))})
    case ProposeInsert(pulled, header) =>
      Propose(w, pulled.request.requester, Args(header, INSERT_SHARDS(pulled.response)))
    case SendDelete(g, i, source, ids) =>
      w.(deletes := w.deletes + {ShardRequest(g, source, w.history[g][i].current.num, ids)})
    case AnswerDelete(request, i, header, started) =>
      // The answer is OK whether or not Execute managed to start the command.
      var answered := w.(deleteReplies := w.deleteReplies + {request});
      if w.history[request.source][i].current.num > request.configNum || !started then answered
      else Propose(answered, request.source, Args(header, DELETE_SHARDS(request.configNum, request.shardIDs)))
    case ProposeRelease(request, header) =>
      Propose(w, request.requester, Args(header, DELETE_SHARDS(request.configNum, request.shardIDs)))
    case Commit(g, args) =>
      w.(history := w.history[g := w.history[g] + [Apply(d.hash, g, Last(w, g), args).value]],
         events := w.events + EventsOf(d, g, Last(w, g), args))
  }

  /** Where the run `steps` leads; None when one of its steps cannot be taken. */
  function Run(d: Deployment, steps: seq<Step>): Option<World> {
    if steps == [] then Some(InitialWorld(d))
    else
      var n := |steps| - 1;
      match Run(d, steps[..n])
      case None => None
      case Some(w) => if Enabled(d, w, steps[n]) then Some(Take(d, w, steps[n])) else None
  }
}
