/** One replica group as a deterministic state machine fed by its log (server/server.go): what
  * every committed command does to shards, sessions and configurations, on values. */
module StateMachines {
  import opened Wrappers
  import opened Sessions

  const NSHARDS: nat := 1024

  datatype ShardStatus = SERVING | PULLING | BE_PULLING | GC

  /** yqkvpb.Shard: the value that is stored, cloned into pull responses and stored again. */
  datatype ShardData = ShardData(ID: int, KV: map<string, string>, status: ShardStatus)

  type ShardTable = map<int, ShardData>

  /** A configuration: its number and, shard by shard, the gid that owns it (0 for nobody). */
  datatype Config = Config(num: int, shards: seq<int>)

  datatype PullShardsResponse = PullShardsResponse(shards: seq<ShardData>, serverSessions: SessionTable, configNum: int)

  datatype Command =
    | EMPTY
    | GET(key: string)
    | PUT(key: string, value: string)
    | APPEND(key: string, value: string)
    | INSERT_SHARDS(pulled: PullShardsResponse)
    | DELETE_SHARDS(configNum: int, shardIDs: seq<int>)
    | RECONFIGURE(nextConfig: Config)

  datatype Args = Args(header: SessionHeader, command: Command)

  datatype StateMachine = StateMachine(
    shards: ShardTable,
    sessions: SessionTable,
    current: Config,
    last: Option<Config>)

  /** What a key hashes to; the client library that fixes it is a parameter. */
  type Hash = string -> int

  // ---------- client commands ----------

  predicate Holds(status: ShardStatus) {
    status == SERVING || status == GC
  }

  predicate CheckShard(gid: int, s: StateMachine, shard: int)
  {
    && shard in s.shards
    && Holds(s.shards[shard].status)
    && 0 <= shard < |s.current.shards|
    && s.current.shards[shard] == gid
  }

  function Lookup(kv: map<string, string>, key: string): Reply {
    if key in kv then Reply(OK, kv[key]) else Reply(ERR_NO_KEY, "")
  }

  function Appended(kv: map<string, string>, key: string, value: string): map<string, string> {
    kv[key := (if key in kv then kv[key] else "") + value]
  }

  // ---------- reconfiguration ----------

  /** shardctl.NewConfig: NSHARDS entries, cut or padded with 0. */
  function NewConfig(c: Config): Config {
    Config(c.num, seq(NSHARDS, i requires 0 <= i < NSHARDS => if i < |c.shards| then c.shards[i] else 0))
  }

  function NextStatus(gid: int, oldGid: int, newGid: int, status: ShardStatus): ShardStatus {
    if oldGid == gid && newGid != gid then BE_PULLING
    else if oldGid != gid && newGid == gid then PULLING
    else status
  }

  predicate Moves(gid: int, oldGid: int, newGid: int) {
    (oldGid == gid) != (newGid == gid)
  }

  /** updateShardsStatus on the first `n` shards; None when the source would index a missing shard. */
  function StatusLoop(gid: int, prev: seq<int>, next: seq<int>, shards: ShardTable, n: nat): Option<ShardTable>
    requires n <= |next|
  {
    if n == 0 then Some(shards)
    else
      match StatusLoop(gid, prev, next, shards, n - 1)
      case None => None
      case Some(t) =>
        if n - 1 >= |prev| then None
        else if !Moves(gid, prev[n - 1], next[n - 1]) then Some(t)
        else if n - 1 !in t then None
        else Some(t[n - 1 := t[n - 1].(status := NextStatus(gid, prev[n - 1], next[n - 1], t[n - 1].status))])
  }

  // ---------- migration ----------

  /** applyInsertShards' loop: adopt exactly the shards still PULLING, and mark them GC. */
  function InsertLoop(shards: ShardTable, pulled: seq<ShardData>): Option<ShardTable> {
    if pulled == [] then Some(shards)
    else if pulled[0].ID !in shards then None
    else if shards[pulled[0].ID].status == PULLING then
      InsertLoop(shards[pulled[0].ID := pulled[0].(status := GC)], pulled[1..])
    else InsertLoop(shards, pulled[1..])
  }

  /** applyDeleteShards' loop: wipe what is BE_PULLING, let go of what is GC. */
  function DeleteLoop(shards: ShardTable, ids: seq<int>): Option<ShardTable> {
    if ids == [] then Some(shards)
    else if ids[0] !in shards then None
    else if shards[ids[0]].status == BE_PULLING then
      DeleteLoop(shards[ids[0] := ShardData(ids[0], map[], SERVING)], ids[1..])
    else if shards[ids[0]].status == GC then
      DeleteLoop(shards[ids[0] := shards[ids[0]].(status := SERVING)], ids[1..])
    else DeleteLoop(shards, ids[1..])
  }

  // ---------- one log entry ----------

  /** The command itself, before its session is recorded; None when the source would panic. */
  function Execute(hash: Hash, gid: int, s: StateMachine, c: Command): Option<(StateMachine, Reply)> {
    match c
    case EMPTY => Some((s, Reply(OK, "")))
    case GET(key) =>
      if !CheckShard(gid, s, hash(key)) then Some((s, Reply(ERR_WRONG_GROUP, "")))
      else Some((s, Lookup(s.shards[hash(key)].KV, key)))
    case PUT(key, value) =>
      if !CheckShard(gid, s, hash(key)) then Some((s, Reply(ERR_WRONG_GROUP, "")))
      else
        var d := s.shards[hash(key)];
        Some((s.(shards := s.shards[hash(key) := d.(KV := d.KV[key := value])]), Reply(OK, "")))
    case APPEND(key, value) =>
      if !CheckShard(gid, s, hash(key)) then Some((s, Reply(ERR_WRONG_GROUP, "")))
      else
        var d := s.shards[hash(key)];
        Some((s.(shards := s.shards[hash(key) := d.(KV := Appended(d.KV, key, value))]), Reply(OK, "")))
    case INSERT_SHARDS(r) =>
      if r.configNum < s.current.num then Some((s, Reply(ERR_OUT_DATED_CONFIG, "")))
      else
        (match InsertLoop(s.shards, r.shards)
         case None => None
         case Some(t) => Some((s.(shards := t, sessions := Merged(s.sessions, r.serverSessions)), Reply(OK, ""))))
    case DELETE_SHARDS(configNum, ids) =>
      if configNum != s.current.num then Some((s, Reply(OK, "")))
      else
        (match DeleteLoop(s.shards, ids)
         case None => None
         case Some(t) => Some((s.(shards := t), Reply(OK, ""))))
    case RECONFIGURE(next) =>
      if next.num != s.current.num + 1 then Some((s, Reply(ERR_OUT_DATED_CONFIG, "")))
      else
        (match if next.num <= 1 then Some(s.shards)
               else StatusLoop(gid, s.current.shards, next.shards, s.shards, |next.shards|)
         case None => None
         case Some(t) => Some((StateMachine(t, s.sessions, NewConfig(next), Some(s.current)), Reply(OK, ""))))
  }

  /** setResponse panics when a newer request of the same client has been recorded meanwhile. */
  function Recorded(x: (StateMachine, Reply), h: SessionHeader): Option<StateMachine> {
    if h.id in x.0.sessions && h.seqNum < x.0.sessions[h.id].processedSeq then None
    else Some(x.0.(sessions := Record(x.0.sessions, h, x.1)))
  }

  /** One committed entry. */
  function Apply(hash: Hash, gid: int, s: StateMachine, a: Args): Option<StateMachine> {
    if Duplicate(s.sessions, a.header) then Some(s)
    else
      match Execute(hash, gid, s, a.command)
      case None => None
      case Some(x) => Recorded(x, a.header)
  }

  /** A stretch of the log, applied in order. */
  function ApplyAll(hash: Hash, gid: int, s: StateMachine, log: seq<Args>): Option<StateMachine> {
    if log == [] then Some(s)
    else
      match ApplyAll(hash, gid, s, log[..|log| - 1])
      case None => None
      case Some(t) => Apply(hash, gid, t, log[|log| - 1])
  }
}
