/** One replica of a group, updating its state machine in place (server/server.go, server/shard.go). */
module Replicas {
  import opened Wrappers
  import opened Sessions
  import opened StateMachines
  import opened Loops
  import opened Migration

  /** A shard a replica owns; NewShard and ProtoMessage copy, so no two replicas or messages share one. */
  datatype PullResult = Refused(status: ReplyStatus) | Pulled(response: PullShardsResponse)

  class Shard {
    var ID: int
    var KV: map<string, string>
    var status: ShardStatus

    constructor (data: ShardData)
      ensures Data() == data
    {
      ID, KV, status := data.ID, data.KV, data.status;
    }

    function Data(): ShardData
      reads this
    {
      ShardData(ID, KV, status)
    }

    method Get(key: string) returns (value: Option<string>)
      ensures value == if key in KV then Some(KV[key]) else None
    {
      if key in KV {
        return Some(KV[key]);
      }
      return None;
    }

    method Put(key: string, value: string)
      modifies this
      ensures Data() == old(Data()).(KV := old(KV)[key := value])
    {
      KV := KV[key := value];
    }

    method Append(key: string, value: string)
      modifies this
      ensures Data() == old(Data()).(KV := Appended(old(KV), key, value))
    {
      if key in KV {
        KV := KV[key := KV[key] + value];
      } else {
        KV := KV[key := value];
        assert "" + value == value;
      }
    }

    method Empty() returns (e: bool)
      ensures e <==> KV == map[]
    {
      e := |KV| == 0;
    }

    method SetStatus(s: ShardStatus)
      modifies this
      ensures Data() == old(Data()).(status := s)
    {
      status := s;
    }
  }

  class ShardKV {
    const gid: int
    const hash: Hash
    var Shards: map<int, Shard>
    var SessionMap: SessionMap
    var AppliedIndex: nat
    var CurrentConfig: Config
    var LastConfig: Option<Config>

    ghost predicate Valid()
      reads this`Shards
    {
      forall i, j :: i in Shards && j in Shards && i != j ==> Shards[i] != Shards[j]
    }

    ghost function Table(): ShardTable
      reads this`Shards, Shards.Values
    {
      map i | i in Shards :: Shards[i].Data()
    }

    ghost function State(): StateMachine
      reads this, Shards.Values, SessionMap
    {
      StateMachine(Table(), SessionMap.Map, CurrentConfig, LastConfig)
    }

    constructor (gid: int, hash: Hash)
      ensures Valid() && State() == InitialState() && AppliedIndex == 0
      ensures fresh(SessionMap) && fresh(Shards.Values)
      ensures this.gid == gid && this.hash == hash
    {
      this.gid, this.hash := gid, hash;
      Shards := map[];
      AppliedIndex := 0;
      CurrentConfig, LastConfig := Config(0, seq(NSHARDS, i => 0)), None;
      var sessions := new SessionMap();
      SessionMap := sessions;
      new;
      var i := 0;
      while i < NSHARDS
        invariant 0 <= i <= NSHARDS
        invariant Valid() && fresh(Shards.Values) && fresh(SessionMap) && SessionMap.Map == map[]
        invariant SessionMap == sessions && CurrentConfig == InitialState().current && LastConfig == None && AppliedIndex == 0
        invariant Table() == map s | 0 <= s < i :: ShardData(s, map[], SERVING)
      {
        replaceShard(i, ShardData(i, map[], SERVING));
        i := i + 1;
      }
    }

    /** kv.Shards[id] = NewShard(data) */
    method replaceShard(id: int, data: ShardData)
      requires Valid()
      modifies this`Shards
      ensures Valid() && Table() == old(Table())[id := data]
      ensures fresh(Shards.Values - old(Shards.Values)) && Shards.Keys == old(Shards.Keys) + {id} && fresh(Shards[id])
    {
      var shard := new Shard(data);
      ghost var before := Table();
      Shards := Shards[id := shard];
      assert Shards[id] == shard && shard in Shards.Values;
      assert forall i :: i in before && i != id ==> Table()[i] == before[i];
    }

    /** kv.Shards[id].SetStatus(status) touches no other shard. */
    method setStatus(id: int, status: ShardStatus)
      requires Valid() && id in Shards
      modifies Shards[id]
      ensures Table() == old(Table())[id := old(Table())[id].(status := status)]
    {
      ghost var before := Table();
      Shards[id].SetStatus(status);
      assert forall i :: i in before && i != id ==> Shards[i] != Shards[id] && Table()[i] == before[i];
    }

    method checkShard(key: string) returns (ok: bool)
      requires Valid()
      ensures ok <==> CheckShard(gid, State(), hash(key))
    {
      var shardID := hash(key);
      if shardID !in Shards {
        return false;
      }
      var shard := Shards[shardID];
      ok := (shard.status == SERVING || shard.status == GC)
            && 0 <= shardID < |CurrentConfig.shards| && CurrentConfig.shards[shardID] == gid;
    }

    method applyGet(key: string) returns (reply: Reply)
      requires Valid()
      ensures Execute(hash, gid, State(), GET(key)) == Some((State(), reply))
    {
      var ok := checkShard(key);
      if !ok {
        return Reply(ERR_WRONG_GROUP, "");
      }
      var value := Shards[hash(key)].Get(key);
      if value == None {
        return Reply(ERR_NO_KEY, "");
      }
      return Reply(OK, value.value);
    }

    method applyPut(key: string, value: string) returns (reply: Reply)
      requires Valid()
      modifies Shards.Values
      ensures Valid() && Execute(hash, gid, old(State()), PUT(key, value)) == Some((State(), reply))
    {
      var ok := checkShard(key);
      if !ok {
        return Reply(ERR_WRONG_GROUP, "");
      }
      ghost var before := Table();
      Shards[hash(key)].Put(key, value);
      assert forall i :: i in before && i != hash(key) ==> Shards[i] != Shards[hash(key)] && Table()[i] == before[i];
      assert Table() == before[hash(key) := before[hash(key)].(KV := before[hash(key)].KV[key := value])];
      return Reply(OK, "");
    }

    method applyAppend(key: string, value: string) returns (reply: Reply)
      requires Valid()
      modifies Shards.Values
      ensures Valid() && Execute(hash, gid, old(State()), APPEND(key, value)) == Some((State(), reply))
    {
      var ok := checkShard(key);
      if !ok {
        return Reply(ERR_WRONG_GROUP, "");
      }
      ghost var before := Table();
      Shards[hash(key)].Append(key, value);
      assert forall i :: i in before && i != hash(key) ==> Shards[i] != Shards[hash(key)] && Table()[i] == before[i];
      assert Table() == before[hash(key) := before[hash(key)].(KV := Appended(before[hash(key)].KV, key, value))];
      return Reply(OK, "");
    }

    /** One round of applyDeleteShards: wipe what is BE_PULLING, release what is GC. */
    method releaseShard(id: int)
      requires Valid() && id in Shards
      modifies this`Shards, Shards.Values
      ensures Valid() && fresh(Shards.Values - old(Shards.Values))
      ensures Some(Table()) == DeleteLoop(old(Table()), [id])
    {
      if Shards[id].status == BE_PULLING {
        replaceShard(id, ShardData(id, map[], SERVING));
      } else if Shards[id].status == GC {
        setStatus(id, SERVING);
      }
    }

    /** The source panics on an unknown shard. */
    method applyDeleteShards(configNum: int, shardIDs: seq<int>) returns (reply: Reply)
      requires Valid() && Execute(hash, gid, State(), DELETE_SHARDS(configNum, shardIDs)).Some?
      modifies this`Shards, Shards.Values
      ensures Valid() && fresh(Shards.Values - old(Shards.Values))
      ensures Execute(hash, gid, old(State()), DELETE_SHARDS(configNum, shardIDs)) == Some((State(), reply))
    {
      if configNum != CurrentConfig.num {
        return Reply(OK, "");
      }
      ghost var goal := DeleteLoop(Table(), shardIDs);
      var i := 0;
      while i < |shardIDs|
        invariant 0 <= i <= |shardIDs|
        invariant Valid() && fresh(Shards.Values - old(Shards.Values))
        invariant DeleteLoop(Table(), shardIDs[i..]) == goal
      {
        assert shardIDs[i..][1..] == shardIDs[i + 1..];
        releaseShard(shardIDs[i]);
        i := i + 1;
      }
      return Reply(OK, "");
    }

    /** One round of applyInsertShards: adopt a shard that is still PULLING. */
    method adoptShard(shard: ShardData)
      requires Valid() && shard.ID in Shards
      modifies this`Shards, Shards.Values
      ensures Valid() && fresh(Shards.Values - old(Shards.Values))
      ensures Some(Table()) == InsertLoop(old(Table()), [shard])
    {
      ghost var before := Table();
      if Shards[shard.ID].status == PULLING {
        replaceShard(shard.ID, shard);
        setStatus(shard.ID, GC);
        assert Table() == before[shard.ID := shard.(status := GC)];
      }
    }

    method adoptShards(pulled: seq<ShardData>)
      requires Valid() && InsertLoop(Table(), pulled).Some?
      modifies this`Shards, Shards.Values
      ensures Valid() && fresh(Shards.Values - old(Shards.Values))
      ensures Some(Table()) == InsertLoop(old(Table()), pulled)
    {
      var i := 0;
      while i < |pulled|
        invariant 0 <= i <= |pulled|
        invariant Valid() && fresh(Shards.Values - old(Shards.Values))
        invariant InsertLoop(Table(), pulled[i..]) == InsertLoop(old(Table()), pulled)
      {
        assert pulled[i..][1..] == pulled[i + 1..];
        adoptShard(pulled[i]);
        i := i + 1;
      }
    }

    /** Adopt what is awaited, and take over every session that is ahead. */
    method applyInsertShards(response: PullShardsResponse) returns (reply: Reply)
      requires Valid() && Execute(hash, gid, State(), INSERT_SHARDS(response)).Some?
      modifies this`Shards, Shards.Values, SessionMap
      ensures Valid() && fresh(Shards.Values - old(Shards.Values))
      ensures Execute(hash, gid, old(State()), INSERT_SHARDS(response)) == Some((State(), reply))
    {
      if response.configNum < CurrentConfig.num {
        return Reply(ERR_OUT_DATED_CONFIG, "");
      }
      adoptShards(response.shards);
      SessionMap.Merge(response.serverSessions);
      return Reply(OK, "");
    }

    method updateShardsStatus(nextConfig: Config)
      requires Valid()
      requires nextConfig.num > 1 ==>
                 StatusLoop(gid, CurrentConfig.shards, nextConfig.shards, Table(), |nextConfig.shards|).Some?
      modifies Shards.Values
      ensures Valid()
      ensures Some(Table()) == if nextConfig.num <= 1 then Some(old(Table()))
                               else StatusLoop(gid, CurrentConfig.shards, nextConfig.shards, old(Table()), |nextConfig.shards|)
    {
      if nextConfig.num <= 1 {
        return;
      }
      var shardID := 0;
      while shardID < |nextConfig.shards|
        invariant 0 <= shardID <= |nextConfig.shards|
        invariant Valid()
        invariant StatusLoop(gid, CurrentConfig.shards, nextConfig.shards, old(Table()), shardID) == Some(Table())
      {
        StatusLoopPrefix(gid, CurrentConfig.shards, nextConfig.shards, old(Table()), shardID + 1, |nextConfig.shards|);
        var oldGid, currentGid := CurrentConfig.shards[shardID], nextConfig.shards[shardID];
        if oldGid == gid && currentGid != gid {
          setStatus(shardID, BE_PULLING);
        } else if oldGid != gid && currentGid == gid {
          setStatus(shardID, PULLING);
        }
        shardID := shardID + 1;
      }
    }

    method applyReconfigure(nextConfig: Config) returns (reply: Reply)
      requires Valid() && Execute(hash, gid, State(), RECONFIGURE(nextConfig)).Some?
      modifies this`CurrentConfig, this`LastConfig, Shards.Values
      ensures Valid()
      ensures Execute(hash, gid, old(State()), RECONFIGURE(nextConfig)) == Some((State(), reply))
    {
      if nextConfig.num == CurrentConfig.num + 1 {
        updateShardsStatus(nextConfig);
        ghost var table := Table();
        LastConfig := Some(CurrentConfig);
        CurrentConfig := NewConfig(nextConfig);
        assert Table() == table;
        return Reply(OK, "");
      }
      return Reply(ERR_OUT_DATED_CONFIG, "");
    }

    /** The switch of apply. */
    method run(command: Command) returns (reply: Reply)
      requires Valid() && Execute(hash, gid, State(), command).Some?
      modifies this`Shards, this`CurrentConfig, this`LastConfig, Shards.Values, SessionMap
      ensures Valid() && fresh(Shards.Values - old(Shards.Values))
      ensures Execute(hash, gid, old(State()), command) == Some((State(), reply))
    {
      match command {
        case EMPTY => reply := Reply(OK, "");
        case GET(key) => reply := applyGet(key);
        case PUT(key, value) => reply := applyPut(key, value);
        case APPEND(key, value) => reply := applyAppend(key, value);
        case INSERT_SHARDS(pulled) => reply := applyInsertShards(pulled);
        case DELETE_SHARDS(configNum, shardIDs) => reply := applyDeleteShards(configNum, shardIDs);
        case RECONFIGURE(nextConfig) => reply := applyReconfigure(nextConfig);
      }
    }

    method record(h: SessionHeader, reply: Reply)
      requires h.id in SessionMap.Map ==> SessionMap.Map[h.id].processedSeq <= h.seqNum
      modifies SessionMap
      ensures SessionMap.Map == Record(old(SessionMap.Map), h, reply)
    {
      var known := SessionMap.HasSession(h.id);
      if !known {
        var created := SessionMap.CreateSession(h.id);
      }
      SessionMap.SetResponse(h, reply);
    }

    /** One committed log entry: exactly the group's state machine step. */
    method apply(index: nat, args: Args)
      requires Valid() && Apply(hash, gid, State(), args).Some?
      modifies this`Shards, this`CurrentConfig, this`LastConfig, this`AppliedIndex, Shards.Values, SessionMap
      ensures Valid() && fresh(Shards.Values - old(Shards.Values))
      ensures Apply(hash, gid, old(State()), args) == Some(State())
      ensures AppliedIndex == index
    {
      var duplicate := SessionMap.IsDuplicate(args.header);
      if duplicate {
        AppliedIndex := index;
        return;
      }
      var reply := run(args.command);
      ghost var table := Table();
      record(args.header, reply);
      AppliedIndex := index;
      assert Table() == table;
    }

    /** The answer to a pull request comes from whatever this replica has applied, without a log entry.
      * `lead` is what Raft's GetState says. */
    method PullShards(request: ShardRequest, lead: bool) returns (r: PullResult)
      requires Valid() && forall k :: 0 <= k < |request.shardIDs| ==> request.shardIDs[k] in Shards
      ensures r == if !lead then Refused(ERR_WRONG_LEADER)
                   else if CurrentConfig.num < request.configNum then Refused(ERR_NOT_READY)
                   else Pulled(PullAnswer(State(), request))
    {
      if !lead {
        return Refused(ERR_WRONG_LEADER);
      }
      if CurrentConfig.num < request.configNum {
        return Refused(ERR_NOT_READY);
      }
      var shards: seq<ShardData> := [];
      var i := 0;
      while i < |request.shardIDs|
        invariant 0 <= i <= |request.shardIDs|
        invariant |shards| == i && forall k :: 0 <= k < i ==> shards[k] == Table()[request.shardIDs[k]]
      {
        shards := shards + [Shards[request.shardIDs[i]].Data()];
        i := i + 1;
      }
      assert shards == PullAnswer(State(), request).shards;
      return Pulled(PullShardsResponse(shards, SessionMap.Map, request.configNum));
    }

    /** configureAction's test: may the next configuration be fetched? */
    method settled() returns (ok: bool)
      ensures ok <==> AllServing(State())
    {
      var todo := Shards.Keys;
      while todo != {}
        invariant todo <= Shards.Keys
        invariant forall i :: i in Shards.Keys - todo ==> Shards[i].status == SERVING
        decreases todo
      {
        var id := AnyOf(todo);
        if Shards[id].status != SERVING {
          assert Table()[id].status != SERVING;
          return false;
        }
        todo := todo - {id};
      }
      return true;
    }

    /** Which group the last configuration names for every shard of the given status: all of them, and no other. */
    method getGid2ShardsOnLastConfigByStatus(status: ShardStatus) returns (ids: map<int, seq<int>>)
      requires Valid()
      requires forall i :: i in Shards && Shards[i].status == status ==>
                             LastConfig.Some? && 0 <= i < |LastConfig.value.shards| && Shards[i].ID == i
      ensures forall source :: source in ids ==> NamedByLastConfig(State(), status, source, ids[source])
      ensures forall i :: i in Shards && Shards[i].status == status ==>
                            LastConfig.value.shards[i] in ids && i in ids[LastConfig.value.shards[i]]
    {
      ids := map[];
      var todo := Shards.Keys;
      while todo != {}
        invariant todo <= Shards.Keys
        invariant forall source :: source in ids ==> NamedByLastConfig(State(), status, source, ids[source])
        invariant forall i :: i in Shards.Keys - todo && Shards[i].status == status ==>
                                LastConfig.value.shards[i] in ids && i in ids[LastConfig.value.shards[i]]
        decreases todo
      {
        var id := AnyOf(todo);
        if Shards[id].status == status {
          ids := addSource(status, ids, id);
        }
        todo := todo - {id};
      }
    }

    /** Files shard `id` under the group that the last configuration names. */
    method addSource(status: ShardStatus, ids: map<int, seq<int>>, id: int) returns (more: map<int, seq<int>>)
      requires Valid() && id in Shards && Shards[id].status == status
      requires LastConfig.Some? && 0 <= id < |LastConfig.value.shards| && Shards[id].ID == id
      requires forall source :: source in ids ==> NamedByLastConfig(State(), status, source, ids[source])
      ensures forall source :: source in more ==> NamedByLastConfig(State(), status, source, more[source])
      ensures forall source :: source in ids ==> source in more && forall i :: i in ids[source] ==> i in more[source]
      ensures LastConfig.value.shards[id] in more && id in more[LastConfig.value.shards[id]]
    {
      var source := LastConfig.value.shards[id];
      more := ids[source := if source in ids then ids[source] + [Shards[id].ID] else [id]];
      assert Table()[id] == Shards[id].Data();
    }
  }
}
