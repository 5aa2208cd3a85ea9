/** What one log entry does to a group, command by command, spelled out (server/server.go: apply and what it
  * calls). */
module Effects {
  import opened Wrappers
  import opened Sessions
  import opened StateMachines
  import opened Loops

  /** The client's number and the answer given to it are on record. */
  predicate Answered(t: SessionTable, h: SessionHeader, reply: Reply) {
    h.id in t && t[h.id].processedSeq == h.seqNum && t[h.id].lastResponse == Some(reply)
  }

  /** The sessions of all other clients are as before. */
  ghost predicate OthersKept(t: SessionTable, before: SessionTable, c: int) {
    && (forall k :: k != c ==> (k in t <==> k in before))
    && (forall k :: k != c && k in before ==> t[k] == before[k])
  }

  /** The group holds the shard, as SERVING or GC, and its configuration gives it to the group. */
  predicate Serving(gid: int, s: StateMachine, shard: int) {
    && shard in s.shards && s.shards[shard].status != PULLING && s.shards[shard].status != BE_PULLING
    && 0 <= shard < |s.current.shards| && s.current.shards[shard] == gid
  }

  /** Nothing but sessions. */
  predicate OnlyAnswers(t: StateMachine, s: StateMachine) {
    t.shards == s.shards && t.current == s.current && t.last == s.last
  }

  lemma AgainIsIgnored(hash: Hash, gid: int, s: StateMachine, a: Args)
    requires a.header.id in s.sessions && a.header.seqNum <= s.sessions[a.header.id].processedSeq
    ensures Apply(hash, gid, s, a) == Some(s)
  {
  }

  /** What is not an old number of a known client. */
  predicate IsNew(s: StateMachine, h: SessionHeader) {
    h.id in s.sessions ==> s.sessions[h.id].processedSeq < h.seqNum
  }

  lemma EmptyEffect(hash: Hash, gid: int, s: StateMachine, h: SessionHeader)
    requires IsNew(s, h)
    ensures Apply(hash, gid, s, Args(h, EMPTY)).Some?
    ensures var t := Apply(hash, gid, s, Args(h, EMPTY)).value;
            OnlyAnswers(t, s) && Answered(t.sessions, h, Reply(OK, "")) && OthersKept(t.sessions, s.sessions, h.id)
  {
  }

  /** A read answers the value that its shard holds for the key, and changes nothing. */
  lemma GetEffect(hash: Hash, gid: int, s: StateMachine, h: SessionHeader, key: string)
    requires IsNew(s, h)
    ensures Apply(hash, gid, s, Args(h, GET(key))).Some?
    ensures var t := Apply(hash, gid, s, Args(h, GET(key))).value;
            && OnlyAnswers(t, s) && OthersKept(t.sessions, s.sessions, h.id)
            && (!Serving(gid, s, hash(key)) ==> Answered(t.sessions, h, Reply(ERR_WRONG_GROUP, "")))
            && (Serving(gid, s, hash(key)) && key in s.shards[hash(key)].KV ==>
                  Answered(t.sessions, h, Reply(OK, s.shards[hash(key)].KV[key])))
            && (Serving(gid, s, hash(key)) && key !in s.shards[hash(key)].KV ==> Answered(t.sessions, h, Reply(ERR_NO_KEY, "")))
  {
  }

  /** The shard table with one value of one shard changed. */
  predicate OneValue(t: ShardTable, s: ShardTable, shard: int, key: string, value: string) {
    && t.Keys == s.Keys && shard in s
    && t[shard].ID == s[shard].ID && t[shard].status == s[shard].status
    && t[shard].KV.Keys == s[shard].KV.Keys + {key} && t[shard].KV[key] == value
    && (forall k :: k in s[shard].KV && k != key ==> t[shard].KV[k] == s[shard].KV[k])
    && (forall i :: i in s && i != shard ==> t[i] == s[i])
  }

  lemma PutEffect(hash: Hash, gid: int, s: StateMachine, h: SessionHeader, key: string, value: string)
    requires IsNew(s, h)
    ensures Apply(hash, gid, s, Args(h, PUT(key, value))).Some?
    ensures var t := Apply(hash, gid, s, Args(h, PUT(key, value))).value;
            && t.current == s.current && t.last == s.last && OthersKept(t.sessions, s.sessions, h.id)
            && (!Serving(gid, s, hash(key)) ==> OnlyAnswers(t, s) && Answered(t.sessions, h, Reply(ERR_WRONG_GROUP, "")))
            && (Serving(gid, s, hash(key)) ==>
                  OneValue(t.shards, s.shards, hash(key), key, value) && Answered(t.sessions, h, Reply(OK, "")))
  {
  }

  lemma AppendEffect(hash: Hash, gid: int, s: StateMachine, h: SessionHeader, key: string, value: string)
    requires IsNew(s, h)
    ensures Apply(hash, gid, s, Args(h, APPEND(key, value))).Some?
    ensures var t := Apply(hash, gid, s, Args(h, APPEND(key, value))).value;
            && t.current == s.current && t.last == s.last && OthersKept(t.sessions, s.sessions, h.id)
            && (!Serving(gid, s, hash(key)) ==> OnlyAnswers(t, s) && Answered(t.sessions, h, Reply(ERR_WRONG_GROUP, "")))
            && (Serving(gid, s, hash(key)) ==>
                  && OneValue(t.shards, s.shards, hash(key), key,
                              (if key in s.shards[hash(key)].KV then s.shards[hash(key)].KV[key] else "") + value)
                  && Answered(t.sessions, h, Reply(OK, "")))
  {
  }

  /** Garbage collection in the configuration it was asked for: of the named shards those that were held back are
    * emptied, those that were adopted serve from now on; all others stay as they are. In any other
    * configuration nothing happens. */
  lemma DeleteEffect(hash: Hash, gid: int, s: StateMachine, h: SessionHeader, configNum: int, ids: seq<int>)
    requires IsNew(s, h) && forall k :: 0 <= k < |ids| ==> ids[k] in s.shards
    ensures Apply(hash, gid, s, Args(h, DELETE_SHARDS(configNum, ids))).Some?
    ensures var t := Apply(hash, gid, s, Args(h, DELETE_SHARDS(configNum, ids))).value;
            && t.current == s.current && t.last == s.last && t.shards.Keys == s.shards.Keys
            && Answered(t.sessions, h, Reply(OK, "")) && OthersKept(t.sessions, s.sessions, h.id)
            && (configNum != s.current.num ==> t.shards == s.shards)
            && (forall i :: i in s.shards && i !in ids ==> t.shards[i] == s.shards[i])
            && (forall i :: i in s.shards && configNum == s.current.num && i in ids ==>
                  && (s.shards[i].status == BE_PULLING ==> t.shards[i] == ShardData(i, map[], SERVING))
                  && (s.shards[i].status == GC ==> t.shards[i] == ShardData(s.shards[i].ID, s.shards[i].KV, SERVING))
                  && (s.shards[i].status == PULLING || s.shards[i].status == SERVING ==> t.shards[i] == s.shards[i]))
  {
    DeleteLoopEffect(s.shards, ids);
  }

  /** Shard `i` is the first of that number among those pulled. */
  predicate FirstNamed(pulled: seq<ShardData>, i: int, k: int) {
    0 <= k < |pulled| && pulled[k].ID == i && forall j :: 0 <= j < k ==> pulled[j].ID != i
  }

  /** The client has got at least as far in `t` as in `from`. */
  predicate AsFar(t: SessionTable, from: SessionTable, c: int) {
    c in t && (c in from ==> from[c].processedSeq <= t[c].processedSeq)
  }

  /** An answer to a pull, unless it is of an earlier configuration: the shards still awaited take its contents and
    * are GC, all others stay; and each client's session is the one of the two that has got further. */
  lemma InsertEffect(hash: Hash, gid: int, s: StateMachine, h: SessionHeader, r: PullShardsResponse)
    requires IsNew(s, h) && (h.id in r.serverSessions ==> r.serverSessions[h.id].processedSeq <= h.seqNum)
    requires forall k :: 0 <= k < |r.shards| ==> r.shards[k].ID in s.shards
    ensures Apply(hash, gid, s, Args(h, INSERT_SHARDS(r))).Some?
    ensures var t := Apply(hash, gid, s, Args(h, INSERT_SHARDS(r))).value;
            && t.current == s.current && t.last == s.last && t.shards.Keys == s.shards.Keys
            && (r.configNum < s.current.num ==>
                  OnlyAnswers(t, s) && Answered(t.sessions, h, Reply(ERR_OUT_DATED_CONFIG, "")) && OthersKept(t.sessions, s.sessions, h.id))
            && (r.configNum >= s.current.num ==>
                  && Answered(t.sessions, h, Reply(OK, ""))
                  && (forall k, i :: FirstNamed(r.shards, i, k) && i in s.shards && s.shards[i].status == PULLING ==>
                        t.shards[i] == ShardData(i, r.shards[k].KV, GC))
                  && (forall i :: i in s.shards && s.shards[i].status != PULLING ==> t.shards[i] == s.shards[i])
                  && (forall i :: i in s.shards && (forall k :: 0 <= k < |r.shards| ==> r.shards[k].ID != i) ==> t.shards[i] == s.shards[i])
                  && (forall c :: c != h.id && c in r.serverSessions && IsNew(s, SessionHeader(c, r.serverSessions[c].processedSeq)) ==>
                        c in t.sessions && t.sessions[c] == r.serverSessions[c])
                  && (forall c :: c != h.id && c in s.sessions && AsFar(s.sessions, r.serverSessions, c) ==>
                        c in t.sessions && t.sessions[c] == s.sessions[c])
                  && (forall c :: c in t.sessions ==> c == h.id || c in s.sessions || c in r.serverSessions))
  {
    InsertLoopEffect(s.shards, r.shards);
    if r.configNum >= s.current.num {
      var t := Apply(hash, gid, s, Args(h, INSERT_SHARDS(r))).value;
      forall k, i | FirstNamed(r.shards, i, k) && i in s.shards && s.shards[i].status == PULLING
        ensures t.shards[i] == ShardData(i, r.shards[k].KV, GC)
      {
        var j :| AdoptedFrom(s.shards[i], t.shards[i], r.shards, i, j);
        assert j == k;
      }
    }
  }

  /** The next configuration, and only the next: shards that it gives away are held back, shards that it brings
    * are awaited, contents stay; the configuration so far is the last one. */
  lemma ReconfigureEffect(hash: Hash, gid: int, s: StateMachine, h: SessionHeader, next: Config)
    requires IsNew(s, h) && |next.shards| == NSHARDS && |s.current.shards| == NSHARDS
    requires forall i :: 0 <= i < NSHARDS ==> i in s.shards
    ensures Apply(hash, gid, s, Args(h, RECONFIGURE(next))).Some?
    ensures var t := Apply(hash, gid, s, Args(h, RECONFIGURE(next))).value;
            && t.shards.Keys == s.shards.Keys && OthersKept(t.sessions, s.sessions, h.id)
            && (next.num != s.current.num + 1 ==> OnlyAnswers(t, s) && Answered(t.sessions, h, Reply(ERR_OUT_DATED_CONFIG, "")))
            && (next.num == s.current.num + 1 ==>
                  && t.current == next && t.last == Some(s.current) && Answered(t.sessions, h, Reply(OK, ""))
                  && (next.num <= 1 ==> t.shards == s.shards)
                  && (forall i :: i in s.shards ==> t.shards[i].KV == s.shards[i].KV && t.shards[i].ID == s.shards[i].ID)
                  && (forall i :: 0 <= i < NSHARDS && next.num > 1 ==>
                        && (s.current.shards[i] == gid && next.shards[i] != gid ==> t.shards[i].status == BE_PULLING)
                        && (s.current.shards[i] != gid && next.shards[i] == gid ==> t.shards[i].status == PULLING)
                        && ((s.current.shards[i] == gid) == (next.shards[i] == gid) ==> t.shards[i].status == s.shards[i].status))
                  && (forall i :: i in s.shards && !(0 <= i < NSHARDS) ==> t.shards[i] == s.shards[i]))
  {
    StatusLoopEffect(gid, s.current.shards, next.shards, s.shards, |next.shards|);
    assert NewConfig(next).shards == next.shards;
  }
}
