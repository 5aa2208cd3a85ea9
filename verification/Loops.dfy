/** What the loops of server/server.go over shard ids achieve as a whole. */
module Loops {
  import opened Wrappers
  import opened StateMachines

  /** updateShardsStatus changes statuses only, shard by shard, as the two owners say. */
  lemma {:induction false} StatusLoopEffect(gid: int, prev: seq<int>, next: seq<int>, shards: ShardTable, n: nat)
    requires n <= |next| && n <= |prev|
    requires forall s :: 0 <= s < n ==> s in shards
    ensures var r := StatusLoop(gid, prev, next, shards, n);
            && r.Some?
            && r.value.Keys == shards.Keys
            && (forall s :: s in shards ==>
                              r.value[s] == if 0 <= s < n
                                            then shards[s].(status := NextStatus(gid, prev[s], next[s], shards[s].status))
                                            else shards[s])
  {
    if n == 0 {
    } else {
      StatusLoopEffect(gid, prev, next, shards, n - 1);
    }
  }

  predicate AdoptedFrom(before: ShardData, after: ShardData, pulled: seq<ShardData>, s: int, k: int) {
    && 0 <= k < |pulled|
    && pulled[k].ID == s
    && before.status == PULLING
    && after == pulled[k].(status := GC)
    && forall j :: 0 <= j < k ==> pulled[j].ID != s
  }

  /** applyInsertShards adopts a shard exactly when it is PULLING and named, and then the first copy named. */
  lemma {:induction false} InsertLoopEffect(shards: ShardTable, pulled: seq<ShardData>)
    requires forall k :: 0 <= k < |pulled| ==> pulled[k].ID in shards
    ensures var r := InsertLoop(shards, pulled);
            && r.Some?
            && r.value.Keys == shards.Keys
            && (forall s :: s in shards ==>
                              if shards[s].status == PULLING && exists k :: 0 <= k < |pulled| && pulled[k].ID == s
                              then exists k :: AdoptedFrom(shards[s], r.value[s], pulled, s, k)
                              else r.value[s] == shards[s])
  {
    if pulled == [] {
    } else {
      var id := pulled[0].ID;
      assert pulled[0].ID in shards;
      var rest := pulled[1..];
      assert forall k :: 0 <= k < |rest| ==> rest[k] == pulled[k + 1];
      var mid := if shards[id].status == PULLING then shards[id := pulled[0].(status := GC)] else shards;
      InsertLoopEffect(mid, rest);
      var r := InsertLoop(shards, pulled).value;
      assert r == InsertLoop(mid, rest).value;
      forall s | s in shards
        ensures if shards[s].status == PULLING && exists k :: 0 <= k < |pulled| && pulled[k].ID == s
                then exists k :: AdoptedFrom(shards[s], r[s], pulled, s, k)
                else r[s] == shards[s]
      {
        if shards[s].status == PULLING && s == id {
          assert mid[s].status == GC;
          assert AdoptedFrom(shards[s], r[s], pulled, s, 0);
        } else if shards[s].status == PULLING && exists k :: 0 <= k < |pulled| && pulled[k].ID == s {
          var k :| 0 <= k < |pulled| && pulled[k].ID == s;
          assert rest[k - 1].ID == s;
          var j :| AdoptedFrom(mid[s], r[s], rest, s, j);
          assert AdoptedFrom(shards[s], r[s], pulled, s, j + 1);
        } else if shards[s].status == PULLING {
          assert forall k :: 0 <= k < |rest| ==> rest[k].ID != s;
        }
      }
    }
  }

  /** applyDeleteShards wipes what is BE_PULLING and releases what is GC, among the named shards only. */
  lemma {:induction false} DeleteLoopEffect(shards: ShardTable, ids: seq<int>)
    requires forall k :: 0 <= k < |ids| ==> ids[k] in shards
    ensures var r := DeleteLoop(shards, ids);
            && r.Some?
            && r.value.Keys == shards.Keys
            && (forall s :: s in shards ==>
                              r.value[s] == if s in ids && shards[s].status == BE_PULLING then ShardData(s, map[], SERVING)
                                            else if s in ids && shards[s].status == GC then shards[s].(status := SERVING)
                                            else shards[s])
  {
    if ids == [] {
    } else {
      assert ids[0] in shards;
      var rest := ids[1..];
      assert forall k :: 0 <= k < |rest| ==> rest[k] == ids[k + 1];
      assert ids == [ids[0]] + rest;
      var mid :=
        if shards[ids[0]].status == BE_PULLING then shards[ids[0] := ShardData(ids[0], map[], SERVING)]
        else if shards[ids[0]].status == GC then shards[ids[0] := shards[ids[0]].(status := SERVING)]
        else shards;
      DeleteLoopEffect(mid, rest);
    }
  }

  /** A longer prefix of updateShardsStatus that succeeds has succeeded on every shorter one. */
  lemma {:induction false} StatusLoopPrefix(gid: int, prev: seq<int>, next: seq<int>, shards: ShardTable, n: nat, m: nat)
    requires n <= m <= |next| && StatusLoop(gid, prev, next, shards, m).Some?
    ensures StatusLoop(gid, prev, next, shards, n).Some?
  {
    if n == m {
    } else {
      StatusLoopPrefix(gid, prev, next, shards, n, m - 1);
    }
  }
}
