/** Re-delivered log entries are harmless (server/server.go: apply, installSnapshot, restart). */
module Replay {
  import opened Wrappers
  import opened Sessions
  import opened StateMachines

  /** No entry ever takes a session back, and every applied entry leaves its mark. */
  lemma ApplyAdvancesSessions(hash: Hash, gid: int, s: StateMachine, a: Args, t: StateMachine)
    requires Apply(hash, gid, s, a) == Some(t)
    ensures NotAhead(s.sessions, t.sessions)
    ensures Duplicate(t.sessions, a.header)
  {
  }

  lemma {:induction false} LogAdvancesSessions(hash: Hash, gid: int, s: StateMachine, log: seq<Args>, t: StateMachine)
    requires ApplyAll(hash, gid, s, log) == Some(t)
    ensures NotAhead(s.sessions, t.sessions)
    ensures forall a :: a in log ==> Duplicate(t.sessions, a.header)
  {
    if log == [] {
    } else {
      var last := |log| - 1;
      var mid := ApplyAll(hash, gid, s, log[..last]).value;
      LogAdvancesSessions(hash, gid, s, log[..last], mid);
      ApplyAdvancesSessions(hash, gid, mid, log[last], t);
      assert log == log[..last] + [log[last]];
    }
  }

  /** Any entries already reflected in the state, in any order and number, change nothing. */
  lemma {:induction false} ReplayIsHarmless(hash: Hash, gid: int, s: StateMachine, log: seq<Args>, t: StateMachine, again: seq<Args>)
    requires ApplyAll(hash, gid, s, log) == Some(t)
    requires forall a :: a in again ==> a in log
    ensures ApplyAll(hash, gid, t, again) == Some(t)
  {
    if again == [] {
    } else {
      var last := |again| - 1;
      ReplayIsHarmless(hash, gid, s, log, t, again[..last]);
      assert again[last] in again;
      LogAdvancesSessions(hash, gid, s, log, t);
    }
  }

  lemma {:induction false} ApplyAllAppend(hash: Hash, gid: int, s: StateMachine, a: seq<Args>, b: seq<Args>)
    ensures ApplyAll(hash, gid, s, a + b) ==
            (match ApplyAll(hash, gid, s, a) case None => None case Some(t) => ApplyAll(hash, gid, t, b))
  {
    if b == [] {
      assert a + b == a;
    } else {
      var last := |b| - 1;
      ApplyAllAppend(hash, gid, s, a, b[..last]);
      assert (a + b)[..|a + b| - 1] == a + b[..last];
    }
  }

  /** A snapshot taken after `taken` entries, followed by the queue from entry `k` on although the
    * snapshot already covers entries k..taken, ends in the state of the log applied once. */
  lemma SnapshotThenOldQueue(hash: Hash, gid: int, s: StateMachine, log: seq<Args>, k: nat, taken: nat)
    requires k <= taken <= |log|
    requires ApplyAll(hash, gid, s, log[..taken]).Some?
    ensures ApplyAll(hash, gid, ApplyAll(hash, gid, s, log[..taken]).value, log[k..]) == ApplyAll(hash, gid, s, log)
  {
    var snap := ApplyAll(hash, gid, s, log[..taken]).value;
    var again, rest := log[k..taken], log[taken..];
    PartsOfLog(log, k, taken);
    ReplayIsHarmless(hash, gid, s, log[..taken], snap, again);
    ApplyAllAppend(hash, gid, snap, again, rest);
    ApplyAllAppend(hash, gid, s, log[..taken], rest);
  }

  lemma PartsOfLog(log: seq<Args>, k: nat, taken: nat)
    requires k <= taken <= |log|
    ensures log[..taken] + log[taken..] == log && log[k..taken] + log[taken..] == log[k..]
    ensures forall a :: a in log[k..taken] ==> a in log[..taken]
  {
    forall a | a in log[k..taken]
      ensures a in log[..taken]
    {
      var j :| 0 <= j < taken - k && log[k..taken][j] == a;
      assert log[..taken][k + j] == a;
    }
  }

  // ---------- a queue that starts beyond the snapshot ----------

  /** The entry behind the snapshot is a write of client 1, the others are empty entries of client 2. */
  function GapLog(taken: nat, n: nat): seq<Args> {
    seq(n, j requires 0 <= j < n => if j == taken then Args(SessionHeader(1, 1), PUT("k", "v")) else Args(SessionHeader(2, j + 1), EMPTY))
  }

  function GapStart(): StateMachine {
    StateMachine(map[0 := ShardData(0, map[], SERVING)], map[], Config(1, [1]), None)
  }

  predicate GapState(st: StateMachine, taken: nat, j: nat) {
    && st.current == GapStart().current && st.shards.Keys == {0} && st.shards[0].status == SERVING
    && (if j <= taken then st.shards[0].KV == map[] && 1 !in st.sessions else "k" in st.shards[0].KV)
    && (2 in st.sessions ==> st.sessions[2].processedSeq <= j)
  }

  lemma {:induction false} GapStates(taken: nat, n: nat, j: nat) returns (st: StateMachine)
    requires j <= n
    ensures ApplyAll(key => 0, 1, GapStart(), GapLog(taken, n)[..j]) == Some(st) && GapState(st, taken, j)
  {
    var log := GapLog(taken, n)[..j];
    if j == 0 {
      return GapStart();
    }
    var before := GapStates(taken, n, j - 1);
    assert log[..j - 1] == GapLog(taken, n)[..j - 1] && log[j - 1] == GapLog(taken, n)[j - 1];
    st := Apply(key => 0, 1, before, log[j - 1]).value;
  }

  /** Hence SnapshotThenOldQueue needs its condition: for every snapshot and every queue that starts later there
    * is a log for which the queue does not lead to the state of the log. */
  lemma QueueBeyondSnapshotLoses(taken: nat, k: nat) returns (log: seq<Args>)
    requires taken < k
    ensures |log| == k && ApplyAll(key => 0, 1, GapStart(), log[..taken]).Some?
    ensures ApplyAll(key => 0, 1, ApplyAll(key => 0, 1, GapStart(), log[..taken]).value, log[k..])
            != ApplyAll(key => 0, 1, GapStart(), log)
  {
    log := GapLog(taken, k);
    var snap := GapStates(taken, k, taken);
    var whole := GapStates(taken, k, k);
    assert log[..k] == log && log[k..] == [];
  }
}
