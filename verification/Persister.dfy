/** raft/persister.go, and the bytes in which a server's durable state is kept. */
module Persistence {
  import opened Wrappers
  import opened Wire
  import RaftWire
  import P = RaftProtocol

  /** Stable storage: what it holds survives a crash. Values are byte strings, so nothing is shared. */
  class Persister {
    var raftstate: seq<byte>
    var snapshot: seq<byte>

    constructor ()
      ensures raftstate == [] && snapshot == []
    {
      raftstate, snapshot := [], [];
    }

    method SaveRaftState(state: seq<byte>)
      modifies this`raftstate
      ensures raftstate == state
    {
      raftstate := state;
    }

    method SaveStateAndSnapshot(state: seq<byte>, data: seq<byte>)
      modifies this
      ensures raftstate == state && snapshot == data
    {
      raftstate, snapshot := state, data;
    }

    function ReadRaftState(): seq<byte>
      reads this
    {
      raftstate
    }
  }

  // ---------- the RaftState message of a server ----------

  /** Any integers stand for the bytes of a command. */
  predicate BytesOnly(data: seq<int>) {
    forall k :: 0 <= k < |data| ==> 0 <= data[k] < 256
  }

  function ToBytes(data: seq<int>): (r: seq<byte>)
    ensures |r| == |data|
  {
    seq(|data|, i requires 0 <= i < |data| => data[i] % 256)
  }

  function EntryOnDisk(e: P.Entry): RaftWire.WireEntry {
    RaftWire.WireEntry(e.term, e.index, ToBytes(e.data))
  }

  function EntriesOnDisk(l: P.Log): (r: seq<RaftWire.WireEntry>)
    ensures |r| == |l|
  {
    seq(|l|, i requires 0 <= i < |l| => EntryOnDisk(l[i]))
  }

  /** None is 0, so that server v is v + 1. */
  function VoteOnDisk(v: Option<nat>): nat {
    match v case None => 0 case Some(c) => c + 1
  }

  function OnDisk(h: P.Hard): RaftWire.RaftState
    requires h.snap <= |h.log|
  {
    RaftWire.RaftState(
      Some(RaftWire.HardState(h.term, VoteOnDisk(h.votedFor), h.commit)),
      Some(RaftWire.WireLog(EntriesOnDisk(h.log[h.snap..]), h.snap, P.TermAt(h.log, h.snap))))
  }

  /** The bytes are those of the state. */
  ghost predicate Saved(bytes: seq<byte>, h: P.Hard) {
    h.snap <= |h.log| && forall s {:trigger RaftWire.StateBytes(s)} :: s == OnDisk(h) ==> bytes == RaftWire.StateBytes(s)
  }

  function VoteFromDisk(v: nat): Option<nat> {
    if v == 0 then None else Some(v - 1)
  }

  function EntriesFromDisk(es: seq<RaftWire.WireEntry>): (r: P.Log)
    ensures |r| == |es|
  {
    seq(|es|, i requires 0 <= i < |es| => P.Entry(es[i].term, es[i].index, es[i].data))
  }

  lemma EntriesReadBack(l: P.Log)
    requires forall k :: 0 <= k < |l| ==> BytesOnly(l[k].data)
    ensures EntriesFromDisk(EntriesOnDisk(l)) == l
  {
    forall k | 0 <= k < |l|
      ensures EntriesFromDisk(EntriesOnDisk(l))[k] == l[k]
    {
      assert ToBytes(l[k].data) == l[k].data;
    }
  }

  /** What a restart reads is what was saved. */
  lemma SavedIsRead(h: P.Hard, bytes: seq<byte>)
    requires Saved(bytes, h) && RaftWire.StateFits(OnDisk(h))
    ensures RaftWire.MergeState(RaftWire.NoState, bytes) == Some(OnDisk(h))
  {
    RaftWire.StateRoundTrip(OnDisk(h));
    assert bytes == RaftWire.StateBytes(OnDisk(h));
  }

  lemma RetainedReadBack(h: P.Hard)
    requires h.snap <= |h.log| && forall k :: 0 <= k < |h.log| ==> BytesOnly(h.log[k].data)
    ensures EntriesFromDisk(EntriesOnDisk(h.log[h.snap..])) == h.log[h.snap..]
  {
    var l := h.log[h.snap..];
    forall k | 0 <= k < |l|
      ensures BytesOnly(l[k].data)
    {
      assert l[k] == h.log[h.snap + k];
    }
    EntriesReadBack(l);
  }

  /** The bytes of a state restore its term, vote and commit, and its retained log. */
  lemma RestoredIs(h: P.Hard)
    requires h.snap <= |h.log| && forall k :: 0 <= k < |h.log| ==> BytesOnly(h.log[k].data)
    ensures var p := OnDisk(h);
            && p.hard.value.term == h.term && VoteFromDisk(p.hard.value.votedFor) == h.votedFor
            && p.hard.value.commit == h.commit
            && p.log.value.includedIndex == h.snap && p.log.value.includedTerm == P.TermAt(h.log, h.snap)
            && EntriesFromDisk(p.log.value.entries) == h.log[h.snap..]
  {
    RetainedReadBack(h);
  }

  datatype Restored = Restored(term: nat, votedFor: Option<nat>, commit: nat, entries: P.Log, includedIndex: nat, includedTerm: nat)

  /** readPersistRaftState, from bytes that hold some state. */
  method Restore(bytes: seq<byte>, ghost h: P.Hard) returns (r: Restored)
    requires Saved(bytes, h) && RaftWire.StateFits(OnDisk(h))
    requires forall k :: 0 <= k < |h.log| ==> BytesOnly(h.log[k].data)
    ensures h.snap <= |h.log|
    ensures r == Restored(h.term, h.votedFor, h.commit, h.log[h.snap..], h.snap, P.TermAt(h.log, h.snap))
  {
    SavedIsRead(h, bytes);
    RestoredIs(h);
    var p := RaftWire.Unmarshal(RaftWire.NoState, bytes);
    var hard, l := p.value.hard.value, p.value.log.value;
    return Restored(hard.term, VoteFromDisk(hard.votedFor), hard.commit, EntriesFromDisk(l.entries), l.includedIndex, l.includedTerm);
  }
}
