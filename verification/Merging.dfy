/** Bytes put behind bytes: a later number replaces an earlier one, a later part is decoded on top of the part that is
  * there, and entries are added (raft/raftpb/raft.pb.go:2773-3142). */
module Merging {
  import opened Wrappers
  import opened Wire
  import opened Records
  import opened RaftWire

  function Over(a: nat, b: nat): nat {
    if b == 0 then a else b
  }

  function HardOver(a: HardState, b: HardState): HardState {
    HardState(Over(a.term, b.term), Over(a.votedFor, b.votedFor), Over(a.commit, b.commit))
  }

  function EntryOver(a: WireEntry, b: WireEntry): WireEntry {
    WireEntry(Over(a.term, b.term), Over(a.index, b.index), if b.data == [] then a.data else b.data)
  }

  function LogOver(a: WireLog, b: WireLog): WireLog {
    WireLog(a.entries + b.entries, Over(a.includedIndex, b.includedIndex), Over(a.includedTerm, b.includedTerm))
  }

  function StateOver(a: RaftState, b: RaftState): RaftState {
    RaftState(
      if a.hard.Some? && b.hard.Some? then Some(HardOver(a.hard.value, b.hard.value)) else if b.hard.Some? then b.hard else a.hard,
      if a.log.Some? && b.log.Some? then Some(LogOver(a.log.value, b.log.value)) else if b.log.Some? then b.log else a.log)
  }

  /** Each number of a hard state but zero replaces the one that is there. */
  lemma HardOntoHard(a: HardState, b: HardState)
    requires HardFits(b)
    ensures MergeHard(a, HardBytes(b)) == Some(HardOver(a, b))
  {
    ReadWhole(HardKinds, HardFields(b));
    FoldHardTwo(a, Uint(1, b.term) + Uint(2, b.votedFor), Uint(3, b.commit));
    FoldHardTwo(a, Uint(1, b.term), Uint(2, b.votedFor));
  }

  lemma EntryOntoEntry(a: WireEntry, b: WireEntry)
    requires EntryFits(b)
    ensures MergeEntry(a, EntryBytes(b)) == Some(EntryOver(a, b))
  {
    ReadWhole(EntryKinds, EntryFields(b));
    FoldEntryTwo(a, Uint(1, b.term) + Uint(2, b.index), Bytes(3, b.data));
    FoldEntryTwo(a, Uint(1, b.term), Uint(2, b.index));
  }

  lemma NumbersOnto(l: WireLog, i: nat, t: nat)
    ensures FoldLog(l, Uint(2, i) + Uint(3, t)) ==
            Some(l.(includedIndex := Over(l.includedIndex, i), includedTerm := Over(l.includedTerm, t)))
  {
    var m := l.(includedIndex := Over(l.includedIndex, i));
    if t != 0 {
      assert Uint(3, t) == [Num(3, t)] + [];
      FoldLogFirst(m, Num(3, t), [], m.(includedTerm := t));
    }
    if i == 0 {
      assert Uint(2, i) + Uint(3, t) == Uint(3, t);
    } else {
      FoldLogFirst(l, Num(2, i), Uint(3, t), m);
    }
  }

  /** The entries of a log are added behind those that are there. */
  lemma LogOntoLog(a: WireLog, b: WireLog)
    requires LogFits(b)
    ensures MergeLogBytes(a, LogBytes(b)) == Some(LogOver(a, b))
  {
    var i, t := Uint(2, b.includedIndex), Uint(3, b.includedTerm);
    LogFieldsFit(b);
    ReadWhole(LogKinds, LogFields(b));
    assert LogFields(b) == EntryBlobs(b.entries) + (i + t);
    FoldBlobs(a, b.entries, i + t);
    NumbersOnto(a.(entries := a.entries + b.entries), b.includedIndex, b.includedTerm);
  }

  lemma LogFieldOnto(a: RaftState, l: Option<WireLog>)
    requires l.Some? ==> LogFits(l.value)
    ensures FoldState(a, LogField(l)) == Some(StateOver(a, RaftState(None, l)))
  {
    if l.Some? {
      var was := if a.log.Some? then a.log.value else NoLog;
      LogOntoLog(was, l.value);
      assert [] + l.value.entries == l.value.entries;
      assert LogField(l) == [Blob(2, LogBytes(l.value))] + [];
      FoldStateFirst(a, Blob(2, LogBytes(l.value)), [], StateOver(a, RaftState(None, l)));
    }
  }

  /** Unmarshal on top of a state that is not empty, as it does not reset it: numbers are replaced, parts decoded on
    * top of parts, entries added. */
  lemma StateOntoState(a: RaftState, b: RaftState)
    requires StateFits(b)
    ensures MergeState(a, StateBytes(b)) == Some(StateOver(a, b))
  {
    StateFieldsFit(b);
    ReadWhole(StateKinds, StateFields(b));
    var m := StateOver(a, RaftState(b.hard, None));
    LogFieldOnto(m, b.log);
    if b.hard.Some? {
      HardOntoHard(if a.hard.Some? then a.hard.value else NoHard, b.hard.value);
      FoldStateFirst(a, Blob(1, HardBytes(b.hard.value)), LogField(b.log), m);
    } else {
      assert StateFields(b) == LogField(b.log);
    }
  }

  lemma FoldStateTwo(s: RaftState, a: seq<Field>, b: seq<Field>)
    ensures FoldState(s, a + b) == (if FoldState(s, a).Some? then FoldState(FoldState(s, a).value, b) else None)
    decreases |a|
  {
    if a == [] {
      assert a + b == b;
    } else {
      assert (a + b)[1..] == a[1..] + b;
      if PutState(s, a[0]).Some? {
        FoldStateTwo(PutState(s, a[0]).value, a[1..], b);
      }
    }
  }

  /** Decoding bytes behind bytes is decoding the second on top of what the first gave. */
  lemma DecodedInTurn(s: RaftState, a: seq<byte>, b: seq<byte>)
    requires MergeState(s, a).Some?
    ensures MergeState(s, a + b) == MergeState(MergeState(s, a).value, b)
  {
    FieldsOfConcat(StateKinds, a, b);
    if Fields(StateKinds, b).Some? {
      FoldStateTwo(s, Fields(StateKinds, a).value, Fields(StateKinds, b).value);
    }
  }

  /** Two stored states one behind the other are one state: the second over the first. */
  lemma StatesInARow(a: RaftState, b: RaftState)
    requires StateFits(a) && StateFits(b)
    ensures MergeState(NoState, StateBytes(a) + StateBytes(b)) == Some(StateOver(a, b))
  {
    StateRoundTrip(a);
    DecodedInTurn(NoState, StateBytes(a), StateBytes(b));
    StateOntoState(a, b);
  }
}
