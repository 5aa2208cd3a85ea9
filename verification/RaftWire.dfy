/** The persisted messages of raft/raftpb/raft.pb.go: Entry, HardState, Log and RaftState. */
module RaftWire {
  import opened Wrappers
  import opened Wire
  import opened Records

  datatype WireEntry = WireEntry(term: nat, index: nat, data: seq<byte>)
  datatype HardState = HardState(term: nat, votedFor: nat, commit: nat)
  datatype WireLog = WireLog(entries: seq<WireEntry>, includedIndex: nat, includedTerm: nat)
  datatype RaftState = RaftState(hard: Option<HardState>, log: Option<WireLog>)

  const NoEntry := WireEntry(0, 0, [])
  const NoHard := HardState(0, 0, 0)
  const NoLog := WireLog([], 0, 0)
  const NoState := RaftState(None, None)

  const EntryKinds: Kinds := map[1 := 0, 2 := 0, 3 := 2]
  const HardKinds: Kinds := map[1 := 0, 2 := 0, 3 := 0]
  const LogKinds: Kinds := map[1 := 2, 2 := 0, 3 := 0]
  const StateKinds: Kinds := map[1 := 2, 2 := 2]

  // ---------- what is written ----------

  function EntryFields(e: WireEntry): (r: seq<Field>)
    ensures FieldsOk(r)
  {
    Uint(1, e.term) + Uint(2, e.index) + Bytes(3, e.data)
  }

  function EntryBytes(e: WireEntry): seq<byte> {
    FieldsBytes(EntryFields(e))
  }

  function HardFields(h: HardState): (r: seq<Field>)
    ensures FieldsOk(r)
  {
    Uint(1, h.term) + Uint(2, h.votedFor) + Uint(3, h.commit)
  }

  function HardBytes(h: HardState): seq<byte> {
    FieldsBytes(HardFields(h))
  }

  function EntryBlobs(es: seq<WireEntry>): (r: seq<Field>)
    ensures FieldsOk(r) && |r| == |es|
  {
    if es == [] then [] else [Blob(1, EntryBytes(es[0]))] + EntryBlobs(es[1..])
  }

  function LogFields(l: WireLog): (r: seq<Field>)
    ensures FieldsOk(r)
  {
    EntryBlobs(l.entries) + Uint(2, l.includedIndex) + Uint(3, l.includedTerm)
  }

  function LogBytes(l: WireLog): seq<byte> {
    FieldsBytes(LogFields(l))
  }

  function LogField(l: Option<WireLog>): (r: seq<Field>)
    ensures FieldsOk(r)
  {
    if l.Some? then [Blob(2, LogBytes(l.value))] else []
  }

  function HardField(h: Option<HardState>): (r: seq<Field>)
    ensures FieldsOk(r)
  {
    if h.Some? then [Blob(1, HardBytes(h.value))] else []
  }

  function StateFields(s: RaftState): (r: seq<Field>)
    ensures FieldsOk(r)
  {
    HardField(s.hard) + LogField(s.log)
  }

  function StateBytes(s: RaftState): seq<byte> {
    FieldsBytes(StateFields(s))
  }

  // ---------- Size ----------

  function EntrySize(e: WireEntry): nat {
    UintSize(e.term) + UintSize(e.index) + BytesSize(e.data)
  }

  function HardSize(h: HardState): nat {
    UintSize(h.term) + UintSize(h.votedFor) + UintSize(h.commit)
  }

  function EntriesSize(es: seq<WireEntry>): nat {
    if es == [] then 0 else BlobSize(EntrySize(es[0])) + EntriesSize(es[1..])
  }

  function LogSize(l: WireLog): nat {
    EntriesSize(l.entries) + UintSize(l.includedIndex) + UintSize(l.includedTerm)
  }

  function StateSize(s: RaftState): nat {
    (if s.hard.Some? then BlobSize(HardSize(s.hard.value)) else 0) +
    (if s.log.Some? then BlobSize(LogSize(s.log.value)) else 0)
  }

  lemma ThreeParts(a: seq<Field>, b: seq<Field>, c: seq<Field>)
    requires FieldsOk(a) && FieldsOk(b) && FieldsOk(c)
    ensures FieldsOk(a + b + c) && FieldsBytes(a + b + c) == FieldsBytes(a) + FieldsBytes(b) + FieldsBytes(c)
  {
    BytesOfConcat(a, b);
    BytesOfConcat(a + b, c);
  }

  lemma EntrySizeIsExact(e: WireEntry)
    ensures EntrySize(e) == |EntryBytes(e)|
  {
    ThreeParts(Uint(1, e.term), Uint(2, e.index), Bytes(3, e.data));
    SizesAreExact(1, e.term, []);
    SizesAreExact(2, e.index, []);
    SizesAreExact(3, 0, e.data);
  }

  lemma HardSizeIsExact(h: HardState)
    ensures HardSize(h) == |HardBytes(h)|
  {
    ThreeParts(Uint(1, h.term), Uint(2, h.votedFor), Uint(3, h.commit));
    SizesAreExact(1, h.term, []);
    SizesAreExact(2, h.votedFor, []);
    SizesAreExact(3, h.commit, []);
  }

  lemma {:induction false} EntriesSizeIsExact(es: seq<WireEntry>)
    ensures EntriesSize(es) == |FieldsBytes(EntryBlobs(es))|
  {
    if es != [] {
      EntrySizeIsExact(es[0]);
      SizesAreExact(1, 0, EntryBytes(es[0]));
      OneField(Blob(1, EntryBytes(es[0])));
      BytesOfConcat([Blob(1, EntryBytes(es[0]))], EntryBlobs(es[1..]));
      EntriesSizeIsExact(es[1..]);
    }
  }

  lemma LogSizeIsExact(l: WireLog)
    ensures LogSize(l) == |LogBytes(l)|
  {
    ThreeParts(EntryBlobs(l.entries), Uint(2, l.includedIndex), Uint(3, l.includedTerm));
    EntriesSizeIsExact(l.entries);
    SizesAreExact(2, l.includedIndex, []);
    SizesAreExact(3, l.includedTerm, []);
  }

  lemma MaybeBlobSize(f: int, present: bool, b: seq<byte>)
    requires 1 <= f < 16
    ensures |FieldsBytes(if present then [Blob(f, b)] else [])| == if present then BlobSize(|b|) else 0
  {
    SizesAreExact(f, 0, b);
    OneField(Blob(f, b));
  }

  /** Size is the number of bytes that Marshal writes, at every level. */
  lemma StateSizeIsExact(s: RaftState)
    ensures StateSize(s) == |StateBytes(s)|
  {
    var h, l := if s.hard.Some? then HardBytes(s.hard.value) else [], if s.log.Some? then LogBytes(s.log.value) else [];
    BytesOfConcat(if s.hard.Some? then [Blob(1, h)] else [], if s.log.Some? then [Blob(2, l)] else []);
    MaybeBlobSize(1, s.hard.Some?, h);
    MaybeBlobSize(2, s.log.Some?, l);
    if s.hard.Some? {
      HardSizeIsExact(s.hard.value);
    }
    if s.log.Some? {
      LogSizeIsExact(s.log.value);
    }
  }

  // ---------- what is read ----------

  function PutEntry(e: WireEntry, f: Field): WireEntry {
    match f
    case Num(n, v) => if n == 1 then e.(term := v) else e.(index := v)
    case Blob(n, p) => e.(data := p)
  }

  function FoldEntry(e: WireEntry, fs: seq<Field>): WireEntry
    decreases |fs|
  {
    if fs == [] then e else FoldEntry(PutEntry(e, fs[0]), fs[1..])
  }

  function PutHard(h: HardState, f: Field): HardState {
    match f
    case Num(n, v) => if n == 1 then h.(term := v) else if n == 2 then h.(votedFor := v) else h.(commit := v)
    case Blob(n, p) => h
  }

  function FoldHard(h: HardState, fs: seq<Field>): HardState
    decreases |fs|
  {
    if fs == [] then h else FoldHard(PutHard(h, fs[0]), fs[1..])
  }

  /** Unmarshal on top of what the message already holds. */
  function MergeEntry(e: WireEntry, s: seq<byte>): Option<WireEntry> {
    match Fields(EntryKinds, s) case None => None case Some(fs) => Some(FoldEntry(e, fs))
  }

  function MergeHard(h: HardState, s: seq<byte>): Option<HardState> {
    match Fields(HardKinds, s) case None => None case Some(fs) => Some(FoldHard(h, fs))
  }

  function PutLog(l: WireLog, f: Field): Option<WireLog> {
    match f
    case Num(n, v) => Some(if n == 2 then l.(includedIndex := v) else l.(includedTerm := v))
    case Blob(n, p) =>
      match MergeEntry(NoEntry, p)
      case None => None
      case Some(e) => Some(l.(entries := l.entries + [e]))
  }

  function FoldLog(l: WireLog, fs: seq<Field>): Option<WireLog>
    decreases |fs|
  {
    if fs == [] then Some(l)
    else match PutLog(l, fs[0]) case None => None case Some(m) => FoldLog(m, fs[1..])
  }

  function MergeLogBytes(l: WireLog, s: seq<byte>): Option<WireLog> {
    match Fields(LogKinds, s) case None => None case Some(fs) => FoldLog(l, fs)
  }

  function PutState(s: RaftState, f: Field): Option<RaftState> {
    match f
    case Num(n, v) => Some(s)
    case Blob(n, p) =>
      if n == 1 then
        match MergeHard(if s.hard.Some? then s.hard.value else NoHard, p)
        case None => None
        case Some(h) => Some(s.(hard := Some(h)))
      else
        match MergeLogBytes(if s.log.Some? then s.log.value else NoLog, p)
        case None => None
        case Some(l) => Some(s.(log := Some(l)))
  }

  function FoldState(s: RaftState, fs: seq<Field>): Option<RaftState>
    decreases |fs|
  {
    if fs == [] then Some(s)
    else match PutState(s, fs[0]) case None => None case Some(t) => FoldState(t, fs[1..])
  }

  function MergeState(s: RaftState, b: seq<byte>): Option<RaftState> {
    match Fields(StateKinds, b) case None => None case Some(fs) => FoldState(s, fs)
  }

  // ---------- round trips ----------

  /** The numbers are uint64s and the buffers of the size that Go allows. */
  predicate EntryFits(e: WireEntry) {
    e.term < TwoTo64 && e.index < TwoTo64 && |e.data| < TwoTo63 && EntrySize(e) < TwoTo63
  }

  predicate HardFits(h: HardState) {
    h.term < TwoTo64 && h.votedFor < TwoTo64 && h.commit < TwoTo64 && HardSize(h) < TwoTo63
  }

  predicate LogFits(l: WireLog) {
    && (forall k :: 0 <= k < |l.entries| ==> EntryFits(l.entries[k]))
    && l.includedIndex < TwoTo64 && l.includedTerm < TwoTo64 && LogSize(l) < TwoTo63
  }

  predicate StateFits(s: RaftState) {
    (s.hard.Some? ==> HardFits(s.hard.value)) && (s.log.Some? ==> LogFits(s.log.value))
  }

  lemma ReadWhole(kinds: Kinds, fs: seq<Field>)
    requires forall k :: 0 <= k < |fs| ==> Fits(kinds, fs[k])
    ensures FieldsOk(fs) && Fields(kinds, FieldsBytes(fs)) == Some(fs)
  {
    FieldsRoundTrip(kinds, fs, []);
    assert FieldsBytes(fs) + [] == FieldsBytes(fs);
    assert fs + [] == fs;
  }

  lemma EntryRoundTrip(e: WireEntry)
    requires EntryFits(e)
    ensures MergeEntry(NoEntry, EntryBytes(e)) == Some(e)
  {
    ReadWhole(EntryKinds, EntryFields(e));
    FoldEntryFields(e);
  }

  lemma FoldEntryTwo(e: WireEntry, a: seq<Field>, b: seq<Field>)
    ensures FoldEntry(e, a + b) == FoldEntry(FoldEntry(e, a), b)
    decreases |a|
  {
    if a == [] {
      assert a + b == b;
    } else {
      assert (a + b)[1..] == a[1..] + b;
      FoldEntryTwo(PutEntry(e, a[0]), a[1..], b);
    }
  }

  lemma FoldEntryFields(e: WireEntry)
    ensures FoldEntry(NoEntry, EntryFields(e)) == e
  {
    FoldEntryTwo(NoEntry, Uint(1, e.term) + Uint(2, e.index), Bytes(3, e.data));
    FoldEntryTwo(NoEntry, Uint(1, e.term), Uint(2, e.index));
  }

  lemma FoldHardTwo(h: HardState, a: seq<Field>, b: seq<Field>)
    ensures FoldHard(h, a + b) == FoldHard(FoldHard(h, a), b)
    decreases |a|
  {
    if a == [] {
      assert a + b == b;
    } else {
      assert (a + b)[1..] == a[1..] + b;
      FoldHardTwo(PutHard(h, a[0]), a[1..], b);
    }
  }

  lemma HardRoundTrip(h: HardState)
    requires HardFits(h)
    ensures MergeHard(NoHard, HardBytes(h)) == Some(h)
  {
    ReadWhole(HardKinds, HardFields(h));
    FoldHardTwo(NoHard, Uint(1, h.term) + Uint(2, h.votedFor), Uint(3, h.commit));
    FoldHardTwo(NoHard, Uint(1, h.term), Uint(2, h.votedFor));
  }

  lemma FoldLogFirst(l: WireLog, f: Field, fs: seq<Field>, m: WireLog)
    requires PutLog(l, f) == Some(m)
    ensures FoldLog(l, [f] + fs) == FoldLog(m, fs)
  {
    assert ([f] + fs)[1..] == fs;
  }

  lemma FoldEntryBlob(l: WireLog, e: WireEntry, es: seq<WireEntry>, fs: seq<Field>)
    requires EntryFits(e)
    ensures FoldLog(l, EntryBlobs([e] + es) + fs) == FoldLog(l.(entries := l.entries + [e]), EntryBlobs(es) + fs)
  {
    EntryRoundTrip(e);
    FoldLogFirst(l, Blob(1, EntryBytes(e)), EntryBlobs(es) + fs, l.(entries := l.entries + [e]));
    assert ([e] + es)[1..] == es;
    assert EntryBlobs([e] + es) + fs == [Blob(1, EntryBytes(e))] + (EntryBlobs(es) + fs);
  }

  lemma FirstOfRest(a: seq<WireEntry>, b: seq<WireEntry>)
    requires b != []
    ensures b == [b[0]] + b[1..] && a + [b[0]] + b[1..] == a + b
  {
  }

  /** The entries are read back one by one, in order, and reading goes on behind them. */
  lemma {:induction false} FoldBlobs(l: WireLog, es: seq<WireEntry>, fs: seq<Field>)
    requires forall k :: 0 <= k < |es| ==> EntryFits(es[k])
    ensures FoldLog(l, EntryBlobs(es) + fs) == FoldLog(l.(entries := l.entries + es), fs)
    decreases |es|
  {
    if es == [] {
      assert EntryBlobs(es) + fs == fs && l.entries + es == l.entries;
    } else {
      FirstOfRest(l.entries, es);
      FoldEntryBlob(l, es[0], es[1..], fs);
      FoldBlobs(l.(entries := l.entries + [es[0]]), es[1..], fs);
    }
  }

  lemma {:induction false} EntryBlobAt(es: seq<WireEntry>, k: nat)
    requires k < |es|
    ensures EntryBlobs(es)[k] == Blob(1, EntryBytes(es[k]))
  {
    if k > 0 {
      EntryBlobAt(es[1..], k - 1);
    }
  }

  lemma LogFieldsFit(l: WireLog)
    requires LogFits(l)
    ensures forall k :: 0 <= k < |LogFields(l)| ==> Fits(LogKinds, LogFields(l)[k])
  {
    forall k | 0 <= k < |l.entries|
      ensures Fits(LogKinds, EntryBlobs(l.entries)[k])
    {
      EntryBlobAt(l.entries, k);
      EntrySizeIsExact(l.entries[k]);
    }
  }

  lemma LogRoundTrip(l: WireLog)
    requires LogFits(l)
    ensures MergeLogBytes(NoLog, LogBytes(l)) == Some(l)
  {
    var a, b := Uint(2, l.includedIndex), Uint(3, l.includedTerm);
    LogFieldsFit(l);
    ReadWhole(LogKinds, LogFields(l));
    assert LogFields(l) == EntryBlobs(l.entries) + (a + b);
    FoldBlobs(NoLog, l.entries, a + b);
    assert [] + l.entries == l.entries;
    FoldNumbers(WireLog(l.entries, 0, 0), l.includedIndex, l.includedTerm);
  }

  lemma FoldNumbers(l: WireLog, i: nat, t: nat)
    requires l.includedIndex == 0 && l.includedTerm == 0
    ensures FoldLog(l, Uint(2, i) + Uint(3, t)) == Some(l.(includedIndex := i, includedTerm := t))
  {
    var m := l.(includedIndex := i);
    FoldLastNumber(m, t);
    if i == 0 {
      assert Uint(2, i) + Uint(3, t) == Uint(3, t);
    } else {
      FoldLogFirst(l, Num(2, i), Uint(3, t), m);
    }
  }

  lemma FoldLastNumber(l: WireLog, t: nat)
    requires l.includedTerm == 0
    ensures FoldLog(l, Uint(3, t)) == Some(l.(includedTerm := t))
  {
    if t != 0 {
      assert Uint(3, t) == [Num(3, t)] + [];
      FoldLogFirst(l, Num(3, t), [], l.(includedTerm := t));
    }
  }

  lemma StateFieldsFit(s: RaftState)
    requires StateFits(s)
    ensures forall k :: 0 <= k < |StateFields(s)| ==> Fits(StateKinds, StateFields(s)[k])
  {
    if s.hard.Some? {
      HardSizeIsExact(s.hard.value);
    }
    if s.log.Some? {
      LogSizeIsExact(s.log.value);
    }
  }

  lemma PutHardBlob(h: HardState)
    requires HardFits(h)
    ensures PutState(NoState, Blob(1, HardBytes(h))) == Some(RaftState(Some(h), None))
  {
    HardRoundTrip(h);
  }

  lemma PutLogBlob(s: RaftState, l: WireLog)
    requires LogFits(l) && s.log == None
    ensures PutState(s, Blob(2, LogBytes(l))) == Some(s.(log := Some(l)))
  {
    LogRoundTrip(l);
  }

  lemma FoldStateFirst(s: RaftState, f: Field, fs: seq<Field>, t: RaftState)
    requires PutState(s, f) == Some(t)
    ensures FoldState(s, [f] + fs) == FoldState(t, fs)
  {
    assert ([f] + fs)[1..] == fs;
  }

  lemma FoldLogBlob(s: RaftState, l: Option<WireLog>)
    requires s.log == None && (l.Some? ==> LogFits(l.value))
    ensures FoldState(s, if l.Some? then [Blob(2, LogBytes(l.value))] else []) == Some(s.(log := l))
  {
    if l.Some? {
      PutLogBlob(s, l.value);
      assert [Blob(2, LogBytes(l.value))] == [Blob(2, LogBytes(l.value))] + [];
      FoldStateFirst(s, Blob(2, LogBytes(l.value)), [], s.(log := l));
    }
  }

  /** What persist() writes is what a restart reads: for every state, with any list of entries. */
  lemma StateRoundTrip(s: RaftState)
    requires StateFits(s)
    ensures MergeState(NoState, StateBytes(s)) == Some(s)
  {
    StateFieldsFit(s);
    ReadWhole(StateKinds, StateFields(s));
    FoldLogBlob(RaftState(s.hard, None), s.log);
    var rest := if s.log.Some? then [Blob(2, LogBytes(s.log.value))] else [];
    if s.hard.Some? {
      PutHardBlob(s.hard.value);
      FoldStateFirst(NoState, Blob(1, HardBytes(s.hard.value)), rest, RaftState(s.hard, None));
    } else {
      assert StateFields(s) == rest;
    }
  }

  // ---------- the code ----------

  method MarshalEntry(e: WireEntry, dAtA: array<byte>, end: nat) returns (i: nat)
    requires EntrySize(e) <= end <= dAtA.Length
    modifies dAtA
    ensures i == end - EntrySize(e) && Written(old(dAtA[..]), dAtA[..], i, end, EntryBytes(e))
  {
    ThreeParts(Uint(1, e.term), Uint(2, e.index), Bytes(3, e.data));
    var a, b, c := FieldsBytes(Uint(1, e.term)), FieldsBytes(Uint(2, e.index)), FieldsBytes(Bytes(3, e.data));
    var j := WriteBytes(dAtA, end, 3, e.data);
    label data:
    var k := WriteUint(dAtA, j, 2, e.index);
    WrittenBefore(old(dAtA[..]), old@data(dAtA[..]), dAtA[..], k, j, end, b, c);
    label index:
    i := WriteUint(dAtA, k, 1, e.term);
    WrittenBefore(old(dAtA[..]), old@index(dAtA[..]), dAtA[..], i, k, end, a, b + c);
    Regroup(a, b, c);
  }

  method MarshalHard(h: HardState, dAtA: array<byte>, end: nat) returns (i: nat)
    requires HardSize(h) <= end <= dAtA.Length
    modifies dAtA
    ensures i == end - HardSize(h) && Written(old(dAtA[..]), dAtA[..], i, end, HardBytes(h))
  {
    ThreeParts(Uint(1, h.term), Uint(2, h.votedFor), Uint(3, h.commit));
    var a, b, c := FieldsBytes(Uint(1, h.term)), FieldsBytes(Uint(2, h.votedFor)), FieldsBytes(Uint(3, h.commit));
    var j := WriteUint(dAtA, end, 3, h.commit);
    label commit:
    var k := WriteUint(dAtA, j, 2, h.votedFor);
    WrittenBefore(old(dAtA[..]), old@commit(dAtA[..]), dAtA[..], k, j, end, b, c);
    label vote:
    i := WriteUint(dAtA, k, 1, h.term);
    WrittenBefore(old(dAtA[..]), old@vote(dAtA[..]), dAtA[..], i, k, end, a, b + c);
    Regroup(a, b, c);
  }

  /** One nested message: the payload, its length, its tag, each in front of the last. */
  method MarshalEntryBlob(e: WireEntry, dAtA: array<byte>, end: nat) returns (i: nat)
    requires BlobSize(EntrySize(e)) <= end <= dAtA.Length
    modifies dAtA
    ensures i == end - BlobSize(EntrySize(e)) && Written(old(dAtA[..]), dAtA[..], i, end, FieldBytes(Blob(1, EntryBytes(e))))
  {
    var j := MarshalEntry(e, dAtA, end);
    label payload:
    EntrySizeIsExact(e);
    i := WritePrefix(dAtA, j, 1, end - j);
    WrittenBefore(old(dAtA[..]), old@payload(dAtA[..]), dAtA[..], i, j, end, Tag(1, 2) + Varint(end - j), EntryBytes(e));
    Regroup(Tag(1, 2), Varint(end - j), EntryBytes(e));
  }

  lemma {:induction false} EntriesSizeSplit(es: seq<WireEntry>, n: nat)
    requires n < |es|
    ensures EntriesSize(es[n..]) == BlobSize(EntrySize(es[n])) + EntriesSize(es[n + 1..])
    ensures EntriesSize(es) >= EntriesSize(es[n..])
    ensures FieldsBytes(EntryBlobs(es[n..])) == FieldBytes(Blob(1, EntryBytes(es[n]))) + FieldsBytes(EntryBlobs(es[n + 1..]))
  {
    assert es[n..][1..] == es[n + 1..];
    BytesOfConcat([Blob(1, EntryBytes(es[n]))], EntryBlobs(es[n + 1..]));
    OneField(Blob(1, EntryBytes(es[n])));
    if n > 0 {
      EntriesSizeSplit(es, n - 1);
    } else {
      assert es[0..] == es;
    }
  }

  /** Writes the entries from the last to the first. */
  method MarshalEntries(es: seq<WireEntry>, dAtA: array<byte>, end: nat) returns (i: nat)
    requires EntriesSize(es) <= end <= dAtA.Length
    modifies dAtA
    ensures i == end - EntriesSize(es) && Written(old(dAtA[..]), dAtA[..], i, end, FieldsBytes(EntryBlobs(es)))
  {
    i := end;
    var n := |es|;
    while n > 0
      invariant 0 <= n <= |es| && i == end - EntriesSize(es[n..])
      invariant Written(old(dAtA[..]), dAtA[..], i, end, FieldsBytes(EntryBlobs(es[n..])))
    {
      n := n - 1;
      EntriesSizeSplit(es, n);
      ghost var was, j, done := dAtA[..], i, FieldsBytes(EntryBlobs(es[n + 1..]));
      i := MarshalEntryBlob(es[n], dAtA, i);
      WrittenBefore(old(dAtA[..]), was, dAtA[..], i, j, end, FieldBytes(Blob(1, EntryBytes(es[n]))), done);
    }
    assert es[0..] == es;
  }

  method MarshalLog(l: WireLog, dAtA: array<byte>, end: nat) returns (i: nat)
    requires LogSize(l) <= end <= dAtA.Length
    modifies dAtA
    ensures i == end - LogSize(l) && Written(old(dAtA[..]), dAtA[..], i, end, LogBytes(l))
  {
    ThreeParts(EntryBlobs(l.entries), Uint(2, l.includedIndex), Uint(3, l.includedTerm));
    var a, b, c := FieldsBytes(EntryBlobs(l.entries)), FieldsBytes(Uint(2, l.includedIndex)), FieldsBytes(Uint(3, l.includedTerm));
    var j := WriteUint(dAtA, end, 3, l.includedTerm);
    label term:
    var k := WriteUint(dAtA, j, 2, l.includedIndex);
    WrittenBefore(old(dAtA[..]), old@term(dAtA[..]), dAtA[..], k, j, end, b, c);
    label index:
    i := MarshalEntries(l.entries, dAtA, k);
    WrittenBefore(old(dAtA[..]), old@index(dAtA[..]), dAtA[..], i, k, end, a, b + c);
    Regroup(a, b, c);
  }

  method MarshalLogBlob(l: WireLog, dAtA: array<byte>, end: nat) returns (i: nat)
    requires BlobSize(LogSize(l)) <= end <= dAtA.Length
    modifies dAtA
    ensures i == end - BlobSize(LogSize(l)) && Written(old(dAtA[..]), dAtA[..], i, end, FieldBytes(Blob(2, LogBytes(l))))
  {
    var j := MarshalLog(l, dAtA, end);
    label payload:
    LogSizeIsExact(l);
    i := WritePrefix(dAtA, j, 2, end - j);
    WrittenBefore(old(dAtA[..]), old@payload(dAtA[..]), dAtA[..], i, j, end, Tag(2, 2) + Varint(end - j), LogBytes(l));
    Regroup(Tag(2, 2), Varint(end - j), LogBytes(l));
  }

  method MarshalHardBlob(h: HardState, dAtA: array<byte>, end: nat) returns (i: nat)
    requires BlobSize(HardSize(h)) <= end <= dAtA.Length
    modifies dAtA
    ensures i == end - BlobSize(HardSize(h)) && Written(old(dAtA[..]), dAtA[..], i, end, FieldBytes(Blob(1, HardBytes(h))))
  {
    var j := MarshalHard(h, dAtA, end);
    label payload:
    HardSizeIsExact(h);
    i := WritePrefix(dAtA, j, 1, end - j);
    WrittenBefore(old(dAtA[..]), old@payload(dAtA[..]), dAtA[..], i, j, end, Tag(1, 2) + Varint(end - j), HardBytes(h));
    Regroup(Tag(1, 2), Varint(end - j), HardBytes(h));
  }

  method MarshalLogField(l: Option<WireLog>, dAtA: array<byte>, end: nat) returns (i: nat)
    requires (if l.Some? then BlobSize(LogSize(l.value)) else 0) <= end <= dAtA.Length
    modifies dAtA
    ensures i == end - (if l.Some? then BlobSize(LogSize(l.value)) else 0)
    ensures Written(old(dAtA[..]), dAtA[..], i, end, FieldsBytes(LogField(l)))
  {
    i := end;
    if l.Some? {
      OneField(Blob(2, LogBytes(l.value)));
      i := MarshalLogBlob(l.value, dAtA, end);
    }
  }

  method MarshalHardField(h: Option<HardState>, dAtA: array<byte>, end: nat) returns (i: nat)
    requires (if h.Some? then BlobSize(HardSize(h.value)) else 0) <= end <= dAtA.Length
    modifies dAtA
    ensures i == end - (if h.Some? then BlobSize(HardSize(h.value)) else 0)
    ensures Written(old(dAtA[..]), dAtA[..], i, end, FieldsBytes(HardField(h)))
  {
    i := end;
    if h.Some? {
      OneField(Blob(1, HardBytes(h.value)));
      i := MarshalHardBlob(h.value, dAtA, end);
    }
  }

  method MarshalState(s: RaftState, dAtA: array<byte>, end: nat) returns (i: nat)
    requires StateSize(s) <= end <= dAtA.Length
    modifies dAtA
    ensures i == end - StateSize(s) && Written(old(dAtA[..]), dAtA[..], i, end, StateBytes(s))
  {
    BytesOfConcat(HardField(s.hard), LogField(s.log));
    var j := MarshalLogField(s.log, dAtA, end);
    label log:
    i := MarshalHardField(s.hard, dAtA, j);
    WrittenBefore(old(dAtA[..]), old@log(dAtA[..]), dAtA[..], i, j, end, FieldsBytes(HardField(s.hard)), FieldsBytes(LogField(s.log)));
  }

  /** RaftState.Marshal: a buffer of exactly Size() bytes, filled from its end. */
  method Marshal(s: RaftState) returns (data: array<byte>)
    ensures fresh(data) && data[..] == StateBytes(s)
  {
    data := new byte[StateSize(s)](i => 0);
    var i := MarshalState(s, data, data.Length);
    assert data[..][0..data.Length] == data[..];
  }

  // The decoders. Each turn of a loop is one step of the fold.

  lemma EntryTurn(e: WireEntry, s: seq<byte>)
    requires s != []
    ensures var p := ReadPiece(EntryKinds, s);
            MergeEntry(e, s) == match p case Bad => None
                                        case Skipped(n) => MergeEntry(e, s[n..])
                                        case Known(f, n) => MergeEntry(PutEntry(e, f), s[n..])
  {
    FieldsUnfold(EntryKinds, s);
    var p := ReadPiece(EntryKinds, s);
    if p.Known? && Fields(EntryKinds, s[p.size..]).Some? {
      var rest := Fields(EntryKinds, s[p.size..]).value;
      assert ([p.field] + rest)[1..] == rest;
    }
  }

  method UnmarshalEntry(e0: WireEntry, dAtA: seq<byte>) returns (r: Option<WireEntry>)
    ensures r == MergeEntry(e0, dAtA)
  {
    var e, i := e0, 0;
    while i < |dAtA|
      invariant 0 <= i <= |dAtA| && MergeEntry(e0, dAtA) == MergeEntry(e, dAtA[i..])
    {
      EntryTurn(e, dAtA[i..]);
      var p := ReadPieceAt(EntryKinds, dAtA, i);
      if p.Bad? {
        return None;
      }
      assert dAtA[i..][p.size..] == dAtA[i + p.size..];
      e, i := if p.Known? then PutEntry(e, p.field) else e, i + p.size;
    }
    return Some(e);
  }

  lemma HardTurn(h: HardState, s: seq<byte>)
    requires s != []
    ensures var p := ReadPiece(HardKinds, s);
            MergeHard(h, s) == match p case Bad => None
                                       case Skipped(n) => MergeHard(h, s[n..])
                                       case Known(f, n) => MergeHard(PutHard(h, f), s[n..])
  {
    FieldsUnfold(HardKinds, s);
    var p := ReadPiece(HardKinds, s);
    if p.Known? && Fields(HardKinds, s[p.size..]).Some? {
      var rest := Fields(HardKinds, s[p.size..]).value;
      assert ([p.field] + rest)[1..] == rest;
    }
  }

  method UnmarshalHard(h0: HardState, dAtA: seq<byte>) returns (r: Option<HardState>)
    ensures r == MergeHard(h0, dAtA)
  {
    var h, i := h0, 0;
    while i < |dAtA|
      invariant 0 <= i <= |dAtA| && MergeHard(h0, dAtA) == MergeHard(h, dAtA[i..])
    {
      HardTurn(h, dAtA[i..]);
      var p := ReadPieceAt(HardKinds, dAtA, i);
      if p.Bad? {
        return None;
      }
      assert dAtA[i..][p.size..] == dAtA[i + p.size..];
      h, i := if p.Known? then PutHard(h, p.field) else h, i + p.size;
    }
    return Some(h);
  }

  lemma LogTurn(l: WireLog, s: seq<byte>)
    requires s != []
    ensures var p := ReadPiece(LogKinds, s);
            match p
            case Bad => MergeLogBytes(l, s) == None
            case Skipped(n) => MergeLogBytes(l, s) == MergeLogBytes(l, s[n..])
            case Known(f, n) =>
              && (PutLog(l, f) == None ==> MergeLogBytes(l, s) == None)
              && (PutLog(l, f).Some? ==> MergeLogBytes(l, s) == MergeLogBytes(PutLog(l, f).value, s[n..]))
  {
    FieldsUnfold(LogKinds, s);
    var p := ReadPiece(LogKinds, s);
    if p.Known? && Fields(LogKinds, s[p.size..]).Some? {
      var rest := Fields(LogKinds, s[p.size..]).value;
      assert ([p.field] + rest)[1..] == rest;
    }
  }

  method ReadLogField(l: WireLog, f: Field) returns (r: Option<WireLog>)
    ensures r == PutLog(l, f)
  {
    match f
    case Num(n, v) => return Some(if n == 2 then l.(includedIndex := v) else l.(includedTerm := v));
    case Blob(n, p) =>
      var e := UnmarshalEntry(NoEntry, p);
      return if e.None? then None else Some(l.(entries := l.entries + [e.value]));
  }

  method UnmarshalLog(l0: WireLog, dAtA: seq<byte>) returns (r: Option<WireLog>)
    ensures r == MergeLogBytes(l0, dAtA)
  {
    var l, i := l0, 0;
    while i < |dAtA|
      invariant 0 <= i <= |dAtA| && MergeLogBytes(l0, dAtA) == MergeLogBytes(l, dAtA[i..])
    {
      LogTurn(l, dAtA[i..]);
      var p := ReadPieceAt(LogKinds, dAtA, i);
      if p.Bad? {
        return None;
      }
      assert dAtA[i..][p.size..] == dAtA[i + p.size..];
      if p.Known? {
        var m := ReadLogField(l, p.field);
        if m.None? {
          return None;
        }
        l := m.value;
      }
      i := i + p.size;
    }
    return Some(l);
  }

  lemma StateTurn(t: RaftState, s: seq<byte>)
    requires s != []
    ensures var p := ReadPiece(StateKinds, s);
            match p
            case Bad => MergeState(t, s) == None
            case Skipped(n) => MergeState(t, s) == MergeState(t, s[n..])
            case Known(f, n) =>
              && (PutState(t, f) == None ==> MergeState(t, s) == None)
              && (PutState(t, f).Some? ==> MergeState(t, s) == MergeState(PutState(t, f).value, s[n..]))
  {
    FieldsUnfold(StateKinds, s);
    var p := ReadPiece(StateKinds, s);
    if p.Known? && Fields(StateKinds, s[p.size..]).Some? {
      var rest := Fields(StateKinds, s[p.size..]).value;
      assert ([p.field] + rest)[1..] == rest;
    }
  }

  method ReadStateField(t: RaftState, f: Field) returns (r: Option<RaftState>)
    ensures r == PutState(t, f)
  {
    match f
    case Num(n, v) => return Some(t);
    case Blob(n, p) =>
      if n == 1 {
        var h := UnmarshalHard(if t.hard.Some? then t.hard.value else NoHard, p);
        return if h.None? then None else Some(t.(hard := Some(h.value)));
      }
      var l := UnmarshalLog(if t.log.Some? then t.log.value else NoLog, p);
      return if l.None? then None else Some(t.(log := Some(l.value)));
  }

  /** RaftState.Unmarshal: total, for every byte string. */
  method Unmarshal(t0: RaftState, dAtA: seq<byte>) returns (r: Option<RaftState>)
    ensures r == MergeState(t0, dAtA)
  {
    var t, i := t0, 0;
    while i < |dAtA|
      invariant 0 <= i <= |dAtA| && MergeState(t0, dAtA) == MergeState(t, dAtA[i..])
    {
      StateTurn(t, dAtA[i..]);
      var p := ReadPieceAt(StateKinds, dAtA, i);
      if p.Bad? {
        return None;
      }
      assert dAtA[i..][p.size..] == dAtA[i + p.size..];
      if p.Known? {
        var m := ReadStateField(t, p.field);
        if m.None? {
          return None;
        }
        t := m.value;
      }
      i := i + p.size;
    }
    return Some(t);
  }

  /** Unknown fields between the fields of a stored state make no difference to what is restored. */
  lemma UnknownFieldsInState(t: RaftState, a: seq<byte>, u: Unknown, c: seq<byte>)
    requires Fields(StateKinds, a).Some? && WellFormed(u) && u.field !in StateKinds
    ensures MergeState(t, a + UnknownBytes(u) + c) == MergeState(t, a + c)
  {
    UnknownFieldsAreIgnored(StateKinds, a, u, c);
  }
}
