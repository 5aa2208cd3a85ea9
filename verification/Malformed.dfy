/** What the generated decoders refuse: varints without an end, records cut short, fields of the wrong kind
  * (raft/raftpb/raft.pb.go:1698-1819, 3143-3220). */
module Malformed {
  import opened Wrappers
  import opened Wire
  import opened Records
  import RaftWire
  import ShardWire

  /** At most ten bytes, of which exactly the last one has no high bit. */
  predicate IsVarint(s: seq<byte>, n: nat) {
    1 <= n <= 10 && n <= |s| && s[n - 1] < 128 && forall k :: 0 <= k < n - 1 ==> s[k] >= 128
  }

  lemma {:induction false} VarintLenExactly(s: seq<byte>, shift: nat, n: nat)
    requires n >= 1 && shift % 7 == 0
    ensures VarintLen(s, shift) == Some(n) <==>
            shift + 7 * (n - 1) < 64 && n <= |s| && s[n - 1] < 128 && forall k :: 0 <= k < n - 1 ==> s[k] >= 128
    decreases n
  {
    if shift < 64 && s != [] && s[0] >= 128 && n > 1 {
      VarintLenExactly(s[1..], shift + 7, n - 1);
      assert forall k :: 1 <= k < |s| ==> s[k] == s[1..][k - 1];
    }
  }

  /** A varint is read exactly where there is one, and it is that one. */
  lemma ReadsExactlyVarints(s: seq<byte>, n: nat)
    ensures ReadUint(s).Some? && ReadUint(s).value.1 == n <==> IsVarint(s, n)
  {
    if n >= 1 {
      VarintLenExactly(s, 0, n);
    }
  }

  /** Ten bytes with the high bit are no number, nor are fewer without another byte behind them. */
  lemma EndlessFails(s: seq<byte>)
    requires forall k :: 0 <= k < |s| && k < 10 ==> s[k] >= 128
    ensures ReadUint(s) == None
  {
    if ReadUint(s).Some? {
      ReadsExactlyVarints(s, ReadUint(s).value.1);
    }
  }

  lemma CutIsBad(kinds: Kinds, whole: seq<byte>, k: nat)
    requires !ReadPiece(kinds, whole).Bad? && ReadPiece(kinds, whole).size == |whole| && k < |whole|
    ensures ReadPiece(kinds, whole[..k]).Bad?
  {
    assert whole[..k] + whole[k..] == whole;
    if !ReadPiece(kinds, whole[..k]).Bad? {
      PieceIsLocal(kinds, whole[..k], whole[k..]);
    }
  }

  /** A buffer that ends with what cannot be read is refused, whatever is in front. */
  lemma BadEndSpoils(kinds: Kinds, a: seq<byte>, x: seq<byte>)
    requires Fields(kinds, a).Some? && x != [] && ReadPiece(kinds, x).Bad?
    ensures Fields(kinds, a + x) == None
  {
    FieldsOfConcat(kinds, a, x);
    FieldsUnfold(kinds, x);
  }

  /** A buffer that ends inside a field, wherever in it, is refused. */
  lemma CutFieldFails(kinds: Kinds, fs: seq<Field>, f: Field, k: nat)
    requires forall j :: 0 <= j < |fs| ==> Fits(kinds, fs[j])
    requires Fits(kinds, f) && 0 < k < |FieldBytes(f)|
    ensures FieldsOk(fs) && Fields(kinds, FieldsBytes(fs) + FieldBytes(f)[..k]) == None
  {
    PieceReads(kinds, f, []);
    assert FieldBytes(f) + [] == FieldBytes(f);
    CutIsBad(kinds, FieldBytes(f), k);
    FieldsRoundTrip(kinds, fs, FieldBytes(f)[..k]);
    FieldsUnfold(kinds, FieldBytes(f)[..k]);
  }

  /** So is one that ends inside a record of an unknown field, at any depth of its groups. */
  lemma CutUnknownFails(kinds: Kinds, a: seq<byte>, u: Unknown, k: nat)
    requires Fields(kinds, a).Some? && WellFormed(u) && u.field !in kinds && 0 < k < |UnknownBytes(u)|
    ensures Fields(kinds, a + UnknownBytes(u)[..k]) == None
  {
    UnknownIsSkipped(kinds, u, []);
    assert UnknownBytes(u) + [] == UnknownBytes(u);
    CutIsBad(kinds, UnknownBytes(u), k);
    BadEndSpoils(kinds, a, UnknownBytes(u)[..k]);
  }

  lemma TagParts(f: nat, kind: nat, x: seq<byte>)
    requires kind < 8 && f < 0x2000_0000
    ensures var s, n := Varint(8 * f + kind) + x, |Varint(8 * f + kind)|;
            && ReadUint(s) == Some((8 * f + kind, n)) && s[n..] == x
            && (8 * f + kind) % 8 == kind && FieldNum(8 * f + kind) == f
  {
    VarintRoundTrip(8 * f + kind, x);
  }

  lemma WrongTagIsBad(kinds: Kinds, f: nat, kind: nat, x: seq<byte>)
    requires kind < 8 && f < 0x2000_0000 && ((f in kinds && kinds[f] != kind) || kind == 4 || f == 0)
    ensures ReadPiece(kinds, Varint(8 * f + kind) + x).Bad?
  {
    TagParts(f, kind, x);
  }

  lemma BadBodyIsBad(kinds: Kinds, f: nat, kind: nat, x: seq<byte>)
    requires kind < 8 && 0 < f < 0x2000_0000 && f in kinds && kinds[f] == kind
    requires ReadBody(f, kind, x, |Varint(8 * f + kind)|).Bad?
    ensures ReadPiece(kinds, Varint(8 * f + kind) + x).Bad?
  {
    TagParts(f, kind, x);
  }

  lemma BadRestIsBad(kinds: Kinds, f: nat, kind: nat, x: seq<byte>)
    requires kind < 8 && f < 0x2000_0000 && f !in kinds
    requires SkipRest(kind, x, 0).None? || SkipRest(kind, x, 0).value > |x|
    ensures ReadPiece(kinds, Varint(8 * f + kind) + x).Bad?
  {
    TagParts(f, kind, x);
    SkipHead(Varint(8 * f + kind) + x, 8 * f + kind, |Varint(8 * f + kind)|, 0);
  }

  /** What a length says that is negative, or reaches beyond the buffer. */
  lemma BadLengthIsBad(kinds: Kinds, f: nat, len: nat, x: seq<byte>)
    requires FieldOk(f) && (f in kinds ==> kinds[f] == 2) && |x| < len < TwoTo63
    ensures ReadPiece(kinds, Tag(f, 2) + (Varint(len) + x)).Bad?
  {
    VarintRoundTrip(len, x);
    if f in kinds {
      BadBodyIsBad(kinds, f, 2, Varint(len) + x);
    } else {
      BadRestIsBad(kinds, f, 2, Varint(len) + x);
    }
  }

  /** A known field of another wire type than its own is refused, and so are the end of a group that has not
    * begun, a field number of zero, and wire types that do not exist. */
  lemma WrongTagFails(kinds: Kinds, a: seq<byte>, f: nat, kind: nat, x: seq<byte>)
    requires Fields(kinds, a).Some? && kind < 8 && f < 0x2000_0000
    requires (f in kinds && kinds[f] != kind) || kind == 4 || f == 0 || (f !in kinds && kind > 5)
    ensures Fields(kinds, a + (Varint(8 * f + kind) + x)) == None
  {
    if f !in kinds && kind > 5 {
      BadRestIsBad(kinds, f, kind, x);
    } else {
      WrongTagIsBad(kinds, f, kind, x);
    }
    BadEndSpoils(kinds, a, Varint(8 * f + kind) + x);
  }

  /** A field number is an int32: one that is negative as such, or zero, is refused, whatever the wider number was. */
  lemma IllegalFieldFails(kinds: Kinds, a: seq<byte>, wire: nat, x: seq<byte>)
    requires Fields(kinds, a).Some? && wire < TwoTo64
    requires wire / 8 % 0x1_0000_0000 == 0 || wire / 8 % 0x1_0000_0000 >= 0x8000_0000
    ensures Fields(kinds, a + (Varint(wire) + x)) == None
  {
    VarintRoundTrip(wire, x);
    BadEndSpoils(kinds, a, Varint(wire) + x);
  }

  /** A length that reaches beyond the buffer is refused, in known fields and unknown ones; so is one that is
    * negative as an int64, whatever follows. */
  lemma BadLengthFails(kinds: Kinds, a: seq<byte>, f: nat, len: nat, x: seq<byte>)
    requires Fields(kinds, a).Some? && FieldOk(f) && (f in kinds ==> kinds[f] == 2)
    requires |x| < len < TwoTo64 || TwoTo63 <= len < TwoTo64
    ensures Fields(kinds, a + (Tag(f, 2) + (Varint(len) + x))) == None
  {
    if len < TwoTo63 {
      BadLengthIsBad(kinds, f, len, x);
    } else {
      NegativeIsBad(kinds, f, len, x);
    }
    BadEndSpoils(kinds, a, Tag(f, 2) + (Varint(len) + x));
  }

  lemma NegativeIsBad(kinds: Kinds, f: nat, len: nat, x: seq<byte>)
    requires FieldOk(f) && (f in kinds ==> kinds[f] == 2) && TwoTo63 <= len < TwoTo64
    ensures ReadPiece(kinds, Tag(f, 2) + (Varint(len) + x)).Bad?
  {
    VarintRoundTrip(len, x);
    if f in kinds {
      BadBodyIsBad(kinds, f, 2, Varint(len) + x);
    } else {
      BadRestIsBad(kinds, f, 2, Varint(len) + x);
    }
  }

  // ---------- a stored state ----------

  lemma CutTwoFails(kinds: Kinds, f: Field, g: Field, k: nat)
    requires Fits(kinds, f) && Fits(kinds, g) && 0 < k < |FieldBytes(f) + FieldBytes(g)| && k != |FieldBytes(f)|
    ensures Fields(kinds, (FieldBytes(f) + FieldBytes(g))[..k]) == None
  {
    var a, b := FieldBytes(f), FieldBytes(g);
    if k < |a| {
      CutFieldFails(kinds, [], f, k);
      assert (a + b)[..k] == [] + a[..k];
    } else {
      OneField(f);
      CutFieldFails(kinds, [f], g, k - |a|);
      assert (a + b)[..k] == a + b[..k - |a|];
    }
  }

  lemma BytesOfTwo(f: Field, g: Field)
    requires FieldOk(f.field) && FieldOk(g.field)
    ensures FieldsBytes([f, g]) == FieldBytes(f) + FieldBytes(g)
  {
    BytesOfConcat([f], [g]);
    OneField(f);
    OneField(g);
    assert [f] + [g] == [f, g];
  }

  /** A stored state that has been cut short is refused, wherever the cut is, but exactly between its two parts. */
  lemma TornStateFails(s: RaftWire.RaftState, k: nat)
    requires RaftWire.StateFits(s) && s.hard.Some? && s.log.Some? && 0 < k < |RaftWire.StateBytes(s)|
    requires k != |FieldBytes(Blob(1, RaftWire.HardBytes(s.hard.value)))|
    ensures RaftWire.MergeState(RaftWire.NoState, RaftWire.StateBytes(s)[..k]) == None
  {
    var f, g := Blob(1, RaftWire.HardBytes(s.hard.value)), Blob(2, RaftWire.LogBytes(s.log.value));
    StatePartsFit(s);
    BytesOfTwo(f, g);
    CutTwoFails(RaftWire.StateKinds, f, g, k);
  }

  lemma StatePartsFit(s: RaftWire.RaftState)
    requires RaftWire.StateFits(s) && s.hard.Some? && s.log.Some?
    ensures var f, g := Blob(1, RaftWire.HardBytes(s.hard.value)), Blob(2, RaftWire.LogBytes(s.log.value));
            Fits(RaftWire.StateKinds, f) && Fits(RaftWire.StateKinds, g) && RaftWire.StateFields(s) == [f, g]
  {
    RaftWire.HardSizeIsExact(s.hard.value);
    RaftWire.LogSizeIsExact(s.log.value);
  }

  lemma OnePart(kinds: Kinds, f: Field)
    requires Fits(kinds, f)
    ensures Fields(kinds, FieldBytes(f)) == Some([f])
  {
    RaftWire.ReadWhole(kinds, [f]);
    OneField(f);
  }

  /** A part that cannot be read spoils the message that holds it. */
  lemma BadPartSpoils(p: seq<byte>)
    requires |p| < TwoTo63
    ensures RaftWire.MergeHard(RaftWire.NoHard, p) == None ==>
              RaftWire.MergeState(RaftWire.NoState, FieldBytes(Blob(1, p))) == None
    ensures RaftWire.MergeLogBytes(RaftWire.NoLog, p) == None ==>
              RaftWire.MergeState(RaftWire.NoState, FieldBytes(Blob(2, p))) == None
    ensures RaftWire.MergeEntry(RaftWire.NoEntry, p) == None ==>
              RaftWire.MergeLogBytes(RaftWire.NoLog, FieldBytes(Blob(1, p))) == None
  {
    OnePart(RaftWire.StateKinds, Blob(1, p));
    OnePart(RaftWire.StateKinds, Blob(2, p));
    OnePart(RaftWire.LogKinds, Blob(1, p));
  }

  // ---------- inside a shard, and ids ----------

  /** What is left of a number in an int64 and in an int32: the one of that width that differs from it by a multiple
    * of two to the width. */
  lemma SignedExactly(v: nat, r: int)
    requires v < TwoTo64
    ensures ShardWire.ToInt64(v) == r <==> ShardWire.Int64(r) && (v - r) % 0x1_0000_0000_0000_0000 == 0
    ensures ShardWire.ToInt32(v) == r <==> ShardWire.Int32(r) && (v - r) % 0x1_0000_0000 == 0
  {
  }

  /** Inside an entry of the map, a record of an unknown field is passed over if it fits into the entry, and refused
    * if it runs past it. */
  lemma UnknownInPair(u: Unknown, x: seq<byte>, left: nat, k: ShardWire.Text, v: ShardWire.Text)
    requires WellFormed(u) && u.field != 1 && u.field != 2 && 0 < left
    ensures var n := |UnknownBytes(u)|;
            ShardWire.ReadPair(UnknownBytes(u) + x, left, k, v) ==
            if n > left then None else ShardWire.ReadPair(x, left - n, k, v)
  {
    SkipTakesOneRecord(u, x);
    UnknownTag(u, x);
    assert (UnknownBytes(u) + x)[|UnknownBytes(u)|..] == x;
    assert ShardWire.ReadPair(UnknownBytes(u) + x, left, k, v) == ShardWire.ReadPairOther(UnknownBytes(u) + x, left, k, v);
  }

  /** The end of a group that has not begun is no record, at the top or inside an entry of the map. */
  lemma LoneGroupEndFails(f: nat, x: seq<byte>, left: nat, k: ShardWire.Text, v: ShardWire.Text)
    requires FieldOk(f)
    ensures Skip(Tag(f, 4) + x, 0) == None
    ensures f != 1 && f != 2 && left > 0 ==> ShardWire.ReadPair(Tag(f, 4) + x, left, k, v) == None
  {
    var s := Tag(f, 4) + x;
    TagIsField(f, 4, x);
    SkipHead(s, 8 * f + 4, |Tag(f, 4)|, 0);
    if f != 1 && f != 2 && left > 0 {
      assert ShardWire.ReadPair(s, left, k, v) == ShardWire.ReadPairOther(s, left, k, v);
    }
  }

  /** A list of ids that the buffer does not hold to its end is refused. */
  lemma {:induction false} CutIDsFail(ids: seq<int>, k: nat)
    requires (forall j :: 0 <= j < |ids| ==> ShardWire.Int64(ids[j])) && k < |ShardWire.PackedBytes(ids)|
    ensures ShardWire.ReadPacked(ShardWire.PackedBytes(ids)[..k], |ShardWire.PackedBytes(ids)|) == None
  {
    var v, rest := ShardWire.ToUint64(ids[0]), ShardWire.PackedBytes(ids[1..]);
    var all := Varint(v) + rest;
    if k < |Varint(v)| {
      CutVarintFails(v, k);
      assert all[..k] == Varint(v)[..k];
    } else {
      CutIDsFail(ids[1..], k - |Varint(v)|);
      VarintRoundTrip(v, rest[..k - |Varint(v)|]);
      assert all[..k] == Varint(v) + rest[..k - |Varint(v)|];
      assert all[..k][|Varint(v)|..] == rest[..k - |Varint(v)|];
    }
  }

  lemma CutVarintFails(v: nat, k: nat)
    requires v < TwoTo64 && k < |Varint(v)|
    ensures ReadUint(Varint(v)[..k]) == None
  {
    if ReadUint(Varint(v)[..k]).Some? {
      ReadIsLocal(Varint(v)[..k], Varint(v)[k..]);
      assert Varint(v)[..k] + Varint(v)[k..] == Varint(v) + [];
      VarintRoundTrip(v, []);
    }
  }
}
