/** Messages as sequences of tagged fields: what every generated Unmarshal loop does with a buffer, and
  * every generated Marshal with a message. */
module Records {
  import opened Wrappers
  import opened Wire

  datatype Field = Num(field: int, value: nat) | Blob(field: int, payload: seq<byte>)

  /** The wire type that a message expects of each field it knows. */
  type Kinds = map<int, nat>

  predicate KindsOk(kinds: Kinds) {
    forall f :: f in kinds ==> kinds[f] == 0 || kinds[f] == 2
  }

  /** int32(wire >> 3), which drops high bits and may be negative. */
  function FieldNum(wire: nat): int {
    var f := wire / 8 % 0x1_0000_0000;
    if f < 0x8000_0000 then f else f - 0x1_0000_0000
  }

  datatype Piece = Bad | Skipped(size: nat) | Known(field: Field, size: nat)

  predicate Within(p: Piece, n: nat) {
    p.Bad? || 1 <= p.size <= n
  }

  /** The body of a known field, `n` bytes after the start of its tag. */
  function ReadBody(f: int, kind: nat, s: seq<byte>, n: nat): (r: Piece)
    requires n >= 1
    ensures Within(r, n + |s|)
  {
    if kind == 0 then
      match ReadUint(s)
      case None => Bad
      case Some((v, m)) => Known(Num(f, v), n + m)
    else
      match ReadLength(s)
      case None => Bad
      case Some((len, m)) => if m + len > |s| then Bad else Known(Blob(f, s[m..m + len]), n + m + len)
  }

  /** One turn of the Unmarshal loop. */
  function ReadPiece(kinds: Kinds, s: seq<byte>): (r: Piece)
    ensures Within(r, |s|)
  {
    match ReadUint(s)
    case None => Bad
    case Some((wire, n)) =>
      if wire % 8 == 4 || FieldNum(wire) <= 0 then Bad
      else if FieldNum(wire) in kinds then
        if kinds[FieldNum(wire)] != wire % 8 then Bad else ReadBody(FieldNum(wire), wire % 8, s[n..], n)
      else SkipPiece(s)
  }

  function SkipPiece(s: seq<byte>): (r: Piece)
    ensures Within(r, |s|)
  {
    match Skip(s, 0)
    case None => Bad
    case Some(k) => if k > |s| then Bad else Skipped(k)
  }

  /** All known fields of a buffer, in order; None if the decoder gives up. */
  function Fields(kinds: Kinds, s: seq<byte>): Option<seq<Field>>
    decreases |s|, 1
  {
    if s == [] then Some([]) else FieldsTurn(kinds, s)
  }

  function FieldsTurn(kinds: Kinds, s: seq<byte>): Option<seq<Field>>
    requires s != []
    decreases |s|, 0
  {
    match ReadPiece(kinds, s)
    case Bad => None
    case Skipped(n) => Fields(kinds, s[n..])
    case Known(f, n) => Prepend([f], Fields(kinds, s[n..]))
  }

  lemma FieldsUnfold(kinds: Kinds, s: seq<byte>)
    requires s != []
    ensures var p := ReadPiece(kinds, s);
            && (p.Bad? ==> Fields(kinds, s) == None)
            && (p.Skipped? ==> Fields(kinds, s) == Fields(kinds, s[p.size..]))
            && (p.Known? ==> Fields(kinds, s) == Prepend([p.field], Fields(kinds, s[p.size..])))
  {
    assert Fields(kinds, s) == FieldsTurn(kinds, s);
  }

  function Prepend(fs: seq<Field>, rest: Option<seq<Field>>): Option<seq<Field>> {
    match rest case None => None case Some(gs) => Some(fs + gs)
  }

  // ---------- writing ----------

  function FieldBytes(f: Field): (r: seq<byte>)
    requires FieldOk(f.field)
    ensures |r| >= 1
  {
    match f
    case Num(n, v) => Tag(n, 0) + Varint(v)
    case Blob(n, p) => Tag(n, 2) + (Varint(|p|) + p)
  }

  predicate FieldsOk(fs: seq<Field>) {
    forall k :: 0 <= k < |fs| ==> FieldOk(fs[k].field)
  }

  function Parts(fs: seq<Field>): (r: seq<seq<byte>>)
    requires FieldsOk(fs)
    ensures |r| == |fs|
  {
    if fs == [] then [] else [FieldBytes(fs[0])] + Parts(fs[1..])
  }

  function Joined(parts: seq<seq<byte>>): seq<byte> {
    if parts == [] then [] else parts[0] + Joined(parts[1..])
  }

  function FieldsBytes(fs: seq<Field>): seq<byte>
    requires FieldsOk(fs)
  {
    Joined(Parts(fs))
  }

  /** The field is of the kind the message expects, and its value fits the Go type. */
  predicate Fits(kinds: Kinds, f: Field) {
    && FieldOk(f.field) && f.field in kinds
    && match f
       case Num(n, v) => kinds[n] == 0 && v < TwoTo64
       case Blob(n, p) => kinds[n] == 2 && |p| < TwoTo63
  }

  lemma {:induction false} PartsOfConcat(a: seq<Field>, b: seq<Field>)
    requires FieldsOk(a) && FieldsOk(b)
    ensures FieldsOk(a + b) && Parts(a + b) == Parts(a) + Parts(b)
  {
    if a == [] {
      assert a + b == b;
    } else {
      PartsOfConcat(a[1..], b);
      assert (a + b)[1..] == a[1..] + b && (a + b)[0] == a[0];
    }
  }

  lemma {:induction false} JoinedConcat(a: seq<seq<byte>>, b: seq<seq<byte>>)
    ensures Joined(a + b) == Joined(a) + Joined(b)
  {
    if a == [] {
      assert a + b == b;
    } else {
      JoinedConcat(a[1..], b);
      assert (a + b)[1..] == a[1..] + b && (a + b)[0] == a[0];
    }
  }

  lemma BytesOfConcat(a: seq<Field>, b: seq<Field>)
    requires FieldsOk(a) && FieldsOk(b)
    ensures FieldsOk(a + b) && FieldsBytes(a + b) == FieldsBytes(a) + FieldsBytes(b)
  {
    PartsOfConcat(a, b);
    JoinedConcat(Parts(a), Parts(b));
  }

  // ---------- reading back ----------

  lemma TagIsField(f: nat, kind: nat, x: seq<byte>)
    requires FieldOk(f) && kind < 8
    ensures ReadUint(Tag(f, kind) + x) == Some((8 * f + kind, |Tag(f, kind)|))
    ensures (8 * f + kind) % 8 == kind && FieldNum(8 * f + kind) == f
    ensures (Tag(f, kind) + x)[|Tag(f, kind)|..] == x
  {
    TagReads(f, kind, x);
  }

  lemma PieceBody(kinds: Kinds, s: seq<byte>, wire: nat, n: nat)
    requires ReadUint(s) == Some((wire, n)) && FieldNum(wire) > 0 && wire % 8 != 4
    requires FieldNum(wire) in kinds && kinds[FieldNum(wire)] == wire % 8
    ensures ReadPiece(kinds, s) == ReadBody(FieldNum(wire), wire % 8, s[n..], n)
  {
  }

  lemma NumBodyReads(f: int, v: nat, x: seq<byte>, n: nat)
    requires v < TwoTo64 && n >= 1
    ensures ReadBody(f, 0, Varint(v) + x, n) == Known(Num(f, v), n + |Varint(v)|)
  {
    VarintRoundTrip(v, x);
  }

  lemma BlobBodyReads(f: int, p: seq<byte>, x: seq<byte>, n: nat)
    requires |p| < TwoTo63 && n >= 1
    ensures ReadBody(f, 2, Varint(|p|) + p + x, n) == Known(Blob(f, p), n + |Varint(|p|) + p|)
  {
    VarintRoundTrip(|p|, p + x);
    Regroup(Varint(|p|), p, x);
    assert (Varint(|p|) + p + x)[|Varint(|p|)|..|Varint(|p|)| + |p|] == p;
  }

  lemma PieceReads(kinds: Kinds, f: Field, x: seq<byte>)
    requires Fits(kinds, f)
    ensures ReadPiece(kinds, FieldBytes(f) + x) == Known(f, |FieldBytes(f)|)
  {
    match f
    case Num(n, v) =>
      TagIsField(n, 0, Varint(v) + x);
      Regroup(Tag(n, 0), Varint(v), x);
      PieceBody(kinds, Tag(n, 0) + (Varint(v) + x), 8 * n, |Tag(n, 0)|);
      NumBodyReads(n, v, x, |Tag(n, 0)|);
    case Blob(n, p) =>
      TagIsField(n, 2, Varint(|p|) + p + x);
      Regroup(Tag(n, 2), Varint(|p|) + p, x);
      PieceBody(kinds, Tag(n, 2) + (Varint(|p|) + p + x), 8 * n + 2, |Tag(n, 2)|);
      BlobBodyReads(n, p, x, |Tag(n, 2)|);
  }

  lemma FieldsAfterPiece(kinds: Kinds, f: Field, first: seq<byte>, rest: seq<byte>)
    requires first != [] && ReadPiece(kinds, first + rest) == Known(f, |first|)
    ensures Fields(kinds, first + rest) == Prepend([f], Fields(kinds, rest))
  {
    assert (first + rest)[|first|..] == rest;
  }

  lemma PrependNothing(r: Option<seq<Field>>)
    ensures Prepend([], r) == r
  {
    assert r.Some? ==> [] + r.value == r.value;
  }

  ghost predicate ReadsAs(kinds: Kinds, part: seq<byte>, f: Field) {
    part != [] && forall y :: ReadPiece(kinds, part + y) == Known(f, |part|)
  }

  lemma {:induction false} JoinedReadsBack(kinds: Kinds, fs: seq<Field>, parts: seq<seq<byte>>, x: seq<byte>)
    requires |fs| == |parts| && forall k :: 0 <= k < |fs| ==> ReadsAs(kinds, parts[k], fs[k])
    ensures Fields(kinds, Joined(parts) + x) == Prepend(fs, Fields(kinds, x))
    decreases |fs|
  {
    if fs == [] {
      assert Joined(parts) + x == x;
      PrependNothing(Fields(kinds, x));
    } else {
      JoinedReadsBack(kinds, fs[1..], parts[1..], x);
      JoinedTurn(kinds, fs[0], parts[0], Joined(parts[1..]) + x, fs[1..], Fields(kinds, x));
      Regroup(parts[0], Joined(parts[1..]), x);
      assert fs == [fs[0]] + fs[1..];
    }
  }

  lemma JoinedTurn(kinds: Kinds, f: Field, part: seq<byte>, rest: seq<byte>, fs: seq<Field>, r: Option<seq<Field>>)
    requires ReadsAs(kinds, part, f) && Fields(kinds, rest) == Prepend(fs, r)
    ensures Fields(kinds, part + rest) == Prepend([f] + fs, r)
  {
    FieldsAfterPiece(kinds, f, part, rest);
    PrependTwice(f, fs, r);
  }

  lemma {:induction false} PartsAre(fs: seq<Field>, k: nat)
    requires FieldsOk(fs) && k < |fs|
    ensures Parts(fs)[k] == FieldBytes(fs[k])
  {
    if k > 0 {
      PartsAre(fs[1..], k - 1);
    }
  }

  /** What has been written is read back, and reading goes on behind it. */
  lemma FieldsRoundTrip(kinds: Kinds, fs: seq<Field>, x: seq<byte>)
    requires forall k :: 0 <= k < |fs| ==> Fits(kinds, fs[k])
    ensures FieldsOk(fs) && Fields(kinds, FieldsBytes(fs) + x) == Prepend(fs, Fields(kinds, x))
  {
    forall k | 0 <= k < |fs|
      ensures ReadsAs(kinds, Parts(fs)[k], fs[k])
    {
      PartsAre(fs, k);
      FieldReadsAs(kinds, fs[k]);
    }
    JoinedReadsBack(kinds, fs, Parts(fs), x);
  }

  lemma FieldReadsAs(kinds: Kinds, f: Field)
    requires Fits(kinds, f)
    ensures ReadsAs(kinds, FieldBytes(f), f)
  {
    forall y
      ensures ReadPiece(kinds, FieldBytes(f) + y) == Known(f, |FieldBytes(f)|)
    {
      PieceReads(kinds, f, y);
    }
  }

  // ---------- unknown fields ----------

  lemma UnknownIsSkipped(kinds: Kinds, u: Unknown, x: seq<byte>)
    requires WellFormed(u) && u.field !in kinds
    ensures ReadPiece(kinds, UnknownBytes(u) + x) == Skipped(|UnknownBytes(u)|)
  {
    SkipTakesOneRecord(u, x);
    UnknownTag(u, x);
  }

  lemma UnknownTag(u: Unknown, x: seq<byte>)
    requires WellFormed(u)
    ensures ReadUint(UnknownBytes(u) + x).Some?
    ensures var wire := ReadUint(UnknownBytes(u) + x).value.0; wire % 8 != 4 && FieldNum(wire) == u.field
  {
    match u
    case UVarint(f, v) => TagInFront(f, 0, Varint(v), x);
    case UFixed64(f, b) => TagInFront(f, 1, b, x);
    case UBytes(f, p) => TagInFront(f, 2, Varint(|p|) + p, x);
    case UGroup(f, us) => TagInFront(f, 3, MemberBytes(us) + Tag(f, 4), x);
    case UFixed32(f, b) => TagInFront(f, 5, b, x);
  }

  lemma TagInFront(f: nat, kind: nat, body: seq<byte>, x: seq<byte>)
    requires FieldOk(f) && kind < 8
    ensures ReadUint(Tag(f, kind) + body + x) == Some((8 * f + kind, |Tag(f, kind)|))
    ensures (8 * f + kind) % 8 == kind && FieldNum(8 * f + kind) == f
  {
    TagIsField(f, kind, body + x);
    assert Tag(f, kind) + body + x == Tag(f, kind) + (body + x);
  }

  lemma PieceIsLocal(kinds: Kinds, a: seq<byte>, x: seq<byte>)
    requires !ReadPiece(kinds, a).Bad?
    ensures ReadPiece(kinds, a + x) == ReadPiece(kinds, a)
  {
    ReadIsLocal(a, x);
    var (wire, n) := ReadUint(a).value;
    assert (a + x)[n..] == a[n..] + x;
    if FieldNum(wire) in kinds {
      BodyOfFieldIsLocal(FieldNum(wire), wire % 8, a[n..], x, n);
    } else {
      SkipIsLocal(a, x, 0);
    }
  }

  lemma BodyOfFieldIsLocal(f: int, kind: nat, a: seq<byte>, x: seq<byte>, n: nat)
    requires n >= 1 && !ReadBody(f, kind, a, n).Bad?
    ensures ReadBody(f, kind, a + x, n) == ReadBody(f, kind, a, n)
  {
    ReadIsLocal(a, x);
    if kind != 0 {
      var (len, m) := ReadLength(a).value;
      assert (a + x)[m..m + len] == a[m..m + len];
    }
  }

  lemma {:induction false} FieldsOfConcat(kinds: Kinds, a: seq<byte>, x: seq<byte>)
    requires Fields(kinds, a).Some?
    ensures Fields(kinds, a + x) == Prepend(Fields(kinds, a).value, Fields(kinds, x))
    decreases |a|
  {
    if a == [] {
      assert a + x == x;
      PrependNothing(Fields(kinds, x));
    } else {
      PieceIsLocal(kinds, a, x);
      var p := ReadPiece(kinds, a);
      assert (a + x)[p.size..] == a[p.size..] + x;
      FieldsOfConcat(kinds, a[p.size..], x);
      if p.Known? {
        PrependTwice(p.field, Fields(kinds, a[p.size..]).value, Fields(kinds, x));
      }
    }
  }

  lemma PrependTwice(f: Field, fs: seq<Field>, r: Option<seq<Field>>)
    ensures Prepend([f], Prepend(fs, r)) == Prepend([f] + fs, r)
  {
    assert r.Some? ==> [f] + (fs + r.value) == [f] + fs + r.value;
  }

  /** Adding a well-formed record of a field the message does not know, groups included, between any
    * records of a decodable buffer changes nothing. */
  lemma UnknownFieldsAreIgnored(kinds: Kinds, a: seq<byte>, u: Unknown, c: seq<byte>)
    requires Fields(kinds, a).Some? && WellFormed(u) && u.field !in kinds
    ensures Fields(kinds, a + UnknownBytes(u) + c) == Fields(kinds, a + c)
  {
    var ub := UnknownBytes(u);
    FieldsOfConcat(kinds, a, ub + c);
    FieldsOfConcat(kinds, a, c);
    UnknownIsSkipped(kinds, u, c);
    assert a + ub + c == a + (ub + c);
    assert (ub + c)[|ub|..] == c;
  }

  // ---------- the code ----------

  /** From `was` to `now` nothing but `[i..end]` has changed, and that is `bytes`. */
  predicate Written(was: seq<byte>, now: seq<byte>, i: nat, end: nat, bytes: seq<byte>) {
    && |was| == |now| && i <= end <= |now| && now[i..end] == bytes
    && now[..i] == was[..i] && now[end..] == was[end..]
  }

  /** What is written in front of something already written stands before it. */
  lemma WrittenBefore(a: seq<byte>, b: seq<byte>, c: seq<byte>, i: nat, j: nat, end: nat, first: seq<byte>, second: seq<byte>)
    requires Written(a, b, j, end, second) && Written(b, c, i, j, first)
    ensures Written(a, c, i, end, first + second)
  {
    assert c[j..end] == c[j..][..end - j] == b[j..][..end - j] == b[j..end];
    assert c[i..end] == c[i..j] + c[j..end];
    assert c[..i] == b[..i] == b[..j][..i] == a[..j][..i] == a[..i];
    assert c[end..] == c[j..][end - j..] == b[j..][end - j..] == b[end..];
  }

  /** The fields written for a uint64 and for bytes: none for the zero value. */
  function Uint(f: int, v: nat): (r: seq<Field>)
    requires FieldOk(f)
    ensures FieldsOk(r)
  {
    if v == 0 then [] else [Num(f, v)]
  }

  function Bytes(f: int, b: seq<byte>): (r: seq<Field>)
    requires FieldOk(f)
    ensures FieldsOk(r)
  {
    if b == [] then [] else [Blob(f, b)]
  }

  function UintSize(v: nat): nat {
    if v == 0 then 0 else 1 + Sov(v)
  }

  function BlobSize(n: nat): nat {
    1 + n + Sov(n)
  }

  function BytesSize(b: seq<byte>): nat {
    if b == [] then 0 else BlobSize(|b|)
  }

  lemma SizesAreExact(f: int, v: nat, b: seq<byte>)
    requires 1 <= f < 16
    ensures |FieldsBytes(Uint(f, v))| == UintSize(v)
    ensures |FieldsBytes(Bytes(f, b))| == BytesSize(b)
    ensures |FieldBytes(Blob(f, b))| == BlobSize(|b|)
  {
    SovIsExact(v);
    SovIsExact(|b|);
    OneField(Num(f, v));
    OneField(Blob(f, b));
  }

  lemma OneField(f: Field)
    requires FieldOk(f.field)
    ensures FieldsBytes([f]) == FieldBytes(f)
  {
    assert Parts([f]) == [FieldBytes(f)];
    assert Joined([FieldBytes(f)][1..]) == [];
  }

  /** if v != 0 { i = encodeVarint(dAtA, i, v); i--; dAtA[i] = tag } */
  method WriteUint(dAtA: array<byte>, end: nat, f: nat, v: nat) returns (i: nat)
    requires 1 <= f < 16 && UintSize(v) <= end <= dAtA.Length
    modifies dAtA
    ensures i == end - UintSize(v) && Written(old(dAtA[..]), dAtA[..], i, end, FieldsBytes(Uint(f, v)))
  {
    i := end;
    if v != 0 {
      OneField(Num(f, v));
      var j := WriteVarint(dAtA, end, v);
      label number:
      i := WriteByte(dAtA, j, 8 * f);
      WrittenBefore(old(dAtA[..]), old@number(dAtA[..]), dAtA[..], i, j, end, Tag(f, 0), Varint(v));
    }
  }

  method WriteVarint(dAtA: array<byte>, end: nat, v: nat) returns (i: nat)
    requires Sov(v) <= end <= dAtA.Length
    modifies dAtA
    ensures i == end - Sov(v) && Written(old(dAtA[..]), dAtA[..], i, end, Varint(v))
  {
    i := EncodeVarint(dAtA, end, v);
    assert dAtA[..][i..end] == dAtA[i..end];
    assert dAtA[..][..i] == dAtA[..i] && dAtA[..][end..] == dAtA[end..];
    assert old(dAtA[..])[..i] == old(dAtA[..i]) && old(dAtA[..])[end..] == old(dAtA[end..]);
  }

  /** i--; dAtA[i] = b */
  method WriteByte(dAtA: array<byte>, end: nat, b: byte) returns (i: nat)
    requires 1 <= end <= dAtA.Length
    modifies dAtA
    ensures i == end - 1 && Written(old(dAtA[..]), dAtA[..], i, end, [b])
  {
    i := end - 1;
    dAtA[i] := b;
  }

  /** i = encodeVarint(dAtA, i, size); i--; dAtA[i] = tag, in front of a payload already written. */
  method WritePrefix(dAtA: array<byte>, end: nat, f: nat, size: nat) returns (i: nat)
    requires 1 <= f < 16 && 1 + Sov(size) <= end <= dAtA.Length
    modifies dAtA
    ensures i == end - 1 - Sov(size) && Written(old(dAtA[..]), dAtA[..], i, end, Tag(f, 2) + Varint(size))
  {
    var j := WriteVarint(dAtA, end, size);
    label number:
    i := WriteByte(dAtA, j, 8 * f + 2);
    WrittenBefore(old(dAtA[..]), old@number(dAtA[..]), dAtA[..], i, j, end, Tag(f, 2), Varint(size));
  }

  method WriteBytes(dAtA: array<byte>, end: nat, f: nat, b: seq<byte>) returns (i: nat)
    requires 1 <= f < 16 && BytesSize(b) <= end <= dAtA.Length
    modifies dAtA
    ensures i == end - BytesSize(b) && Written(old(dAtA[..]), dAtA[..], i, end, FieldsBytes(Bytes(f, b)))
  {
    i := end;
    if |b| > 0 {
      OneField(Blob(f, b));
      var j := Copy(dAtA, end, b);
      label copied:
      i := WritePrefix(dAtA, j, f, |b|);
      WrittenBefore(old(dAtA[..]), old@copied(dAtA[..]), dAtA[..], i, j, end, Tag(f, 2) + Varint(|b|), b);
      Regroup(Tag(f, 2), Varint(|b|), b);
    }
  }

  /** i -= len(b); copy(dAtA[i:], b) */
  method Copy(dAtA: array<byte>, end: nat, b: seq<byte>) returns (i: nat)
    requires |b| <= end <= dAtA.Length
    modifies dAtA
    ensures i == end - |b| && Written(old(dAtA[..]), dAtA[..], i, end, b)
  {
    i := end - |b|;
    forall k | 0 <= k < |b| {
      dAtA[i + k] := b[k];
    }
    assert dAtA[..][i..end] == b;
  }

  /** One turn of an Unmarshal loop at index `i`. */
  method ReadPieceAt(kinds: Kinds, dAtA: seq<byte>, i: nat) returns (r: Piece)
    requires i < |dAtA| && KindsOk(kinds)
    ensures r == ReadPiece(kinds, dAtA[i..])
  {
    var tag := DecodeVarint(dAtA, i);
    if tag.None? {
      return Bad;
    }
    var (wire, j) := tag.value;
    SliceOfRest(dAtA, i, j, j);
    var f := FieldNum(wire);
    if wire % 8 == 4 || f <= 0 {
      return Bad;
    }
    if f in kinds {
      if kinds[f] != wire % 8 {
        return Bad;
      }
      var v := DecodeVarint(dAtA, j);
      if v.None? || (wire % 8 == 2 && v.value.0 >= TwoTo63) {
        return Bad;
      }
      var (len, k) := v.value;
      if wire % 8 == 0 {
        return Known(Num(f, len), k - i);
      }
      if k + len > |dAtA| {
        return Bad;
      }
      SliceOfRest(dAtA, j, k, k + len);
      return Known(Blob(f, dAtA[k..k + len]), k + len - i);
    }
    var n := SkipRecord(dAtA, i);
    return if n.None? || n.value > |dAtA| then Bad else Skipped(n.value - i);
  }
}
