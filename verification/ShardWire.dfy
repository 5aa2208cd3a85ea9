/** Shard, with its map field, and the packed shard ids of Args (yqkvpb/yqkvpb.pb.go). */
module ShardWire {
  import opened Wrappers
  import opened Wire
  import opened Records

  type Text = seq<byte>

  datatype WireShard = WireShard(id: int, kv: map<Text, Text>, status: int)

  const NoShard := WireShard(0, map[], 0)
  const ShardKinds: Kinds := map[1 := 0, 2 := 2, 3 := 0]

  // ---------- signed numbers ----------

  predicate Int32(v: int) {
    -0x8000_0000 <= v < 0x8000_0000
  }

  predicate Int64(v: int) {
    -0x8000_0000_0000_0000 <= v < 0x8000_0000_0000_0000
  }

  /** uint64(v) of an int64, or of an int32 after sign extension. */
  function ToUint64(v: int): (r: nat)
    requires Int64(v)
    ensures r < TwoTo64
  {
    if v < 0 then v + TwoTo64 else v
  }

  function ToInt64(v: nat): int {
    if v < TwoTo63 then v else v - TwoTo64
  }

  /** What is left of a number in an int32. */
  function ToInt32(v: nat): int {
    var w := v % 0x1_0000_0000;
    if w < 0x8000_0000 then w else w - 0x1_0000_0000
  }

  lemma SignedRoundTrip(v: int)
    requires Int64(v)
    ensures ToInt64(ToUint64(v)) == v
    ensures Int32(v) ==> ToInt32(ToUint64(v)) == v
  {
  }

  lemma {:induction false} VarintAtLeast(v: nat, n: nat)
    requires v >= Pow2(7 * n)
    ensures |Varint(v)| >= n + 1
  {
    if n > 0 {
      Pow2Plus7(7 * (n - 1));
      assert Pow2(7 * n) == 128 * Pow2(7 * (n - 1)) >= 128;
      VarintAtLeast(v / 128, n - 1);
    }
  }

  /** Every negative id takes ten bytes. */
  lemma NegativeTakesTen(v: int)
    requires Int64(v) && v < 0
    ensures |Varint(ToUint64(v))| == 10
  {
    VarintAtMostTen(ToUint64(v));
    Pow2Of64(8);
    assert Pow2(64) == 2 * Pow2(63);
    VarintAtLeast(ToUint64(v), 9);
  }

  // ---------- one entry of the map ----------

  function PairBytes(k: Text, v: Text): Text {
    FieldBytes(Blob(1, k)) + FieldBytes(Blob(2, v))
  }

  /** A length-delimited string anywhere in the rest of the buffer. */
  function ReadString(s: seq<byte>): (r: Option<(Text, nat)>)
    ensures r.Some? ==> 1 <= r.value.1 <= |s|
  {
    match ReadLength(s)
    case None => None
    case Some((len, n)) => if n + len > |s| then None else Some((s[n..n + len], n + len))
  }

  /** The loop inside case KV: `s` is the rest of the buffer, of which `left` bytes belong to the entry. A
    * key or value may run past the entry, as far as the buffer goes; wire types are not looked at. */
  function ReadPair(s: seq<byte>, left: int, k: Text, v: Text): Option<(Text, Text)>
    decreases |s|, 1
  {
    if left <= 0 then Some((k, v))
    else
      match ReadUint(s)
      case None => None
      case Some((wire, n)) =>
        if FieldNum(wire) == 1 || FieldNum(wire) == 2 then ReadPairText(FieldNum(wire), s, n, left, k, v)
        else ReadPairOther(s, left, k, v)
  }

  function ReadPairText(f: int, s: seq<byte>, n: nat, left: int, k: Text, v: Text): Option<(Text, Text)>
    requires 1 <= n <= |s|
    decreases |s|, 0
  {
    match ReadString(s[n..])
    case None => None
    case Some((t, m)) => ReadPair(s[n + m..], left - n - m, if f == 1 then t else k, if f == 2 then t else v)
  }

  function ReadPairOther(s: seq<byte>, left: int, k: Text, v: Text): Option<(Text, Text)>
    decreases |s|, 0
  {
    match Skip(s, 0)
    case None => None
    case Some(m) => if m > left || m > |s| then None else ReadPair(s[m..], left - m, k, v)
  }

  lemma ReadStringOn(t: Text, x: seq<byte>)
    requires |t| < TwoTo63
    ensures ReadString(Varint(|t|) + t + x) == Some((t, |Varint(|t|) + t|))
  {
    VarintRoundTrip(|t|, t + x);
    Regroup(Varint(|t|), t, x);
  }

  lemma TextTurn(s: seq<byte>, wire: nat, n: nat, t: Text, total: nat, left: int, k: Text, v: Text, k1: Text, v1: Text)
    requires ReadUint(s) == Some((wire, n)) && (FieldNum(wire) == 1 || FieldNum(wire) == 2) && left > 0
    requires n < total && ReadString(s[n..]) == Some((t, total - n))
    requires (k1, v1) == if FieldNum(wire) == 1 then (t, v) else (k, t)
    ensures ReadPair(s, left, k, v) == ReadPair(s[total..], left - total, k1, v1)
  {
  }

  lemma NoText(s: seq<byte>, wire: nat, n: nat, left: int, k: Text, v: Text)
    requires ReadUint(s) == Some((wire, n)) && (FieldNum(wire) == 1 || FieldNum(wire) == 2) && left > 0
    requires ReadString(s[n..]) == None
    ensures ReadPair(s, left, k, v) == None
  {
  }

  lemma OtherTurn(s: seq<byte>, wire: nat, n: nat, left: int, k: Text, v: Text)
    requires ReadUint(s) == Some((wire, n)) && FieldNum(wire) != 1 && FieldNum(wire) != 2 && 0 < left <= |s|
    ensures Skip(s, 0) == None ==> ReadPair(s, left, k, v) == None
    ensures Skip(s, 0).Some? ==>
      var m := Skip(s, 0).value;
      ReadPair(s, left, k, v) == if m > left then None else ReadPair(s[m..], left - m, k, v)
  {
    assert ReadPair(s, left, k, v) == ReadPairOther(s, left, k, v);
  }

  lemma FieldParts(f: nat, t: Text, x: seq<byte>)
    requires FieldOk(f) && |t| < TwoTo63
    ensures var s, n, m := FieldBytes(Blob(f, t)) + x, |Tag(f, 2)|, |Varint(|t|) + t|;
            && ReadUint(s) == Some((8 * f + 2, n)) && FieldNum(8 * f + 2) == f
            && ReadString(s[n..]) == Some((t, m)) && s[n + m..] == x && n + m == |FieldBytes(Blob(f, t))|
  {
    TagIsField(f, 2, Varint(|t|) + t + x);
    ReadStringOn(t, x);
    Regroup(Tag(f, 2), Varint(|t|) + t, x);
  }

  lemma ReadPairField(f: nat, t: Text, x: seq<byte>, left: int, k: Text, v: Text)
    requires (f == 1 || f == 2) && |t| < TwoTo63 && left > 0
    ensures ReadPair(FieldBytes(Blob(f, t)) + x, left, k, v) ==
            ReadPair(x, left - |FieldBytes(Blob(f, t))|, if f == 1 then t else k, if f == 2 then t else v)
  {
    FieldParts(f, t, x);
    TextTurn(FieldBytes(Blob(f, t)) + x, 8 * f + 2, |Tag(f, 2)|, t, |FieldBytes(Blob(f, t))|, left, k, v,
             if f == 1 then t else k, if f == 2 then t else v);
  }

  lemma PairReads(k: Text, v: Text, x: seq<byte>)
    requires |k| < TwoTo63 && |v| < TwoTo63
    ensures ReadPair(PairBytes(k, v) + x, |PairBytes(k, v)|, [], []) == Some((k, v))
  {
    var a, b := FieldBytes(Blob(1, k)), FieldBytes(Blob(2, v));
    ReadPairField(1, k, b + x, |a| + |b|, [], []);
    ReadPairField(2, v, x, |b|, k, []);
    Regroup(a, b, x);
  }

  // ---------- the message ----------

  datatype Pair = Pair(key: Text, value: Text)

  function PairFields(ps: seq<Pair>): (r: seq<Field>)
    ensures FieldsOk(r) && |r| == |ps|
  {
    if ps == [] then [] else [Blob(2, PairBytes(ps[0].key, ps[0].value))] + PairFields(ps[1..])
  }

  /** A shard written with its pairs in the order `ps`. */
  function ShardFields(id: int, ps: seq<Pair>, status: int): (r: seq<Field>)
    requires Int64(id) && Int32(status)
    ensures FieldsOk(r)
  {
    Uint(1, ToUint64(id)) + PairFields(ps) + Uint(3, ToUint64(status))
  }

  function ShardBytes(id: int, ps: seq<Pair>, status: int): seq<byte>
    requires Int64(id) && Int32(status)
  {
    FieldsBytes(ShardFields(id, ps, status))
  }

  /** The known field at the start of `s`. */
  function PutShard(sh: WireShard, p: Piece, s: seq<byte>): Option<WireShard>
    requires p.Known? && 1 <= p.size <= |s|
  {
    match p.field
    case Num(n, v) => Some(if n == 1 then sh.(id := ToInt64(v)) else sh.(status := ToInt32(v)))
    case Blob(n, payload) =>
      if |payload| > p.size then None
      else
        match ReadPair(s[p.size - |payload|..], |payload|, [], [])
        case None => None
        case Some((k, v)) => Some(sh.(kv := sh.kv[k := v]))
  }

  /** Unmarshal of what is left of a buffer. */
  function MergeShard(sh: WireShard, s: seq<byte>): Option<WireShard>
    decreases |s|, 1
  {
    if s == [] then Some(sh) else MergeShardTurn(sh, s)
  }

  function MergeShardTurn(sh: WireShard, s: seq<byte>): Option<WireShard>
    requires s != []
    decreases |s|, 0
  {
    var p := ReadPiece(ShardKinds, s);
    match p
    case Bad => None
    case Skipped(n) => MergeShard(sh, s[n..])
    case Known(f, n) =>
      match PutShard(sh, p, s)
      case None => None
      case Some(t) => MergeShard(t, s[n..])
  }

  // ---------- round trip ----------

  /** The map that a list of pairs adds to `kv`. */
  function Filled(kv: map<Text, Text>, ps: seq<Pair>): map<Text, Text>
    decreases |ps|
  {
    if ps == [] then kv else Filled(kv[ps[0].key := ps[0].value], ps[1..])
  }

  predicate PairFits(p: Pair) {
    |p.key| < TwoTo63 && |p.value| < TwoTo63 && |PairBytes(p.key, p.value)| < TwoTo63
  }

  lemma MergeField(sh: WireShard, f: Field, x: seq<byte>, t: WireShard)
    requires Fits(ShardKinds, f)
    requires PutShard(sh, Known(f, |FieldBytes(f)|), FieldBytes(f) + x) == Some(t)
    ensures MergeShard(sh, FieldBytes(f) + x) == MergeShard(t, x)
  {
    PieceReads(ShardKinds, f, x);
    assert (FieldBytes(f) + x)[|FieldBytes(f)|..] == x;
  }

  lemma MergeBlob(sh: WireShard, b: seq<byte>, x: seq<byte>, k: Text, v: Text)
    requires |b| < TwoTo63 && ReadPair(b + x, |b|, [], []) == Some((k, v))
    ensures MergeShard(sh, FieldBytes(Blob(2, b)) + x) == MergeShard(sh.(kv := sh.kv[k := v]), x)
  {
    var head := Tag(2, 2) + Varint(|b|);
    assert FieldBytes(Blob(2, b)) + x == head + (b + x);
    assert (head + (b + x))[|head|..] == b + x;
    MergeField(sh, Blob(2, b), x, sh.(kv := sh.kv[k := v]));
  }

  lemma MergePair(sh: WireShard, p: Pair, x: seq<byte>)
    requires PairFits(p)
    ensures MergeShard(sh, FieldBytes(Blob(2, PairBytes(p.key, p.value))) + x) ==
            MergeShard(sh.(kv := sh.kv[p.key := p.value]), x)
  {
    PairReads(p.key, p.value, x);
    MergeBlob(sh, PairBytes(p.key, p.value), x, p.key, p.value);
  }

  lemma {:induction false} MergePairs(sh: WireShard, ps: seq<Pair>, x: seq<byte>)
    requires forall k :: 0 <= k < |ps| ==> PairFits(ps[k])
    ensures MergeShard(sh, FieldsBytes(PairFields(ps)) + x) == MergeShard(sh.(kv := Filled(sh.kv, ps)), x)
    decreases |ps|
  {
    if ps == [] {
      assert FieldsBytes(PairFields(ps)) + x == x;
    } else {
      var first, rest := Blob(2, PairBytes(ps[0].key, ps[0].value)), FieldsBytes(PairFields(ps[1..]));
      BytesOfConcat([first], PairFields(ps[1..]));
      OneField(first);
      MergePair(sh, ps[0], rest + x);
      MergePairs(sh.(kv := sh.kv[ps[0].key := ps[0].value]), ps[1..], x);
      Regroup(FieldBytes(first), rest, x);
    }
  }

  lemma MergeNumber(sh: WireShard, n: nat, v: nat, x: seq<byte>)
    requires (n == 1 || n == 3) && v < TwoTo64
    requires if n == 1 then sh.id == 0 else sh.status == 0
    ensures MergeShard(sh, FieldsBytes(Uint(n, v)) + x) ==
            MergeShard(if n == 1 then sh.(id := ToInt64(v)) else sh.(status := ToInt32(v)), x)
  {
    if v == 0 {
      assert FieldsBytes(Uint(n, v)) + x == x;
    } else {
      OneField(Num(n, v));
      MergeField(sh, Num(n, v), x, if n == 1 then sh.(id := ToInt64(v)) else sh.(status := ToInt32(v)));
    }
  }

  /** Whatever the order in which the pairs were written, the same shard is read back. */
  lemma ShardRoundTrip(id: int, ps: seq<Pair>, status: int)
    requires Int64(id) && Int32(status) && forall k :: 0 <= k < |ps| ==> PairFits(ps[k])
    ensures MergeShard(NoShard, ShardBytes(id, ps, status)) == Some(WireShard(id, Filled(map[], ps), status))
  {
    var i, m, t := Uint(1, ToUint64(id)), PairFields(ps), Uint(3, ToUint64(status));
    BytesOfConcat(i, m);
    BytesOfConcat(i + m, t);
    var a, b, c := FieldsBytes(i), FieldsBytes(m), FieldsBytes(t);
    SignedRoundTrip(id);
    SignedRoundTrip(status);
    Regroup(a, b, c);
    MergeNumber(NoShard, 1, ToUint64(id), b + c);
    MergePairs(WireShard(id, map[], 0), ps, c);
    assert c + [] == c;
    MergeNumber(WireShard(id, Filled(map[], ps), 0), 3, ToUint64(status), []);
  }

  /** The pairs list each key of the map once. */
  predicate Lists(ps: seq<Pair>, kv: map<Text, Text>) {
    && (forall k :: 0 <= k < |ps| ==> ps[k].key in kv && kv[ps[k].key] == ps[k].value)
    && (forall t :: t in kv ==> exists k :: 0 <= k < |ps| && ps[k].key == t)
  }

  lemma {:induction false} FilledHas(base: map<Text, Text>, ps: seq<Pair>, kv: map<Text, Text>, t: Text)
    requires forall k :: 0 <= k < |ps| ==> ps[k].key in kv && kv[ps[k].key] == ps[k].value
    ensures t in Filled(base, ps) <==> t in base || exists k :: 0 <= k < |ps| && ps[k].key == t
    ensures (exists k :: 0 <= k < |ps| && ps[k].key == t) ==> Filled(base, ps)[t] == kv[t]
    ensures t in base && (t in kv ==> base[t] == kv[t]) && t in kv ==> Filled(base, ps)[t] == kv[t]
    decreases |ps|
  {
    if ps != [] {
      var next := base[ps[0].key := ps[0].value];
      FilledHas(next, ps[1..], kv, t);
      assert forall k :: 1 <= k < |ps| ==> ps[k] == ps[1..][k - 1];
    }
  }

  lemma FilledIs(ps: seq<Pair>, kv: map<Text, Text>)
    requires Lists(ps, kv)
    ensures Filled(map[], ps) == kv
  {
    forall t
      ensures t in Filled(map[], ps) <==> t in kv
      ensures t in kv ==> Filled(map[], ps)[t] == kv[t]
    {
      FilledHas(map[], ps, kv, t);
    }
  }

  /** A shard survives encoding and decoding for every order in which Go may walk its map. */
  lemma ShardMapRoundTrip(sh: WireShard, ps: seq<Pair>)
    requires Int64(sh.id) && Int32(sh.status) && Lists(ps, sh.kv) && forall k :: 0 <= k < |ps| ==> PairFits(ps[k])
    ensures MergeShard(NoShard, ShardBytes(sh.id, ps, sh.status)) == Some(sh)
  {
    ShardRoundTrip(sh.id, ps, sh.status);
    FilledIs(ps, sh.kv);
  }

  // ---------- packed ids ----------

  function PackedBytes(ids: seq<int>): seq<byte>
    requires forall k :: 0 <= k < |ids| ==> Int64(ids[k])
  {
    if ids == [] then [] else Varint(ToUint64(ids[0])) + PackedBytes(ids[1..])
  }

  /** case 6 with wire type 2: `left` bytes of `s` belong to the list; the last id may run past them. */
  function ReadPacked(s: seq<byte>, left: int): Option<(seq<int>, nat)>
    decreases |s|, 1
  {
    if left <= 0 then Some(([], 0)) else ReadPackedTurn(s, left)
  }

  function ReadPackedTurn(s: seq<byte>, left: int): Option<(seq<int>, nat)>
    decreases |s|, 0
  {
    match ReadUint(s)
    case None => None
    case Some((v, n)) =>
      match ReadPacked(s[n..], left - n)
      case None => None
      case Some((ids, m)) => Some(([ToInt64(v)] + ids, n + m))
  }

  lemma ReadPackedFirst(s: seq<byte>, v: nat, n: nat, left: int)
    requires left > 0 && ReadUint(s) == Some((v, n))
    ensures ReadPacked(s, left) ==
            match ReadPacked(s[n..], left - n) case None => None case Some((ids, m)) => Some(([ToInt64(v)] + ids, n + m))
  {
  }

  lemma FirstID(v: nat, y: seq<byte>)
    requires v < TwoTo64
    ensures ReadUint(Varint(v) + y) == Some((v, |Varint(v)|)) && (Varint(v) + y)[|Varint(v)|..] == y
  {
    VarintRoundTrip(v, y);
  }

  /** Packed ids, negative ones included, are read back, and the index ends behind them. */
  lemma {:induction false} PackedRoundTrip(ids: seq<int>, x: seq<byte>)
    requires forall k :: 0 <= k < |ids| ==> Int64(ids[k])
    ensures ReadPacked(PackedBytes(ids) + x, |PackedBytes(ids)|) == Some((ids, |PackedBytes(ids)|))
  {
    if ids != [] {
      var v, b := ToUint64(ids[0]), PackedBytes(ids[1..]);
      SignedRoundTrip(ids[0]);
      PackedRoundTrip(ids[1..], x);
      PackedStep(v, b, x, ids[1..]);
      Regroup(Varint(v), b, x);
      assert ids == [ids[0]] + ids[1..];
    }
  }

  lemma PackedStep(v: nat, b: seq<byte>, x: seq<byte>, rest: seq<int>)
    requires v < TwoTo64 && ReadPacked(b + x, |b|) == Some((rest, |b|))
    ensures ReadPacked(Varint(v) + (b + x), |Varint(v) + b|) == Some(([ToInt64(v)] + rest, |Varint(v) + b|))
  {
    FirstID(v, b + x);
    ReadPackedFirst(Varint(v) + (b + x), v, |Varint(v)|, |Varint(v) + b|);
  }

  lemma {:induction false} PackedFitsScratch(ids: seq<int>)
    requires forall k :: 0 <= k < |ids| ==> Int64(ids[k])
    ensures |PackedBytes(ids)| <= 10 * |ids|
  {
    if ids != [] {
      VarintAtMostTen(ToUint64(ids[0]));
      PackedFitsScratch(ids[1..]);
    }
  }

  // ---------- the code ----------

  /** The loop that fills the scratch buffer dAtA3, forwards; `j` counts its bytes. */
  method PackIDs(ids: seq<int>) returns (scratch: array<byte>, j: nat)
    requires forall k :: 0 <= k < |ids| ==> Int64(ids[k])
    ensures fresh(scratch) && j <= scratch.Length && scratch[..j] == PackedBytes(ids)
  {
    scratch := new byte[10 * |ids|](i => 0);
    j := 0;
    for k := 0 to |ids|
      invariant j <= 10 * k && scratch[..j] + PackedBytes(ids[k..]) == PackedBytes(ids)
    {
      assert ids[k..][1..] == ids[k + 1..];
      VarintAtMostTen(ToUint64(ids[k]));
      ghost var was, rest := scratch[..j], PackedBytes(ids[k + 1..]);
      Regroup(was, Varint(ToUint64(ids[k])), rest);
      j := PutVarint(scratch, j, ToUint64(ids[k]));
    }
    assert ids[|ids|..] == [];
  }

  function IDsField(ids: seq<int>): (r: seq<Field>)
    requires forall k :: 0 <= k < |ids| ==> Int64(ids[k])
    ensures FieldsOk(r)
  {
    if ids == [] then [] else [Blob(6, PackedBytes(ids))]
  }

  /** if len(m.ShardIDs) > 0 { … } of Args.MarshalToSizedBuffer */
  method MarshalIDs(ids: seq<int>, dAtA: array<byte>, end: nat) returns (i: nat)
    requires forall k :: 0 <= k < |ids| ==> Int64(ids[k])
    requires |PackedBytes(ids)| < TwoTo63 && |FieldsBytes(IDsField(ids))| <= end <= dAtA.Length
    modifies dAtA
    ensures i == end - |FieldsBytes(IDsField(ids))| && Written(old(dAtA[..]), dAtA[..], i, end, FieldsBytes(IDsField(ids)))
  {
    i := end;
    if |ids| > 0 {
      OneField(Blob(6, PackedBytes(ids)));
      SizesAreExact(6, 0, PackedBytes(ids));
      var scratch, j := PackIDs(ids);
      i := WriteBlob(dAtA, end, 6, scratch[..j]);
    }
  }

  /** A length-delimited field, empty or not. */
  method WriteBlob(dAtA: array<byte>, end: nat, f: nat, b: seq<byte>) returns (i: nat)
    requires 1 <= f < 16 && |b| < TwoTo63 && BlobSize(|b|) <= end <= dAtA.Length
    modifies dAtA
    ensures i == end - BlobSize(|b|) && Written(old(dAtA[..]), dAtA[..], i, end, FieldBytes(Blob(f, b)))
  {
    var j := Copy(dAtA, end, b);
    label copied:
    i := WritePrefix(dAtA, j, f, |b|);
    WrittenBefore(old(dAtA[..]), old@copied(dAtA[..]), dAtA[..], i, j, end, Tag(f, 2) + Varint(|b|), b);
    Regroup(Tag(f, 2), Varint(|b|), b);
  }

  function Onto(ids: seq<int>, n: nat, r: Option<(seq<int>, nat)>): Option<(seq<int>, nat)> {
    match r case None => None case Some((more, m)) => Some((ids + more, n + m))
  }

  lemma OntoOnto(ids: seq<int>, n: nat, v: int, m: nat, r: Option<(seq<int>, nat)>)
    ensures Onto(ids, n, Onto([v], m, r)) == Onto(ids + [v], n + m, r)
    ensures Onto([], 0, r) == r && Onto(ids, n, Some(([], 0))) == Some((ids, n))
  {
    assert r.Some? ==> ids + ([v] + r.value.0) == ids + [v] + r.value.0 && [] + r.value.0 == r.value.0;
    assert ids + [] == ids;
  }

  lemma PackedTurn(s: seq<byte>, i: nat, post: nat, ids: seq<int>, v: nat, j: nat)
    requires i < post && i < j <= |s| && ReadUint(s[i..]) == Some((v, j - i))
    ensures Onto(ids, i, ReadPacked(s[i..], post - i)) == Onto(ids + [ToInt64(v)], j, ReadPacked(s[j..], post - j))
  {
    assert s[i..][j - i..] == s[j..];
    OntoOnto(ids, i, ToInt64(v), j - i, ReadPacked(s[j..], post - j));
  }

  /** for iNdEx < postIndex { … } of case 6: the ids, and where the index ends. */
  method UnpackIDs(dAtA: seq<byte>, start: nat, post: nat) returns (r: Option<(seq<int>, nat)>)
    requires start <= post <= |dAtA|
    ensures r == Onto([], start, ReadPacked(dAtA[start..], post - start))
  {
    var i, ids := start, [];
    ghost var want := Onto([], start, ReadPacked(dAtA[start..], post - start));
    while i < post
      invariant start <= i <= |dAtA| && want == Onto(ids, i, ReadPacked(dAtA[i..], post - i))
      decreases |dAtA| - i
    {
      var v := DecodeVarint(dAtA, i);
      if v.None? {
        return None;
      }
      PackedTurn(dAtA, i, post, ids, v.value.0, v.value.1);
      ids, i := ids + [ToInt64(v.value.0)], v.value.1;
    }
    OntoOnto(ids, i, 0, 0, None);
    return Some((ids, i));
  }

  lemma PairRoom(k: Text, v: Text)
    ensures |FieldBytes(Blob(2, PairBytes(k, v)))| == BlobSize(|PairBytes(k, v)|)
    ensures |PairBytes(k, v)| == BlobSize(|k|) + BlobSize(|v|)
  {
    SizesAreExact(2, 0, PairBytes(k, v));
    SizesAreExact(1, 0, k);
    SizesAreExact(2, 0, v);
  }

  method MarshalKeyValue(k: Text, v: Text, dAtA: array<byte>, end: nat) returns (i: nat)
    requires |k| < TwoTo63 && |v| < TwoTo63 && BlobSize(|k|) + BlobSize(|v|) <= end <= dAtA.Length
    modifies dAtA
    ensures i == end - BlobSize(|k|) - BlobSize(|v|) && Written(old(dAtA[..]), dAtA[..], i, end, PairBytes(k, v))
  {
    var a := WriteBlob(dAtA, end, 2, v);
    label value:
    i := WriteBlob(dAtA, a, 1, k);
    WrittenBefore(old(dAtA[..]), old@value(dAtA[..]), dAtA[..], i, a, end, FieldBytes(Blob(1, k)), FieldBytes(Blob(2, v)));
  }

  lemma WrittenOver(a: seq<byte>, b: seq<byte>, c: seq<byte>, i: nat, j: nat, end: nat, part: seq<byte>, whole: seq<byte>)
    requires Written(a, b, j, end, part) && Written(b, c, i, end, whole) && i <= j
    ensures Written(a, c, i, end, whole)
  {
    assert c[..i] == b[..i] == b[..j][..i] == a[..j][..i] == a[..i];
  }

  /** One map entry, written backwards: value, key, length. */
  method MarshalPair(k: Text, v: Text, dAtA: array<byte>, end: nat) returns (i: nat)
    requires PairFits(Pair(k, v)) && |FieldBytes(Blob(2, PairBytes(k, v)))| <= end <= dAtA.Length
    modifies dAtA
    ensures i == end - |FieldBytes(Blob(2, PairBytes(k, v)))|
    ensures Written(old(dAtA[..]), dAtA[..], i, end, FieldBytes(Blob(2, PairBytes(k, v))))
  {
    PairRoom(k, v);
    var b := MarshalKeyValue(k, v, dAtA, end);
    label pair:
    i := PrefixPayload(dAtA, b, end, PairBytes(k, v));
    WrittenOver(old(dAtA[..]), old@pair(dAtA[..]), dAtA[..], i, b, end, PairBytes(k, v), FieldBytes(Blob(2, PairBytes(k, v))));
  }

  /** Tag and length in front of a payload that has just been written. */
  method PrefixPayload(dAtA: array<byte>, start: nat, end: nat, payload: seq<byte>) returns (i: nat)
    requires start <= end <= dAtA.Length && dAtA[..][start..end] == payload && BlobSize(|payload|) <= end && |payload| < TwoTo63
    modifies dAtA
    ensures i == end - BlobSize(|payload|)
    ensures Written(old(dAtA[..]), dAtA[..], i, end, FieldBytes(Blob(2, payload)))
  {
    i := WritePrefix(dAtA, start, 2, end - start);
    WrittenBefore(old(dAtA[..]), old(dAtA[..]), dAtA[..], i, start, end, Tag(2, 2) + Varint(|payload|), payload);
    Regroup(Tag(2, 2), Varint(|payload|), payload);
  }

  function PairSize(p: Pair): nat {
    BlobSize(BlobSize(|p.key|) + BlobSize(|p.value|))
  }

  /** What Size adds up for the pairs. */
  function PairsSize(ps: seq<Pair>): nat {
    if ps == [] then 0 else PairSize(ps[0]) + PairsSize(ps[1..])
  }

  lemma {:induction false} PairsSizeIsExact(ps: seq<Pair>)
    ensures |FieldsBytes(PairFields(ps))| == PairsSize(ps)
  {
    if ps != [] {
      var first := Blob(2, PairBytes(ps[0].key, ps[0].value));
      BytesOfConcat([first], PairFields(ps[1..]));
      OneField(first);
      PairRoom(ps[0].key, ps[0].value);
      PairsSizeIsExact(ps[1..]);
    }
  }

  predicate Distinct(ps: seq<Pair>) {
    forall i, j :: 0 <= i < j < |ps| ==> ps[i].key != ps[j].key
  }

  lemma WithoutLater(ps: seq<Pair>, j: nat)
    requires 0 < j < |ps|
    ensures var rest := ps[..j] + ps[j + 1..];
            && rest != [] && rest[0] == ps[0] && ps[1..][j - 1] == ps[j]
            && rest[1..] == ps[1..][..j - 1] + ps[1..][j..]
  {
  }

  lemma {:induction false} PairsSizeWithout(ps: seq<Pair>, j: nat)
    requires j < |ps|
    ensures PairsSize(ps) == PairSize(ps[j]) + PairsSize(ps[..j] + ps[j + 1..])
  {
    var rest := ps[..j] + ps[j + 1..];
    if j == 0 {
      assert rest == ps[1..];
    } else {
      PairsSizeWithout(ps[1..], j - 1);
      WithoutLater(ps, j);
    }
  }

  lemma OthersRemain(ps: seq<Pair>, all: seq<Pair>, j: nat)
    requires Distinct(ps) && ps != [] && j < |all| && all[j] == ps[0] && forall p :: p in ps ==> p in all
    ensures forall p :: p in ps[1..] ==> p in all[..j] + all[j + 1..]
  {
    var rest := all[..j] + all[j + 1..];
    forall p | p in ps[1..]
      ensures p in rest
    {
      assert p in ps && p != ps[0];
      var i :| 0 <= i < |all| && all[i] == p;
      assert i < j ==> rest[i] == p;
      assert i > j ==> rest[i - 1] == p;
    }
  }

  /** A list of some of the pairs needs no more room than all of them. */
  lemma {:induction false} SubListing(ps: seq<Pair>, all: seq<Pair>)
    requires Distinct(ps) && forall p :: p in ps ==> p in all
    ensures PairsSize(ps) <= PairsSize(all)
    decreases |ps|
  {
    if ps != [] {
      assert ps[0] in ps;
      var j: nat :| j < |all| && all[j] == ps[0];
      var rest := all[..j] + all[j + 1..];
      PairsSizeWithout(all, j);
      OthersRemain(ps, all, j);
      SubListing(ps[1..], rest);
    }
  }

  predicate ListsOnce(ps: seq<Pair>, kv: map<Text, Text>) {
    Distinct(ps) && Lists(ps, kv)
  }

  /** Size does not depend on the order in which the map is walked. */
  lemma SizeOfAnyOrder(ps: seq<Pair>, qs: seq<Pair>, kv: map<Text, Text>)
    requires ListsOnce(ps, kv) && ListsOnce(qs, kv)
    ensures PairsSize(ps) == PairsSize(qs)
  {
    SamePairs(ps, qs, kv);
    SamePairs(qs, ps, kv);
    SubListing(ps, qs);
    SubListing(qs, ps);
  }

  lemma SamePairs(ps: seq<Pair>, qs: seq<Pair>, kv: map<Text, Text>)
    requires Lists(ps, kv) && Lists(qs, kv)
    ensures forall p :: p in ps ==> p in qs
  {
    forall p | p in ps
      ensures p in qs
    {
      var k :| 0 <= k < |qs| && qs[k].key == p.key;
    }
  }

  lemma OneMoreSize(k: Text, v: Text, ps: seq<Pair>)
    ensures PairsSize([Pair(k, v)] + ps) == BlobSize(BlobSize(|k|) + BlobSize(|v|)) + PairsSize(ps)
  {
    assert ([Pair(k, v)] + ps)[1..] == ps;
  }

  lemma SizeOfEveryOrder(ps: seq<Pair>, kv: map<Text, Text>)
    requires ListsOnce(ps, kv)
    ensures forall qs :: ListsOnce(qs, kv) ==> PairsSize(ps) == PairsSize(qs)
  {
    forall qs | ListsOnce(qs, kv)
      ensures PairsSize(ps) == PairsSize(qs)
    {
      SizeOfAnyOrder(ps, qs, kv);
    }
  }

  predicate ShardFits(sh: WireShard) {
    Int64(sh.id) && Int32(sh.status) && forall t :: t in sh.kv ==> PairFits(Pair(t, sh.kv[t]))
  }

  /** for k, v := range m.KV of Size: whatever the order `ps` of the walk, the size of every order. */
  method SizeOfPairs(kv: map<Text, Text>) returns (n: nat, ghost ps: seq<Pair>)
    ensures ListsOnce(ps, kv) && forall qs :: ListsOnce(qs, kv) ==> n == PairsSize(qs)
  {
    n, ps := SumPairs(kv);
    SizeOfEveryOrder(ps, kv);
  }

  method SumPairs(kv: map<Text, Text>) returns (n: nat, ghost ps: seq<Pair>)
    ensures ListsOnce(ps, kv) && n == PairsSize(ps)
  {
    n, ps := 0, [];
    var todo := kv.Keys;
    while todo != {}
      invariant Left(ps, todo, kv) && n == PairsSize(ps)
      decreases todo
    {
      var k := AnyOf(todo);
      VisitOne(ps, todo, kv, k);
      var mapEntrySize := BlobSize(|k|) + BlobSize(|kv[k]|);
      n := n + BlobSize(mapEntrySize);
      ps, todo := [Pair(k, kv[k])] + ps, todo - {k};
    }
    NothingLeft(ps, kv);
  }

  lemma VisitOne(ps: seq<Pair>, todo: set<Text>, kv: map<Text, Text>, k: Text)
    requires Left(ps, todo, kv) && k in todo
    ensures var more := [Pair(k, kv[k])] + ps;
            Left(more, todo - {k}, kv) && PairsSize(more) == PairsSize(ps) + BlobSize(BlobSize(|k|) + BlobSize(|kv[k]|))
  {
    StillLeft(ps, todo, kv, k);
    OneMoreSize(k, kv[k], ps);
  }

  /** `todo` are the keys of `kv` that remain when the pairs `ps` have been visited. */
  ghost predicate Left(ps: seq<Pair>, todo: set<Text>, kv: map<Text, Text>) {
    && Distinct(ps) && todo <= kv.Keys
    && (forall p :: p in ps ==> p.key in kv && kv[p.key] == p.value && p.key !in todo)
    && (forall t :: t in kv ==> t in todo || Pair(t, kv[t]) in ps)
  }

  lemma StillLeft(ps: seq<Pair>, todo: set<Text>, kv: map<Text, Text>, k: Text)
    requires Left(ps, todo, kv) && k in todo
    ensures Left([Pair(k, kv[k])] + ps, todo - {k}, kv)
  {
    var more := [Pair(k, kv[k])] + ps;
    forall p | p in more
      ensures p == Pair(k, kv[k]) || p in ps
    {
      var i :| 0 <= i < |more| && more[i] == p;
      assert i > 0 ==> p == ps[i - 1];
    }
    assert more[0] == Pair(k, kv[k]) && forall p :: p in ps ==> p in more;
    forall i, j | 0 <= i < j < |more|
      ensures more[i].key != more[j].key
    {
      assert more[j] == ps[j - 1] && ps[j - 1] in ps;
      assert i > 0 ==> more[i] == ps[i - 1];
    }
  }

  lemma NothingLeft(ps: seq<Pair>, kv: map<Text, Text>)
    requires Left(ps, {}, kv)
    ensures ListsOnce(ps, kv)
  {
    forall k | 0 <= k < |ps|
      ensures ps[k].key in kv && kv[ps[k].key] == ps[k].value
    {
      assert ps[k] in ps;
    }
    forall t | t in kv
      ensures exists k :: 0 <= k < |ps| && ps[k].key == t
    {
      var k :| 0 <= k < |ps| && ps[k] == Pair(t, kv[t]);
    }
  }

  lemma VisitedFits(ps: seq<Pair>, todo: set<Text>, kv: map<Text, Text>, all: seq<Pair>)
    requires Left(ps, todo, kv) && ListsOnce(all, kv)
    ensures PairsSize(ps) <= PairsSize(all)
  {
    forall p | p in ps
      ensures p in all
    {
      var k :| 0 <= k < |all| && all[k].key == p.key;
    }
    SubListing(ps, all);
  }

  /** for k := range m.KV of MarshalToSizedBuffer: the pairs, in some order, each in front of the last. */
  method MarshalPairs(kv: map<Text, Text>, dAtA: array<byte>, end: nat, ghost all: seq<Pair>) returns (i: nat, ghost ps: seq<Pair>)
    requires (forall t :: t in kv ==> PairFits(Pair(t, kv[t]))) && ListsOnce(all, kv) && PairsSize(all) <= end <= dAtA.Length
    modifies dAtA
    ensures ListsOnce(ps, kv) && i == end - PairsSize(ps)
    ensures Written(old(dAtA[..]), dAtA[..], i, end, FieldsBytes(PairFields(ps)))
  {
    i, ps := end, [];
    var todo := kv.Keys;
    while todo != {}
      invariant Left(ps, todo, kv) && i == end - PairsSize(ps)
      invariant Written(old(dAtA[..]), dAtA[..], i, end, FieldsBytes(PairFields(ps)))
      decreases todo
    {
      var k := AnyOf(todo);
      var v := kv[k];
      StillLeft(ps, todo, kv, k);
      VisitedFits([Pair(k, v)] + ps, todo - {k}, kv, all);
      NextPair(k, v, ps);
      ghost var was, j, done := dAtA[..], i, FieldsBytes(PairFields(ps));
      i := MarshalPair(k, v, dAtA, i);
      WrittenBefore(old(dAtA[..]), was, dAtA[..], i, j, end, FieldBytes(Blob(2, PairBytes(k, v))), done);
      ps, todo := [Pair(k, v)] + ps, todo - {k};
    }
    NothingLeft(ps, kv);
  }

  lemma NextPair(k: Text, v: Text, ps: seq<Pair>)
    ensures var more := [Pair(k, v)] + ps;
            && PairsSize(more) == |FieldBytes(Blob(2, PairBytes(k, v)))| + PairsSize(ps)
            && FieldsBytes(PairFields(more)) == FieldBytes(Blob(2, PairBytes(k, v))) + FieldsBytes(PairFields(ps))
  {
    assert ([Pair(k, v)] + ps)[1..] == ps;
    BytesOfConcat([Blob(2, PairBytes(k, v))], PairFields(ps));
    OneField(Blob(2, PairBytes(k, v)));
    PairRoom(k, v);
  }

  /** Shard.MarshalToSizedBuffer */
  method MarshalShardTo(sh: WireShard, dAtA: array<byte>, end: nat, ghost all: seq<Pair>) returns (i: nat, ghost ps: seq<Pair>)
    requires ShardFits(sh) && ListsOnce(all, sh.kv)
    requires UintSize(ToUint64(sh.id)) + PairsSize(all) + UintSize(ToUint64(sh.status)) <= end <= dAtA.Length
    modifies dAtA
    ensures ListsOnce(ps, sh.kv)
    ensures i == end - UintSize(ToUint64(sh.id)) - PairsSize(all) - UintSize(ToUint64(sh.status))
    ensures Written(old(dAtA[..]), dAtA[..], i, end, ShardBytes(sh.id, ps, sh.status))
  {
    var j := WriteUint(dAtA, end, 3, ToUint64(sh.status));
    label status:
    var k;
    k, ps := MarshalPairs(sh.kv, dAtA, j, all);
    SizeOfAnyOrder(ps, all, sh.kv);
    ghost var a, b, c := FieldsBytes(Uint(1, ToUint64(sh.id))), FieldsBytes(PairFields(ps)), FieldsBytes(Uint(3, ToUint64(sh.status)));
    WrittenBefore(old(dAtA[..]), old@status(dAtA[..]), dAtA[..], k, j, end, b, c);
    label pairs:
    i := WriteUint(dAtA, k, 1, ToUint64(sh.id));
    WrittenBefore(old(dAtA[..]), old@pairs(dAtA[..]), dAtA[..], i, k, end, a, b + c);
    BytesOfConcat(Uint(1, ToUint64(sh.id)), PairFields(ps));
    BytesOfConcat(Uint(1, ToUint64(sh.id)) + PairFields(ps), Uint(3, ToUint64(sh.status)));
    Regroup(a, b, c);
  }

  /** Shard.Marshal: the buffer of Size() bytes is filled exactly, though both walk the map in orders of their own. */
  method MarshalShard(sh: WireShard) returns (data: array<byte>, ghost ps: seq<Pair>)
    requires ShardFits(sh)
    ensures fresh(data) && ListsOnce(ps, sh.kv) && data[..] == ShardBytes(sh.id, ps, sh.status)
  {
    ghost var all;
    var n;
    n, all := SizeOfPairs(sh.kv);
    data := new byte[UintSize(ToUint64(sh.id)) + n + UintSize(ToUint64(sh.status))](i => 0);
    var i;
    i, ps := MarshalShardTo(sh, data, data.Length, all);
    assert data[..][0..data.Length] == data[..];
  }

  /** Where one turn leads from index `i`; None where the decoder gives up. */
  ghost predicate Leads(dAtA: seq<byte>, i: nat, post: nat, k: Text, v: Text, r: Option<(Text, Text, nat)>)
    requires i < post <= |dAtA|
  {
    match r
    case None => ReadPair(dAtA[i..], post - i, k, v) == None
    case Some((k1, v1, j)) =>
      i < j <= |dAtA| && ReadPair(dAtA[i..], post - i, k, v) == ReadPair(dAtA[j..], post - j, k1, v1)
  }

  /** One turn inside case KV at index `i`; `post` is where the entry ends. */
  method ReadPairTurn(dAtA: seq<byte>, i: nat, post: nat, k: Text, v: Text) returns (r: Option<(Text, Text, nat)>)
    requires i < post <= |dAtA|
    ensures Leads(dAtA, i, post, k, v, r)
  {
    var tag := DecodeVarint(dAtA, i);
    if tag.None? {
      return None;
    }
    var f := FieldNum(tag.value.0);
    if f == 1 || f == 2 {
      r := ReadPairTextAt(dAtA, i, tag.value.1, tag.value.0, post, k, v);
    } else {
      r := SkipInPair(dAtA, i, tag.value.1, tag.value.0, post, k, v);
    }
  }

  method ReadPairTextAt(dAtA: seq<byte>, i: nat, j: nat, wire: nat, post: nat, k: Text, v: Text) returns (r: Option<(Text, Text, nat)>)
    requires i < j <= |dAtA| && i < post <= |dAtA| && ReadUint(dAtA[i..]) == Some((wire, j - i))
    requires FieldNum(wire) == 1 || FieldNum(wire) == 2
    ensures Leads(dAtA, i, post, k, v, r)
  {
    SliceOfRest(dAtA, i, j, j);
    var text := ReadStringAt(dAtA, j);
    if text.None? {
      NoText(dAtA[i..], wire, j - i, post - i, k, v);
      return None;
    }
    var k1, v1 := if FieldNum(wire) == 1 then text.value.0 else k, if FieldNum(wire) == 2 then text.value.0 else v;
    TextLeads(dAtA, i, j, wire, text.value.0, text.value.1, post, k, v, k1, v1);
    return Some((k1, v1, text.value.1));
  }

  lemma TextLeads(s: seq<byte>, i: nat, j: nat, wire: nat, t: Text, e: nat, post: nat, k: Text, v: Text, k1: Text, v1: Text)
    requires i < j < e <= |s| && i < post <= |s| && ReadUint(s[i..]) == Some((wire, j - i))
    requires (FieldNum(wire) == 1 || FieldNum(wire) == 2) && ReadString(s[i..][j - i..]) == Some((t, e - j))
    requires (k1, v1) == if FieldNum(wire) == 1 then (t, v) else (k, t)
    ensures Leads(s, i, post, k, v, Some((k1, v1, e)))
  {
    TextTurn(s[i..], wire, j - i, t, e - i, post - i, k, v, k1, v1);
    LeadsOn(s, i, e, post, k, v, k1, v1);
  }

  lemma LeadsOn(s: seq<byte>, i: nat, e: nat, post: nat, k: Text, v: Text, k1: Text, v1: Text)
    requires i < e <= |s| && i < post <= |s|
    requires ReadPair(s[i..], post - i, k, v) == ReadPair(s[i..][e - i..], post - i - (e - i), k1, v1)
    ensures Leads(s, i, post, k, v, Some((k1, v1, e)))
  {
    SliceOfRest(s, i, e, e);
  }

  method SkipInPair(dAtA: seq<byte>, i: nat, j: nat, wire: nat, post: nat, k: Text, v: Text) returns (r: Option<(Text, Text, nat)>)
    requires i < j <= |dAtA| && i < post <= |dAtA| && ReadUint(dAtA[i..]) == Some((wire, j - i))
    requires FieldNum(wire) != 1 && FieldNum(wire) != 2
    ensures Leads(dAtA, i, post, k, v, r)
  {
    var m := SkipRecord(dAtA, i);
    OtherTurn(dAtA[i..], wire, j - i, post - i, k, v);
    if m.None? || m.value > post {
      return None;
    }
    SliceOfRest(dAtA, i, m.value, m.value);
    return Some((k, v, m.value));
  }

  method ReadStringAt(dAtA: seq<byte>, j: nat) returns (r: Option<(Text, nat)>)
    requires j <= |dAtA|
    ensures r.None? ==> ReadString(dAtA[j..]) == None
    ensures r.Some? ==> j < r.value.1 <= |dAtA| && ReadString(dAtA[j..]) == Some((r.value.0, r.value.1 - j))
  {
    var len := DecodeVarint(dAtA, j);
    if len.None? || len.value.0 >= TwoTo63 || len.value.1 + len.value.0 > |dAtA| {
      return None;
    }
    var (n, k) := len.value;
    assert dAtA[j..][k - j..k - j + n] == dAtA[k..k + n];
    return Some((dAtA[k..k + n], k + n));
  }

  method ReadPairAt(dAtA: seq<byte>, start: nat, post: nat) returns (r: Option<(Text, Text)>)
    requires start <= post <= |dAtA|
    ensures r == ReadPair(dAtA[start..], post - start, [], [])
  {
    var i, mapkey, mapvalue := start, [], [];
    ghost var want := ReadPair(dAtA[start..], post - start, [], []);
    while i < post
      invariant start <= i <= |dAtA| && want == ReadPair(dAtA[i..], post - i, mapkey, mapvalue)
      decreases |dAtA| - i
    {
      var turn := ReadPairTurn(dAtA, i, post, mapkey, mapvalue);
      if turn.None? {
        return None;
      }
      mapkey, mapvalue, i := turn.value.0, turn.value.1, turn.value.2;
    }
    return Some((mapkey, mapvalue));
  }

  method ReadShardField(sh: WireShard, p: Piece, dAtA: seq<byte>, i: nat) returns (r: Option<WireShard>)
    requires i < |dAtA| && p.Known? && 1 <= p.size <= |dAtA| - i
    ensures r == PutShard(sh, p, dAtA[i..])
  {
    match p.field
    case Num(n, v) => return Some(if n == 1 then sh.(id := ToInt64(v)) else sh.(status := ToInt32(v)));
    case Blob(n, payload) =>
      if |payload| > p.size {
        return None;
      }
      var post := i + p.size;
      assert dAtA[i..][p.size - |payload|..] == dAtA[post - |payload|..];
      var kv := ReadPairAt(dAtA, post - |payload|, post);
      return if kv.None? then None else Some(sh.(kv := sh.kv[kv.value.0 := kv.value.1]));
  }

  /** Shard.Unmarshal: total, for every byte string. */
  method UnmarshalShard(dAtA: seq<byte>) returns (r: Option<WireShard>)
    ensures r == MergeShard(NoShard, dAtA)
  {
    var sh, i := NoShard, 0;
    while i < |dAtA|
      invariant 0 <= i <= |dAtA| && MergeShard(NoShard, dAtA) == MergeShard(sh, dAtA[i..])
    {
      var p := ReadPieceAt(ShardKinds, dAtA, i);
      if p.Bad? {
        return None;
      }
      assert dAtA[i..][p.size..] == dAtA[i + p.size..];
      if p.Known? {
        var t := ReadShardField(sh, p, dAtA, i);
        if t.None? {
          return None;
        }
        sh := t.value;
      }
      i := i + p.size;
    }
    return Some(sh);
  }
}
