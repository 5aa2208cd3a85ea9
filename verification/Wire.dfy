/** The protobuf wire format as the generated code of raft/raftpb/raft.pb.go and yqkvpb/yqkvpb.pb.go
  * writes and reads it (Protocol Buffers encoding specification). */
module Wire {
  import opened Wrappers

  type byte = x: int | 0 <= x < 256

  const TwoTo63: nat := 0x8000_0000_0000_0000
  const TwoTo64: nat := 0x1_0000_0000_0000_0000

  function Pow2(n: nat): (p: nat)
    ensures p >= 1
  {
    if n == 0 then 1 else 2 * Pow2(n - 1)
  }

  // ---------- varints ----------

  /** Seven bits a byte, lowest first; all bytes but the last have the high bit. */
  function Varint(v: nat): (r: seq<byte>)
    ensures |r| >= 1
  {
    if v < 128 then [v] else [v % 128 + 128] + Varint(v / 128)
  }

  /** bits.Len64 */
  function Len64(x: nat): nat {
    if x == 0 then 0 else 1 + Len64(x / 2)
  }

  /** sovRaft, with x|1 written out. */
  function Sov(x: nat): nat {
    (Len64(if x % 2 == 0 then x + 1 else x) + 6) / 7
  }

  /** How many bytes the varint at the start of `s` takes; an eleventh byte is an overflow. */
  function VarintLen(s: seq<byte>, shift: nat): (r: Option<nat>)
    ensures r.Some? ==> 1 <= r.value <= |s|
    decreases |s|
  {
    if shift >= 64 || s == [] then None
    else if s[0] < 128 then Some(1)
    else match VarintLen(s[1..], shift + 7) case None => None case Some(n) => Some(n + 1)
  }

  /** The number that groups of seven bits make, lowest first. */
  function Groups(s: seq<byte>): nat {
    if s == [] then 0 else s[0] % 128 + 128 * Groups(s[1..])
  }

  /** A varint read as a uint64, bits above the 64th shifted out, and its length. */
  function ReadUint(s: seq<byte>): (r: Option<(nat, nat)>)
    ensures r.Some? ==> r.value.0 < TwoTo64 && 1 <= r.value.1 <= |s|
  {
    match VarintLen(s, 0)
    case None => None
    case Some(n) => Some((Groups(s[..n]) % TwoTo64, n))
  }

  /** A length prefix: an int64, refused when negative. */
  function ReadLength(s: seq<byte>): (r: Option<(nat, nat)>)
    ensures r.Some? ==> r.value.0 < TwoTo63 && 1 <= r.value.1 <= |s|
  {
    match ReadUint(s)
    case None => None
    case Some((v, n)) => if v >= TwoTo63 then None else Some((v, n))
  }

  lemma Pow2Plus7(n: nat)
    ensures Pow2(n + 7) == 128 * Pow2(n)
  {
    assert Pow2(n + 7) == 2 * Pow2(n + 6) == 4 * Pow2(n + 5) == 8 * Pow2(n + 4);
    assert Pow2(n + 4) == 2 * Pow2(n + 3) == 4 * Pow2(n + 2) == 8 * Pow2(n + 1);
  }

  lemma {:induction false} Pow2Sum(a: nat, b: nat)
    ensures Pow2(a + b) == Pow2(a) * Pow2(b)
  {
    if b > 0 {
      Pow2Sum(a, b - 1);
      assert Pow2(a + b) == 2 * Pow2(a + b - 1);
      assert Pow2(a) * (2 * Pow2(b - 1)) == 2 * (Pow2(a) * Pow2(b - 1));
    }
  }

  lemma Pow2Double(n: nat, p: nat)
    requires Pow2(n) == p
    ensures Pow2(n + n) == p * p
  {
    Pow2Sum(n, n);
  }

  lemma Pow2Of64(n: nat)
    requires n == 8
    ensures Pow2(8 * n) == TwoTo64
  {
    Pow2Plus7(n - 8);
    assert Pow2(n) == 2 * Pow2(n - 1) == 256;
    Pow2Double(n, 0x100);
    Pow2Double(n + n, 0x1_0000);
    Pow2Double(n + n + n + n, 0x1_0000_0000);
  }

  lemma {:induction false} VarintSize(v: nat, bits: nat)
    requires v < Pow2(bits) && bits >= 1
    ensures |Varint(v)| <= (bits + 6) / 7
    decreases bits
  {
    if bits <= 7 {
      Pow2Plus7(0);
      Pow2Grows(bits, 7);
    } else if v >= 128 {
      Pow2Plus7(bits - 7);
      VarintSize(v / 128, bits - 7);
    }
  }

  lemma {:induction false} Pow2Grows(a: nat, b: nat)
    requires a <= b
    ensures Pow2(a) <= Pow2(b)
    decreases b - a
  {
    if a < b {
      Pow2Grows(a + 1, b);
    }
  }

  lemma VarintAtMostTen(v: nat)
    requires v < TwoTo64
    ensures |Varint(v)| <= 10
  {
    Pow2Of64(8);
    VarintSize(v, 64);
  }

  lemma {:induction false} VarintLenOn(v: nat, x: seq<byte>, shift: nat)
    requires shift + 7 * |Varint(v)| <= 70
    ensures VarintLen(Varint(v) + x, shift) == Some(|Varint(v)|)
    decreases v
  {
    if v >= 128 {
      VarintLenOn(v / 128, x, shift + 7);
      assert (Varint(v) + x)[1..] == Varint(v / 128) + x;
    }
  }

  lemma {:induction false} GroupsOfVarint(v: nat)
    ensures Groups(Varint(v)) == v
    decreases v
  {
    if v >= 128 {
      GroupsOfVarint(v / 128);
      assert Varint(v)[1..] == Varint(v / 128);
    } else {
      assert Groups([v][1..]) == 0;
    }
  }

  /** Every uint64 is read back, whatever follows. */
  lemma VarintRoundTrip(v: nat, x: seq<byte>)
    requires v < TwoTo64
    ensures ReadUint(Varint(v) + x) == Some((v, |Varint(v)|))
  {
    VarintAtMostTen(v);
    VarintLenOn(v, x, 0);
    GroupsOfVarint(v);
    assert (Varint(v) + x)[..|Varint(v)|] == Varint(v);
  }

  lemma {:induction false} LenIsLocal(a: seq<byte>, x: seq<byte>, shift: nat)
    requires VarintLen(a, shift).Some?
    ensures VarintLen(a + x, shift) == VarintLen(a, shift)
    decreases |a|
  {
    if a[0] >= 128 {
      assert (a + x)[1..] == a[1..] + x;
      LenIsLocal(a[1..], x, shift + 7);
    }
  }

  /** What has been read does not depend on what follows. */
  lemma ReadIsLocal(a: seq<byte>, x: seq<byte>)
    requires ReadUint(a).Some?
    ensures ReadUint(a + x) == ReadUint(a)
  {
    LenIsLocal(a, x, 0);
    var n := VarintLen(a, 0).value;
    assert (a + x)[..n] == a[..n];
  }

  lemma {:induction false} GroupsAppend(s: seq<byte>, b: byte)
    ensures Groups(s + [b]) == Groups(s) + b % 128 * Pow2(7 * |s|)
  {
    if s == [] {
      assert Groups([b][1..]) == 0;
    } else {
      GroupsAppend(s[1..], b);
      assert (s + [b])[1..] == s[1..] + [b];
      Pow2Plus7(7 * (|s| - 1));
      assert 128 * (b % 128 * Pow2(7 * (|s| - 1))) == b % 128 * (128 * Pow2(7 * (|s| - 1)));
    }
  }

  lemma ModAdd(a: nat, b: nat)
    ensures (a % TwoTo64 + b) % TwoTo64 == (a + b) % TwoTo64
  {
    var q := a / TwoTo64;
    assert a + b == q * TwoTo64 + (a % TwoTo64 + b);
  }

  lemma Len64Low(x: nat, n: nat)
    requires 1 <= x < Pow2(n)
    ensures 1 <= Len64(x) <= n
  {
    if x >= 2 {
      Len64Low(x / 2, n - 1);
    }
  }

  lemma SevenHalves(x: nat)
    ensures x / 2 / 2 / 2 / 2 / 2 / 2 / 2 == x / 128
  {
  }

  lemma Len64High(x: nat)
    requires x >= 128
    ensures Len64(x) == 7 + Len64(x / 128)
  {
    var a := x / 2; var b := a / 2; var c := b / 2; var d := c / 2; var e := d / 2; var f := e / 2; var g := f / 2;
    SevenHalves(x);
    assert Len64(x) == 1 + Len64(a) && Len64(a) == 1 + Len64(b) && Len64(b) == 1 + Len64(c) && Len64(c) == 1 + Len64(d);
    assert Len64(d) == 1 + Len64(e) && Len64(e) == 1 + Len64(f) && Len64(f) == 1 + Len64(g);
  }

  lemma Len64OfOdd(v: nat)
    requires v >= 1
    ensures Len64(if v % 2 == 0 then v + 1 else v) == Len64(v)
  {
  }

  /** sov is exactly the number of bytes that the writer produces. */
  lemma {:induction false} SovIsExact(v: nat)
    ensures Sov(v) == |Varint(v)|
    decreases v
  {
    if v < 128 {
      Pow2Plus7(0);
      Len64Low(if v % 2 == 0 then v + 1 else v, 7);
    } else {
      Len64OfOdd(v);
      Len64High(v);
      Len64OfOdd(v / 128);
      SovIsExact(v / 128);
    }
  }

  lemma SliceOfRest(s: seq<byte>, i: nat, j: nat, k: nat)
    requires i <= j <= k <= |s|
    ensures s[i..][j - i..] == s[j..] && s[i..][j - i..k - i] == s[j..k]
  {
  }

  // ---------- skipping ----------

  /** The body of a record of unknown field: how many bytes it takes (perhaps more than there are), and
    * the group depth after it. */
  function SkipBody(kind: nat, s: seq<byte>, depth: nat): Option<(nat, nat)> {
    match kind
    case 0 => (match ReadUint(s) case None => None case Some((v, n)) => Some((n, depth)))
    case 1 => Some((8, depth))
    case 2 => (match ReadLength(s) case None => None case Some((v, n)) => Some((n + v, depth)))
    case 3 => Some((0, depth + 1))
    case 4 => if depth == 0 then None else Some((0, depth - 1))
    case 5 => Some((4, depth))
    case _ => None
  }

  /** skipRaft: the length of one record, with all that is inside it if it is a group. */
  function Skip(s: seq<byte>, depth: nat): (r: Option<nat>)
    ensures r.Some? ==> r.value >= 1
    decreases |s|, 0
  {
    match ReadUint(s)
    case None => None
    case Some((wire, n)) => Plus(n, SkipRest(wire % 8, s[n..], depth))
  }

  /** What is left to skip after a tag. */
  function SkipRest(kind: nat, s: seq<byte>, depth: nat): Option<nat>
    decreases |s|, 1
  {
    match SkipBody(kind, s, depth)
    case None => None
    case Some((m, d)) => if d > 0 && m >= |s| then None else if d == 0 then Some(m) else Plus(m, Skip(s[m..], d))
  }

  function Plus(n: nat, r: Option<nat>): Option<nat> {
    match r case None => None case Some(k) => Some(n + k)
  }

  lemma BodyIsLocal(kind: nat, a: seq<byte>, x: seq<byte>, depth: nat)
    requires SkipBody(kind, a, depth).Some?
    ensures SkipBody(kind, a + x, depth) == SkipBody(kind, a, depth)
  {
    if kind == 0 || kind == 2 {
      ReadIsLocal(a, x);
    }
  }

  lemma {:induction false} SkipIsLocal(a: seq<byte>, x: seq<byte>, depth: nat)
    requires Skip(a, depth).Some?
    ensures Skip(a + x, depth) == Skip(a, depth)
    decreases |a|, 0
  {
    ReadIsLocal(a, x);
    var (wire, n) := ReadUint(a).value;
    assert (a + x)[n..] == a[n..] + x;
    RestIsLocal(wire % 8, a[n..], x, depth);
  }

  lemma {:induction false} RestIsLocal(kind: nat, a: seq<byte>, x: seq<byte>, depth: nat)
    requires SkipRest(kind, a, depth).Some?
    ensures SkipRest(kind, a + x, depth) == SkipRest(kind, a, depth)
    decreases |a|, 1
  {
    BodyIsLocal(kind, a, x, depth);
    var (m, d) := SkipBody(kind, a, depth).value;
    if d > 0 {
      assert (a + x)[m..] == a[m..] + x;
      SkipIsLocal(a[m..], x, d);
    }
  }

  // ---------- records of unknown fields, groups included ----------

  datatype Unknown =
    | UVarint(field: nat, value: nat)
    | UFixed64(field: nat, bits: seq<byte>)
    | UBytes(field: nat, payload: seq<byte>)
    | UGroup(field: nat, members: seq<Unknown>)
    | UFixed32(field: nat, bits: seq<byte>)

  predicate FieldOk(f: int) {
    1 <= f < 0x2000_0000
  }

  predicate WellFormed(u: Unknown) {
    && FieldOk(u.field)
    && match u
       case UVarint(_, v) => v < TwoTo64
       case UFixed64(_, b) => |b| == 8
       case UBytes(_, p) => |p| < TwoTo63
       case UGroup(_, us) => forall k :: 0 <= k < |us| ==> WellFormed(us[k])
       case UFixed32(_, b) => |b| == 4
  }

  function Tag(field: nat, kind: nat): (r: seq<byte>)
    ensures |r| >= 1
  {
    Varint(8 * field + kind)
  }

  function UnknownBytes(u: Unknown): seq<byte> {
    match u
    case UVarint(f, v) => Tag(f, 0) + Varint(v)
    case UFixed64(f, b) => Tag(f, 1) + b
    case UBytes(f, p) => Tag(f, 2) + (Varint(|p|) + p)
    case UGroup(f, us) => Tag(f, 3) + (MemberBytes(us) + Tag(f, 4))
    case UFixed32(f, b) => Tag(f, 5) + b
  }

  function MemberBytes(us: seq<Unknown>): seq<byte> {
    if us == [] then [] else UnknownBytes(us[0]) + MemberBytes(us[1..])
  }

  lemma TagReads(f: nat, kind: nat, x: seq<byte>)
    requires FieldOk(f) && kind < 8
    ensures ReadUint(Tag(f, kind) + x) == Some((8 * f + kind, |Tag(f, kind)|))
    ensures (8 * f + kind) % 8 == kind && (8 * f + kind) / 8 == f
    ensures (Tag(f, kind) + x)[|Tag(f, kind)|..] == x
  {
    VarintRoundTrip(8 * f + kind, x);
  }

  /** Skipping goes on with `x`. */
  function Then(x: seq<byte>, depth: nat): Option<nat> {
    if depth == 0 then Some(0) else if x == [] then None else Skip(x, depth)
  }

  lemma BehindFirst(a: seq<byte>, b: seq<byte>)
    ensures (a + b)[|a|..] == b
  {
  }

  lemma SkipHead(s: seq<byte>, wire: nat, n: nat, depth: nat)
    requires ReadUint(s) == Some((wire, n))
    ensures Skip(s, depth) == Plus(n, SkipRest(wire % 8, s[n..], depth))
  {
  }

  lemma RestOfBody(kind: nat, s: seq<byte>, m: nat, depth: nat, d: nat)
    requires SkipBody(kind, s, depth) == Some((m, d)) && m <= |s|
    ensures SkipRest(kind, s, depth) == Plus(m, Then(s[m..], d))
  {
  }

  lemma SkipTagged(f: nat, kind: nat, body: seq<byte>, x: seq<byte>, depth: nat, d: nat)
    requires FieldOk(f) && kind < 8 && SkipBody(kind, body + x, depth) == Some((|body|, d))
    ensures Skip(Tag(f, kind) + body + x, depth) == Plus(|Tag(f, kind) + body|, Then(x, d))
  {
    TagReads(f, kind, body + x);
    Regroup(Tag(f, kind), body, x);
    BehindFirst(body, x);
    SkipHead(Tag(f, kind) + (body + x), 8 * f + kind, |Tag(f, kind)|, depth);
    RestOfBody(kind, body + x, |body|, depth, d);
  }

  lemma SkipPlain(u: Unknown, x: seq<byte>, depth: nat)
    requires WellFormed(u) && !u.UGroup?
    ensures Skip(UnknownBytes(u) + x, depth) == Plus(|UnknownBytes(u)|, Then(x, depth))
  {
    match u
    case UVarint(f, v) =>
      VarintRoundTrip(v, x);
      SkipTagged(f, 0, Varint(v), x, depth, depth);
    case UFixed64(f, b) => SkipTagged(f, 1, b, x, depth, depth);
    case UBytes(f, p) =>
      VarintRoundTrip(|p|, p + x);
      assert Varint(|p|) + p + x == Varint(|p|) + (p + x);
      SkipTagged(f, 2, Varint(|p|) + p, x, depth, depth);
    case UFixed32(f, b) => SkipTagged(f, 5, b, x, depth, depth);
  }

  lemma {:induction false} SkipUnknownOn(u: Unknown, x: seq<byte>, depth: nat)
    requires WellFormed(u)
    ensures Skip(UnknownBytes(u) + x, depth) == Plus(|UnknownBytes(u)|, Then(x, depth))
    decreases u, 1, 0
  {
    if u.UGroup? {
      SkipGroup(u, x, depth);
    } else {
      SkipPlain(u, x, depth);
    }
  }

  lemma {:induction false} SkipGroup(u: Unknown, x: seq<byte>, depth: nat)
    requires WellFormed(u) && u.UGroup?
    ensures Skip(UnknownBytes(u) + x, depth) == Plus(|UnknownBytes(u)|, Then(x, depth))
    decreases u, 0, |u.members| + 1
  {
    SkipMembers(u, u.members, Tag(u.field, 4) + x, depth + 1);
    GroupWhole(u.field, MemberBytes(u.members), x, depth);
  }

  lemma Regroup(a: seq<byte>, b: seq<byte>, c: seq<byte>)
    ensures a + b + c == a + (b + c)
  {
  }

  lemma GroupWhole(f: nat, body: seq<byte>, x: seq<byte>, depth: nat)
    requires FieldOk(f) && Skip(body + (Tag(f, 4) + x), depth + 1) == Plus(|body|, Skip(Tag(f, 4) + x, depth + 1))
    ensures Skip(Tag(f, 3) + (body + Tag(f, 4)) + x, depth) == Plus(|Tag(f, 3) + (body + Tag(f, 4))|, Then(x, depth))
  {
    GroupEnd(f, x, depth);
    GroupStart(f, body + (Tag(f, 4) + x), depth);
    Regroup(Tag(f, 3), body + Tag(f, 4), x);
    Regroup(body, Tag(f, 4), x);
  }

  lemma GroupStart(f: nat, x: seq<byte>, depth: nat)
    requires FieldOk(f) && x != []
    ensures Skip(Tag(f, 3) + x, depth) == Plus(|Tag(f, 3)|, Skip(x, depth + 1))
  {
    assert Tag(f, 3) + [] == Tag(f, 3) && [] + x == x;
    SkipTagged(f, 3, [], x, depth, depth + 1);
  }

  lemma GroupEnd(f: nat, x: seq<byte>, depth: nat)
    requires FieldOk(f)
    ensures Skip(Tag(f, 4) + x, depth + 1) == Plus(|Tag(f, 4)|, Then(x, depth))
  {
    assert Tag(f, 4) + [] == Tag(f, 4) && [] + x == x;
    SkipTagged(f, 4, [], x, depth + 1, depth);
  }

  lemma Continue(a: seq<byte>, b: seq<byte>, x: seq<byte>, depth: nat)
    requires depth >= 1 && x != [] && Skip(a + (b + x), depth) == Plus(|a|, Then(b + x, depth))
    requires Skip(b + x, depth) == Plus(|b|, Skip(x, depth))
    ensures Skip(a + (b + x), depth) == Plus(|a + b|, Skip(x, depth))
  {
  }

  lemma {:induction false} SkipMembers(u: Unknown, us: seq<Unknown>, x: seq<byte>, depth: nat)
    requires forall k :: 0 <= k < |us| ==> us[k] < u && WellFormed(us[k])
    requires x != [] && depth >= 1
    ensures Skip(MemberBytes(us) + x, depth) == Plus(|MemberBytes(us)|, Skip(x, depth))
    decreases u, 0, |us|
  {
    if us == [] {
      assert MemberBytes(us) + x == x;
    } else {
      var first, rest := UnknownBytes(us[0]), MemberBytes(us[1..]);
      SkipUnknownOn(us[0], rest + x, depth);
      SkipMembers(u, us[1..], x, depth);
      Regroup(first, rest, x);
      Continue(first, rest, x, depth);
    }
  }

  /** Skipping takes exactly one well-formed record, however deeply its groups are nested. */
  lemma SkipTakesOneRecord(u: Unknown, x: seq<byte>)
    requires WellFormed(u)
    ensures Skip(UnknownBytes(u) + x, 0) == Some(|UnknownBytes(u)|)
  {
    SkipUnknownOn(u, x, 0);
  }

  // ---------- the code itself ----------

  /** One varint, forwards from `start`. */
  method PutVarint(dAtA: array<byte>, start: nat, v: nat) returns (j: nat)
    requires start + |Varint(v)| <= dAtA.Length
    modifies dAtA
    ensures j == start + |Varint(v)| && dAtA[..j] == old(dAtA[..start]) + Varint(v)
    ensures dAtA[j..] == old(dAtA[start + |Varint(v)|..])
  {
    j := start;
    var num := v;
    while num >= 128
      invariant start <= j && j + |Varint(num)| == start + |Varint(v)|
      invariant dAtA[..j] + Varint(num) == old(dAtA[..start]) + Varint(v)
      invariant dAtA[start + |Varint(v)|..] == old(dAtA[start + |Varint(v)|..])
    {
      ghost var was := dAtA[..j];
      dAtA[j] := num % 128 + 128;
      assert dAtA[..j + 1] == was + [num % 128 + 128];
      Regroup(was, [num % 128 + 128], Varint(num / 128));
      num := num / 128;
      j := j + 1;
    }
    ghost var was := dAtA[..j];
    dAtA[j] := num;
    j := j + 1;
    assert dAtA[..j] == was + [num];
  }

  /** Writes backwards: the varint ends where `offset` was. */
  method EncodeVarint(dAtA: array<byte>, offset: nat, v: nat) returns (base: nat)
    requires Sov(v) <= offset <= dAtA.Length
    modifies dAtA
    ensures base == offset - Sov(v) && dAtA[base..offset] == Varint(v)
    ensures dAtA[..base] == old(dAtA[..base]) && dAtA[offset..] == old(dAtA[offset..])
  {
    SovIsExact(v);
    base := offset - Sov(v);
    var end := PutVarint(dAtA, base, v);
    assert dAtA[base..offset] == dAtA[..offset][base..] && dAtA[..base] == dAtA[..offset][..base];
  }

  lemma GroupsTurn(s: seq<byte>, start: nat, i: nat, shift: nat, v: nat)
    requires start <= i < |s| && shift == 7 * (i - start) && v == Groups(s[start..i]) % TwoTo64
    ensures (v + s[i] % 128 * Pow2(shift)) % TwoTo64 == Groups(s[start..i + 1]) % TwoTo64
  {
    assert s[start..i + 1] == s[start..i] + [s[i]];
    GroupsAppend(s[start..i], s[i]);
    ModAdd(Groups(s[start..i]), s[i] % 128 * Pow2(shift));
  }

  lemma LenTurn(s: seq<byte>, i: nat, shift: nat)
    requires i < |s| && shift < 64
    ensures s[i] < 128 ==> VarintLen(s[i..], shift) == Some(1)
    ensures s[i] >= 128 && VarintLen(s[i + 1..], shift + 7).None? ==> VarintLen(s[i..], shift) == None
    ensures s[i] >= 128 && VarintLen(s[i + 1..], shift + 7).Some? ==>
              VarintLen(s[i..], shift) == Some(VarintLen(s[i + 1..], shift + 7).value + 1)
  {
    assert s[i..][1..] == s[i + 1..];
  }

  /** The loop that every decoder repeats. */
  method DecodeVarint(dAtA: seq<byte>, start: nat) returns (r: Option<(nat, nat)>)
    requires start <= |dAtA|
    ensures r == match ReadUint(dAtA[start..]) case None => None case Some((v, n)) => Some((v, start + n))
  {
    var i, shift, v := start, 0, 0;
    while true
      invariant start <= i <= |dAtA| && shift == 7 * (i - start) && v == Groups(dAtA[start..i]) % TwoTo64
      invariant VarintLen(dAtA[start..], 0) ==
        match VarintLen(dAtA[i..], shift) case None => None case Some(n) => Some(i - start + n)
      decreases |dAtA| - i
    {
      if shift >= 64 || i >= |dAtA| {
        return None;
      }
      var b := dAtA[i];
      GroupsTurn(dAtA, start, i, shift, v);
      LenTurn(dAtA, i, shift);
      i := i + 1;
      v := (v + b % 128 * Pow2(shift)) % TwoTo64;
      if b < 128 {
        SliceOfRest(dAtA, start, start, i);
        return Some((v, i));
      }
      shift := shift + 7;
    }
  }

  /** The body of one record; `i` is behind the tag. */
  method SkipBodyAt(dAtA: seq<byte>, i: nat, kind: nat, depth: nat) returns (r: Option<(nat, nat)>)
    requires i <= |dAtA|
    ensures r.None? <==> SkipBody(kind, dAtA[i..], depth).None?
    ensures r.Some? ==> r.value.0 >= i && SkipBody(kind, dAtA[i..], depth) == Some((r.value.0 - i, r.value.1))
  {
    match kind
    case 0 =>
      var v := DecodeVarint(dAtA, i);
      return if v.None? then None else Some((v.value.1, depth));
    case 1 => return Some((i + 8, depth));
    case 2 =>
      var v := DecodeVarint(dAtA, i);
      return if v.None? || v.value.0 >= TwoTo63 then None else Some((v.value.1 + v.value.0, depth));
    case 3 => return Some((i, depth + 1));
    case 4 => return if depth == 0 then None else Some((i, depth - 1));
    case 5 => return Some((i + 4, depth));
    case _ => return None;
  }

  lemma SkipTurn(s: seq<byte>, i: nat, depth: nat, wire: nat, j: nat)
    requires i <= j <= |s| && ReadUint(s[i..]) == Some((wire, j - i))
    ensures Plus(i, Skip(s[i..], depth)) == Plus(j, SkipRest(wire % 8, s[j..], depth))
  {
    assert s[i..][j - i..] == s[j..];
  }

  lemma RestTurn(s: seq<byte>, j: nat, kind: nat, depth: nat, m: nat, d: nat)
    requires j <= |s| && SkipBody(kind, s[j..], depth) == Some((m, d))
    ensures Plus(j, SkipRest(kind, s[j..], depth)) ==
            if d == 0 then Some(j + m) else if j + m >= |s| then None else Plus(j + m, Skip(s[j + m..], d))
  {
    if j + m <= |s| {
      assert s[j..][m..] == s[j + m..];
    }
  }

  /** One turn of skipRaft's loop: where it leaves the index, and the depth. */
  method SkipOne(dAtA: seq<byte>, i: nat, depth: nat) returns (r: Option<(nat, nat)>)
    requires i <= |dAtA|
    ensures r.None? ==> Skip(dAtA[i..], depth) == None
    ensures r.Some? ==>
      var (k, d) := r.value;
      && k > i
      && Plus(i, Skip(dAtA[i..], depth)) == if d == 0 then Some(k) else if k >= |dAtA| then None else Plus(k, Skip(dAtA[k..], d))
  {
    var tag := DecodeVarint(dAtA, i);
    if tag.None? {
      return None;
    }
    var (wire, j) := tag.value;
    SkipTurn(dAtA, i, depth, wire, j);
    r := SkipBodyAt(dAtA, j, wire % 8, depth);
    if r.Some? {
      RestTurn(dAtA, j, wire % 8, depth, r.value.0 - j, r.value.1);
    }
  }

  /** skipRaft over `dAtA[start..]`; the answer counts from the start of `dAtA`. */
  method SkipRecord(dAtA: seq<byte>, start: nat) returns (r: Option<nat>)
    requires start <= |dAtA|
    ensures r == Plus(start, Skip(dAtA[start..], 0))
  {
    var i, depth := start, 0;
    ghost var want := Plus(start, Skip(dAtA[start..], 0));
    while i < |dAtA|
      invariant start <= i <= |dAtA|
      invariant want == Plus(i, Skip(dAtA[i..], depth))
      decreases |dAtA| - i
    {
      var next := SkipOne(dAtA, i, depth);
      if next.None? || next.value.1 == 0 {
        return if next.None? then None else Some(next.value.0);
      }
      if next.value.0 >= |dAtA| {
        return None;
      }
      i, depth := next.value.0, next.value.1;
    }
    return None;
  }
}
