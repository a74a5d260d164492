/** The schema-less protobuf walker (readVarint and protobufScanner.scan in
    pkg/provider/openaicompat/quirks_quota.go) against an encoder for message trees.  The wire format is
    "Base 128 Varints" and "Message Structure" of the Protocol Buffers Encoding guide. */
module Protobuf {
  import opened Common

  // ---------------------------------------------------------------- varints

  function Pow2(n: nat): (r: nat)
    ensures r > 0
  {
    if n == 0 then 1 else 2 * Pow2(n - 1)
  }

  // The next index is past the last byte read even when the varint is unreadable.
  datatype Varint = Varint(value: int, next: nat, ok: bool)

  /** readVarint from `shift` with `val` collected.  The bits of `val` lie below `shift`, so the source's `|=` is an
      addition; uint64 drops what is shifted past bit 63. */
  function VarintFrom(data: seq<byte>, idx: nat, val: int, shift: nat): (r: Varint)
    requires idx <= |data|
    ensures idx <= r.next <= |data|
    ensures r.ok ==> idx < r.next
    decreases |data| - idx
  {
    if idx == |data| || shift >= 64 then Varint(0, idx, false)
    else
      var b := data[idx] as int;
      var v := (val + (b % 128) * Pow2(shift)) % TWO64;
      if b < 128 then Varint(v, idx + 1, true) else VarintFrom(data, idx + 1, v, shift + 7)
  }

  function ReadVarintSpec(data: seq<byte>, idx: nat): (r: Varint)
    requires idx <= |data|
    ensures idx <= r.next <= |data| && (r.ok ==> idx < r.next)
  {
    VarintFrom(data, idx, 0, 0)
  }

  method ReadVarint(data: seq<byte>, start: nat) returns (val: int, idx: nat, ok: bool)
    requires start <= |data|
    ensures Varint(val, idx, ok) == ReadVarintSpec(data, start)
  {
    val, idx := 0, start;
    var shift := 0;
    while idx < |data| && shift < 64
      invariant start <= idx <= |data|
      invariant VarintFrom(data, idx, val, shift) == ReadVarintSpec(data, start)
      decreases |data| - idx
    {
      var b := data[idx] as int;
      idx := idx + 1;
      val := (val + (b % 128) * Pow2(shift)) % TWO64;
      if b < 128 {
        return val, idx, true;
      }
      shift := shift + 7;
    }
    return 0, idx, false;
  }

  function EncodeVarint(v: nat): (bs: seq<byte>)
    ensures |bs| >= 1
  {
    if v < 128 then [v as byte] else [(128 + v % 128) as byte] + EncodeVarint(v / 128)
  }

  lemma {:induction false} Pow2Add(a: nat, b: nat)
    ensures Pow2(a + b) == Pow2(a) * Pow2(b)
  {
    if a != 0 {
      Pow2Add(a - 1, b);
    }
  }

  lemma {:induction false} Monotone(a: nat, b: nat, p: nat)
    requires a <= b
    ensures a * p <= b * p
  {
  }

  lemma {:induction false} ShiftBySeven(shift: nat)
    ensures Pow2(shift + 7) == 128 * Pow2(shift)
  {
    Pow2Add(7, shift);
    assert Pow2(7) == 128;
  }

  // Splitting off the low seven bits.
  lemma {:induction false} SplitGroup(val: nat, v: nat, shift: nat)
    ensures (val + (v % 128) * Pow2(shift)) + (v / 128) * Pow2(shift + 7) == val + v * Pow2(shift)
    ensures val <= val + (v % 128) * Pow2(shift) <= val + v * Pow2(shift)
  {
    var q, r, p := v / 128, v % 128, Pow2(shift);
    ShiftBySeven(shift);
    assert q * (128 * p) == (q * 128) * p;
    assert (r + q * 128) * p == r * p + (q * 128) * p;
    Monotone(r, v, p);
  }

  // Reading one byte.
  lemma {:induction false} VarintStep(pre: seq<byte>, b: byte, rest: seq<byte>, val: nat, shift: nat, v: nat)
    requires shift < 64 && v == val + (b as int % 128) * Pow2(shift) < TWO64
    ensures VarintFrom(pre + ([b] + rest), |pre|, val, shift)
         == if b < 128 then Varint(v, |pre| + 1, true) else VarintFrom(pre + [b] + rest, |pre| + 1, v, shift + 7)
  {
    var data := pre + ([b] + rest);
    AppendAssoc(pre, [b], rest);
    assert data[|pre|] == b;
    assert v % TWO64 == v;
  }

  /** Reading undoes writing, from any offset and inside any surroundings, as long as the groups still fit. */
  lemma {:induction false} ReadsEncoded(pre: seq<byte>, v: nat, post: seq<byte>, val: nat, shift: nat)
    requires shift < 64 && val + v * Pow2(shift) < TWO64
    requires shift % 7 == 0
    ensures VarintFrom(pre + (EncodeVarint(v) + post), |pre|, val, shift)
         == Varint(val + v * Pow2(shift), |pre| + |EncodeVarint(v)|, true)
    decreases v
  {
    if v < 128 {
      ReadsLast(pre, v, post, val, shift);
    } else {
      var b := (128 + v % 128) as byte;
      SplitGroup(val, v, shift);
      FitsMore(v, val, shift);
      ReadsMore(pre, b, v, post, val, shift);
      ReadsEncoded(pre + [b], v / 128, post, val + (v % 128) * Pow2(shift), shift + 7);
    }
  }

  lemma {:induction false} ReadsLast(pre: seq<byte>, v: nat, post: seq<byte>, val: nat, shift: nat)
    requires shift < 64 && v < 128 && val + v * Pow2(shift) < TWO64
    ensures VarintFrom(pre + (EncodeVarint(v) + post), |pre|, val, shift) == Varint(val + v * Pow2(shift), |pre| + 1, true)
  {
    VarintStep(pre, v as byte, post, val, shift, val + v * Pow2(shift));
  }

  lemma {:induction false} ReadsMore(pre: seq<byte>, b: byte, v: nat, post: seq<byte>, val: nat, shift: nat)
    requires shift < 64 && v >= 128 && b as int == 128 + v % 128
    requires val + (v % 128) * Pow2(shift) < TWO64
    ensures VarintFrom(pre + (EncodeVarint(v) + post), |pre|, val, shift)
         == VarintFrom(pre + [b] + (EncodeVarint(v / 128) + post), |pre + [b]|, val + (v % 128) * Pow2(shift), shift + 7)
  {
    var q := EncodeVarint(v / 128);
    VarintStep(pre, b, q + post, val, shift, val + (v % 128) * Pow2(shift));
    AppendAssoc([b], q, post);
  }

  // A value of more than seven bits leaves room for another group.
  lemma {:induction false} FitsMore(v: nat, val: nat, shift: nat)
    requires v >= 128 && shift < 64 && shift % 7 == 0 && val + v * Pow2(shift) < TWO64
    ensures shift + 7 < 64
  {
    if shift + 7 >= 64 {
      assert shift == 63;
      Pow2Of63();
      Monotone(128, v, Pow2(shift));
    }
  }

  lemma {:induction false} Pow2Of63()
    ensures Pow2(63) == 0x8000_0000_0000_0000
  {
    assert Pow2(7) == 128;
    Pow2Add(7, 7);
    assert Pow2(14) == 0x4000;
    Pow2Add(14, 14);
    assert Pow2(28) == 0x1000_0000;
    Pow2Add(28, 28);
    Pow2Add(56, 7);
  }

  lemma {:induction false} EncodedLength(v: nat, groups: nat)
    requires groups >= 1 && v < Pow2(7 * groups)
    ensures |EncodeVarint(v)| <= groups
    decreases groups
  {
    if v >= 128 {
      assert Pow2(7) == 128;
      assert groups >= 2;
      Pow2Add(7, 7 * (groups - 1));
      assert v / 128 < Pow2(7 * (groups - 1));
      EncodedLength(v / 128, groups - 1);
    }
  }

  /** Every uint64 is read back from every offset, consuming exactly its 1 to 10 encoded bytes. */
  lemma {:induction false} VarintRoundTrip(pre: seq<byte>, v: nat, post: seq<byte>)
    requires v < TWO64
    ensures 1 <= |EncodeVarint(v)| <= 10
    ensures ReadVarintSpec(pre + (EncodeVarint(v) + post), |pre|) == Varint(v, |pre| + |EncodeVarint(v)|, true)
  {
    ReadsEncoded(pre, v, post, 0, 0);
    Pow2Of63();
    Pow2Add(63, 7);
    assert Pow2(7) == 128;
    EncodedLength(v, 10);
  }

  // ---------------------------------------------------------------- the scanner

  // A scalar leaf and its field path; a fixed32 keeps its four bytes.
  datatype Leaf = VarintLeaf(path: seq<int>, value: int) | Fixed32Leaf(path: seq<int>, bits: seq<byte>)

  const MAX_DEPTH := 10

  // What one round of the scan loop does at `start`: how far it moves, and what it records.
  datatype Round =
    | Skip                                          // resume one byte later
    | Record(leaf: Leaf, next: nat)
    | Pass(next: nat)                               // a fixed64
    | Nested(from: nat, next: nat, field: int)      // a length-delimited payload

  function RoundAt(data: seq<byte>, start: nat, path: seq<int>): (r: Round)
    requires start < |data|
    ensures r.Record? ==> start + 2 <= r.next <= |data|
    ensures r.Pass? ==> start < r.next <= |data|
    ensures r.Nested? ==> start + 2 <= r.from <= r.next <= |data|
  {
    var k := ReadVarintSpec(data, start);
    if !k.ok || k.value / 8 <= 0 then Skip
    else
      var field, wire, i := k.value / 8, k.value % 8, k.next;
      if wire == 0 then
        var v := ReadVarintSpec(data, i);
        if !v.ok then Skip else Record(VarintLeaf(path + [field], v.value), v.next)
      else if wire == 1 then
        if i + 8 > |data| then Skip else Pass(i + 8)
      else if wire == 2 then
        var n := ReadVarintSpec(data, i);
        if !n.ok || n.value > |data| - n.next || n.value < 0 then Skip
        else Nested(n.next, n.next + n.value, field)
      else if wire == 5 then
        if i + 4 > |data| then Skip else Record(Fixed32Leaf(path + [field], data[i..i + 4]), i + 4)
      else Skip
  }

  function NextAfter(r: Round, start: nat): nat {
    if r.Skip? then start + 1 else r.next
  }

  // What a round appends: a leaf, or everything found in the nested message.
  function Appended(data: seq<byte>, start: nat, path: seq<int>, depth: nat): seq<Leaf>
    requires start < |data|
    decreases |data|, 0
  {
    match RoundAt(data, start, path)
    case Record(leaf, _) => [leaf]
    case Nested(from, next, field) => ScanFrom(data[from..next], 0, path + [field], depth + 1)
    case _ => []
  }

  // Everything scan appends from offset i on.
  function ScanFrom(data: seq<byte>, i: nat, path: seq<int>, depth: nat): seq<Leaf>
    requires i <= |data|
    decreases |data|, 1, |data| - i
  {
    if depth > MAX_DEPTH || i == |data| then []
    else Appended(data, i, path, depth) + ScanFrom(data, NextAfter(RoundAt(data, i, path), i), path, depth)
  }

  function Scan(data: seq<byte>): seq<Leaf> {
    ScanFrom(data, 0, [], 0)
  }

  lemma {:induction false} VarintIsNonNegative(data: seq<byte>, idx: nat, val: nat, shift: nat)
    requires idx <= |data|
    ensures 0 <= VarintFrom(data, idx, val, shift).value
    decreases |data| - idx
  {
    if idx < |data| && shift < 64 {
      var b := data[idx] as int;
      if b >= 128 {
        VarintIsNonNegative(data, idx + 1, (val + (b % 128) * Pow2(shift)) % TWO64, shift + 7);
      }
    }
  }

  class ProtobufScanner {
    var fields: seq<Leaf>

    constructor ()
      ensures fields == []
    {
      fields := [];
    }

    /** The walk: appends the leaves of `data` below `path`, terminating and staying in bounds on any bytes. */
    method ScanMessage(data: seq<byte>, path: seq<int>, depth: nat)
      modifies this
      ensures fields == old(fields) + ScanFrom(data, 0, path, depth)
      decreases |data|, 1
    {
      if depth > MAX_DEPTH {
        return;
      }
      var i := 0;
      while i < |data|
        invariant 0 <= i <= |data|
        invariant fields + ScanFrom(data, i, path, depth) == old(fields) + ScanFrom(data, 0, path, depth)
        decreases |data| - i
      {
        ghost var before, more := fields, Appended(data, i, path, depth);
        var next := ScanField(data, i, path, depth);
        AppendAssoc(before, more, ScanFrom(data, next, path, depth));
        i := next;
      }
    }

    /** One round of the loop: the field at `start`, or one byte of garbage. */
    method ScanField(data: seq<byte>, start: nat, path: seq<int>, depth: nat) returns (i: nat)
      requires start < |data| && depth <= MAX_DEPTH
      modifies this
      ensures i == NextAfter(RoundAt(data, start, path), start)
      ensures fields == old(fields) + Appended(data, start, path, depth)
      decreases |data|, 0
    {
      var key, nextIdx, ok := ReadVarint(data, start);
      VarintIsNonNegative(data, start, 0, 0);
      if !ok || key == 0 {
        return start + 1;
      }
      var field, wire := key / 8, key % 8;
      if field <= 0 {
        return start + 1;
      }
      i := nextIdx;
      if wire == 0 {
        var val, endIdx, vok := ReadVarint(data, i);
        if !vok {
          return start + 1;
        }
        fields := fields + [VarintLeaf(path + [field], val)];
        return endIdx;
      } else if wire == 1 {
        if i + 8 > |data| {
          return start + 1;
        }
        return i + 8;
      } else if wire == 2 {
        var size, endIdx, sok := ReadVarint(data, i);
        VarintIsNonNegative(data, i, 0, 0);
        if !sok || size > |data| - endIdx {
          return start + 1;
        }
        ScanMessage(data[endIdx..endIdx + size], path + [field], depth + 1);
        return endIdx + size;
      } else if wire == 5 {
        if i + 4 > |data| {
          return start + 1;
        }
        fields := fields + [Fixed32Leaf(path + [field], data[i..i + 4])];
        return i + 4;
      } else {
        return start + 1;
      }
    }
  }

  // ---------------------------------------------------------------- total on arbitrary bytes

  lemma {:induction false} AppendedCount(data: seq<byte>, start: nat, path: seq<int>, depth: nat)
    requires start < |data|
    ensures 2 * |Appended(data, start, path, depth)| <= NextAfter(RoundAt(data, start, path), start) - start
    decreases |data|, 0
  {
    var r := RoundAt(data, start, path);
    if r.Nested? {
      ScanCount(data[r.from..r.next], 0, path + [r.field], depth + 1);
    }
  }

  lemma {:induction false} ScanCount(data: seq<byte>, i: nat, path: seq<int>, depth: nat)
    requires i <= |data|
    ensures 2 * |ScanFrom(data, i, path, depth)| <= |data| - i
    decreases |data|, 1, |data| - i
  {
    if depth <= MAX_DEPTH && i < |data| {
      AppendedCount(data, i, path, depth);
      ScanCount(data, NextAfter(RoundAt(data, i, path), i), path, depth);
    }
  }

  ghost predicate Below(l: Leaf, path: seq<int>, depth: nat) {
    path <= l.path && |path| < |l.path| <= |path| + 1 + MAX_DEPTH - depth
  }

  lemma {:induction false} ScanPaths(data: seq<byte>, i: nat, path: seq<int>, depth: nat, l: Leaf)
    requires i <= |data| && l in ScanFrom(data, i, path, depth)
    ensures Below(l, path, depth)
    decreases |data|, |data| - i
  {
    var r := RoundAt(data, i, path);
    if l in Appended(data, i, path, depth) {
      if r.Nested? {
        ScanPaths(data[r.from..r.next], 0, path + [r.field], depth + 1, l);
      }
    } else {
      ScanPaths(data, NextAfter(r, i), path, depth, l);
    }
  }

  /** However malformed the bytes, at most one leaf is recorded per two bytes and no path grows past the depth limit. */
  lemma {:induction false} ScanBounds(data: seq<byte>)
    ensures |Scan(data)| <= |data| / 2
    ensures forall l :: l in Scan(data) ==> 1 <= |l.path| <= 11
  {
    ScanCount(data, 0, [], 0);
    forall l | l in Scan(data) ensures Below(l, [], 0) {
      ScanPaths(data, 0, [], 0, l);
    }
  }

  // ---------------------------------------------------------------- inverse of the wire encoding

  // A message tree whose length-delimited fields are all nested messages.
  datatype Field =
    | VarintField(num: nat, value: nat)
    | Fixed32Field(num: nat, bits: seq<byte>)
    | Fixed64Field(num: nat, bits: seq<byte>)
    | MessageField(num: nat, fields: seq<Field>)

  // Encodable: field numbers from 1 with a 64-bit key, 64-bit values and lengths.
  predicate WellFormed(f: Field) {
    && 1 <= f.num < TWO64 / 8
    && match f
       case VarintField(_, v) => v < TWO64
       case Fixed32Field(_, bits) => |bits| == 4
       case Fixed64Field(_, bits) => |bits| == 8
       case MessageField(_, fs) => (forall g :: g in fs ==> WellFormed(g)) && |EncodeAll(fs)| < TWO64
  }

  function Encode(f: Field): seq<byte> {
    match f
    case VarintField(n, v) => EncodeVarint(8 * n) + EncodeVarint(v)
    case Fixed32Field(n, bits) => EncodeVarint(8 * n + 5) + bits
    case Fixed64Field(n, bits) => EncodeVarint(8 * n + 1) + bits
    case MessageField(n, fs) => EncodeVarint(8 * n + 2) + EncodeVarint(|EncodeAll(fs)|) + EncodeAll(fs)
  }

  function EncodeAll(fs: seq<Field>): seq<byte> {
    if fs == [] then [] else Encode(fs[0]) + EncodeAll(fs[1..])
  }

  // The scalar leaves of a tree in pre-order, down to nesting level 10.
  function Leaves(f: Field, path: seq<int>, depth: nat): seq<Leaf>
    decreases f
  {
    match f
    case VarintField(n, v) => [VarintLeaf(path + [n], v)]
    case Fixed32Field(n, bits) => [Fixed32Leaf(path + [n], bits)]
    case Fixed64Field(_, _) => []
    case MessageField(n, fs) => if depth >= 10 then [] else LeavesOf(fs, path + [n], depth + 1)
  }

  function LeavesOf(fs: seq<Field>, path: seq<int>, depth: nat): seq<Leaf>
    decreases fs
  {
    if fs == [] then [] else Leaves(fs[0], path, depth) + LeavesOf(fs[1..], path, depth)
  }

  // What one encoded field does to the scan, as a round.
  function ExpectedRound(f: Field, start: nat, path: seq<int>): Round {
    var next := start + |Encode(f)|;
    match f
    case VarintField(n, v) => Record(VarintLeaf(path + [n], v), next)
    case Fixed32Field(n, bits) => Record(Fixed32Leaf(path + [n], bits), next)
    case Fixed64Field(_, _) => Pass(next)
    case MessageField(n, fs) => Nested(next - |EncodeAll(fs)|, next, n)
  }

  lemma {:induction false} SecondReads(pre: seq<byte>, key: nat, v: nat, rest: seq<byte>)
    requires key < TWO64 && v < TWO64
    ensures var data := pre + (EncodeVarint(key) + (EncodeVarint(v) + rest));
            && ReadVarintSpec(data, |pre|) == Varint(key, |pre| + |EncodeVarint(key)|, true)
            && ReadVarintSpec(data, |pre| + |EncodeVarint(key)|)
            == Varint(v, |pre| + |EncodeVarint(key)| + |EncodeVarint(v)|, true)
  {
    VarintRoundTrip(pre, key, EncodeVarint(v) + rest);
    VarintRoundTrip(pre + EncodeVarint(key), v, rest);
    AppendAssoc(pre, EncodeVarint(key), EncodeVarint(v) + rest);
  }

  lemma {:induction false} KeyParts(n: nat, wire: nat)
    requires wire < 8
    ensures (8 * n + wire) / 8 == n && (8 * n + wire) % 8 == wire
  {
  }

  lemma {:induction false} RoundOfVarint(pre: seq<byte>, n: nat, v: nat, post: seq<byte>, path: seq<int>)
    requires WellFormed(VarintField(n, v))
    ensures RoundAt(pre + (Encode(VarintField(n, v)) + post), |pre|, path) == ExpectedRound(VarintField(n, v), |pre|, path)
  {
    SecondReads(pre, 8 * n, v, post);
    KeyParts(n, 0);
    AppendAssoc(EncodeVarint(8 * n), EncodeVarint(v), post);
  }

  lemma {:induction false} RoundOfFixed(pre: seq<byte>, f: Field, post: seq<byte>, path: seq<int>)
    requires WellFormed(f) && (f.Fixed32Field? || f.Fixed64Field?)
    ensures RoundAt(pre + (Encode(f) + post), |pre|, path) == ExpectedRound(f, |pre|, path)
  {
    var wire := if f.Fixed32Field? then 5 else 1;
    var key := EncodeVarint(8 * f.num + wire);
    VarintRoundTrip(pre, 8 * f.num + wire, f.bits + post);
    KeyParts(f.num, wire);
    AppendAssoc(key, f.bits, post);
    PayloadAt(pre, key, f.bits, post);
  }

  lemma {:induction false} PayloadAt(pre: seq<byte>, key: seq<byte>, bits: seq<byte>, post: seq<byte>)
    ensures var data, i := pre + (key + (bits + post)), |pre| + |key|;
            i + |bits| <= |data| && data[i..i + |bits|] == bits
  {
    AppendAssoc(pre, key, bits + post);
    assert (pre + key + (bits + post))[|pre + key|..] == bits + post;
  }

  lemma {:induction false} RoundOfMessage(pre: seq<byte>, n: nat, fs: seq<Field>, post: seq<byte>, path: seq<int>)
    requires WellFormed(MessageField(n, fs))
    ensures var f := MessageField(n, fs);
            var data := pre + (Encode(f) + post);
            var r := ExpectedRound(f, |pre|, path);
            RoundAt(data, |pre|, path) == r && data[r.from..r.next] == EncodeAll(fs)
  {
    var body := EncodeAll(fs);
    var key, size := EncodeVarint(8 * n + 2), EncodeVarint(|body|);
    RoundOfPayload(pre, n, body, post, path);
    AppendAssoc(key + size, body, post);
    AppendAssoc(key, size, body + post);
  }

  lemma {:induction false} RoundOfPayload(pre: seq<byte>, n: nat, body: seq<byte>, post: seq<byte>, path: seq<int>)
    requires 1 <= n < TWO64 / 8 && |body| < TWO64
    ensures var key, size := EncodeVarint(8 * n + 2), EncodeVarint(|body|);
            var data, from := pre + (key + (size + (body + post))), |pre| + |key| + |size|;
            RoundAt(data, |pre|, path) == Nested(from, from + |body|, n) && data[from..from + |body|] == body
  {
    var key, size := EncodeVarint(8 * n + 2), EncodeVarint(|body|);
    SecondReads(pre, 8 * n + 2, |body|, body + post);
    KeyParts(n, 2);
    var data, from := pre + (key + (size + (body + post))), |pre| + |key| + |size|;
    assert data == pre + key + size + body + post by {
      AppendAssoc(pre, key, size + (body + post));
      AppendAssoc(pre + key, size, body + post);
      AppendAssoc(pre + key + size, body, post);
    }
    assert (pre + key + size + body + post)[from..from + |body|] == body;
  }

  lemma {:induction false} RoundOf(pre: seq<byte>, f: Field, post: seq<byte>, path: seq<int>)
    requires WellFormed(f)
    ensures Encode(f) != []
    ensures RoundAt(pre + (Encode(f) + post), |pre|, path) == ExpectedRound(f, |pre|, path)
  {
    match f
    case VarintField(n, v) => RoundOfVarint(pre, n, v, post, path);
    case MessageField(n, fs) => RoundOfMessage(pre, n, fs, post, path);
    case _ => RoundOfFixed(pre, f, post, path);
  }

  lemma {:induction false} ScanEncoded(pre: seq<byte>, fs: seq<Field>, path: seq<int>, depth: nat)
    requires (forall f :: f in fs ==> WellFormed(f)) && depth <= MAX_DEPTH
    ensures ScanFrom(pre + EncodeAll(fs), |pre|, path, depth) == LeavesOf(fs, path, depth)
    decreases fs, 1
  {
    if fs == [] {
      assert pre + [] == pre;
    } else {
      var f, rest := fs[0], fs[1..];
      AppendAssoc(pre, Encode(f), EncodeAll(rest));
      RoundOf(pre, f, EncodeAll(rest), path);
      FieldAppends(pre, f, EncodeAll(rest), path, depth);
      ScanEncoded(pre + Encode(f), rest, path, depth);
    }
  }

  lemma {:induction false} FieldAppends(pre: seq<byte>, f: Field, post: seq<byte>, path: seq<int>, depth: nat)
    requires WellFormed(f) && depth <= MAX_DEPTH
    ensures |pre| < |pre + (Encode(f) + post)|
    ensures Appended(pre + (Encode(f) + post), |pre|, path, depth) == Leaves(f, path, depth)
    decreases f, 0
  {
    RoundOf(pre, f, post, path);
    if f.MessageField? {
      RoundOfMessage(pre, f.num, f.fields, post, path);
      NestedScan(f.fields, path + [f.num], depth + 1);
    }
  }

  lemma {:induction false} NestedScan(fs: seq<Field>, path: seq<int>, depth: nat)
    requires (forall f :: f in fs ==> WellFormed(f)) && depth <= MAX_DEPTH + 1
    ensures ScanFrom(EncodeAll(fs), 0, path, depth) == if depth > MAX_DEPTH then [] else LeavesOf(fs, path, depth)
    decreases fs, 2
  {
    if depth <= MAX_DEPTH {
      ScanEncoded([], fs, path, depth);
      assert [] + EncodeAll(fs) == EncodeAll(fs);
    }
  }

  /** Scanning an encoded tree lists exactly its varint and fixed32 leaves in pre-order with their full paths, down
      to nesting level 10; anything nested deeper is left out. */
  lemma {:induction false} ScanInvertsEncoding(fs: seq<Field>)
    requires forall f :: f in fs ==> WellFormed(f)
    ensures Scan(EncodeAll(fs)) == LeavesOf(fs, [], 0)
  {
    ScanEncoded([], fs, [], 0);
    assert [] + EncodeAll(fs) == EncodeAll(fs);
  }

  // Every leaf of a tree, at any depth.
  function AllLeaves(f: Field, path: seq<int>): seq<Leaf>
    decreases f
  {
    match f
    case VarintField(n, v) => [VarintLeaf(path + [n], v)]
    case Fixed32Field(n, bits) => [Fixed32Leaf(path + [n], bits)]
    case Fixed64Field(_, _) => []
    case MessageField(n, fs) => AllLeavesOf(fs, path + [n])
  }

  function AllLeavesOf(fs: seq<Field>, path: seq<int>): seq<Leaf>
    decreases fs
  {
    if fs == [] then [] else AllLeaves(fs[0], path) + AllLeavesOf(fs[1..], path)
  }

  // No leaf below nesting level 10, counting from `depth`.
  predicate Shallow(f: Field, depth: nat)
    decreases f
  {
    f.MessageField? ==>
      if depth >= 10 then AllLeavesOf(f.fields, []) == [] else ShallowAll(f.fields, depth + 1)
  }

  predicate ShallowAll(fs: seq<Field>, depth: nat)
    decreases fs
  {
    fs == [] || (Shallow(fs[0], depth) && ShallowAll(fs[1..], depth))
  }

  lemma {:induction false} LeafCount(fs: seq<Field>, a: seq<int>, b: seq<int>)
    ensures |AllLeavesOf(fs, a)| == |AllLeavesOf(fs, b)|
    decreases fs
  {
    if fs != [] {
      LeafCount(fs[1..], a, b);
      if fs[0].MessageField? {
        LeafCount(fs[0].fields, a + [fs[0].num], b + [fs[0].num]);
      }
    }
  }

  lemma {:induction false} ShallowIff(fs: seq<Field>, path: seq<int>, depth: nat)
    ensures |LeavesOf(fs, path, depth)| <= |AllLeavesOf(fs, path)|
    ensures |LeavesOf(fs, path, depth)| == |AllLeavesOf(fs, path)| ==> LeavesOf(fs, path, depth) == AllLeavesOf(fs, path)
    ensures LeavesOf(fs, path, depth) == AllLeavesOf(fs, path) <==> ShallowAll(fs, depth)
    decreases fs
  {
    if fs != [] {
      var f, rest := fs[0], fs[1..];
      ShallowIff(rest, path, depth);
      if f.MessageField? {
        LeafCount(f.fields, path + [f.num], []);
        if depth < MAX_DEPTH {
          ShallowIff(f.fields, path + [f.num], depth + 1);
        }
      }
      HeadAndRest(Leaves(f, path, depth), LeavesOf(rest, path, depth), AllLeaves(f, path), AllLeavesOf(rest, path));
    }
  }

  lemma {:induction false} HeadAndRest(a: seq<Leaf>, b: seq<Leaf>, c: seq<Leaf>, d: seq<Leaf>)
    requires |a| <= |c| && |b| <= |d|
    requires |a| == |c| ==> a == c
    requires |b| == |d| ==> b == d
    ensures a + b == c + d <==> a == c && b == d
  {
  }

  /** Nothing is lost exactly when no leaf lies deeper than level 10. */
  lemma {:induction false} NothingLostIff(fs: seq<Field>)
    requires forall f :: f in fs ==> WellFormed(f)
    ensures Scan(EncodeAll(fs)) == AllLeavesOf(fs, []) <==> ShallowAll(fs, 0)
  {
    ScanInvertsEncoding(fs);
    ShallowIff(fs, [], 0);
  }
}
