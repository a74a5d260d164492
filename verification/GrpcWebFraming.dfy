/** gRPC-web framing (UnframeGRPCWeb in pkg/provider/openaicompat/quirks_quota.go; PROTOCOL-WEB of gRPC-Web):
    a flag byte, a big-endian 32-bit length, the payload.  Frames with the trailer bit are dropped. */
module GrpcWebFraming {
  import opened Common
  import P = Protobuf

  function BigEndian(b: seq<byte>): (n: nat)
    requires |b| == 4
    ensures n < 0x1_0000_0000
  {
    b[0] as nat * 0x100_0000 + b[1] as nat * 0x1_0000 + b[2] as nat * 0x100 + b[3] as nat
  }

  function ToBigEndian(n: nat): (b: seq<byte>)
    requires n < 0x1_0000_0000
    ensures |b| == 4 && BigEndian(b) == n
  {
    var high := n / 0x100;
    var higher := high / 0x100;
    [(higher / 0x100) as byte, (higher % 0x100) as byte, (high % 0x100) as byte, (n % 0x100) as byte]
  }

  predicate IsTrailer(flags: byte) {
    flags >= 0x80
  }

  // The data payloads from offset i on; a truncated frame ends the list.
  function UnframeFrom(data: seq<byte>, i: nat): seq<seq<byte>>
    requires i <= |data|
    decreases |data| - i
  {
    if i + 5 > |data| then []
    else
      var start := i + 5;
      var end := start + BigEndian(data[i + 1..i + 5]);
      if end > |data| then []
      else (if IsTrailer(data[i]) then [] else [data[start..end]]) + UnframeFrom(data, end)
  }

  function Unframe(data: seq<byte>): seq<seq<byte>> {
    UnframeFrom(data, 0)
  }

  method UnframeGRPCWeb(data: seq<byte>) returns (payloads: seq<seq<byte>>)
    ensures payloads == Unframe(data)
  {
    payloads := [];
    var i := 0;
    while i + 5 <= |data|
      invariant 0 <= i <= |data|
      invariant payloads + UnframeFrom(data, i) == Unframe(data)
      decreases |data| - i
    {
      var flags := data[i];
      var start := i + 5;
      var end := start + BigEndian(data[i + 1..i + 5]);
      if end > |data| {
        break;
      }
      ghost var before, more := payloads, if IsTrailer(flags) then [] else [data[start..end]];
      if !IsTrailer(flags) {
        payloads := payloads + [data[start..end]];
      }
      AppendAssoc(before, more, UnframeFrom(data, end));
      i := end;
    }
    assert UnframeFrom(data, i) == [];
  }

  datatype Frame = Frame(flags: byte, payload: seq<byte>)

  predicate Sendable(f: Frame) {
    |f.payload| < 0x1_0000_0000
  }

  function Encode(f: Frame): (bs: seq<byte>)
    requires Sendable(f)
    ensures |bs| == 5 + |f.payload|
  {
    [f.flags] + ToBigEndian(|f.payload|) + f.payload
  }

  function EncodeAll(fs: seq<Frame>): seq<byte>
    requires forall f :: f in fs ==> Sendable(f)
  {
    if fs == [] then [] else Encode(fs[0]) + EncodeAll(fs[1..])
  }

  function DataPayloads(fs: seq<Frame>): seq<seq<byte>> {
    if fs == [] then []
    else (if IsTrailer(fs[0].flags) then [] else [fs[0].payload]) + DataPayloads(fs[1..])
  }

  function Concat(ps: seq<seq<byte>>): seq<byte> {
    if ps == [] then [] else ps[0] + Concat(ps[1..])
  }

  // The bytes e are one frame with these flags and this payload.
  predicate IsFrame(e: seq<byte>, f: Frame) {
    |e| == 5 + |f.payload| && e[0] == f.flags && BigEndian(e[1..5]) == |f.payload| && e[5..] == f.payload
  }

  lemma {:induction false} EncodeIsFrame(f: Frame)
    requires Sendable(f)
    ensures IsFrame(Encode(f), f)
  {
    assert Encode(f)[1..5] == ToBigEndian(|f.payload|);
  }

  lemma {:induction false} FrameAt(pre: seq<byte>, e: seq<byte>, f: Frame, rest: seq<byte>)
    requires IsFrame(e, f)
    ensures var data, i := pre + e + rest, |pre|;
            && i + |e| <= |data| && data[i] == f.flags
            && data[i + 1..i + 5] == e[1..5]
            && data[i + 5..i + |e|] == f.payload
  {
  }

  lemma {:induction false} UnframeStep(pre: seq<byte>, e: seq<byte>, f: Frame, rest: seq<byte>)
    requires IsFrame(e, f)
    ensures UnframeFrom(pre + e + rest, |pre|)
         == (if IsTrailer(f.flags) then [] else [f.payload]) + UnframeFrom(pre + e + rest, |pre + e|)
  {
    FrameAt(pre, e, f, rest);
  }

  // A tail that ends inside a frame.
  ghost predicate Cut(tail: seq<byte>) {
    |tail| < 5 || |tail| < 5 + BigEndian(tail[1..5])
  }

  lemma {:induction false} CutYieldsNothing(p: seq<byte>, tail: seq<byte>)
    requires Cut(tail)
    ensures UnframeFrom(p + tail, |p|) == []
  {
    if |tail| >= 5 {
      assert (p + tail)[|p| + 1..|p| + 5] == tail[1..5];
    }
  }

  lemma {:induction false} UnframeEncoded(pre: seq<byte>, fs: seq<Frame>, tail: seq<byte>)
    requires (forall f :: f in fs ==> Sendable(f)) && Cut(tail)
    ensures UnframeFrom(pre + (EncodeAll(fs) + tail), |pre|) == DataPayloads(fs)
    decreases |fs|
  {
    if fs == [] {
      assert [] + tail == tail;
      CutYieldsNothing(pre, tail);
    } else {
      var f, fs' := fs[0], fs[1..];
      var e, rest := Encode(f), EncodeAll(fs') + tail;
      EncodeIsFrame(f);
      AppendAssoc(e, EncodeAll(fs'), tail);
      AppendAssoc(pre, e, rest);
      UnframeStep(pre, e, f, rest);
      UnframeEncoded(pre + e, fs', tail);
    }
  }

  /** Unframing a stream gives back the data payloads in order, trailers dropped, whatever is cut off at its end. */
  lemma {:induction false} UnframeInvertsEncoding(fs: seq<Frame>, tail: seq<byte>)
    requires (forall f :: f in fs ==> Sendable(f)) && Cut(tail)
    ensures Unframe(EncodeAll(fs) + tail) == DataPayloads(fs)
  {
    UnframeEncoded([], fs, tail);
    assert [] + (EncodeAll(fs) + tail) == EncodeAll(fs) + tail;
  }

  lemma {:induction false} PrefixFrom(data: seq<byte>, k: nat, i: nat)
    requires i <= k <= |data|
    ensures UnframeFrom(data[..k], i) <= UnframeFrom(data, i)
    decreases k - i
  {
    if i + 5 <= k {
      assert data[..k][i + 1..i + 5] == data[i + 1..i + 5];
      var end := i + 5 + BigEndian(data[i + 1..i + 5]);
      if end <= k {
        assert data[..k][i + 5..end] == data[i + 5..end];
        PrefixFrom(data, k, end);
      }
    }
  }

  /** On any bytes, what has arrived so far unframes to a prefix of what the whole stream unframes to. */
  lemma {:induction false} PrefixUnframesToPrefix(data: seq<byte>, k: nat)
    requires k <= |data|
    ensures Unframe(data[..k]) <= Unframe(data)
  {
    PrefixFrom(data, k, 0);
  }

  /** Framing independence: however an encoded message tree is split over data frames, with trailer frames anywhere
      between them, concatenating the payloads and scanning lists the tree's leaves. */
  lemma {:induction false} FramingDoesNotMatter(fs: seq<Frame>, tail: seq<byte>, tree: seq<P.Field>)
    requires (forall f :: f in fs ==> Sendable(f)) && Cut(tail)
    requires forall t :: t in tree ==> P.WellFormed(t)
    requires Concat(DataPayloads(fs)) == P.EncodeAll(tree)
    ensures Concat(Unframe(EncodeAll(fs) + tail)) == P.EncodeAll(tree)
    ensures P.Scan(Concat(Unframe(EncodeAll(fs) + tail))) == P.LeavesOf(tree, [], 0)
  {
    UnframeInvertsEncoding(fs, tail);
    P.ScanInvertsEncoding(tree);
  }
}
