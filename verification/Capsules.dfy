/** UDP over HTTP/2: DATAGRAM capsules to packets and back (relay/http2.go). */
module Capsules {
  type byte = x: int | 0 <= x < 256

  type Bytes = seq<byte>

  const MAX_UDP_PAYLOAD := 65507

  // ---- variable-length integers (section 16 of RFC 9000) ------------------

  datatype Parsed = Short | Int(value: nat, size: nat)

  /** Big-endian value. */
  function Value(b: Bytes): nat {
    if b == [] then 0 else 256 * Value(b[..|b| - 1]) + b[|b| - 1]
  }

  /** The size that the two top bits of the first byte announce. */
  function Size(first: byte): nat {
    if first < 64 then 1 else if first < 128 then 2 else if first < 192 then 4 else 8
  }

  /** An integer at the head of s; Short when s ends within it. */
  function ReadInt(s: Bytes): (p: Parsed)
    ensures p.Int? ==> 0 < p.size <= |s|
  {
    if s == [] || |s| < Size(s[0]) then Short
    else Int(Value([(s[0] % 64) as byte] + s[1..Size(s[0])]), Size(s[0]))
  }

  /** n bytes, big-endian. */
  function BigEndian(v: nat, n: nat): (b: Bytes)
    ensures |b| == n
  {
    if n == 0 then [] else BigEndian(v / 256, n - 1) + [(v % 256) as byte]
  }

  function Power(n: nat): nat { if n == 0 then 1 else 256 * Power(n - 1) }

  lemma {:induction false} BigEndianValue(v: nat, n: nat)
    requires v < Power(n)
    ensures Value(BigEndian(v, n)) == v
  {
    if n > 0 { BigEndianValue(v / 256, n - 1); }
  }

  lemma {:induction false} FirstByte(v: nat, n: nat)
    requires n > 0 && 4 * v < Power(n)
    ensures BigEndian(v, n)[0] < 64
  {
    if n > 1 { FirstByte(v / 256, n - 1); }
  }

  /** The value of the two size bits in the first byte. */
  function SizeBits(n: nat): nat { if n == 1 then 0 else if n == 2 then 64 else if n == 4 then 128 else 192 }

  /** The sizes a sender may use for v; it need not take the shortest. */
  predicate Fits(v: nat, n: nat) { n in {1, 2, 4, 8} && 4 * v < Power(n) }

  function WriteInt(v: nat, n: nat): (b: Bytes)
    requires Fits(v, n)
    ensures |b| == n
  {
    var b := BigEndian(v, n);
    FirstByte(v, n);
    [(b[0] + SizeBits(n)) as byte] + b[1..]
  }

  lemma Written(v: nat, n: nat, rest: Bytes)
    requires Fits(v, n)
    ensures ReadInt(WriteInt(v, n) + rest) == Int(v, n)
  {
    var b, s := BigEndian(v, n), WriteInt(v, n) + rest;
    FirstByte(v, n);
    BigEndianValue(v, n);
    assert Size(s[0]) == n && s[0] % 64 == b[0];
    assert [b[0]] + s[1..n] == b;
  }

  lemma WrittenShort(v: nat, n: nat, k: nat)
    requires Fits(v, n) && k < n
    ensures ReadInt(WriteInt(v, n)[..k]) == Short
  {
    FirstByte(v, n);
  }

  // ---- capsules (sections 3.2 and 3.5 of RFC 9297, section 5 of RFC 9298) --

  /** A capsule as a sender wrote it, with the sizes it chose for its integers. */
  datatype Frame =
    | Other(kind: nat, kindSize: nat, lengthSize: nat, value: Bytes)
    | Datagram(kindSize: nat, lengthSize: nat, context: nat, contextSize: nat, payload: Bytes)
  {
    predicate Valid() {
      match this
      case Other(kind, kindSize, lengthSize, value) =>
        kind != 0 && Fits(kind, kindSize) && Fits(|value|, lengthSize)
      case Datagram(kindSize, lengthSize, context, contextSize, payload) =>
        Fits(0, kindSize) && Fits(context, contextSize) && Fits(contextSize + |payload|, lengthSize)
    }

    function Kind(): nat { if Other? then kind else 0 }

    function Body(): Bytes
      requires Valid()
    {
      match this
      case Other(_, _, _, value) => value
      case Datagram(_, _, context, contextSize, payload) => WriteInt(context, contextSize) + payload
    }

    function Encode(): Bytes
      requires Valid()
    {
      WriteInt(Kind(), kindSize) + (WriteInt(|Body()|, lengthSize) + Body())
    }

    /** The packet that the relay sends for it. */
    function Packets(): seq<Bytes> {
      if Datagram? && context == 0 && |payload| <= 65507 then [payload] else []
    }
  }

  ghost predicate AllValid(frames: seq<Frame>) { forall i :: 0 <= i < |frames| ==> frames[i].Valid() }

  function EncodeAll(frames: seq<Frame>): Bytes
    requires AllValid(frames)
  {
    if frames == [] then [] else frames[0].Encode() + EncodeAll(frames[1..])
  }

  function AllPackets(frames: seq<Frame>): seq<Bytes> {
    if frames == [] then [] else frames[0].Packets() + AllPackets(frames[1..])
  }

  // ---- upload -------------------------------------------------------------

  /** What is sent for a capsule of this kind whose value is at the head of `body`. */
  function Send(kind: nat, length: nat, body: Bytes): (packets: seq<Bytes>)
    requires |body| >= length
  {
    if kind != 0 then []
    else
      var id := ReadInt(body[..length]);
      if id.Int? && id.value == 0 && length - id.size <= MAX_UDP_PAYLOAD then [body[id.size..length]] else []
  }

  /** The loop stops at a DATAGRAM capsule that ends within its context ID. */
  predicate Malformed(kind: nat, length: nat, body: Bytes) {
    kind == 0 && ReadInt(if length <= |body| then body[..length] else body).Short?
  }

  datatype Head = NoHead | Head(kind: nat, length: nat, size: nat)

  function ReadHead(s: Bytes): (h: Head)
    ensures h.Head? ==> 0 < h.size <= |s|
  {
    var kind := ReadInt(s);
    if kind.Short? then NoHead
    else
      var length := ReadInt(s[kind.size..]);
      if length.Short? then NoHead else Head(kind.value, length.value, kind.size + length.size)
  }

  /** All packets sent, after `sent`, for the rest of a stream. */
  function Receive(s: Bytes, sent: seq<Bytes>): seq<Bytes>
    decreases |s|
  {
    var h := ReadHead(s);
    if h.NoHead? then sent
    else
      var body := s[h.size..];
      if Malformed(h.kind, h.length, body) || |body| < h.length then sent
      else Receive(body[h.length..], sent + Send(h.kind, h.length, body))
  }

  /** relay/http2.go:232-267 */
  method CapsulesToUdp(stream: Bytes) returns (sent: seq<Bytes>)
    ensures sent == Receive(stream, [])
  {
    hide ReadInt;
    sent := [];
    var s := stream;
    while true
      invariant Receive(stream, []) == Receive(s, sent)
      decreases |s|
    {
      var kind := ReadInt(s);
      if kind.Short? { return; }
      var length := ReadInt(s[kind.size..]);
      if length.Short? { return; }
      var body := s[kind.size + length.size..];
      assert ReadHead(s) == Head(kind.value, length.value, kind.size + length.size);
      if kind.value != 0 {
        if |body| < length.value { return; }
        assert sent + [] == sent;
        s := body[length.value..];
        continue;
      }
      var capsule := if length.value <= |body| then body[..length.value] else body;
      var id := ReadInt(capsule);
      if id.Short? { return; }
      var remaining := length.value - id.size;
      if id.value != 0 || remaining > MAX_UDP_PAYLOAD {
        if |body| < length.value { return; }
        assert sent + [] == sent;
        s := body[length.value..];
        continue;
      }
      if |body| < length.value { return; }
      sent := sent + [body[id.size..length.value]];
      s := body[length.value..];
    }
  }

  lemma Assoc<T>(a: seq<T>, b: seq<T>, c: seq<T>)
    ensures (a + b) + c == a + (b + c)
  {
  }

  lemma HeadOf(kind: nat, k: nat, length: nat, m: nat, body: Bytes)
    requires Fits(kind, k) && Fits(length, m)
    ensures var s := WriteInt(kind, k) + (WriteInt(length, m) + body);
      ReadHead(s) == Head(kind, length, k + m) && s[k + m..] == body
  {
    var s := WriteInt(kind, k) + (WriteInt(length, m) + body);
    Written(kind, k, WriteInt(length, m) + body);
    assert s[k..] == WriteInt(length, m) + body;
    Written(length, m, body);
  }

  lemma EncodedHead(f: Frame, rest: Bytes)
    requires f.Valid()
    ensures ReadHead(f.Encode() + rest) == Head(f.Kind(), |f.Body()|, f.kindSize + f.lengthSize)
    ensures (f.Encode() + rest)[f.kindSize + f.lengthSize..] == f.Body() + rest
  {
    var kind, length := WriteInt(f.Kind(), f.kindSize), WriteInt(|f.Body()|, f.lengthSize);
    HeadOf(f.Kind(), f.kindSize, |f.Body()|, f.lengthSize, f.Body() + rest);
    Assoc(kind, length + f.Body(), rest);
    Assoc(length, f.Body(), rest);
  }

  lemma SendsPackets(f: Frame, rest: Bytes)
    requires f.Valid()
    ensures var body := f.Body() + rest;
      !Malformed(f.Kind(), |f.Body()|, body) && Send(f.Kind(), |f.Body()|, body) == f.Packets()
  {
    var body := f.Body() + rest;
    assert body[..|f.Body()|] == f.Body();
    if f.Datagram? {
      Written(f.context, f.contextSize, f.payload);
      assert body[f.contextSize..|f.Body()|] == f.payload;
    }
  }

  /** One capsule is taken off the stream, whatever its kind, context and length. */
  lemma ReceiveFrame(f: Frame, rest: Bytes, sent: seq<Bytes>)
    requires f.Valid()
    ensures Receive(f.Encode() + rest, sent) == Receive(rest, sent + f.Packets())
  {
    EncodedHead(f, rest);
    SendsPackets(f, rest);
    assert (f.Body() + rest)[|f.Body()|..] == rest;
  }

  /** Exactly the packets of a stream of capsules are sent, in order, and then reading goes on at its end. */
  lemma {:induction false} ReceiveAll(frames: seq<Frame>, rest: Bytes, sent: seq<Bytes>)
    requires AllValid(frames)
    ensures Receive(EncodeAll(frames) + rest, sent) == Receive(rest, sent + AllPackets(frames))
  {
    if frames == [] {
      assert EncodeAll(frames) + rest == rest && sent + AllPackets(frames) == sent;
    } else {
      var f, more := frames[0], frames[1..];
      var head, tail := f.Encode(), EncodeAll(more);
      Assoc(head, tail, rest);
      ReceiveFrame(f, tail + rest, sent);
      ReceiveAll(more, rest, sent + f.Packets());
      Assoc(sent, f.Packets(), AllPackets(more));
    }
  }

  /** A capsule that the stream does not complete sends nothing. */
  lemma CutFrame(f: Frame, n: nat, sent: seq<Bytes>)
    requires f.Valid() && n < |f.Encode()|
    ensures Receive(f.Encode()[..n], sent) == sent
  {
    var kind, length := WriteInt(f.Kind(), f.kindSize), WriteInt(|f.Body()|, f.lengthSize);
    var s := f.Encode()[..n];
    if n < f.kindSize {
      assert s == kind[..n];
      WrittenShort(f.Kind(), f.kindSize, n);
    } else if n < f.kindSize + f.lengthSize {
      var m := n - f.kindSize;
      assert s == kind + length[..m];
      Written(f.Kind(), f.kindSize, length[..m]);
      assert s[f.kindSize..] == length[..m];
      WrittenShort(|f.Body()|, f.lengthSize, m);
    } else {
      var part := f.Body()[..n - f.kindSize - f.lengthSize];
      assert s == kind + (length + part);
      Written(f.Kind(), f.kindSize, length + part);
      assert s[f.kindSize..] == length + part;
      Written(|f.Body()|, f.lengthSize, part);
    }
  }

  /** Whatever follows the last complete capsule, a stream that ends sends exactly the packets of complete ones. */
  lemma CutStream(frames: seq<Frame>, f: Frame, n: nat)
    requires AllValid(frames) && f.Valid() && n < |f.Encode()|
    ensures Receive(EncodeAll(frames) + f.Encode()[..n], []) == AllPackets(frames)
  {
    ReceiveAll(frames, f.Encode()[..n], []);
    CutFrame(f, n, [] + AllPackets(frames));
    assert [] + AllPackets(frames) == AllPackets(frames);
  }

  // ---- download -----------------------------------------------------------

  /** The shortest size, as quicvarint.Write takes it. */
  function ShortSize(v: nat): nat {
    if v < 64 then 1 else if v < 16384 then 2 else if v < 1073741824 then 4 else 8
  }

  lemma ShortFits(v: nat)
    requires v < 1073741824
    ensures Fits(v, ShortSize(v)) && forall n :: Fits(v, n) ==> ShortSize(v) <= n
  {
    assert Power(1) == 256 && Power(2) == 65536;
    assert Power(3) == 16777216;
    assert Power(4) == 4294967296;
  }

  /** A packet as the relay frames it: kind 0, context 0. */
  function Framed(packet: Bytes): Frame { Datagram(1, ShortSize(1 + |packet|), 0, 1, packet) }

  lemma FramedBytes(p: Bytes)
    requires |p| <= MAX_UDP_PAYLOAD
    ensures Framed(p).Valid() && Framed(p).Packets() == [p]
    ensures Framed(p).Encode() == WriteInt(0, 1) + (WriteInt(1 + |p|, ShortSize(1 + |p|)) + ([0] + p))
  {
    ShortFits(0);
    ShortFits(1 + |p|);
    assert BigEndian(0, 1) == [0] && WriteInt(0, 1) == [0];
  }

  function Deliverable(packets: seq<Bytes>): seq<Bytes> {
    if packets == [] then []
    else
      var before, p := Deliverable(packets[..|packets| - 1]), packets[|packets| - 1];
      if |p| <= 65507 then before + [p] else before
  }

  /** Packets that fit are all delivered, in order. */
  lemma {:induction false} AllDelivered(packets: seq<Bytes>)
    requires forall p <- packets :: |p| <= 65507
    ensures Deliverable(packets) == packets
  {
    if packets != [] {
      var n := |packets| - 1;
      AllDelivered(packets[..n]);
      assert packets == packets[..n] + [packets[n]];
    }
  }

  /** relay/http2.go:286-305: the capsules written for the packets that were read. */
  method UdpToCapsules(packets: seq<Bytes>) returns (out: Bytes)
    ensures Receive(out, []) == Deliverable(packets)
  {
    out := [];
    ghost var frames: seq<Frame> := [];
    for i := 0 to |packets|
      invariant AllValid(frames) && out == EncodeAll(frames)
      invariant AllPackets(frames) == Deliverable(packets[..i])
    {
      var p := packets[i];
      assert packets[..i + 1][..i] == packets[..i];
      if |p| <= MAX_UDP_PAYLOAD {
        FramedBytes(p);
        AppendFrame(frames, Framed(p));
        out := out + (WriteInt(0, 1) + (WriteInt(1 + |p|, ShortSize(1 + |p|)) + ([0] + p)));
        frames := frames + [Framed(p)];
      }
    }
    assert packets[..|packets|] == packets;
    ReceiveAll(frames, [], []);
    assert out + [] == out && [] + AllPackets(frames) == AllPackets(frames);
  }

  lemma {:induction false} AppendFrame(frames: seq<Frame>, f: Frame)
    requires AllValid(frames) && f.Valid()
    ensures AllValid(frames + [f]) && EncodeAll(frames + [f]) == EncodeAll(frames) + f.Encode()
    ensures AllPackets(frames + [f]) == AllPackets(frames) + f.Packets()
  {
    if frames == [] {
      assert frames + [f] == [f] && [f][1..] == [];
      assert f.Encode() + [] == f.Encode() && f.Packets() + [] == f.Packets();
    } else {
      assert (frames + [f])[1..] == frames[1..] + [f];
      AppendFrame(frames[1..], f);
      Assoc(frames[0].Encode(), EncodeAll(frames[1..]), f.Encode());
      Assoc(frames[0].Packets(), AllPackets(frames[1..]), f.Packets());
    }
  }
}
