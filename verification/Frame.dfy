/** websocket_frame_build of janus/src/pjanus.c, against the frame layout of section 5.2 of RFC 6455. */
module Frame {
  import opened Options

  type byte = b: int | 0 <= b < 256

  // Integers in network byte order.

  function BigEndian(n: nat, k: nat): (s: seq<byte>)
    ensures |s| == k
  {
    if k == 0 then [] else BigEndian(n / 256, k - 1) + [n % 256]
  }

  function Value(s: seq<byte>): nat {
    if s == [] then 0 else 256 * Value(s[..|s| - 1]) + s[|s| - 1]
  }

  function Power(k: nat): nat {
    if k == 0 then 1 else 256 * Power(k - 1)
  }

  lemma {:induction false} ValueOfBigEndian(n: nat, k: nat)
    requires n < Power(k)
    ensures Value(BigEndian(n, k)) == n
  {
    if k > 0 {
      ValueOfBigEndian(n / 256, k - 1);
      var s := BigEndian(n, k);
      assert s[..k - 1] == BigEndian(n / 256, k - 1);
    }
  }

  lemma {:induction false} BigEndianOfValue(s: seq<byte>)
    ensures BigEndian(Value(s), |s|) == s && Value(s) < Power(|s|)
  {
    if s != [] {
      BigEndianOfValue(s[..|s| - 1]);
    }
  }

  // The layout of a frame.

  const TWO_16: nat := 0x1_0000
  const TWO_63: nat := 0x8000_0000_0000_0000
  const TWO_64: nat := 0x1_0000_0000_0000_0000

  /** `rsv` are the three reserved bits, `key` the masking key if the MASK bit is set; the payload is as
      transmitted. */
  datatype Frame = Frame(fin: bool, rsv: nat, opcode: nat, key: Option<seq<byte>>, payload: seq<byte>)

  /** Length of the extended payload length field. */
  function Extra(len7: nat): nat {
    if len7 == 126 then 2 else if len7 == 127 then 8 else 0
  }

  /** The payload length must take the minimal form, and bit 63 must be clear. */
  predicate LengthOk(len7: nat, len: nat) {
    (len7 == 126 ==> len > 125) && (len7 == 127 ==> TWO_16 <= len < TWO_63)
  }

  /** The first frame of a byte stream, and what follows it. */
  function Decode(s: seq<byte>): Option<(Frame, seq<byte>)> {
    if |s| < 2 then None
    else
      var len7 := s[1] % 128;
      var e := 2 + Extra(len7);
      if |s| < e then None
      else
        var len := if len7 < 126 then len7 else Value(s[2..e]);
        var masked := s[1] >= 128;
        var p := if masked then e + 4 else e;
        if !LengthOk(len7, len) || |s| < p + len then None
        else
          var key := if masked then Some(s[e..p]) else None;
          Some((Frame(s[0] >= 128, s[0] / 16 % 8, s[0] % 16, key, s[p..p + len]), s[p + len..]))
  }

  // What the code builds.

  /** `op | 0x80`. */
  function WithFin(op: byte): byte {
    if op < 128 then op + 128 else op
  }

  function Header(op: byte, len: nat): seq<byte> {
    [WithFin(op)] +
    if len <= 125 then [len]
    else if len < TWO_16 then [126] + BigEndian(len, 2)
    else [127] + BigEndian(len, 8)
  }

  /** The frame of a call with `data` of `len` bytes, or with a null pointer and `len`. */
  function Encode(op: byte, data: Option<seq<byte>>, len: nat): seq<byte>
    requires data.Some? ==> len <= |data.value|
  {
    Header(op, len) + if data.Some? then data.value[..len] else []
  }

  class KoreBuf {
    var bytes: seq<byte>

    constructor ()
      ensures bytes == []
    {
      bytes := [];
    }

    method Append(s: seq<byte>)
      modifies this
      ensures bytes == old(bytes) + s
    {
      bytes := bytes + s;
    }
  }

  /** net_write16, net_write64 */
  method NetWrite(n: nat, k: nat) returns (s: seq<byte>)
    ensures s == BigEndian(n, k)
  {
    s := [];
    var rest := n;
    var i := 0;
    assert BigEndian(n, k) == BigEndian(rest, k - i) + s;
    while i < k
      invariant 0 <= i <= k && BigEndian(n, k) == BigEndian(rest, k - i) + s
    {
      s := [rest % 256] + s;
      rest := rest / 256;
      i := i + 1;
    }
  }

  /** websocket_frame_build */
  method FrameBuild(frame: KoreBuf, op: byte, data: Option<seq<byte>>, len: nat)
    requires len < TWO_64 && (data.Some? ==> len <= |data.value|)
    modifies frame
    ensures frame.bytes == old(frame.bytes) + Encode(op, data, len)
  {
    var len1: byte;
    if len > 125 {
      if len <= 65535 {
        len1 := 126;
      } else {
        len1 := 127;
      }
    } else {
      len1 := len;
    }
    frame.Append([if op < 128 then op + 128 else op]);
    len1 := len1 % 128;
    frame.Append([len1]);
    if len1 > 125 {
      var field;
      if len1 == 126 {
        field := NetWrite(len, 2);
      } else {
        field := NetWrite(len, 8);
      }
      frame.Append(field);
    }
    if data.Some? && len > 0 {
      frame.Append(data.value[..len]);
    }
  }

  // Meaning of what is built.

  lemma {:induction false} Powers()
    ensures Power(2) == TWO_16 && Power(8) == TWO_64
  {
    assert Power(1) == 256;
    assert Power(2) == 0x1_0000;
    assert Power(3) == 0x100_0000;
    assert Power(4) == 0x1_0000_0000;
    assert Power(5) == 0x100_0000_0000;
    assert Power(6) == 0x1_0000_0000_0000;
    assert Power(7) == 0x100_0000_0000_0000;
  }

  /** A header followed by any bytes: the receiver takes the next `len` of them as the payload, if there
      are that many; it refuses a length from 2^63 on. */
  lemma {:induction false} DecodeHeader(op: byte, len: nat, tail: seq<byte>)
    requires len < TWO_64
    ensures Decode(Header(op, len) + tail) ==
            if len < TWO_63 && len <= |tail|
            then Some((Frame(true, op / 16 % 8, op % 16, None, tail[..len]), tail[len..]))
            else None
  {
    hide Header, Value, WithFin;
    FirstByte(op);
    HeaderParts(op, len, tail);
    var e := |Header(op, len)|;
    var s := Header(op, len) + tail;
    if len < TWO_63 && len <= |tail| {
      assert s[e..e + len] == tail[..len];
      assert s[e + len..] == tail[len..];
    }
  }

  lemma FirstByte(op: byte)
    ensures WithFin(op) >= 128 && WithFin(op) / 16 % 8 == op / 16 % 8 && WithFin(op) % 16 == op % 16
  {
  }

  lemma {:induction false} HeaderParts(op: byte, len: nat, tail: seq<byte>)
    requires len < TWO_64
    ensures var h := Header(op, len);
            var s := h + tail;
            && |h| == 2 + Extra(s[1]) && s[0] == WithFin(op) && s[1] < 128
            && (s[1] < 126 ==> s[1] == len)
            && (s[1] >= 126 ==> Value(s[2..|h|]) == len)
            && (LengthOk(s[1], len) <==> len < TWO_63)
  {
    if len > 125 {
      var h := Header(op, len);
      var k := |h| - 2;
      assert (h + tail)[2..|h|] == BigEndian(len, k);
      Powers();
      ValueOfBigEndian(len, k);
    }
  }

  /** Decoding returns FIN, the operation, no mask and the exact payload, exactly for the lengths below
      2^63; whatever follows the frame is left alone. */
  lemma {:induction false} RoundTrip(op: byte, data: seq<byte>, rest: seq<byte>)
    requires |data| < TWO_64
    ensures Decode(Encode(op, Some(data), |data|) + rest) ==
            if |data| < TWO_63 then Some((Frame(true, op / 16 % 8, op % 16, None, data), rest)) else None
  {
    DecodeHeader(op, |data|, data + rest);
    assert Encode(op, Some(data), |data|) + rest == Header(op, |data|) + (data + rest);
    assert (data + rest)[..|data|] == data && (data + rest)[|data|..] == rest;
  }

  /** With a null pointer nothing is appended after the header, so the frame says what was meant
      exactly when the length is zero; otherwise it eats the bytes of the frames behind it. */
  lemma {:induction false} NullData(op: byte, len: nat, rest: seq<byte>)
    requires len <= |rest| && len < TWO_63
    ensures var r := Decode(Encode(op, None, len) + rest);
            && r == Some((Frame(true, op / 16 % 8, op % 16, None, rest[..len]), rest[len..]))
            && (r.value.1 == rest <==> len == 0)
    ensures Decode(Encode(op, None, len)).Some? <==> len == 0
  {
    assert Encode(op, None, len) + rest == Header(op, len) + rest;
    DecodeHeader(op, len, rest);
    assert Encode(op, None, len) == Header(op, len) + [];
    DecodeHeader(op, len, []);
  }

  /** Every unmasked final frame a receiver accepts is, byte for byte, the one built for its payload:
      there is no shorter form, and no other one. */
  lemma {:induction false} OnlyForm(s: seq<byte>)
    requires Decode(s).Some? && Decode(s).value.0.key == None && Decode(s).value.0.fin
    ensures var (f, rest) := Decode(s).value;
            s == Encode(s[0], Some(f.payload), |f.payload|) + rest
  {
    var (f, rest) := Decode(s).value;
    DecodedParts(s);
    var e := 2 + Extra(s[1] % 128);
    OnlyHeader(s[0], s[1], s[2..e]);
    CutInFour(s, e, |f.payload|);
    assert Encode(s[0], Some(f.payload), |f.payload|) == Header(s[0], |f.payload|) + f.payload;
  }

  /** Where the pieces of an unmasked frame are. */
  lemma {:induction false} DecodedParts(s: seq<byte>)
    requires Decode(s).Some? && Decode(s).value.0.key == None
    ensures var (f, rest) := Decode(s).value;
            var e := 2 + Extra(s[1] % 128);
            var len := if s[1] < 126 then s[1] as nat else Value(s[2..e]);
            && s[1] < 128 && e + len <= |s| && LengthOk(s[1], len)
            && (f.fin <==> s[0] >= 128) && |f.payload| == len
            && f.payload == s[e..e + len] && rest == s[e + len..]
  {
  }

  lemma {:induction false} CutInFour(s: seq<byte>, e: nat, n: nat)
    requires 2 <= e && e + n <= |s|
    ensures ([s[0], s[1]] + s[2..e]) + s[e..e + n] + s[e + n..] == s
  {
  }

  lemma {:induction false} OnlyHeader(first: byte, len7: byte, field: seq<byte>)
    requires 128 <= first && len7 < 128 && |field| == Extra(len7)
    requires LengthOk(len7, if len7 < 126 then len7 else Value(field))
    ensures [first, len7] + field == Header(first, if len7 < 126 then len7 else Value(field))
  {
    Powers();
    BigEndianOfValue(field);
  }

  // Streams of frames.

  datatype Message = Message(op: byte, data: seq<byte>)

  function Stream(ms: seq<Message>): seq<byte> {
    if ms == [] then [] else Encode(ms[0].op, Some(ms[0].data), |ms[0].data|) + Stream(ms[1..])
  }

  lemma DecodeShrinks(s: seq<byte>)
    requires Decode(s).Some?
    ensures |Decode(s).value.1| < |s|
  {
  }

  /** All frames of a stream, as far as they can be decoded. */
  function DecodeAll(s: seq<byte>): seq<Frame>
    decreases |s|
  {
    var r := Decode(s);
    if r == None then []
    else
      DecodeShrinks(s);
      [r.value.0] + DecodeAll(r.value.1)
  }

  function Built(m: Message): Frame {
    Frame(true, m.op / 16 % 8, m.op % 16, None, m.data)
  }

  function Frames(ms: seq<Message>): (fs: seq<Frame>)
    ensures |fs| == |ms|
    ensures forall i :: 0 <= i < |ms| ==> fs[i] == Built(ms[i])
  {
    seq(|ms|, i requires 0 <= i < |ms| => Built(ms[i]))
  }

  lemma LowBits(x: byte)
    ensures x % 128 == 16 * (x / 16 % 8) + x % 16
  {
    assert x / 16 == 8 * (x / 128) + x / 16 % 8;
  }

  lemma BuiltSame(a: Message, b: Message)
    requires Built(a) == Built(b)
    ensures a.data == b.data && a.op % 128 == b.op % 128
  {
    LowBits(a.op);
    LowBits(b.op);
  }

  predicate Short(ms: seq<Message>) {
    forall i :: 0 <= i < |ms| ==> |ms[i].data| < TWO_63
  }

  /** Frames sent one after the other split back into exactly the messages sent. */
  lemma {:induction false} StreamSplits(ms: seq<Message>)
    requires Short(ms)
    ensures DecodeAll(Stream(ms)) == Frames(ms)
  {
    if ms != [] {
      RoundTrip(ms[0].op, ms[0].data, Stream(ms[1..]));
      StreamSplits(ms[1..]);
      assert Frames(ms) == [Frames(ms)[0]] + Frames(ms[1..]);
    }
  }

  /** So no two different sequences of messages give the same stream; the FIN bit of an operation is
      the one thing that is not told apart. */
  lemma {:induction false} StreamUnique(a: seq<Message>, b: seq<Message>)
    requires Short(a) && Short(b) && Stream(a) == Stream(b)
    ensures |a| == |b|
    ensures forall i :: 0 <= i < |a| ==> a[i].data == b[i].data && a[i].op % 128 == b[i].op % 128
  {
    StreamSplits(a);
    StreamSplits(b);
    forall i | 0 <= i < |a|
      ensures a[i].data == b[i].data && a[i].op % 128 == b[i].op % 128
    {
      assert Frames(a)[i] == Frames(b)[i];
      BuiltSame(a[i], b[i]);
    }
  }
}
