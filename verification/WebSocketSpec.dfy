/**
 Frames of RFC 6455: the base framing of section 5.2 with its three length forms, and the
 masking of section 5.3.  Sequences of frames are not reassembled into messages.
 */
module WebSocketSpec {
  import opened Wrappers
  import opened Transfer

  /** The reader's bound on a payload: 10 MB. */
  const LIMIT: nat := 10485760

  datatype Frame = Frame(opcode: Byte, payload: seq<Byte>)

  /** A big-endian number. */
  function Number(b: seq<Byte>): nat {
    if b == [] then 0 else 256 * Number(b[..|b| - 1]) + b[|b| - 1]
  }

  function Bytes(n: nat, size: nat): (b: seq<Byte>)
    ensures |b| == size
  {
    if size == 0 then [] else Bytes(n / 256, size - 1) + [n % 256]
  }

  function Power256(size: nat): nat {
    if size == 0 then 1 else 256 * Power256(size - 1)
  }

  lemma {:induction false} NumberOfBytes(n: nat, size: nat)
    requires n < Power256(size)
    ensures Number(Bytes(n, size)) == n
  {
    if size > 0 {
      NumberOfBytes(n / 256, size - 1);
      assert Bytes(n, size)[..size - 1] == Bytes(n / 256, size - 1);
    }
  }

  // ------------------------------------------------------------------
  // The header
  // ------------------------------------------------------------------

  /** b1 & 0x80 */
  predicate IsMasked(b1: Byte) { b1 >= 128 }

  function LengthBytes(b1: Byte): nat {
    if b1 % 128 == 126 then 2 else if b1 % 128 == 127 then 8 else 0
  }

  function HeaderSize(b1: Byte): nat {
    2 + LengthBytes(b1) + if IsMasked(b1) then 4 else 0
  }

  predicate HeaderReady(b: seq<Byte>) {
    |b| >= 2 && |b| >= HeaderSize(b[1])
  }

  function Length(b: seq<Byte>): nat
    requires HeaderReady(b)
  {
    if LengthBytes(b[1]) == 0 then b[1] % 128 else Number(b[2..2 + LengthBytes(b[1])])
  }

  /** The masking key, if any. */
  function Key(b: seq<Byte>): (k: Option<seq<Byte>>)
    requires HeaderReady(b)
    ensures k.Some? ==> |k.value| == 4
  {
    if IsMasked(b[1]) then Some(b[2 + LengthBytes(b[1])..6 + LengthBytes(b[1])]) else None
  }

  /** Exclusive or of the low `bits` bits. */
  function XorBits(a: nat, b: nat, bits: nat): (x: nat) {
    if bits == 0 then 0 else 2 * XorBits(a / 2, b / 2, bits - 1) + (a + b) % 2
  }

  function Pow2(bits: nat): nat {
    if bits == 0 then 1 else 2 * Pow2(bits - 1)
  }

  lemma {:induction false} XorBounded(a: nat, b: nat, bits: nat)
    ensures XorBits(a, b, bits) < Pow2(bits)
  {
    if bits > 0 { XorBounded(a / 2, b / 2, bits - 1); }
  }

  function Xor(a: Byte, b: Byte): Byte {
    XorBounded(a, b, 8);
    assert Pow2(8) == 256;
    XorBits(a, b, 8)
  }

  function Bit(a: nat, k: nat): nat { if k == 0 then a % 2 else Bit(a / 2, k - 1) }

  lemma XorHalf(a: nat, b: nat, bits: nat)
    requires bits > 0
    ensures XorBits(a, b, bits) / 2 == XorBits(a / 2, b / 2, bits - 1) && XorBits(a, b, bits) % 2 == (a % 2 + b % 2) % 2
  {
    var high := XorBits(a / 2, b / 2, bits - 1);
    assert XorBits(a, b, bits) == 2 * high + (a + b) % 2;
  }

  /** Bit by bit it is the sum modulo 2. */
  lemma {:induction false} XorBit(a: nat, b: nat, bits: nat, k: nat)
    requires k < bits
    ensures Bit(XorBits(a, b, bits), k) == (Bit(a, k) + Bit(b, k)) % 2
  {
    XorHalf(a, b, bits);
    hide XorBits;
    if k > 0 { XorBit(a / 2, b / 2, bits - 1, k - 1); }
  }

  lemma LowBits(a: nat, b: nat, x: nat)
    requires x % 2 == (a + b) % 2
    ensures (x + b) % 2 == a % 2
  {
  }

  lemma {:induction false} XorBitsTwice(a: nat, b: nat, bits: nat)
    requires a < Pow2(bits)
    ensures XorBits(XorBits(a, b, bits), b, bits) == a
  {
    if bits > 0 {
      var x := XorBits(a, b, bits);
      assert x / 2 == XorBits(a / 2, b / 2, bits - 1);
      LowBits(a, b, x);
      XorBitsTwice(a / 2, b / 2, bits - 1);
    }
  }

  /** Section 5.3: masking and unmasking are the same operation. */
  function Mask(p: seq<Byte>, key: Option<seq<Byte>>): (q: seq<Byte>)
    requires key.Some? ==> |key.value| == 4
    ensures |q| == |p|
  {
    if key.Some? then seq(|p|, i requires 0 <= i < |p| => Xor(p[i], key.value[i % 4])) else p
  }

  lemma {:induction false} MaskTwice(p: seq<Byte>, key: Option<seq<Byte>>)
    requires key.Some? ==> |key.value| == 4
    ensures Mask(Mask(p, key), key) == p
  {
    if key.Some? {
      forall i | 0 <= i < |p| ensures Mask(Mask(p, key), key)[i] == p[i] {
        XorTwice(p[i], key.value[i % 4]);
      }
    }
  }

  lemma XorTwice(a: Byte, b: Byte)
    ensures Xor(Xor(a, b), b) == a
  {
    assert Pow2(8) == 256;
    XorBitsTwice(a, b, 8);
  }

  // ------------------------------------------------------------------
  // Streams
  // ------------------------------------------------------------------

  /** Only the 64-bit form is checked against the limit; the others cannot exceed it. */
  predicate TooLong(b: seq<Byte>) {
    HeaderReady(b) && Length(b) > LIMIT
  }

  /** A whole acceptable frame is at the front of b. */
  predicate FrameReady(b: seq<Byte>) {
    HeaderReady(b) && !TooLong(b) && |b| >= HeaderSize(b[1]) + Length(b)
  }

  function FrameSize(b: seq<Byte>): (n: nat)
    requires FrameReady(b)
    ensures 2 <= n <= |b|
  {
    HeaderSize(b[1]) + Length(b)
  }

  function First(b: seq<Byte>): Frame
    requires FrameReady(b)
  {
    Frame(b[0] % 16, Mask(b[HeaderSize(b[1])..FrameSize(b)], Key(b)))
  }

  /** The frames at the front of a stream, read one whole frame at a time. */
  function Frames(b: seq<Byte>): seq<Frame> {
    if FrameReady(b) then [First(b)] + Frames(b[FrameSize(b)..]) else []
  }

  /** What is left behind the frames. */
  function Rest(b: seq<Byte>): seq<Byte> {
    if FrameReady(b) then Rest(b[FrameSize(b)..]) else b
  }

  lemma HeaderBehind(a: seq<Byte>, b: seq<Byte>)
    requires HeaderReady(a)
    ensures HeaderReady(a + b) && Length(a + b) == Length(a) && Key(a + b) == Key(a)
  {
    var n := LengthBytes(a[1]);
    assert (a + b)[2..2 + n] == a[2..2 + n];
    if IsMasked(a[1]) { assert (a + b)[2 + n..6 + n] == a[2 + n..6 + n]; }
  }

  /** A frame does not depend on what follows it. */
  lemma FrameBehind(a: seq<Byte>, b: seq<Byte>)
    requires FrameReady(a)
    ensures FrameReady(a + b) && FrameSize(a + b) == FrameSize(a) && First(a + b) == First(a)
    ensures (a + b)[FrameSize(a)..] == a[FrameSize(a)..] + b
  {
    HeaderBehind(a, b);
    var h, n := HeaderSize(a[1]), FrameSize(a);
    assert (a + b)[h..n] == a[h..n];
  }

  lemma FrameThenRest(f: seq<Byte>, n: nat, x: Frame, rest: seq<Byte>)
    requires FrameReady(f) && FrameSize(f) == n && First(f) == x && f[n..] == rest
    ensures Frames(f) == [x] + Frames(rest) && Rest(f) == Rest(rest)
  {
  }

  /** Complete frames can be read off before what follows them arrives. */
  lemma {:induction false} FramesCompose(a: seq<Byte>, b: seq<Byte>)
    requires Rest(a) == []
    ensures Frames(a + b) == Frames(a) + Frames(b) && Rest(a + b) == Rest(b)
    decreases |a|
  {
    if FrameReady(a) {
      var n, x := FrameSize(a), First(a);
      FrameBehind(a, b);
      FrameThenRest(a, n, x, a[n..]);
      FrameThenRest(a + b, n, x, a[n..] + b);
      FramesCompose(a[n..], b);
      Assoc([x], Frames(a[n..]), Frames(b));
    } else {
      assert a + b == b;
    }
  }

  // ------------------------------------------------------------------
  // Encoding
  // ------------------------------------------------------------------

  datatype Form = Short | Medium | Long

  /** A frame as a sender may put it: any flags, any fitting length form, any key. */
  datatype Sent = Sent(flags: Byte, frame: Frame, form: Form, key: Option<seq<Byte>>)

  predicate WellFormed(x: Sent) {
    && x.flags % 16 == 0 && x.frame.opcode < 16
    && (x.key.Some? ==> |x.key.value| == 4)
    && match x.form
       case Short => |x.frame.payload| < 126
       case Medium => |x.frame.payload| < 0x1_0000
       case Long => |x.frame.payload| <= LIMIT
  }

  function LengthPart(x: Sent): (b: Byte)
    ensures b < 128
  {
    match x.form
    case Short => |x.frame.payload| % 128
    case Medium => 126
    case Long => 127
  }

  function ExtendedLength(x: Sent): seq<Byte> {
    match x.form
    case Short => []
    case Medium => Bytes(|x.frame.payload|, 2)
    case Long => Bytes(|x.frame.payload|, 8)
  }

  function Encode(x: Sent): seq<Byte>
    requires WellFormed(x)
  {
    [x.flags + x.frame.opcode, LengthPart(x) + if x.key.Some? then 128 else 0]
    + ExtendedLength(x)
    + (if x.key.Some? then x.key.value else [])
    + Mask(x.frame.payload, x.key)
  }

  lemma {:induction false} Header(x: Sent)
    requires WellFormed(x)
    ensures HeaderReady(Encode(x)) && Length(Encode(x)) == |x.frame.payload| && Key(Encode(x)) == x.key
    ensures HeaderSize(Encode(x)[1]) + |x.frame.payload| == |Encode(x)|
    ensures Encode(x)[HeaderSize(Encode(x)[1])..] == Mask(x.frame.payload, x.key)
  {
    var b, n := Encode(x), |x.frame.payload|;
    var ext := ExtendedLength(x);
    assert LengthBytes(b[1]) == |ext|;
    assert b[2..2 + |ext|] == ext;
    if x.key.Some? { assert b[2 + |ext|..6 + |ext|] == x.key.value; }
    match x.form
    case Short =>
    case Medium => NumberOfBytes(n, 2);
    case Long => NumberOfBytes(n, 8);
  }

  lemma OpcodeOfEncode(x: Sent)
    requires WellFormed(x)
    ensures Encode(x) != [] && Encode(x)[0] % 16 == x.frame.opcode
  {
  }

  lemma NotTooLong(x: Sent)
    requires WellFormed(x)
    ensures |x.frame.payload| <= LIMIT
  {
  }

  /** Decoding inverts encoding, in every length form, masked or not. */
  lemma {:induction false} FirstOfEncode(x: Sent)
    requires WellFormed(x)
    ensures FrameReady(Encode(x)) && FrameSize(Encode(x)) == |Encode(x)| && First(Encode(x)) == x.frame
  {
    Header(x);
    OpcodeOfEncode(x);
    NotTooLong(x);
    hide Encode, Length, Key, HeaderReady, HeaderSize, Mask;
    MaskTwice(x.frame.payload, x.key);
    var b := Encode(x);
    assert b[HeaderSize(b[1])..|b|] == b[HeaderSize(b[1])..];
  }

  function EncodeAll(xs: seq<Sent>): seq<Byte>
    requires forall x <- xs :: WellFormed(x)
  {
    if xs == [] then [] else Encode(xs[0]) + EncodeAll(xs[1..])
  }

  function Messages(xs: seq<Sent>): seq<Frame> {
    seq(|xs|, i requires 0 <= i < |xs| => xs[i].frame)
  }

  lemma MessagesOfCons(xs: seq<Sent>)
    requires xs != []
    ensures Messages(xs) == [xs[0].frame] + Messages(xs[1..])
  {
  }

  lemma OneFrame(x: Sent)
    requires WellFormed(x)
    ensures Frames(Encode(x)) == [x.frame] && Rest(Encode(x)) == []
  {
    var e := Encode(x);
    FirstOfEncode(x);
    assert e[|e|..] == [];
    FrameThenRest(e, |e|, x.frame, []);
  }

  /** A stream of frames is read back as sent. */
  lemma {:induction false} RoundTrip(xs: seq<Sent>)
    requires forall x <- xs :: WellFormed(x)
    ensures Frames(EncodeAll(xs)) == Messages(xs) && Rest(EncodeAll(xs)) == []
  {
    if xs != [] {
      OneFrame(xs[0]);
      FramesCompose(Encode(xs[0]), EncodeAll(xs[1..]));
      RoundTrip(xs[1..]);
      MessagesOfCons(xs);
    }
  }

  // ------------------------------------------------------------------
  // What the standard says of particular frames
  // ------------------------------------------------------------------

  lemma {:induction false} SelfXor(a: nat, bits: nat)
    ensures XorBits(a, a, bits) == 0
  {
    if bits > 0 { SelfXor(a / 2, bits - 1); }
  }

  /** Section 5.3: byte i is masked with byte i modulo 4 of the key, so the key masks itself to nothing. */
  lemma MaskOfKeyIsZero(p: seq<Byte>, k: seq<Byte>)
    requires |k| == 4 && forall i :: 0 <= i < |p| ==> p[i] == k[i % 4]
    ensures forall i :: 0 <= i < |p| ==> Mask(p, Some(k))[i] == 0
  {
    forall i | 0 <= i < |p| ensures Mask(p, Some(k))[i] == 0 {
      SelfXor(p[i], 8);
    }
  }

  /** A key that is zero everywhere masks nothing. */
  lemma {:induction false} MaskWithZeros(p: seq<Byte>)
    ensures Mask(p, Some([0, 0, 0, 0])) == p
  {
    forall i | 0 <= i < |p| ensures Xor(p[i], 0) == p[i] {
      assert Pow2(8) == 256;
      XorWithZero(p[i], 8);
    }
  }

  lemma {:induction false} XorWithZero(a: nat, bits: nat)
    requires a < Pow2(bits)
    ensures XorBits(a, 0, bits) == a
  {
    if bits > 0 { XorWithZero(a / 2, bits - 1); }
  }

  const HELLO: seq<Byte> := [0x48, 0x65, 0x6c, 0x6c, 0x6f]

  lemma OneBitMore(a: nat, b: nat, bits: nat, high: nat)
    requires bits > 0 && XorBits(a / 2, b / 2, bits - 1) == high
    ensures XorBits(a, b, bits) == 2 * high + (a + b) % 2
  {
  }

  /** Bytes of the text and of the key, high bit first. */
  lemma HelloBytes()
    ensures Xor(0x48, 0x37) == 0x7f && Xor(0x65, 0xfa) == 0x9f && Xor(0x6c, 0x21) == 0x4d
  {
    assert XorBits(0, 0, 0) == 0;
    hide XorBits;
    OneBitMore(0, 0, 1, 0); OneBitMore(1, 0, 2, 0); OneBitMore(2, 1, 3, 1); OneBitMore(4, 3, 4, 3);
    OneBitMore(9, 6, 5, 7); OneBitMore(18, 13, 6, 15); OneBitMore(36, 27, 7, 31); OneBitMore(72, 55, 8, 63);
    OneBitMore(0, 1, 1, 0); OneBitMore(1, 3, 2, 1); OneBitMore(3, 7, 3, 2); OneBitMore(6, 15, 4, 4);
    OneBitMore(12, 31, 5, 9); OneBitMore(25, 62, 6, 19); OneBitMore(50, 125, 7, 39); OneBitMore(101, 250, 8, 79);
    OneBitMore(0, 0, 1, 0); OneBitMore(1, 0, 2, 0); OneBitMore(3, 1, 3, 1); OneBitMore(6, 2, 4, 2);
    OneBitMore(13, 4, 5, 4); OneBitMore(27, 8, 6, 9); OneBitMore(54, 16, 7, 19); OneBitMore(108, 33, 8, 38);
  }

  lemma HelloBytesMore()
    ensures Xor(0x6c, 0x3d) == 0x51 && Xor(0x6f, 0x37) == 0x58
  {
    assert XorBits(0, 0, 0) == 0;
    hide XorBits;
    OneBitMore(0, 0, 1, 0); OneBitMore(1, 0, 2, 0); OneBitMore(3, 1, 3, 1); OneBitMore(6, 3, 4, 2);
    OneBitMore(13, 7, 5, 5); OneBitMore(27, 15, 6, 10); OneBitMore(54, 30, 7, 20); OneBitMore(108, 61, 8, 40);
    OneBitMore(0, 0, 1, 0); OneBitMore(1, 0, 2, 0); OneBitMore(3, 1, 3, 1); OneBitMore(6, 3, 4, 2);
    OneBitMore(13, 6, 5, 5); OneBitMore(27, 13, 6, 11); OneBitMore(55, 27, 7, 22); OneBitMore(111, 55, 8, 44);
  }

  /** The masked text message "Hello" of section 5.7. */
  lemma {:induction false} MaskedHello()
    ensures var b := [0x81, 0x85, 0x37, 0xfa, 0x21, 0x3d, 0x7f, 0x9f, 0x4d, 0x51, 0x58];
      Frames(b) == [Frame(1, HELLO)] && Rest(b) == []
  {
    hide Xor, Frames, Rest;
    var key: seq<Byte> := [0x37, 0xfa, 0x21, 0x3d];
    var x := Sent(0x80, Frame(1, HELLO), Short, Some(key));
    HelloBytes();
    HelloBytesMore();
    assert Mask(HELLO, x.key) == [0x7f, 0x9f, 0x4d, 0x51, 0x58];
    assert Encode(x) == [0x81, 0x85, 0x37, 0xfa, 0x21, 0x3d, 0x7f, 0x9f, 0x4d, 0x51, 0x58];
    OneFrame(x);
  }

  /** The unmasked one. */
  lemma {:induction false} UnmaskedHello()
    ensures var b := [0x81, 0x05, 0x48, 0x65, 0x6c, 0x6c, 0x6f];
      Frames(b) == [Frame(1, HELLO)] && Rest(b) == []
  {
    hide Frames, Rest;
    var x := Sent(0x80, Frame(1, HELLO), Short, None);
    assert Encode(x) == [0x81, 0x05, 0x48, 0x65, 0x6c, 0x6c, 0x6f];
    OneFrame(x);
  }

  /** Section 5.7: 256 bytes in a single unmasked frame, and 64 KiB. */
  lemma LongerForms(rest: seq<Byte>)
    ensures var b := [0x82, 0x7E, 0x01, 0x00] + rest; HeaderReady(b) && HeaderSize(b[1]) == 4 && Length(b) == 256
    ensures var b := [0x82, 0x7F, 0, 0, 0, 0, 0, 1, 0, 0] + rest; HeaderReady(b) && HeaderSize(b[1]) == 10 && Length(b) == 65536
  {
    hide Number;
    var zeros: seq<Byte> := [0, 0, 0, 0, 0];
    ZeroNumber(zeros[..0]);
    ZeroNumber(zeros);
    var one := zeros[..0] + [1];
    NumberMore(zeros[..0], 1);
    NumberMore(one, 0);
    var b: seq<Byte> := [0x82, 0x7E, 0x01, 0x00] + rest;
    assert b[2..4] == one + [0];
    NumberMore(zeros, 1);
    NumberMore(zeros + [1], 0);
    NumberMore(zeros + [1] + [0], 0);
    var c: seq<Byte> := [0x82, 0x7F, 0, 0, 0, 0, 0, 1, 0, 0] + rest;
    assert c[2..10] == zeros + [1] + [0] + [0];
  }

  lemma NumberMore(b: seq<Byte>, x: Byte)
    ensures Number(b + [x]) == 256 * Number(b) + x
  {
    assert (b + [x])[..|b|] == b;
  }

  lemma {:induction false} ZeroNumber(b: seq<Byte>)
    requires forall i :: 0 <= i < |b| ==> b[i] == 0
    ensures Number(b) == 0
  {
    if b != [] { ZeroNumber(b[..|b| - 1]); }
  }

  /** The reader takes 10 * 1024 * 1024 bytes and no more. */
  lemma {:induction false} LimitIsTenMegabytes(n: nat, rest: seq<Byte>)
    requires n < Power256(8)
    ensures var b := [0x82, 127] + Bytes(n, 8) + rest; HeaderReady(b) && Length(b) == n && (TooLong(b) <==> n > 10 * 1024 * 1024)
  {
    var b := [0x82, 127] + Bytes(n, 8) + rest;
    assert b[2..10] == Bytes(n, 8);
    NumberOfBytes(n, 8);
  }
}
