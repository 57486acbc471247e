/**
 The Secure Hash Algorithm SHA-1 as FIPS 180-4 defines it: sections 4.1.1 (functions),
 4.2.1 (constants), 5.1.1 (padding), 5.2.1 (parsing), 5.3.1 (initial value) and
 6.1.2 (the 80-word schedule and the 80-step loop).
 */
module Sha1Spec {
  type Byte = bv8
  type Word = bv32

  const TWO_32: nat := 0x1_0000_0000

  /** Addition modulo 2^32 (section 3.2). */
  function Add(x: Word, y: Word): Word { x + y }
  function Sum(p: Word, q: Word, r: Word, s: Word, t: Word): Word { p + q + r + s + t }

  function Rotl1(x: Word): Word { (x << 1) | (x >> 31) }
  function Rotl5(x: Word): Word { (x << 5) | (x >> 27) }
  function Rotl30(x: Word): Word { (x << 30) | (x >> 2) }

  function Ch(x: Word, y: Word, z: Word): Word { (x & y) ^ (!x & z) }
  function Parity(x: Word, y: Word, z: Word): Word { x ^ y ^ z }
  function Maj(x: Word, y: Word, z: Word): Word { (x & y) ^ (x & z) ^ (y & z) }

  function F(t: nat, x: Word, y: Word, z: Word): Word {
    if t < 20 then Ch(x, y, z) else if t < 40 then Parity(x, y, z)
    else if t < 60 then Maj(x, y, z) else Parity(x, y, z)
  }

  function K(t: nat): Word {
    if t < 20 then 0x5A827999 else if t < 40 then 0x6ED9EBA1
    else if t < 60 then 0x8F1BBCDC else 0xCA62C1D6
  }

  /** The message schedule W of section 6.1.2, step 1. */
  function W(m: seq<Word>, t: nat): Word
    requires |m| == 16
  {
    if t < 16 then m[t] else Rotl1(W(m, t - 3) ^ W(m, t - 8) ^ W(m, t - 14) ^ W(m, t - 16))
  }

  datatype Regs = Regs(a: Word, b: Word, c: Word, d: Word, e: Word)

  /** T of section 6.1.2, step 3. */
  function Temp(a: Word, f: Word, e: Word, k: Word, w: Word): Word {
    Sum(Rotl5(a), f, e, k, w)
  }

  function Step(r: Regs, f: Word, k: Word, w: Word): Regs {
    Regs(Temp(r.a, f, r.e, k, w), r.a, Rotl30(r.b), r.c, r.d)
  }

  /** The working variables after t of the 80 steps of section 6.1.2, step 3. */
  function Rounds(m: seq<Word>, h: Regs, t: nat): Regs
    requires |m| == 16
  {
    if t == 0 then h else
    var r := Rounds(m, h, t - 1);
    Step(r, F(t - 1, r.b, r.c, r.d), K(t - 1), W(m, t - 1))
  }

  /** Four bytes as a word, most significant first (section 3.1). */
  function BigEndian(b: seq<Byte>, i: nat): Word
    requires i + 4 <= |b|
  {
    (b[i] as Word << 24) | (b[i + 1] as Word << 16) | (b[i + 2] as Word << 8) | b[i + 3] as Word
  }

  function Parse(block: seq<Byte>): (m: seq<Word>)
    requires |block| == 64
    ensures |m| == 16
  {
    seq(16, i requires 0 <= i < 16 => BigEndian(block, 4 * i))
  }

  function AddRegs(h: Regs, r: Regs): Regs {
    Regs(Add(h.a, r.a), Add(h.b, r.b), Add(h.c, r.c), Add(h.d, r.d), Add(h.e, r.e))
  }

  const H0: Regs := Regs(0x67452301, 0xEFCDAB89, 0x98BADCFE, 0x10325476, 0xC3D2E1F0)

  /** The intermediate hash value after the blocks of `data`. */
  function Hash(data: seq<Byte>): Regs
    requires |data| % 64 == 0
    decreases |data|
  {
    if |data| == 0 then H0 else
    var n := |data| - 64;
    var h := Hash(data[..n]);
    AddRegs(h, Rounds(Parse(data[n..]), h, 80))
  }

  /** Byte i, counted from the least significant, of a number. */
  function NumberByte(n: nat, i: nat): Byte {
    if i == 0 then (n % 256) as Byte else NumberByte(n / 256, i - 1)
  }

  function Zeros(n: nat): seq<Byte> { seq(n, _ => 0) }

  /** The 64-bit message length field, most significant byte first. */
  function LengthField(bits: nat): (f: seq<Byte>)
    ensures |f| == 8
  {
    seq(8, i requires 0 <= i < 8 => NumberByte(bits, 7 - i))
  }

  /** How many zero bytes make the padded message a multiple of 64 bytes. */
  function PadZeros(n: nat): nat { (119 - n % 64) % 64 }

  /** Section 5.1.1.  The standard defines it below 2^61 bytes; beyond that the length is taken modulo 2^64. */
  function Pad(msg: seq<Byte>): (p: seq<Byte>)
    ensures |p| % 64 == 0
  {
    msg + [0x80] + Zeros(PadZeros(|msg|)) + LengthField(8 * |msg|)
  }

  function WordBytes(w: Word): (b: seq<Byte>)
    ensures |b| == 4
  {
    [(w >> 24) as Byte, ((w >> 16) & 0xFF) as Byte, ((w >> 8) & 0xFF) as Byte, (w & 0xFF) as Byte]
  }

  function Digest(h: Regs): (d: seq<Byte>)
    ensures |d| == 20
  {
    WordBytes(h.a) + WordBytes(h.b) + WordBytes(h.c) + WordBytes(h.d) + WordBytes(h.e)
  }

  function Sha1(msg: seq<Byte>): (d: seq<Byte>)
    ensures |d| == 20
  {
    Digest(Hash(Pad(msg)))
  }
}
