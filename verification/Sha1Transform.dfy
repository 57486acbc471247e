/**
 SHA1Transform of amiproc/sha1.c: the rounds are unrolled, the register names rotate
 instead of the values, and a 16-word block is overwritten in place with the schedule.
 Proved equal to the 80-word schedule and 80-step loop of FIPS 180-4.
 */
module Sha1Transform {
  import opened Sha1Spec

  // The rol macro is Rotl1, Rotl5 and Rotl30 of the standard, and these two counts in blk0.
  function Rol8(x: Word): Word { (x << 8) | (x >> 24) }
  function Rol24(x: Word): Word { (x << 24) | (x >> 8) }

  /** What memcpy into the union reads as a word on a little-endian machine. */
  function LittleEndian(b: seq<Byte>, i: nat): Word
    requires i + 4 <= |b|
  {
    (b[i + 3] as Word << 24) | (b[i + 2] as Word << 16) | (b[i + 1] as Word << 8) | b[i] as Word
  }

  function Swap(x: Word): Word { (Rol24(x) & 0xFF00FF00) | (Rol8(x) & 0x00FF00FF) }

  lemma SwapIsBigEndian(b0: Byte, b1: Byte, b2: Byte, b3: Byte)
    ensures Swap((b3 as Word << 24) | (b2 as Word << 16) | (b1 as Word << 8) | b0 as Word)
         == (b0 as Word << 24) | (b1 as Word << 16) | (b2 as Word << 8) | b3 as Word
  {
  }

  /** The state of the 16-word block when rounds 0..t are done: slot k%16 holds the latest
      schedule word it was overwritten with, or still the unswapped input word. */
  ghost predicate Window(block: seq<Word>, m: seq<Word>, t: nat)
    requires |m| == 16
  {
    && |block| == 16
    && (forall k: nat :: k < t <= k + 16 ==> block[k % 16] == W(m, k))
    && (forall k: nat :: t <= k < 16 ==> Swap(block[k]) == m[k])
  }

  method Blk0(block: array<Word>, i: nat, ghost m: seq<Word>) returns (w: Word)
    requires |m| == 16 && i < 16 && Window(block[..], m, i)
    modifies block
    ensures Window(block[..], m, i + 1) && w == W(m, i)
  {
    block[i] := (Rol24(block[i]) & 0xFF00FF00) | (Rol8(block[i]) & 0x00FF00FF);
    w := block[i];
  }

  method Blk(block: array<Word>, i: nat, ghost m: seq<Word>) returns (w: Word)
    requires |m| == 16 && 16 <= i < 80 && Window(block[..], m, i)
    modifies block
    ensures Window(block[..], m, i + 1) && w == W(m, i)
  {
    ghost var was := block[..];
    assert was[(i + 13) % 16] == W(m, i - 3) && was[(i + 8) % 16] == W(m, i - 8)
        && was[(i + 2) % 16] == W(m, i - 14) && was[i % 16] == W(m, i - 16) by {
      Slots(i);
    }
    block[i % 16] := Rotl1(block[(i + 13) % 16] ^ block[(i + 8) % 16] ^ block[(i + 2) % 16] ^ block[i % 16]);
    w := block[i % 16];
    forall k: nat | k < i + 1 <= k + 16 ensures block[..][k % 16] == W(m, k) {
      if k < i { Distinct(k, i); assert was[k % 16] == W(m, k); }
    }
  }

  lemma Slots(i: nat)
    requires i >= 16
    ensures (i + 13) % 16 == (i - 3) % 16 && (i + 8) % 16 == (i - 8) % 16
    ensures (i + 2) % 16 == (i - 14) % 16 && i % 16 == (i - 16) % 16
  {
  }

  lemma Distinct(k: nat, i: nat)
    requires k < i < k + 16
    ensures k % 16 != i % 16
  {
  }

  // ------------------------------------------------------------------
  // The round macros: v w x y z stand for the registers a b c d e as round i finds them
  // ------------------------------------------------------------------

  lemma ChooseTrick(x: Word, y: Word, z: Word)
    ensures (x & (y ^ z)) ^ z == Ch(x, y, z)
  {
  }

  lemma MajorityTrick(x: Word, y: Word, z: Word)
    ensures ((x | y) & z) | (x & y) == Maj(x, y, z)
  {
  }

  /** The macros add the same five words in another order. */
  lemma {:induction false} SumOrder(l: Word, f: Word, e: Word, k: Word, w: Word)
    ensures Sum(e, f, w, k, l) == Sum(l, f, e, k, w)
  {
  }

  lemma OneRound(m: seq<Word>, h: Regs, i: nat, r: Regs)
    requires |m| == 16 && Rounds(m, h, i) == r
    ensures Rounds(m, h, i + 1) == Step(r, F(i, r.b, r.c, r.d), K(i), W(m, i))
  {
  }

  method R0(v: Word, w: Word, x: Word, y: Word, z: Word, i: nat, block: array<Word>, ghost m: seq<Word>, ghost h: Regs)
    returns (w': Word, z': Word)
    requires |m| == 16 && i < 16 && Window(block[..], m, i) && Rounds(m, h, i) == Regs(v, w, x, y, z)
    modifies block
    ensures Window(block[..], m, i + 1) && Rounds(m, h, i + 1) == Regs(z', v, w', x, y)
  {
    var word := Blk0(block, i, m);
    ChooseTrick(w, x, y);
    var f := (w & (x ^ y)) ^ y;
    z' := Sum(z, f, word, 0x5A827999, Rotl5(v));
    w' := Rotl30(w);
    SumOrder(Rotl5(v), f, z, K(i), word);
    OneRound(m, h, i, Regs(v, w, x, y, z));
  }

  method R1(v: Word, w: Word, x: Word, y: Word, z: Word, i: nat, block: array<Word>, ghost m: seq<Word>, ghost h: Regs)
    returns (w': Word, z': Word)
    requires |m| == 16 && 16 <= i < 20 && Window(block[..], m, i) && Rounds(m, h, i) == Regs(v, w, x, y, z)
    modifies block
    ensures Window(block[..], m, i + 1) && Rounds(m, h, i + 1) == Regs(z', v, w', x, y)
  {
    var word := Blk(block, i, m);
    ChooseTrick(w, x, y);
    var f := (w & (x ^ y)) ^ y;
    z' := Sum(z, f, word, 0x5A827999, Rotl5(v));
    w' := Rotl30(w);
    SumOrder(Rotl5(v), f, z, K(i), word);
    OneRound(m, h, i, Regs(v, w, x, y, z));
  }

  method R2(v: Word, w: Word, x: Word, y: Word, z: Word, i: nat, block: array<Word>, ghost m: seq<Word>, ghost h: Regs)
    returns (w': Word, z': Word)
    requires |m| == 16 && 20 <= i < 40 && Window(block[..], m, i) && Rounds(m, h, i) == Regs(v, w, x, y, z)
    modifies block
    ensures Window(block[..], m, i + 1) && Rounds(m, h, i + 1) == Regs(z', v, w', x, y)
  {
    var word := Blk(block, i, m);
    var f := w ^ x ^ y;
    z' := Sum(z, f, word, 0x6ED9EBA1, Rotl5(v));
    w' := Rotl30(w);
    SumOrder(Rotl5(v), f, z, K(i), word);
    OneRound(m, h, i, Regs(v, w, x, y, z));
  }

  method R3(v: Word, w: Word, x: Word, y: Word, z: Word, i: nat, block: array<Word>, ghost m: seq<Word>, ghost h: Regs)
    returns (w': Word, z': Word)
    requires |m| == 16 && 40 <= i < 60 && Window(block[..], m, i) && Rounds(m, h, i) == Regs(v, w, x, y, z)
    modifies block
    ensures Window(block[..], m, i + 1) && Rounds(m, h, i + 1) == Regs(z', v, w', x, y)
  {
    var word := Blk(block, i, m);
    MajorityTrick(w, x, y);
    var f := ((w | x) & y) | (w & x);
    z' := Sum(z, f, word, 0x8F1BBCDC, Rotl5(v));
    w' := Rotl30(w);
    SumOrder(Rotl5(v), f, z, K(i), word);
    OneRound(m, h, i, Regs(v, w, x, y, z));
  }

  method R4(v: Word, w: Word, x: Word, y: Word, z: Word, i: nat, block: array<Word>, ghost m: seq<Word>, ghost h: Regs)
    returns (w': Word, z': Word)
    requires |m| == 16 && 60 <= i < 80 && Window(block[..], m, i) && Rounds(m, h, i) == Regs(v, w, x, y, z)
    modifies block
    ensures Window(block[..], m, i + 1) && Rounds(m, h, i + 1) == Regs(z', v, w', x, y)
  {
    var word := Blk(block, i, m);
    var f := w ^ x ^ y;
    z' := Sum(z, f, word, 0xCA62C1D6, Rotl5(v));
    w' := Rotl30(w);
    SumOrder(Rotl5(v), f, z, K(i), word);
    OneRound(m, h, i, Regs(v, w, x, y, z));
  }

  // ------------------------------------------------------------------
  // The 80 unrolled rounds, ten at a time.  After every multiple of five rounds the rotating
  // names are back in place.
  // ------------------------------------------------------------------

  method Rounds0to4(r: Regs, block: array<Word>, ghost m: seq<Word>, ghost h: Regs) returns (r': Regs)
    requires |m| == 16 && Window(block[..], m, 0) && Rounds(m, h, 0) == r
    modifies block
    ensures Window(block[..], m, 5) && Rounds(m, h, 5) == r'
  {
    var Regs(a, b, c, d, e) := r;
    b, e := R0(a, b, c, d, e, 0, block, m, h);
    a, d := R0(e, a, b, c, d, 1, block, m, h);
    e, c := R0(d, e, a, b, c, 2, block, m, h);
    d, b := R0(c, d, e, a, b, 3, block, m, h);
    c, a := R0(b, c, d, e, a, 4, block, m, h);
    r' := Regs(a, b, c, d, e);
  }

  method Rounds5to9(r: Regs, block: array<Word>, ghost m: seq<Word>, ghost h: Regs) returns (r': Regs)
    requires |m| == 16 && Window(block[..], m, 5) && Rounds(m, h, 5) == r
    modifies block
    ensures Window(block[..], m, 10) && Rounds(m, h, 10) == r'
  {
    var Regs(a, b, c, d, e) := r;
    b, e := R0(a, b, c, d, e, 5, block, m, h);
    a, d := R0(e, a, b, c, d, 6, block, m, h);
    e, c := R0(d, e, a, b, c, 7, block, m, h);
    d, b := R0(c, d, e, a, b, 8, block, m, h);
    c, a := R0(b, c, d, e, a, 9, block, m, h);
    r' := Regs(a, b, c, d, e);
  }

  method Rounds10to19(r: Regs, block: array<Word>, ghost m: seq<Word>, ghost h: Regs) returns (r': Regs)
    requires |m| == 16 && Window(block[..], m, 10) && Rounds(m, h, 10) == r
    modifies block
    ensures Window(block[..], m, 20) && Rounds(m, h, 20) == r'
  {
    var Regs(a, b, c, d, e) := r;
    b, e := R0(a, b, c, d, e, 10, block, m, h);
    a, d := R0(e, a, b, c, d, 11, block, m, h);
    e, c := R0(d, e, a, b, c, 12, block, m, h);
    d, b := R0(c, d, e, a, b, 13, block, m, h);
    c, a := R0(b, c, d, e, a, 14, block, m, h);
    b, e := R0(a, b, c, d, e, 15, block, m, h);
    a, d := R1(e, a, b, c, d, 16, block, m, h);
    e, c := R1(d, e, a, b, c, 17, block, m, h);
    d, b := R1(c, d, e, a, b, 18, block, m, h);
    c, a := R1(b, c, d, e, a, 19, block, m, h);
    r' := Regs(a, b, c, d, e);
  }

  method Rounds20to29(r: Regs, block: array<Word>, ghost m: seq<Word>, ghost h: Regs) returns (r': Regs)
    requires |m| == 16 && Window(block[..], m, 20) && Rounds(m, h, 20) == r
    modifies block
    ensures Window(block[..], m, 30) && Rounds(m, h, 30) == r'
  {
    var Regs(a, b, c, d, e) := r;
    b, e := R2(a, b, c, d, e, 20, block, m, h);
    a, d := R2(e, a, b, c, d, 21, block, m, h);
    e, c := R2(d, e, a, b, c, 22, block, m, h);
    d, b := R2(c, d, e, a, b, 23, block, m, h);
    c, a := R2(b, c, d, e, a, 24, block, m, h);
    b, e := R2(a, b, c, d, e, 25, block, m, h);
    a, d := R2(e, a, b, c, d, 26, block, m, h);
    e, c := R2(d, e, a, b, c, 27, block, m, h);
    d, b := R2(c, d, e, a, b, 28, block, m, h);
    c, a := R2(b, c, d, e, a, 29, block, m, h);
    r' := Regs(a, b, c, d, e);
  }

  method Rounds30to39(r: Regs, block: array<Word>, ghost m: seq<Word>, ghost h: Regs) returns (r': Regs)
    requires |m| == 16 && Window(block[..], m, 30) && Rounds(m, h, 30) == r
    modifies block
    ensures Window(block[..], m, 40) && Rounds(m, h, 40) == r'
  {
    var Regs(a, b, c, d, e) := r;
    b, e := R2(a, b, c, d, e, 30, block, m, h);
    a, d := R2(e, a, b, c, d, 31, block, m, h);
    e, c := R2(d, e, a, b, c, 32, block, m, h);
    d, b := R2(c, d, e, a, b, 33, block, m, h);
    c, a := R2(b, c, d, e, a, 34, block, m, h);
    b, e := R2(a, b, c, d, e, 35, block, m, h);
    a, d := R2(e, a, b, c, d, 36, block, m, h);
    e, c := R2(d, e, a, b, c, 37, block, m, h);
    d, b := R2(c, d, e, a, b, 38, block, m, h);
    c, a := R2(b, c, d, e, a, 39, block, m, h);
    r' := Regs(a, b, c, d, e);
  }

  method Rounds40to49(r: Regs, block: array<Word>, ghost m: seq<Word>, ghost h: Regs) returns (r': Regs)
    requires |m| == 16 && Window(block[..], m, 40) && Rounds(m, h, 40) == r
    modifies block
    ensures Window(block[..], m, 50) && Rounds(m, h, 50) == r'
  {
    var Regs(a, b, c, d, e) := r;
    b, e := R3(a, b, c, d, e, 40, block, m, h);
    a, d := R3(e, a, b, c, d, 41, block, m, h);
    e, c := R3(d, e, a, b, c, 42, block, m, h);
    d, b := R3(c, d, e, a, b, 43, block, m, h);
    c, a := R3(b, c, d, e, a, 44, block, m, h);
    b, e := R3(a, b, c, d, e, 45, block, m, h);
    a, d := R3(e, a, b, c, d, 46, block, m, h);
    e, c := R3(d, e, a, b, c, 47, block, m, h);
    d, b := R3(c, d, e, a, b, 48, block, m, h);
    c, a := R3(b, c, d, e, a, 49, block, m, h);
    r' := Regs(a, b, c, d, e);
  }

  method Rounds50to59(r: Regs, block: array<Word>, ghost m: seq<Word>, ghost h: Regs) returns (r': Regs)
    requires |m| == 16 && Window(block[..], m, 50) && Rounds(m, h, 50) == r
    modifies block
    ensures Window(block[..], m, 60) && Rounds(m, h, 60) == r'
  {
    var Regs(a, b, c, d, e) := r;
    b, e := R3(a, b, c, d, e, 50, block, m, h);
    a, d := R3(e, a, b, c, d, 51, block, m, h);
    e, c := R3(d, e, a, b, c, 52, block, m, h);
    d, b := R3(c, d, e, a, b, 53, block, m, h);
    c, a := R3(b, c, d, e, a, 54, block, m, h);
    b, e := R3(a, b, c, d, e, 55, block, m, h);
    a, d := R3(e, a, b, c, d, 56, block, m, h);
    e, c := R3(d, e, a, b, c, 57, block, m, h);
    d, b := R3(c, d, e, a, b, 58, block, m, h);
    c, a := R3(b, c, d, e, a, 59, block, m, h);
    r' := Regs(a, b, c, d, e);
  }

  method Rounds60to69(r: Regs, block: array<Word>, ghost m: seq<Word>, ghost h: Regs) returns (r': Regs)
    requires |m| == 16 && Window(block[..], m, 60) && Rounds(m, h, 60) == r
    modifies block
    ensures Window(block[..], m, 70) && Rounds(m, h, 70) == r'
  {
    var Regs(a, b, c, d, e) := r;
    b, e := R4(a, b, c, d, e, 60, block, m, h);
    a, d := R4(e, a, b, c, d, 61, block, m, h);
    e, c := R4(d, e, a, b, c, 62, block, m, h);
    d, b := R4(c, d, e, a, b, 63, block, m, h);
    c, a := R4(b, c, d, e, a, 64, block, m, h);
    b, e := R4(a, b, c, d, e, 65, block, m, h);
    a, d := R4(e, a, b, c, d, 66, block, m, h);
    e, c := R4(d, e, a, b, c, 67, block, m, h);
    d, b := R4(c, d, e, a, b, 68, block, m, h);
    c, a := R4(b, c, d, e, a, 69, block, m, h);
    r' := Regs(a, b, c, d, e);
  }

  method Rounds70to79(r: Regs, block: array<Word>, ghost m: seq<Word>, ghost h: Regs) returns (r': Regs)
    requires |m| == 16 && Window(block[..], m, 70) && Rounds(m, h, 70) == r
    modifies block
    ensures Window(block[..], m, 80) && Rounds(m, h, 80) == r'
  {
    var Regs(a, b, c, d, e) := r;
    b, e := R4(a, b, c, d, e, 70, block, m, h);
    a, d := R4(e, a, b, c, d, 71, block, m, h);
    e, c := R4(d, e, a, b, c, 72, block, m, h);
    d, b := R4(c, d, e, a, b, 73, block, m, h);
    c, a := R4(b, c, d, e, a, 74, block, m, h);
    b, e := R4(a, b, c, d, e, 75, block, m, h);
    a, d := R4(e, a, b, c, d, 76, block, m, h);
    e, c := R4(d, e, a, b, c, 77, block, m, h);
    d, b := R4(c, d, e, a, b, 78, block, m, h);
    c, a := R4(b, c, d, e, a, 79, block, m, h);
    r' := Regs(a, b, c, d, e);
  }

  /** memcpy(block, buffer, 64) */
  method Load(buffer: seq<Byte>) returns (block: array<Word>)
    requires |buffer| == 64
    ensures fresh(block) && Window(block[..], Parse(buffer), 0)
  {
    ghost var m := Parse(buffer);
    block := new Word[16](i requires 0 <= i < 16 => LittleEndian(buffer, 4 * i));
    forall k: nat | k < 16 ensures Swap(block[..][k]) == m[k] {
      SwapIsBigEndian(buffer[4 * k], buffer[4 * k + 1], buffer[4 * k + 2], buffer[4 * k + 3]);
    }
  }

  function RegsOf(s: seq<Word>): Regs
    requires |s| == 5
  {
    Regs(s[0], s[1], s[2], s[3], s[4])
  }

  method Compress(h: Regs, buffer: seq<Byte>) returns (r: Regs)
    requires |buffer| == 64
    ensures r == Rounds(Parse(buffer), h, 80)
  {
    ghost var m := Parse(buffer);
    var block := Load(buffer);
    r := Rounds0to4(h, block, m, h);
    r := Rounds5to9(r, block, m, h);
    r := Rounds10to19(r, block, m, h);
    r := Rounds20to29(r, block, m, h);
    r := Rounds30to39(r, block, m, h);
    r := Rounds40to49(r, block, m, h);
    r := Rounds50to59(r, block, m, h);
    r := Rounds60to69(r, block, m, h);
    r := Rounds70to79(r, block, m, h);
  }

  /** SHA1Transform: adds the 80-step loop's result into `state`. */
  method Transform(state: array<Word>, buffer: seq<Byte>)
    requires state.Length == 5 && |buffer| == 64
    modifies state
    ensures RegsOf(state[..]) == AddRegs(old(RegsOf(state[..])), Rounds(Parse(buffer), old(RegsOf(state[..])), 80))
  {
    var r := Compress(Regs(state[0], state[1], state[2], state[3], state[4]), buffer);
    state[0] := Add(state[0], r.a);
    state[1] := Add(state[1], r.b);
    state[2] := Add(state[2], r.c);
    state[3] := Add(state[3], r.d);
    state[4] := Add(state[4], r.e);
  }
}
