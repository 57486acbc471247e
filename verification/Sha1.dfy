/**
 The streaming part of amiproc/sha1.c: SHA1Init, SHA1Update, SHA1Final and SHA1.  For every
 message and every way of cutting it into updates the digest is that of FIPS 180-4.
 */
module Sha1 {
  import opened Sha1Spec
  import opened Sha1Transform

  /** How many bytes of an n-byte message are in complete blocks. */
  function Full(n: nat): (f: nat)
    ensures f <= n < f + 64 && f % 64 == 0 && n - f == n % 64
  {
    n - n % 64
  }

  // ------------------------------------------------------------------
  // The bit counter, split over two 32-bit words
  // ------------------------------------------------------------------

  /** count[1] * 2^32 + count[0] is the number of bits, modulo 2^64. */
  ghost predicate Counts(count0: nat, count1: nat, n: nat) {
    count0 == 8 * n % TWO_32 && count1 == 8 * n / TWO_32 % TWO_32
  }

  /** Sums of numbers in base 2^32. */
  lemma WordSum(q: nat, r: nat, q': nat, r': nat, low: nat, carry: nat)
    requires r + r' == low + carry * TWO_32 && low < TWO_32
    ensures ((TWO_32 * q + r) + (TWO_32 * q' + r')) % TWO_32 == low
    ensures ((TWO_32 * q + r) + (TWO_32 * q' + r')) / TWO_32 == q + carry + q'
  {
    Quotient((TWO_32 * q + r) + (TWO_32 * q' + r'), q + carry + q', low);
  }

  lemma Shifted(len: nat)
    requires len < TWO_32
    ensures 8 * len == TWO_32 * (len / 0x2000_0000) + len * 8 % TWO_32
  {
  }

  /** Adding with the carry taken from an overflow test on the low word. */
  lemma {:induction false} CarryIsRight(count0: nat, count1: nat, n: nat, len: nat, low: nat, mid: nat, high: nat)
    requires Counts(count0, count1, n) && len < TWO_32
    requires low == (count0 + len * 8 % TWO_32) % TWO_32
    requires mid == if low < count0 then (count1 + 1) % TWO_32 else count1
    requires high == (mid + len / 0x2000_0000) % TWO_32
    ensures Counts(low, high, n + len)
  {
    var q, q' := 8 * n / TWO_32, len / 0x2000_0000;
    var carry := if low < count0 then 1 else 0;
    Shifted(len);
    Carry(count0, len * 8 % TWO_32, low);
    WordSum(q, count0, q', len * 8 % TWO_32, low, carry);
    assert 8 * (n + len) == (TWO_32 * q + count0) + (TWO_32 * q' + len * 8 % TWO_32);
    MidIs(count1, q, low < count0, mid);
    ModSum(q, carry, q');
  }

  lemma MidIs(count1: nat, q: nat, carry: bool, mid: nat)
    requires count1 == q % TWO_32 && mid == if carry then (count1 + 1) % TWO_32 else count1
    ensures mid == (q % TWO_32 + if carry then 1 else 0) % TWO_32
  {
  }

  lemma Carry(r: nat, r': nat, low: nat)
    requires r < TWO_32 && r' < TWO_32 && low == (r + r') % TWO_32
    ensures r + r' == low + (if low < r then TWO_32 else 0)
  {
  }

  lemma Quotient(x: nat, q: nat, r: nat)
    requires x == TWO_32 * q + r && r < TWO_32
    ensures x / TWO_32 == q && x % TWO_32 == r
  {
  }

  lemma ModSum(a: nat, b: nat, c: nat)
    ensures ((a % TWO_32 + b) % TWO_32 + c) % TWO_32 == (a + b + c) % TWO_32
  {
  }

  /** The buffered byte count can be read off the low word. */
  lemma BufferedBytes(count0: nat, count1: nat, n: nat)
    requires Counts(count0, count1, n)
    ensures count0 / 8 % 64 == n % 64
  {
  }

  /** One more complete block. */
  lemma HashStep(data: seq<Byte>, n: nat)
    requires n % 64 == 0 && n + 64 <= |data|
    ensures Hash(data[..n + 64]) == AddRegs(Hash(data[..n]), Rounds(Parse(data[n..n + 64]), Hash(data[..n]), 80))
  {
    assert data[..n + 64][..n] == data[..n];
    assert data[..n + 64][n..] == data[n..n + 64];
  }

  lemma PadZerosIsLeast(n: nat, k: nat)
    requires k <= PadZeros(n)
    ensures (n + 1 + k) % 64 == 56 <==> k == PadZeros(n)
  {
  }

  /** Zero bytes are added exactly until 56 bytes are in the last block. */
  lemma {:induction false} ZerosNeeded(count0: nat, count1: nat, n: nat, k: nat)
    requires Counts(count0, count1, n + 1 + k) && k <= PadZeros(n)
    ensures count0 / 8 % 64 == 56 <==> k == PadZeros(n)
  {
    BufferedBytes(count0, count1, n + 1 + k);
    PadZerosIsLeast(n, k);
  }

  /** Byte k of the big-endian form of a word, as (w >> ((3 - (k & 3)) * 8)) & 255. */
  function WordByte(w: Word, k: nat): Byte
    requires k < 4
  {
    if k == 0 then ((w >> 24) & 0xFF) as Byte else if k == 1 then ((w >> 16) & 0xFF) as Byte
    else if k == 2 then ((w >> 8) & 0xFF) as Byte else (w & 0xFF) as Byte
  }

  lemma WordByteOf(w: Word, k: nat)
    requires k < 4
    ensures WordByte(w, k) == WordBytes(w)[k]
  {
  }

  lemma FiveOfFour(a: seq<Byte>, b: seq<Byte>, c: seq<Byte>, d: seq<Byte>, e: seq<Byte>, i: nat)
    requires |a| == 4 && |b| == 4 && |c| == 4 && |d| == 4 && |e| == 4 && i < 20
    ensures (a + b + c + d + e)[i] == [a, b, c, d, e][i / 4][i % 4]
  {
  }

  lemma {:induction false} WordByteIsDigestByte(h: Regs, i: nat)
    requires i < 20
    ensures WordByte([h.a, h.b, h.c, h.d, h.e][i / 4], i % 4) == Digest(h)[i]
  {
    FiveOfFour(WordBytes(h.a), WordBytes(h.b), WordBytes(h.c), WordBytes(h.d), WordBytes(h.e), i);
    WordByteOf([h.a, h.b, h.c, h.d, h.e][i / 4], i % 4);
  }

  lemma FourBytes(x: nat)
    ensures x / 256 / 256 / 256 / 256 == x / TWO_32
  {
  }

  lemma {:induction false} HighWord(x: nat, k: nat)
    ensures NumberByte(x, k + 4) == NumberByte(x / TWO_32, k)
  {
    FourBytes(x);
    assert NumberByte(x / 256 / 256, k + 2) == NumberByte(x / 256 / 256 / 256 / 256, k);
  }

  lemma DivBy256(x: nat, q: nat, t: nat)
    requires x == 256 * q + t && t < 256
    ensures x / 256 == q && x % 256 == t
  {
  }

  lemma Remainder4(x: nat)
    ensures x % TWO_32 / 256 == x / 256 % 0x100_0000 && x % TWO_32 % 256 == x % 256
  {
    var y := x % TWO_32;
    DivBy256(x, x / TWO_32 * 0x100_0000 + y / 256, y % 256);
  }

  lemma Remainder3(x: nat)
    ensures x % 0x100_0000 / 256 == x / 256 % 0x1_0000 && x % 0x100_0000 % 256 == x % 256
  {
    var y := x % 0x100_0000;
    DivBy256(x, x / 0x100_0000 * 0x1_0000 + y / 256, y % 256);
  }

  lemma Remainder2(x: nat)
    ensures x % 0x1_0000 / 256 == x / 256 % 256 && x % 0x1_0000 % 256 == x % 256
  {
    var y := x % 0x1_0000;
    DivBy256(x, x / 0x1_0000 * 256 + y / 256, y % 256);
  }

  /** Only the word a byte lies in matters. */
  lemma {:induction false} LowWord(x: nat, k: nat)
    requires k < 4
    ensures NumberByte(x % TWO_32, k) == NumberByte(x, k)
  {
    Remainder4(x);
    if k > 0 {
      var x1 := x / 256;
      Remainder3(x1);
      if k > 1 {
        var x2 := x1 / 256;
        Remainder2(x2);
        assert NumberByte(x2 % 0x1_0000, k - 2) == NumberByte(x2, k - 2);
      }
    }
  }

  /** finalcount[i]: the shift by (3 - (i & 3)) * 8 drops 3 - i % 4 bytes. */
  function CountByte(count0: nat, count1: nat, i: nat): Byte
    requires i < 8
  {
    NumberByte(if i >= 4 then count0 else count1, 3 - i % 4)
  }

  /** The bytes SHA1Final takes out of the two counter words are the length field. */
  lemma {:induction false} CountByteIsLengthByte(count0: nat, count1: nat, n: nat, i: nat)
    requires Counts(count0, count1, n) && i < 8
    ensures CountByte(count0, count1, i) == LengthField(8 * n)[i]
  {
    if i >= 4 {
      LowWord(8 * n, 3 - i % 4);
    } else {
      HighWord(8 * n, 3 - i % 4);
      LowWord(8 * n / TWO_32, 3 - i % 4);
    }
  }

  lemma FullWhen(n: nat, f: nat)
    requires f <= n < f + 64 && f % 64 == 0
    ensures Full(n) == f && n % 64 == n - f
  {
  }

  /** The buffered bytes and data do not make a block. */
  lemma ShortUpdate(msg: seq<Byte>, data: seq<Byte>)
    requires |msg| % 64 + |data| <= 63
    ensures Full(|msg + data|) == Full(|msg|) && |msg + data| % 64 == |msg| % 64 + |data|
    ensures msg[Full(|msg|)..] + data[0..] == (msg + data)[Full(|msg|)..]
    ensures msg[..Full(|msg|)] == (msg + data)[..Full(|msg|)]
  {
    FullWhen(|msg + data|, Full(|msg|));
  }

  /** They make at least one block; all of data before i has been hashed. */
  lemma LongUpdate(msg: seq<Byte>, data: seq<Byte>)
    requires |msg| % 64 + |data| > 63
    ensures Full(|msg|) + 64 == |msg| + (64 - |msg| % 64)
    ensures msg[Full(|msg|)..] + data[..64 - |msg| % 64] == (msg + data)[Full(|msg|)..Full(|msg|) + 64]
    ensures msg[..Full(|msg|)] == (msg + data)[..Full(|msg|)]
  {
  }

  lemma TailOfUpdate(msg: seq<Byte>, data: seq<Byte>, i: nat)
    requires i <= |data| <= i + 63 && (|msg| + i) % 64 == 0
    ensures Full(|msg + data|) == |msg| + i && |msg + data| % 64 == |data| - i
    ensures data[i..] == (msg + data)[|msg| + i..]
  {
    FullWhen(|msg + data|, |msg| + i);
  }

  /** The precondition of SHA1Update keeps the loop test i + 63 < len from wrapping. */
  lemma NoWrap(base: nat, i: nat, len: nat)
    requires base % 64 + len < TWO_32 && i <= len && (base + i) % 64 == 0
    ensures i + 63 < TWO_32 && (base + i + 64) % 64 == 0
  {
  }

  lemma BlockStep(whole: seq<Byte>, data: seq<Byte>, base: nat, i: nat)
    requires base + |data| == |whole| && whole[base..] == data && (base + i) % 64 == 0 && i + 64 <= |data|
    ensures Hash(whole[..base + i + 64]) == AddRegs(Hash(whole[..base + i]), Rounds(Parse(data[i..i + 64]), Hash(whole[..base + i]), 80))
  {
    assert data[i..i + 64] == whole[base + i..base + i + 64];
    HashStep(whole, base + i);
  }

  /** SHA1_CTX.  `message` is everything hashed so far. */
  class Context {
    const state: array<Word>
    const buffer: array<Byte>
    var count0: nat
    var count1: nat
    ghost var message: seq<Byte>

    ghost predicate Valid()
      reads this, state, buffer
    {
      && state.Length == 5 && buffer.Length == 64
      && Counts(count0, count1, |message|)
      && RegsOf(state[..]) == Hash(message[..Full(|message|)])
      && buffer[..|message| % 64] == message[Full(|message|)..]
    }

    /** SHA1Init */
    constructor ()
      ensures Valid() && message == [] && fresh(state) && fresh(buffer)
    {
      state := new Word[5] [0x67452301, 0xEFCDAB89, 0x98BADCFE, 0x10325476, 0xC3D2E1F0];
      buffer := new Byte[64](_ => 0);
      count0, count1 := 0, 0;
      message := [];
    }

    /** memcpy(&buffer[at], &data[from], to - from) */
    method Copy(at: nat, data: seq<Byte>, from: nat, to: nat)
      requires from <= to <= |data| && at + (to - from) <= buffer.Length
      modifies buffer
      ensures buffer[..] == old(buffer[..at]) + data[from..to] + old(buffer[at + (to - from)..])
    {
      forall k | from <= k < to { buffer[at + (k - from)] := data[k]; }
    }

    /** The bit counter of SHA1Update; j is how many bytes were buffered before. */
    method Count(len: nat) returns (j: nat)
      requires len < TWO_32 && Counts(count0, count1, |message|)
      modifies `count0, `count1
      ensures Counts(count0, count1, |message| + len) && j == |message| % 64
    {
      j := count0;
      ghost var high := count1;
      BufferedBytes(count0, count1, |message|);
      count0 := (count0 + len * 8 % TWO_32) % TWO_32;
      if count0 < j { count1 := (count1 + 1) % TWO_32; }
      ghost var mid := count1;
      count1 := (count1 + len / 0x2000_0000) % TWO_32;
      CarryIsRight(j, high, |message|, len, count0, mid, count1);
      j := j / 8 % 64;
    }

    /** The complete blocks of data from i on; `whole` is the message with data, data[0] its byte `base`. */
    method Blocks(data: seq<Byte>, start: nat, ghost whole: seq<Byte>, ghost base: nat) returns (i: nat)
      requires state.Length == 5 && start <= |data| && (base + start) % 64 == 0 && base % 64 + |data| < TWO_32
      requires base + |data| == |whole| && whole[base..] == data
      requires RegsOf(state[..]) == Hash(whole[..base + start])
      modifies state
      ensures i <= |data| && i + 63 >= |data| && (base + i) % 64 == 0
      ensures RegsOf(state[..]) == Hash(whole[..base + i])
    {
      hide Hash, Parse, RegsOf, AddRegs, Rounds;
      i := start;
      while (i + 63) % TWO_32 < |data|
        invariant i <= |data| && (base + i) % 64 == 0
        invariant RegsOf(state[..]) == Hash(whole[..base + i])
        decreases |data| - i
      {
        NoWrap(base, i, |data|);
        BlockStep(whole, data, base, i);
        Transform(state, data[i..i + 64]);
        i := i + 64;
      }
      NoWrap(base, i, |data|);
    }

    /** Fills the buffer up from data and hashes it. */
    method FillBlock(j: nat, data: seq<Byte>, ghost whole: seq<Byte>, ghost full: nat)
      requires state.Length == 5 && buffer.Length == 64 && j < 64 && 64 - j <= |data|
      requires full % 64 == 0 && full + 64 <= |whole| && buffer[..j] + data[..64 - j] == whole[full..full + 64]
      requires RegsOf(state[..]) == Hash(whole[..full])
      modifies state, buffer
      ensures RegsOf(state[..]) == Hash(whole[..full + 64])
    {
      hide Hash, Parse, RegsOf, AddRegs, Rounds;
      Copy(j, data, 0, 64 - j);
      assert buffer[..] == whole[full..full + 64];
      HashStep(whole, full);
      Transform(state, buffer[..]);
    }

    /** Hashes what is buffered together with the complete blocks of data; i is how much of data was used. */
    method Absorb(j: nat, data: seq<Byte>) returns (i: nat)
      requires state.Length == 5 && buffer.Length == 64 && j == |message| % 64 && 63 < j + |data| < TWO_32
      requires RegsOf(state[..]) == Hash(message[..Full(|message|)]) && buffer[..j] == message[Full(|message|)..]
      modifies state, buffer
      ensures i <= |data| <= i + 63 && (|message| + i) % 64 == 0
      ensures RegsOf(state[..]) == Hash((message + data)[..|message| + i])
    {
      hide Hash, RegsOf, Full;
      LongUpdate(message, data);
      FillBlock(j, data, message + data, Full(|message|));
      i := Blocks(data, 64 - j, message + data, |message|);
    }

    /** Keeps what is left of data for the next call. */
    method Keep(j: nat, data: seq<Byte>, i: nat, ghost whole: seq<Byte>)
      requires state.Length == 5 && buffer.Length == 64 && i <= |data| && j + |data| - i == |whole| % 64
      requires Counts(count0, count1, |whole|) && RegsOf(state[..]) == Hash(whole[..Full(|whole|)])
      requires buffer[..j] + data[i..] == whole[Full(|whole|)..]
      modifies buffer, `message
      ensures Valid() && message == whole
    {
      Copy(j, data, i, |data|);
      message := whole;
      assert buffer[..|message| % 64] == buffer[..j] + data[i..];
    }

    /**
     SHA1Update.  Unsigned 32-bit sums wrap: the precondition is what keeps j + len and
     i + 63 below 2^32.
     */
    method Update(data: seq<Byte>)
      requires Valid() && |message| % 64 + |data| < TWO_32
      modifies this, state, buffer
      ensures Valid() && message == old(message) + data
    {
      hide Hash, RegsOf, Full, Counts;
      var len := |data|;
      var j := Count(len);
      var i := 0;
      if (j + len) % TWO_32 > 63 {
        i := Absorb(j, data);
        TailOfUpdate(message, data, i);
        j := 0;
        assert buffer[..j] == [];
      } else {
        ShortUpdate(message, data);
      }
      Keep(j, data, i, message + data);
    }

    /** finalcount, read before the padding is added. */
    method FinalCount() returns (f: array<Byte>)
      requires Valid()
      ensures fresh(f) && f[..] == LengthField(8 * |message|)
    {
      hide Hash, RegsOf, Full, LengthField, CountByte;
      f := new Byte[8];
      var i := 0;
      while i < 8
        invariant 0 <= i <= 8 && f[..i] == LengthField(8 * |message|)[..i]
      {
        CountByteIsLengthByte(count0, count1, |message|, i);
        f[i] := CountByte(count0, count1, i);
        i := i + 1;
      }
    }

    /** The digest bytes of SHA1Final. */
    method Output() returns (digest: array<Byte>)
      requires state.Length == 5
      ensures fresh(digest) && digest[..] == Digest(RegsOf(state[..]))
    {
      hide Digest, WordByte;
      digest := new Byte[20];
      ghost var h := RegsOf(state[..]);
      assert state[..] == [h.a, h.b, h.c, h.d, h.e];
      var i := 0;
      while i < 20
        invariant 0 <= i <= 20 && digest[..i] == Digest(h)[..i]
      {
        WordByteIsDigestByte(h, i);
        digest[i] := WordByte(state[i / 4], i % 4);
        i := i + 1;
      }
    }

    method Wipe()
      modifies `count0, `count1, state, buffer
      ensures count0 == count1 == 0
      ensures forall k :: 0 <= k < state.Length ==> state[k] == 0
      ensures forall k :: 0 <= k < buffer.Length ==> buffer[k] == 0
    {
      forall k | 0 <= k < state.Length { state[k] := 0; }
      forall k | 0 <= k < buffer.Length { buffer[k] := 0; }
      count0, count1 := 0, 0;
    }

    /** The loop of SHA1Final: (count[0] & 504) != 448 asks for 56 bytes in the last block. */
    method AddZeros()
      requires Valid() && |message| > 0
      modifies this, state, buffer
      ensures Valid() && message == old(message) + Zeros(PadZeros(old(|message|) - 1))
    {
      hide Hash, RegsOf, Full, Counts, PadZeros;
      ghost var start, k := message, 0;
      ZerosNeeded(count0, count1, |start| - 1, k);
      while count0 / 8 % 64 != 56
        invariant Valid() && k <= PadZeros(|start| - 1) && message == start + Zeros(k)
        invariant count0 / 8 % 64 == 56 <==> k == PadZeros(|start| - 1)
        decreases PadZeros(|start| - 1) - k
      {
        Update([0]);
        k := k + 1;
        ZerosNeeded(count0, count1, |start| - 1, k);
      }
    }

    method Final() returns (digest: array<Byte>)
      requires Valid()
      modifies this, state, buffer
      ensures fresh(digest) && digest[..] == Sha1(old(message))
      ensures count0 == count1 == 0 && (forall k :: 0 <= k < state.Length ==> state[k] == 0)
      ensures forall k :: 0 <= k < buffer.Length ==> buffer[k] == 0
    {
      hide Hash, RegsOf, Counts, Digest;
      ghost var msg := message;
      var finalcount := FinalCount();
      Update([0x80]);
      AddZeros();
      Update(finalcount[..]);
      assert message == Pad(msg);
      assert message[..Full(|message|)] == message;
      digest := Output();
      Wipe();
    }
  }

  /** SHA1: one byte at a time. */
  method Sha1ByteAtATime(str: seq<Byte>) returns (digest: array<Byte>)
    ensures digest[..] == Sha1Spec.Sha1(str)
  {
    var ctx := new Context();
    var ii := 0;
    while ii < |str|
      invariant 0 <= ii <= |str|
      invariant fresh(ctx) && fresh(ctx.state) && fresh(ctx.buffer) && ctx.Valid()
      invariant ctx.message == str[..ii]
    {
      ctx.Update(str[ii..ii + 1]);
      assert str[..ii + 1] == str[..ii] + str[ii..ii + 1];
      ii := ii + 1;
    }
    assert str[..ii] == str;
    digest := ctx.Final();
  }

  function Join(pieces: seq<seq<Byte>>): seq<Byte> {
    if pieces == [] then [] else Join(pieces[..|pieces| - 1]) + pieces[|pieces| - 1]
  }

  /** Any sequence of SHA1Update calls, each short enough for the 32-bit sums. */
  method Sha1OfPieces(pieces: seq<seq<Byte>>) returns (digest: array<Byte>)
    requires forall k :: 0 <= k < |pieces| ==> |Join(pieces[..k])| % 64 + |pieces[k]| < TWO_32
    ensures digest[..] == Sha1Spec.Sha1(Join(pieces))
  {
    var ctx := new Context();
    var k := 0;
    while k < |pieces|
      invariant 0 <= k <= |pieces|
      invariant fresh(ctx) && fresh(ctx.state) && fresh(ctx.buffer) && ctx.Valid()
      invariant ctx.message == Join(pieces[..k])
    {
      ctx.Update(pieces[k]);
      assert pieces[..k + 1][..k] == pieces[..k];
      k := k + 1;
    }
    assert pieces[..k] == pieces;
    digest := ctx.Final();
  }
}
