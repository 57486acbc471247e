/**
 base64_encode, base64_decode and b64reverse of amiproc/http.cpp against section 4 of RFC 4648.
 Shifts and masks of small numbers are written as division and remainder.
 */
module Base64 {
  import opened Transfer

  const PAD: char := '='

  // ------------------------------------------------------------------
  // RFC 4648
  // ------------------------------------------------------------------

  /** The letter for a 6-bit value: Table 1 of the RFC, and the table b64 of base64_encode. */
  function Letter(v: nat): char
    requires v < 64
  {
    if v < 26 then 'A' + v as char
    else if v < 52 then 'a' + (v - 26) as char
    else if v < 62 then '0' + (v - 52) as char
    else if v == 62 then '+' else '/'
  }

  predicate IsLetter(l: char) {
    'A' <= l <= 'Z' || 'a' <= l <= 'z' || '0' <= l <= '9' || l == '+' || l == '/'
  }

  /** 24 input bits as four letters. */
  function Group(a: Byte, b: Byte, c: Byte): (g: string)
    ensures |g| == 4
  {
    var bits: nat := 0x1_0000 * (a as nat) + 0x100 * (b as nat) + c;
    [Letter(bits / 0x4_0000), Letter(bits / 0x1000 % 64), Letter(bits / 64 % 64), Letter(bits % 64)]
  }

  /** Groups of three bytes; the last one is padded. */
  function Encode(x: seq<Byte>): string {
    if |x| == 0 then ""
    else if |x| == 1 then Group(x[0], 0, 0)[..2] + [PAD, PAD]
    else if |x| == 2 then Group(x[0], x[1], 0)[..3] + [PAD]
    else Group(x[0], x[1], x[2]) + Encode(x[3..])
  }

  lemma {:induction false} EncodedLength(x: seq<Byte>)
    ensures |Encode(x)| == 4 * ((|x| + 2) / 3)
  {
    hide Group;
    if |x| >= 3 {
      EncodedLength(x[3..]);
      assert |Encode(x)| == 4 + |Encode(x[3..])|;
    }
  }

  /** The value of a letter; padding and anything else have none. */
  function Value(l: char): (v: nat)
    ensures v < 64
  {
    if 'A' <= l <= 'Z' then (l - 'A') as nat
    else if 'a' <= l <= 'z' then (l - 'a') as nat + 26
    else if '0' <= l <= '9' then (l - '0') as nat + 52
    else if l == '+' then 62 else if l == '/' then 63 else 0
  }

  /** What four characters stand for: one byte less for each '=' at the end. */
  function Quad(a: char, b: char, c: char, d: char): seq<Byte> {
    var bits := 0x4_0000 * Value(a) + 0x1000 * Value(b) + 64 * Value(c) + Value(d);
    if c == PAD then [(0x4_0000 * Value(a) + 0x1000 * Value(b)) / 0x1_0000]
    else if d == PAD then [bits / 0x1_0000, bits / 0x100 % 0x100]
    else [bits / 0x1_0000, bits / 0x100 % 0x100, bits % 0x100]
  }

  /** The bytes of whole groups of four characters. */
  function Decode(s: string): seq<Byte>
    requires |s| % 4 == 0
  {
    if s == "" then [] else Decode(s[..|s| - 4]) + Quad(s[|s| - 4], s[|s| - 3], s[|s| - 2], s[|s| - 1])
  }

  /** What a position may hold: a letter, or '=' in the second half of a group. */
  predicate Fits(s: string, k: nat)
    requires k < |s|
  {
    IsLetter(s[k]) || (s[k] == PAD && k % 4 >= 2)
  }

  lemma LetterValue(v: nat)
    requires v < 64
    ensures IsLetter(Letter(v)) && Value(Letter(v)) == v && Letter(v) != PAD
  {
  }

  lemma Digits64(v0: nat, v1: nat, v2: nat, v3: nat, bits: nat)
    requires v0 < 64 && v1 < 64 && v2 < 64 && v3 < 64 && bits == 0x4_0000 * v0 + 0x1000 * v1 + 64 * v2 + v3
    ensures bits / 0x4_0000 == v0 && bits / 0x1000 % 64 == v1 && bits / 64 % 64 == v2 && bits % 64 == v3
  {
    assert bits / 64 == 0x1000 * v0 + 64 * v1 + v2;
    assert bits / 0x1000 == 64 * v0 + v1;
  }

  lemma Digits256(a: nat, b: nat, c: nat, bits: nat)
    requires a < 256 && b < 256 && c < 256 && bits == 0x1_0000 * a + 0x100 * b + c
    ensures bits / 0x1_0000 == a && bits / 0x100 % 0x100 == b && bits % 0x100 == c
  {
    assert bits / 0x100 == 0x100 * a + b;
  }

  /** Three bytes and four 6-bit values with the same bits. */
  lemma Regroup(a: nat, b: nat, c: nat, v0: nat, v1: nat, v2: nat, v3: nat)
    requires v0 == a / 4 && v1 == a % 4 * 16 + b / 16 && v2 == b % 16 * 4 + c / 64 && v3 == c % 64
    ensures 0x1_0000 * a + 0x100 * b + c == 0x4_0000 * v0 + 0x1000 * v1 + 64 * v2 + v3
  {
  }

  /** The letters of a group, as base64_encode takes the bits. */
  lemma GroupIs(a: Byte, b: Byte, c: Byte)
    ensures a / 4 < 64 && a % 4 * 16 + b / 16 < 64 && b % 16 * 4 + c / 64 < 64
    ensures Group(a, b, c) == [Letter(a / 4), Letter(a % 4 * 16 + b / 16), Letter(b % 16 * 4 + c / 64), Letter(c % 64)]
  {
    hide Letter;
    var v0, v1, v2, v3 := a / 4, a % 4 * 16 + b / 16, b % 16 * 4 + c / 64, c % 64;
    Regroup(a, b, c, v0, v1, v2, v3);
    Digits64(v0, v1, v2, v3, 0x1_0000 * (a as nat) + 0x100 * (b as nat) + c);
  }

  lemma {:induction false} QuadOfLetters(a: Byte, b: Byte, c: Byte, g: string)
    requires |g| == 4 && IsLetter(g[0]) && IsLetter(g[1]) && IsLetter(g[2]) && IsLetter(g[3])
    requires 0x4_0000 * Value(g[0]) + 0x1000 * Value(g[1]) + 64 * Value(g[2]) + Value(g[3]) == 0x1_0000 * (a as nat) + 0x100 * (b as nat) + c
    ensures Quad(g[0], g[1], g[2], g[3]) == [a, b, c]
    ensures Value(g[3]) == 0 && c == 0 ==> Quad(g[0], g[1], g[2], PAD) == [a, b]
    ensures Value(g[2]) == 0 && Value(g[3]) == 0 && b == 0 && c == 0 ==> Quad(g[0], g[1], PAD, PAD) == [a]
  {
    Digits256(a, b, c, 0x1_0000 * (a as nat) + 0x100 * (b as nat) + c);
    assert Value(PAD) == 0;
  }

  lemma SixBits(a: Byte, b: Byte, c: Byte, v0: nat, v1: nat, v2: nat, v3: nat)
    requires v0 == a / 4 && v1 == a % 4 * 16 + b / 16 && v2 == b % 16 * 4 + c / 64 && v3 == c % 64
    ensures v0 < 64 && v1 < 64 && v2 < 64 && v3 < 64
    ensures c == 0 ==> v3 == 0
    ensures b == 0 && c == 0 ==> v2 == 0
  {
  }

  lemma {:induction false} GroupValues(a: Byte, b: Byte, c: Byte)
    ensures var g := Group(a, b, c);
      && IsLetter(g[0]) && IsLetter(g[1]) && IsLetter(g[2]) && IsLetter(g[3])
      && 0x4_0000 * Value(g[0]) + 0x1000 * Value(g[1]) + 64 * Value(g[2]) + Value(g[3]) == 0x1_0000 * (a as nat) + 0x100 * (b as nat) + c
      && (c == 0 ==> Value(g[3]) == 0) && (b == 0 && c == 0 ==> Value(g[2]) == 0)
  {
    hide Group, Letter, Value, IsLetter;
    var v0, v1, v2, v3 := a / 4, a % 4 * 16 + b / 16, b % 16 * 4 + c / 64, c % 64;
    GroupIs(a, b, c);
    SixBits(a, b, c, v0, v1, v2, v3);
    Regroup(a, b, c, v0, v1, v2, v3);
    LetterValue(v0);
    LetterValue(v1);
    LetterValue(v2);
    LetterValue(v3);
  }

  lemma {:induction false} QuadOfGroup(a: Byte, b: Byte, c: Byte)
    ensures var g := Group(a, b, c); Quad(g[0], g[1], g[2], g[3]) == [a, b, c]
    ensures c == 0 ==> var g := Group(a, b, c); Quad(g[0], g[1], g[2], PAD) == [a, b]
    ensures b == 0 && c == 0 ==> var g := Group(a, b, c); Quad(g[0], g[1], PAD, PAD) == [a]
    ensures forall k :: 0 <= k < 4 ==> IsLetter(Group(a, b, c)[k])
  {
    hide Group, Value, Quad, IsLetter;
    GroupValues(a, b, c);
    QuadOfLetters(a, b, c, Group(a, b, c));
  }

  lemma {:induction false} DecodeGroupFirst(g: string, s: string)
    requires |g| == 4 && |s| % 4 == 0
    ensures Decode(g + s) == Quad(g[0], g[1], g[2], g[3]) + Decode(s)
    decreases |s|
  {
    hide Quad;
    if s == "" {
      assert g + s == g && g[..0] == "";
    } else {
      var n := |s| - 4;
      assert (g + s)[..n + 4] == g + s[..n];
      DecodeGroupFirst(g, s[..n]);
      assert Decode(s) == Decode(s[..n]) + Quad(s[n], s[n + 1], s[n + 2], s[n + 3]);
    }
  }

  lemma FitsGroup(g: string, s: string)
    requires |g| == 4 && (forall k :: 0 <= k < 4 ==> Fits(g, k)) && (forall k :: 0 <= k < |s| ==> Fits(s, k))
    ensures forall k :: 0 <= k < |g + s| ==> Fits(g + s, k)
  {
    forall k | 0 <= k < |g + s| ensures Fits(g + s, k) {
      if k < 4 { assert Fits(g, k); } else { assert Fits(s, k - 4); }
    }
  }

  lemma {:induction false} LastGroup(x: seq<Byte>)
    requires 1 <= |x| <= 2
    ensures |Encode(x)| == 4 && Decode(Encode(x)) == x && forall k :: 0 <= k < 4 ==> Fits(Encode(x), k)
  {
    hide Quad, Group, IsLetter;
    QuadOfGroup(x[0], if |x| == 1 then 0 else x[1], 0);
    DecodeGroupFirst(Encode(x), "");
    assert Encode(x) + "" == Encode(x);
  }

  /** Decoding inverts encoding, and every position of an encoding is acceptable. */
  lemma {:induction false} RoundTrip(x: seq<Byte>)
    ensures |Encode(x)| % 4 == 0 && Decode(Encode(x)) == x
    ensures forall k :: 0 <= k < |Encode(x)| ==> Fits(Encode(x), k)
  {
    hide Quad, Group, IsLetter;
    if |x| == 0 {
    } else if |x| < 3 {
      LastGroup(x);
    } else {
      var g, s := Group(x[0], x[1], x[2]), Encode(x[3..]);
      QuadOfGroup(x[0], x[1], x[2]);
      RoundTrip(x[3..]);
      DecodeGroupFirst(g, s);
      FitsGroup(g, s);
      assert x == [x[0], x[1], x[2]] + x[3..];
      assert Encode(x) == g + s;
    }
  }

  // ------------------------------------------------------------------
  // What the RFC says of particular letters and texts
  // ------------------------------------------------------------------

  /** Table 1 of section 4. */
  lemma {:induction false} Table1(v: nat)
    requires v < 16
    ensures var upper, both, lower, rest := "ABCDEFGHIJKLMNOP", "QRSTUVWXYZabcdef", "ghijklmnopqrstuv", "wxyz0123456789+/";
      Letter(v) == upper[v] && Letter(16 + v) == both[v] && Letter(32 + v) == lower[v] && Letter(48 + v) == rest[v]
  {
  }

  /** The test vectors of section 10, for "", "f", "fo", "foo" and "foobar". */
  lemma {:induction false} TestVectors()
    ensures Encode([]) == "" && Encode([102]) == "Zg==" && Encode([102, 111]) == "Zm8=" && Encode([102, 111, 111]) == "Zm9v"
    ensures Encode([102, 111, 111, 98, 97, 114]) == "Zm9vYmFy"
  {
    hide Group;
    GroupIs(102, 0, 0);
    GroupIs(102, 111, 0);
    GroupIs(102, 111, 111);
    GroupIs(98, 97, 114);
    assert Group(102, 0, 0) == "ZgAA" && Group(102, 111, 0) == "Zm8A" && Group(102, 111, 111) == "Zm9v" && Group(98, 97, 114) == "YmFy";
    assert [102, 111, 111][3..] == [];
    assert [102, 111, 111, 98, 97, 114][3..] == [98, 97, 114] && [98, 97, 114][3..] == [];
  }

  // ------------------------------------------------------------------
  // The code
  // ------------------------------------------------------------------

  /** b64reverse: 255 for '=', 254 for what is no letter. */
  function Reverse(letter: char): Byte {
    if 'A' <= letter <= 'Z' then (letter - 'A') as nat
    else if 'a' <= letter <= 'z' then (letter - 'a') as nat + 26
    else if '0' <= letter <= '9' then (letter - '0') as nat + 52
    else if letter == '+' then 62
    else if letter == '/' then 63
    else if letter == '=' then 255
    else 254
  }

  lemma ReverseIs(l: char)
    ensures Reverse(l) < 254 <==> IsLetter(l)
    ensures Reverse(l) == 255 <==> l == PAD
    ensures IsLetter(l) ==> Reverse(l) == Value(l)
  {
  }

  /** The three bytes the code computes from four values are those of the 24 bits. */
  lemma ShiftsAreBits(a: nat, b: nat, c: nat, d: nat)
    requires a < 64 && b < 64 && c < 64 && d < 64
    ensures var bits := 0x4_0000 * a + 0x1000 * b + 64 * c + d;
      && a * 4 + b / 16 == bits / 0x1_0000
      && (b * 16 + c / 4) % 256 == bits / 0x100 % 0x100
      && (c * 64 + d) % 256 == bits % 0x100
  {
    var x, y, z := a * 4 + b / 16, b % 16 * 16 + c / 4, c % 4 * 64 + d;
    assert (b * 16 + c / 4) % 256 == y;
    assert (c * 64 + d) % 256 == z;
    Digits256(x, y, z, 0x4_0000 * a + 0x1000 * b + 64 * c + d);
  }

  /** A character, or 0 past the end. */
  function At(src: string, i: nat): char {
    if i >= |src| then '\0' else src[i]
  }

  /** What four characters stand for, in the operations of the code. */
  lemma {:induction false} QuadIs(q: string)
    requires |q| == 4
    ensures var a, b, c, d := Value(q[0]), Value(q[1]), Value(q[2]), Value(q[3]);
      && a * 4 + b / 16 < 256
      && Quad(q[0], q[1], q[2], q[3]) ==
           if q[2] == PAD then [a * 4 + b / 16]
           else if q[3] == PAD then [a * 4 + b / 16, (b * 16 + c / 4) % 256]
           else [a * 4 + b / 16, (b * 16 + c / 4) % 256, (c * 64 + d) % 256]
  {
    hide Value;
    ShiftsAreBits(Value(q[0]), Value(q[1]), Value(q[2]), Value(q[3]));
    ShiftsAreBits(Value(q[0]), Value(q[1]), 0, 0);
  }

  /** What a group adds to the output. */
  method PutQuad(a: Byte, b: Byte, c: Byte, d: Byte, dst: array<Byte>, at: nat, ghost q: string) returns (dstLen: nat)
    requires at + 3 <= dst.Length && |q| == 4 && Reverse(q[0]) == a < 64 && Reverse(q[1]) == b < 64
    requires Reverse(q[2]) == c != 254 && Reverse(q[3]) == d != 254
    modifies dst
    ensures dstLen <= at + 3 && dst[..dstLen] == old(dst[..at]) + Quad(q[0], q[1], q[2], q[3])
  {
    hide Reverse, Value, IsLetter, Quad;
    ReverseIs(q[0]);
    ReverseIs(q[1]);
    ReverseIs(q[2]);
    ReverseIs(q[3]);
    ghost var before := dst[..at];
    QuadIs(q);
    dst[at] := a * 4 + b / 16;
    dstLen := at + 1;
    if c != 255 {
      dst[at + 1] := (b * 16 + c / 4) % 256;
      dstLen := at + 2;
      if d != 255 {
        dst[at + 2] := (c * 64 + d) % 256;
        dstLen := at + 3;
      }
    }
    assert dst[..at] == before;
  }

  lemma Room(g: nat, n: nat)
    requires 4 * g < n
    ensures 3 * g + 3 <= 3 * ((n + 3) / 4)
  {
  }

  lemma GroupStart(g: nat, k: nat)
    requires k < 4
    ensures (4 * g + k) % 4 == k && 4 * g / 4 == g
  {
  }

  lemma NulHasNoValue()
    ensures Reverse('\0') == 254
  {
  }

  /** The values of the four characters from src[4 * g] on, up to the first one that does not fit. */
  method ReadQuad(src: string, g: nat) returns (good: nat, a: Byte, b: Byte, c: Byte, d: Byte)
    requires 4 * g < |src|
    ensures good <= 4 && 4 * g + good <= |src| && forall k: nat :: 4 * g <= k < 4 * g + good ==> Fits(src, k)
    ensures good < 4 && 4 * g + good < |src| ==> !Fits(src, 4 * g + good)
    ensures good == 4 ==> a < 64 && b < 64 && c != 254 && d != 254
    ensures good == 4 ==> [a, b, c, d] == [Reverse(src[4 * g]), Reverse(src[4 * g + 1]), Reverse(src[4 * g + 2]), Reverse(src[4 * g + 3])]
  {
    hide Reverse, Value, IsLetter;
    var i := 4 * g;
    good, a, b, c, d := 0, 0, 0, 0, 0;
    NulHasNoValue();
    ReverseIs('\0');
    GroupStart(g, 0);
    GroupStart(g, 1);
    GroupStart(g, 2);
    GroupStart(g, 3);
    a := Reverse(src[i]);
    ReverseIs(src[i]);
    assert Fits(src, i) <==> a < 254;
    if a >= 254 {
      return;
    }
    good := 1;
    b := Reverse(At(src, i + 1));
    ReverseIs(At(src, i + 1));
    assert i + 1 < |src| ==> (Fits(src, i + 1) <==> b < 254);
    if b >= 254 {
      return;
    }
    good := 2;
    c := Reverse(At(src, i + 2));
    ReverseIs(At(src, i + 2));
    assert i + 2 < |src| ==> (Fits(src, i + 2) <==> c != 254);
    if c == 254 {
      return;
    }
    good := 3;
    d := Reverse(At(src, i + 3));
    ReverseIs(At(src, i + 3));
    assert i + 3 < |src| ==> (Fits(src, i + 3) <==> d != 254);
    if d == 254 {
      return;
    }
    good := 4;
  }

  /**
   base64_decode.  -1 if all of src could be decoded, else the first position that does not fit,
   which is src_len if src is merely too short; the groups before it are in dst.
   */
  method DecodeInto(src: string, dst: array<Byte>) returns (r: int, dstLen: nat)
    requires dst.Length >= 3 * ((|src| + 3) / 4)
    modifies dst
    ensures r == -1 <==> |src| % 4 == 0 && forall k :: 0 <= k < |src| ==> Fits(src, k)
    ensures r != -1 ==> 0 <= r <= |src| && (forall k :: 0 <= k < r ==> Fits(src, k)) && (if r < |src| then !Fits(src, r) else |src| % 4 != 0)
    ensures dstLen <= dst.Length && dst[..dstLen] == Decode(src[..if r == -1 then |src| else r - r % 4])
  {
    hide Reverse, Fits, Quad;
    dstLen := 0;
    var i: nat := 0;
    ghost var g: nat := 0;
    assert src[..0] == "";
    while i < |src|
      invariant i == 4 * g && i <= |src|
      invariant forall k :: 0 <= k < i ==> Fits(src, k)
      invariant dstLen <= 3 * g && dstLen <= dst.Length && dst[..dstLen] == Decode(src[..i])
    {
      Room(g, |src|);
      GroupStart(g, 0);
      var good, a, b, c, d := ReadQuad(src, i / 4);
      if good < 4 {
        GroupStart(g, good);
        return i + good, dstLen;
      }
      dstLen := PutQuad(a, b, c, d, dst, dstLen, src[i..i + 4]);
      assert src[..i + 4][..i] == src[..i];
      i, g := i + 4, g + 1;
    }
    assert src[..i] == src;
    GroupStart(g, 0);
    r := -1;
  }

  /** An encoding without its padding. */
  function Raw(x: seq<Byte>): string {
    if |x| == 0 then ""
    else if |x| == 1 then Group(x[0], 0, 0)[..2]
    else if |x| == 2 then Group(x[0], x[1], 0)[..3]
    else Group(x[0], x[1], x[2]) + Raw(x[3..])
  }

  function Pads(n: nat): string { seq(n, _ => PAD) }

  /** Padding up to a multiple of four gives the encoding. */
  lemma {:induction false} PaddedRaw(x: seq<Byte>, n: nat)
    requires n < 4 && (|Raw(x)| + n) % 4 == 0
    ensures Encode(x) == Raw(x) + Pads(n)
  {
    hide Group;
    if |x| >= 3 {
      PaddedRaw(x[3..], n);
    }
  }

  lemma {:induction false} RawLength(x: seq<Byte>)
    ensures |Raw(x)| <= 4 * ((|x| + 2) / 3) && 4 * ((|x| + 2) / 3) < |Raw(x)| + 4
  {
    hide Group;
    if |x| >= 3 {
      RawLength(x[3..]);
      assert |Raw(x)| == 4 + |Raw(x[3..])|;
    }
  }

  /** The bytes of a group, 0 past the end. */
  function ByteAt(src: seq<Byte>, i: nat): Byte { if i >= |src| then 0 else src[i] }

  function GroupAt(src: seq<Byte>, i: nat): (g: string)
    requires i < |src|
    ensures |g| == Min(|src| - i, 3) + 1
  {
    Group(src[i], ByteAt(src, i + 1), ByteAt(src, i + 2))[..Min(|src| - i, 3) + 1]
  }

  lemma RawFrom(src: seq<Byte>, i: nat)
    requires i < |src|
    ensures Raw(src[i..]) == GroupAt(src, i) + Raw(src[Min(i + 3, |src|)..])
  {
    hide Group;
    if i + 3 <= |src| { assert src[i..][3..] == src[i + 3..]; }
  }

  /** The letters for at most three bytes; how many depends on how many are left. */
  method PutGroup(src: seq<Byte>, i: nat, dst: array<char>, at: nat) returns (j: nat)
    requires i < |src| && at + Min(|src| - i, 3) + 1 <= dst.Length
    modifies dst
    ensures j == at + Min(|src| - i, 3) + 1
    ensures dst[..j] == old(dst[..at]) + GroupAt(src, i)
  {
    hide Letter, Group;
    var a: Byte := src[i];
    var b: Byte := if i + 1 >= |src| then 0 else src[i + 1];
    var c: Byte := if i + 2 >= |src| then 0 else src[i + 2];
    GroupIs(a, b, c);
    ghost var before, g := dst[..at], Group(a, b, c);
    j := at;
    dst[j], j := Letter(a / 4), j + 1;
    dst[j], j := Letter(a % 4 * 16 + b / 16), j + 1;
    if i + 1 < |src| {
      dst[j], j := Letter(b % 16 * 4 + c / 64), j + 1;
    }
    if i + 2 < |src| {
      dst[j], j := Letter(c % 64), j + 1;
    }
    assert dst[..at] == before;
  }

  lemma GroupFits(out: string, g: string, rest: string, raw: string)
    requires out + (g + rest) == raw
    ensures out + g + rest == raw && |out| + |g| <= |raw|
  {
  }

  lemma RawOfNothing(src: seq<Byte>)
    ensures Raw(src[|src|..]) == ""
  {
  }

  /** The first loop of base64_encode. */
  method PutGroups(src: seq<Byte>, dst: array<char>) returns (j: nat)
    requires dst.Length > 4 * ((|src| + 2) / 3)
    modifies dst
    ensures j == |Raw(src)| <= dst.Length && dst[..j] == Raw(src)
  {
    hide Raw, GroupAt;
    var i: nat := 0;
    j := 0;
    RawLength(src);
    ghost var raw := Raw(src);
    assert src[0..] == src;
    while i < |src|
      invariant j <= dst.Length && dst[..j] + Raw(src[Min(i, |src|)..]) == raw
    {
      ghost var g, rest := GroupAt(src, i), Raw(src[Min(i + 3, |src|)..]);
      RawFrom(src, i);
      GroupFits(dst[..j], g, rest, raw);
      j := PutGroup(src, i, dst, j);
      i := i + 3;
    }
    RawOfNothing(src);
    assert dst[..j] + "" == dst[..j];
  }

  /** base64_encode, with the NUL behind the text. */
  method EncodeInto(src: seq<Byte>, dst: array<char>)
    requires dst.Length > 4 * ((|src| + 2) / 3)
    modifies dst
    ensures dst[..4 * ((|src| + 2) / 3)] == Encode(src) && dst[4 * ((|src| + 2) / 3)] == '\0'
  {
    hide Raw, Encode;
    RawLength(src);
    EncodedLength(src);
    ghost var raw, all := Raw(src), 4 * ((|src| + 2) / 3);
    var j := PutGroups(src, dst);
    while j % 4 != 0
      invariant |raw| <= j <= all && dst[..j] == raw + Pads(j - |raw|)
      decreases all - j
    {
      dst[j] := '=';
      j := j + 1;
    }
    PaddedRaw(src, j - |raw|);
    dst[j] := '\0';
  }

  /** Decoding what was encoded: -1, and the same bytes. */
  method EncodeThenDecode(x: seq<Byte>) returns (r: int, out: seq<Byte>)
    ensures r == -1 && out == x
  {
    var n := 4 * ((|x| + 2) / 3);
    var text := new char[n + 1](_ => ' ');
    EncodeInto(x, text);
    RoundTrip(x);
    var dst := new Byte[3 * ((n + 3) / 4)](_ => 0);
    var dstLen;
    r, dstLen := DecodeInto(text[..n], dst);
    out := dst[..dstLen];
    assert text[..n][..n] == Encode(x);
  }
}
