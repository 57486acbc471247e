/** urlDecodeRewite of amiproc/http.cpp: percent-decoding that overwrites its own input. */
module UrlDecode {
  import opened CStrings

  predicate IsHex(c: char) { '0' <= c <= '9' || 'a' <= c <= 'f' || 'A' <= c <= 'F' }

  function HexValue(c: char): (v: nat)
    requires IsHex(c)
    ensures v < 16
  {
    if c <= '9' then (c - '0') as nat else if 'a' <= c then (c - 'a') as nat + 10 else (c - 'A') as nat + 10
  }

  /** The character of two hexadecimal digits. */
  function Octet(h: char, l: char): char
    requires IsHex(h) && IsHex(l)
  {
    (16 * HexValue(h) + HexValue(l)) as char
  }

  // ------------------------------------------------------------------
  // RFC 3986, section 2.1
  // ------------------------------------------------------------------

  /** Every '%' is followed by two hexadecimal digits. */
  predicate WellFormed(s: string) {
    if s == "" then true
    else if s[0] == '%' then |s| >= 3 && IsHex(s[1]) && IsHex(s[2]) && WellFormed(s[3..])
    else WellFormed(s[1..])
  }

  /** A decoder that reads one string and writes another.  It copies a '%' without two digits, and
      ends before one that is too near the end to have them. */
  function Plain(s: string): string {
    if s == "" || (s[0] == '%' && |s| < 3) then ""
    else if s[0] == '%' && IsHex(s[1]) && IsHex(s[2]) then [Octet(s[1], s[2])] + Plain(s[3..])
    else [s[0]] + Plain(s[1..])
  }

  /** Section 2.1: the upper-case and the lower-case digits are equivalent. */
  function Digit(v: nat, lower: bool): char
    requires v < 16
  {
    if lower then "0123456789abcdef"[v] else "0123456789ABCDEF"[v]
  }

  lemma OnlyDigitsAreHex(c: char)
    ensures IsHex(c) <==> c in "0123456789abcdefABCDEF"
  {
  }

  predicate Octets(x: string) {
    forall i :: 0 <= i < |x| ==> x[i] as nat < 256
  }

  /**
   Percent-encoding of the octets of x that are not kept as they are; '%' never is.  Either digit
   may be in lower case.
   */
  function Encode(x: string, keep: set<char>, high: bool, low: bool): string
    requires Octets(x)
  {
    if x == "" then ""
    else if x[0] in keep && x[0] != '%' then [x[0]] + Encode(x[1..], keep, high, low)
    else ['%', Digit(x[0] as nat / 16, high), Digit(x[0] as nat % 16, low)] + Encode(x[1..], keep, high, low)
  }

  /** Both cases of a digit have its value. */
  lemma DigitValue(v: nat, lower: bool)
    requires v < 16
    ensures IsHex(Digit(v, lower)) && HexValue(Digit(v, lower)) == v && Digit(v, lower) !in {NUL, '?', '%', ' ', '\r', '\n'}
  {
  }

  lemma {:induction false} DecodeOfEncode(x: string, keep: set<char>, high: bool, low: bool)
    requires Octets(x)
    ensures WellFormed(Encode(x, keep, high, low)) && Plain(Encode(x, keep, high, low)) == x
  {
    if x != "" {
      var e := Encode(x[1..], keep, high, low);
      DecodeOfEncode(x[1..], keep, high, low);
      if x[0] in keep && x[0] != '%' {
        assert ([x[0]] + e)[1..] == e;
      } else {
        var h, l := x[0] as nat / 16, x[0] as nat % 16;
        DigitValue(h, high);
        DigitValue(l, low);
        assert (['%', Digit(h, high), Digit(l, low)] + e)[3..] == e;
      }
    }
  }

  /** A character that is not kept does not occur in the encoding, unless it is a digit or the '%'. */
  lemma {:induction false} EncodeAvoids(x: string, keep: set<char>, high: bool, low: bool, c: char)
    requires Octets(x) && c !in keep && c in {NUL, '?', ' ', '\r', '\n'}
    ensures c !in Encode(x, keep, high, low)
  {
    if x != "" {
      EncodeAvoids(x[1..], keep, high, low, c);
      DigitValue(x[0] as nat / 16, high);
      DigitValue(x[0] as nat % 16, low);
    }
  }

  /** What follows a well-formed string is decoded on its own. */
  lemma {:induction false} PlainCompose(x: string, y: string)
    requires WellFormed(x)
    ensures Plain(x + y) == Plain(x) + Plain(y)
  {
    if x == "" {
      assert x + y == y;
    } else {
      var k := if x[0] == '%' then 3 else 1;
      assert (x + y)[k..] == x[k..] + y;
      PlainCompose(x[k..], y);
    }
  }

  /** A '%' that ends the string, alone or with one more character, is dropped with it. */
  lemma {:induction false} TruncatedEscape(x: string, c: char)
    requires WellFormed(x)
    ensures Plain(x + "%") == Plain(x + ['%', c]) == Plain(x)
  {
    PlainCompose(x, "%");
    PlainCompose(x, ['%', c]);
    assert Plain("%") == Plain(['%', c]) == "";
  }

  /** A '%' in front of two characters that are not both digits stays as it is. */
  lemma {:induction false} MalformedEscape(x: string, c: char, d: char, y: string)
    requires WellFormed(x) && !(IsHex(c) && IsHex(d))
    ensures Plain(x + ['%', c, d] + y) == Plain(x) + ['%'] + Plain([c, d] + y)
  {
    var z := ['%', c, d] + y;
    assert z[1..] == [c, d] + y;
    assert x + ['%', c, d] + y == x + z;
    PlainCompose(x, z);
  }

  // ------------------------------------------------------------------
  // The code
  // ------------------------------------------------------------------

  /** A '%' too near the end stops the loop. */
  predicate Stops(s: string, i: nat)
    requires i < |s|
  {
    s[i] == '%' && i + 2 >= |s|
  }

  predicate Escape(s: string, i: nat)
    requires i < |s|
  {
    s[i] == '%' && i + 2 < |s| && IsHex(s[i + 1]) && IsHex(s[i + 2])
  }

  /**
   The character that ends up at write index j for read index i.  A '%' without two digits leaves
   the one that was there.
   */
  function Emitted(s: string, i: nat, j: nat): char
    requires j <= i < |s|
  {
    if Escape(s, i) then Octet(s[i + 1], s[i + 2]) else if s[i] == '%' then s[j] else s[i]
  }

  /** What the loop writes from read index i and write index j on. */
  function Rewritten(s: string, i: nat, j: nat): string
    requires j <= i <= |s|
    decreases |s| - i
  {
    if i == |s| || Stops(s, i) then ""
    else [Emitted(s, i, j)] + Rewritten(s, if Escape(s, i) then i + 3 else i + 1, j + 1)
  }

  lemma {:induction false} RewrittenLength(s: string, i: nat, j: nat)
    requires j <= i <= |s|
    ensures |Rewritten(s, i, j)| <= |s| - i
    decreases |s| - i
  {
    if i < |s| && !Stops(s, i) {
      RewrittenLength(s, if Escape(s, i) then i + 3 else i + 1, j + 1);
    }
  }

  /**
   From read index i and write index j on, every '%' without two digits that is reached comes to
   stand where the input has a '%' as well.  The write index is the read index less two for each
   escape before it.
   */
  predicate Undisturbed(s: string, i: nat, j: nat)
    requires j <= i <= |s|
    decreases |s| - i
  {
    i == |s| || Stops(s, i) ||
    (if Escape(s, i) then Undisturbed(s, i + 3, j + 1)
     else (s[i] == '%' ==> s[j] == '%') && Undisturbed(s, i + 1, j + 1))
  }

  /** Overwriting the input does no harm exactly then. */
  lemma {:induction false} RewrittenIsPlainExactly(s: string, i: nat, j: nat)
    requires j <= i <= |s|
    ensures |Rewritten(s, i, j)| == |Plain(s[i..])|
    ensures Rewritten(s, i, j) == Plain(s[i..]) <==> Undisturbed(s, i, j)
    decreases |s| - i
  {
    if i < |s| && !Stops(s, i) {
      var next := if Escape(s, i) then i + 3 else i + 1;
      var c := if Escape(s, i) then Octet(s[i + 1], s[i + 2]) else s[i];
      assert s[i..][next - i..] == s[next..];
      assert Plain(s[i..]) == [c] + Plain(s[next..]);
      RewrittenIsPlainExactly(s, next, j + 1);
      SameRest(Emitted(s, i, j), Rewritten(s, next, j + 1), c, Plain(s[next..]));
    }
  }

  lemma SameRest(a: char, x: string, b: char, y: string)
    ensures [a] + x == [b] + y <==> a == b && x == y
  {
    assert ([a] + x)[0] == a && ([b] + y)[0] == b && ([a] + x)[1..] == x && ([b] + y)[1..] == y;
  }

  lemma {:induction false} WellFormedIsUndisturbed(s: string, i: nat, j: nat)
    requires j <= i <= |s| && WellFormed(s[i..])
    ensures Undisturbed(s, i, j)
    decreases |s| - i
  {
    if i < |s| {
      if s[i] == '%' {
        assert s[i..][3..] == s[i + 3..];
        WellFormedIsUndisturbed(s, i + 3, j + 1);
      } else {
        assert s[i..][1..] == s[i + 1..];
        WellFormedIsUndisturbed(s, i + 1, j + 1);
      }
    }
  }

  /** Up to the first escape the two indices are the same, so nothing is disturbed. */
  lemma {:induction false} NoEscapeIsUndisturbed(s: string, i: nat)
    requires i <= |s| && forall k :: i <= k < |s| ==> !Escape(s, k)
    ensures Undisturbed(s, i, i)
    decreases |s| - i
  {
    if i < |s| { NoEscapeIsUndisturbed(s, i + 1); }
  }

  /** On a well-formed string overwriting the input does no harm. */
  lemma RewrittenIsPlain(s: string)
    requires WellFormed(s)
    ensures Rewritten(s, 0, 0) == Plain(s)
  {
    assert s[0..] == s;
    WellFormedIsUndisturbed(s, 0, 0);
    RewrittenIsPlainExactly(s, 0, 0);
  }

  /** After an escape a malformed '%' is replaced by an older character. */
  lemma {:induction false} MalformedAfterEscape()
    ensures Rewritten("%41%zz", 0, 0) == "A4zz" && Plain("%41%zz") == "A%zz" && !Undisturbed("%41%zz", 0, 0)
  {
    var s := "%41%zz";
    assert Rewritten(s, 6, 4) == "";
    assert Rewritten(s, 5, 3) == "z";
    assert Rewritten(s, 4, 2) == "zz";
    assert Rewritten(s, 3, 1) == "4zz";
    assert s[3..] == "%zz";
    assert "%zz"[1..] == "zz" && "zz"[1..] == "z";
    assert Plain("zz") == "zz";
    assert Plain("%zz") == "%zz";
    assert !Undisturbed(s, 3, 1);
  }

  /** The string at a[at] is decoded in place; the write index never passes the read index. */
  method RewriteInPlace(a: array<char>, at: nat, ghost s: string)
    requires IsString(a[..], at, s)
    modifies a
    ensures var d := Rewritten(s, 0, 0); |d| <= |s| && a[at..at + |d|] == d && a[at + |d|] == NUL
    ensures a[..at] == old(a[..at]) && a[at + |s|..] == old(a[at + |s|..])
    ensures |Plain(s)| <= |s| && (a[at..at + |Plain(s)|] == Plain(s) <==> Undisturbed(s, 0, 0))
    ensures Undisturbed(s, 0, 0) && NUL !in Plain(s) ==> IsString(a[..], at, Plain(s))
    ensures WellFormed(s) ==> Undisturbed(s, 0, 0)
  {
    hide Rewritten, WellFormed, Plain, Undisturbed;
    RewrittenLength(s, 0, 0);
    assert s[0..] == s;
    RewrittenIsPlainExactly(s, 0, 0);
    var len := Length(a, at, s);
    var j := RewriteLoop(a, at, len, s);
    a[at + j] := NUL;
    if WellFormed(s) { WellFormedIsUndisturbed(s, 0, 0); }
  }

  /** From the write index on the buffer still holds the input. */
  ghost predicate Unread(a: string, at: nat, j: nat, s: string) {
    && at + |s| < |a| && a[at + |s|] == NUL && NUL !in s
    && forall p :: at + j <= p < at + |s| ==> a[p] == s[p - at]
  }

  /** Before it is the beginning of the result. */
  ghost predicate Written(a: string, at: nat, j: nat, result: string, rest: string) {
    at + j <= |a| && a[at..at + j] + rest == result
  }

  lemma UnreadAt(a: string, at: nat, j: nat, s: string, i: nat)
    requires Unread(a, at, j, s) && j <= i < |s|
    ensures at + i + 1 < |a| && a[at + i] == s[i] && a[at + j] == s[j]
    ensures if i + 1 < |s| then a[at + i + 1] == s[i + 1] && at + i + 2 < |a| else a[at + i + 1] == NUL
    ensures i + 2 < |s| ==> a[at + i + 2] == s[i + 2]
    ensures i + 2 == |s| ==> a[at + i + 2] == NUL
    ensures forall k :: 0 <= k < |s| ==> s[k] != NUL
  {
    assert forall k :: 0 <= k < |s| ==> s[k] in s;
  }

  lemma UnreadMore(a: string, b: string, at: nat, j: nat, s: string)
    requires Unread(a, at, j, s) && |b| == |a| && forall p :: at + j < p < |a| ==> b[p] == a[p]
    requires j < |s|
    ensures Unread(b, at, j + 1, s)
  {
  }

  lemma WrittenMore(a: string, b: string, at: nat, j: nat, result: string, rest: string)
    requires at + j < |b| && Written(a, at, j, result, [b[at + j]] + rest)
    requires |b| == |a| && forall p :: 0 <= p < at + j ==> b[p] == a[p]
    ensures Written(b, at, j + 1, result, rest)
  {
    assert a[at..at + j] == b[at..at + j];
    assert b[at..at + j + 1] == b[at..at + j] + [b[at + j]];
    OneMore(b[at..at + j], b[at + j], rest);
  }

  /** The body of the loop, unless it stops. */
  method RewriteOne(a: array<char>, at: nat, i: nat, j: nat, ghost s: string) returns (next: nat)
    requires j <= i < |s| && Unread(a[..], at, j, s) && !Stops(s, i)
    modifies a
    ensures next == (if Escape(s, i) then i + 3 else i + 1) && a[at + j] == Emitted(s, i, j)
    ensures forall p :: 0 <= p < a.Length && p != at + j ==> a[p] == old(a[p])
  {
    UnreadAt(a[..], at, j, s, i);
    next := i + 1;
    if a[at + i] == '%' {
      if IsHex(a[at + i + 1]) && IsHex(a[at + i + 2]) {
        a[at + j] := Octet(a[at + i + 1], a[at + i + 2]);
        next := i + 3;
      }
    } else if j < i {
      a[at + j] := a[at + i];
    }
  }

  /** What makes the loop break. */
  method AtStop(a: array<char>, at: nat, i: nat, ghost j: nat, ghost s: string) returns (b: bool)
    requires j <= i < |s| && Unread(a[..], at, j, s)
    ensures b <==> Stops(s, i)
  {
    UnreadAt(a[..], at, j, s, i);
    b := a[at + i] == '%' && (a[at + i + 1] == NUL || a[at + i + 2] == NUL);
  }

  method RewriteLoop(a: array<char>, at: nat, len: nat, ghost s: string) returns (j: nat)
    requires IsString(a[..], at, s) && len == |s|
    modifies a
    ensures j == |Rewritten(s, 0, 0)| <= len && a[at..at + j] == Rewritten(s, 0, 0)
    ensures a[..at] == old(a[..at]) && a[at + len..] == old(a[at + len..])
  {
    hide Emitted, Escape, Rewritten, Written, Unread, Stops;
    ghost var d := Rewritten(s, 0, 0);
    Start(a[..], at, s, d);
    RewrittenLength(s, 0, 0);
    var i: nat := 0;
    j := 0;
    while i < len
      invariant j <= i <= len && Unread(a[..], at, j, s) && Written(a[..], at, j, d, Rewritten(s, i, j))
      invariant forall p :: 0 <= p < a.Length && !(at <= p < at + j) ==> a[p] == old(a[p])
      decreases len - i
    {
      RewrittenStep(s, i, j);
      var stop := AtStop(a, at, i, j, s);
      if stop {
        break;
      }
      ghost var was := a[..];
      EscapeFits(s, i);
      i := RewriteOne(a, at, i, j, s);
      WrittenMore(was, a[..], at, j, d, Rewritten(s, i, j + 1));
      UnreadMore(was, a[..], at, j, s);
      j := j + 1;
    }
    if i == len { RewrittenEnd(s, j); }
    End(a[..], at, j, d);
  }

  lemma Start(a: string, at: nat, s: string, d: string)
    requires IsString(a, at, s)
    ensures Unread(a, at, 0, s) && Written(a, at, 0, d, d)
  {
    assert forall p :: at <= p < at + |s| ==> a[p] == a[at..at + |s|][p - at] == s[p - at];
  }

  lemma End(a: string, at: nat, j: nat, d: string)
    requires Written(a, at, j, d, "")
    ensures at + j <= |a| && a[at..at + j] == d
  {
    assert a[at..at + j] + "" == a[at..at + j];
  }

  lemma RewrittenStep(s: string, i: nat, j: nat)
    requires j <= i < |s|
    ensures Rewritten(s, i, j) == if Stops(s, i) then "" else [Emitted(s, i, j)] + Rewritten(s, if Escape(s, i) then i + 3 else i + 1, j + 1)
  {
  }

  lemma RewrittenEnd(s: string, j: nat)
    requires j <= |s|
    ensures Rewritten(s, |s|, j) == ""
  {
  }

  lemma EscapeFits(s: string, i: nat)
    requires i < |s|
    ensures Escape(s, i) ==> i + 3 <= |s|
  {
  }
}
