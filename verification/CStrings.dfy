/** NUL-terminated strings in character buffers. */
module CStrings {
  const NUL: char := '\0'

  /** s is the string that starts at a[at]. */
  ghost predicate IsString(a: seq<char>, at: nat, s: string) {
    at + |s| < |a| && a[at..at + |s|] == s && a[at + |s|] == NUL && NUL !in s
  }

  /** One more character of a result that is written front to back. */
  lemma OneMore(out: string, c: char, rest: string)
    ensures out + ([c] + rest) == out + [c] + rest
  {
  }

  // ------------------------------------------------------------------
  // Splitting a string in place
  // ------------------------------------------------------------------

  lemma StringFits(a: string, at: nat, s: string)
    requires IsString(a, at, s)
    ensures at + |s| < |a|
  {
  }

  lemma StringKept(a: string, b: string, at: nat, s: string)
    requires IsString(a, at, s) && |b| == |a| && forall q :: at <= q <= at + |s| ==> b[q] == a[q]
    ensures IsString(b, at, s)
  {
    assert a[at..at + |s|] == b[at..at + |s|];
  }

  /** A NUL in the middle makes two strings of one. */
  lemma CutString(a: string, at: nat, s: string, k: nat)
    requires IsString(a, at, s) && k < |s|
    ensures IsString(a[at + k := NUL], at, s[..k]) && IsString(a[at + k := NUL], at + k + 1, s[k + 1..])
  {
    var b := a[at + k := NUL];
    assert forall q :: at <= q < at + |s| ==> a[q] == a[at..at + |s|][q - at] == s[q - at];
    assert b[at..at + k] == s[..k];
    assert b[at + k + 1..at + |s|] == s[k + 1..];
    assert forall x :: x in s[..k] || x in s[k + 1..] ==> x in s;
  }

  /** From lo on the buffer still holds s and its NUL. */
  ghost predicate Unread(a: string, lo: nat, s: string) {
    |s| < |a| && a[|s|] == NUL && forall q :: lo <= q < |s| ==> a[q] == s[q]
  }

  /** The string t at a[at], with its NUL in front of position hi. */
  ghost predicate Holds(a: string, hi: nat, at: nat, t: string) {
    at + |t| < hi <= |a| && IsString(a, at, t)
  }

  lemma HoldsKept(a: string, b: string, hi: nat, hi': nat, at: nat, t: string)
    requires Holds(a, hi, at, t) && hi <= hi' <= |b| && |b| == |a| && forall q :: at <= q < hi ==> b[q] == a[q]
    ensures Holds(b, hi', at, t)
  {
    assert a[at..at + |t|] == b[at..at + |t|];
  }

  /** Writing a NUL behind s[at..p] makes it a string. */
  lemma Terminated(a: string, b: string, s: string, at: nat, p: nat)
    requires Unread(a, at, s) && at <= p < |s| && NUL !in s && |b| == |a| && b[p] == NUL && forall q :: 0 <= q < p ==> b[q] == a[q]
    ensures Holds(b, p + 1, at, s[at..p])
  {
    assert b[at..p] == s[at..p];
    assert forall c :: c in s[at..p] ==> c in s;
  }

  lemma UnreadLater(a: string, b: string, lo: nat, lo': nat, s: string)
    requires Unread(a, lo, s) && lo <= lo' && |b| == |a| && forall q :: lo' <= q < |a| ==> b[q] == a[q]
    requires lo' <= |s|
    ensures Unread(b, lo', s)
  {
  }

  // ------------------------------------------------------------------
  // The C library
  // ------------------------------------------------------------------

  /** strchr: the index of the first c, or |s|. */
  function IndexOf(s: string, c: char): (k: nat)
    ensures k <= |s| && (k < |s| ==> s[k] == c) && forall j :: 0 <= j < k ==> s[j] != c
  {
    if s == "" || s[0] == c then 0 else 1 + IndexOf(s[1..], c)
  }

  lemma {:induction false} IndexOfFirst(s: string, c: char, t: string)
    requires c !in s
    ensures IndexOf(s + [c] + t, c) == |s|
  {
    assert (s + [c] + t)[|s|] == c;
    forall j | 0 <= j < |s| ensures (s + [c] + t)[j] != c { assert s[j] in s; }
  }

  lemma {:induction false} IndexOfNone(s: string, c: char)
    requires c !in s
    ensures IndexOf(s, c) == |s|
  {
    forall j | 0 <= j < |s| ensures s[j] != c { assert s[j] in s; }
  }

  /** strlen of the string at a[at]. */
  method Length(a: array<char>, at: nat, ghost s: string) returns (len: nat)
    requires IsString(a[..], at, s)
    ensures len == |s|
  {
    assert forall p :: at <= p < at + |s| ==> a[p] == a[at..at + |s|][p - at] == s[p - at] && s[p - at] in s;
    len := 0;
    while a[at + len] != NUL
      invariant 0 <= len <= |s|
      decreases |s| - len
    {
      len := len + 1;
    }
  }

  /** The string at a[at] as a value. */
  method Take(a: array<char>, at: nat, ghost s: string) returns (t: string)
    requires IsString(a[..], at, s)
    ensures t == s
  {
    var len := Length(a, at, s);
    t := a[at..at + len];
  }
}
