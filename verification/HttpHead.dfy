/** The request head parser of amiproc/http.cpp, which splits the head in place with NULs. */
module HttpHead {
  import opened CStrings
  import opened Wrappers

  const EOL: string := ['\r', '\n']

  // ------------------------------------------------------------------
  // The request line
  // ------------------------------------------------------------------

  /** HTTP/1.0 or HTTP/1.1 */
  predicate Supported(rest: string) {
    |rest| >= 8 && rest[..5] == "HTTP/" && (rest[5..8] == "1.0" || rest[5..8] == "1.1")
  }

  /** memcmp(&a[at], t, |t|) == 0 */
  method Same(a: array<char>, at: nat, t: string) returns (b: bool)
    requires at + |t| <= a.Length
    ensures b <==> a[at..at + |t|] == t
  {
    var i := 0;
    while i < |t|
      invariant 0 <= i <= |t| && forall k :: 0 <= k < i ==> a[at..at + |t|][k] == t[k]
    {
      if a[at + i] != t[i] {
        assert a[at..at + |t|][i] != t[i];
        return false;
      }
      i := i + 1;
    }
    b := true;
  }

  function Line(m: string, u: string, rest: string): string {
    m + ([' '] + (u + ([' '] + rest)))
  }

  /** Where things are in a request line. */
  lemma Layout(m: string, u: string, rest: string)
    ensures var t := Line(m, u, rest); var src := |m| + |u| + 2;
      && |t| == src + |rest| && t[..|m|] == m && t[|m|] == ' ' && t[|m| + 1..src - 1] == u && t[src - 1] == ' ' && t[src..] == rest
  {
    assert Line(m, u, rest) == m + [' '] + u + [' '] + rest;
  }

  /** Exactly these two versions of exactly this protocol. */
  lemma {:induction false} SupportedExactly(name: string, version: string, more: string)
    requires |name| == 5 && |version| == 3
    ensures Supported(name + version + more) <==> name == "HTTP/" && version in {"1.0", "1.1"}
  {
    var rest := name + version + more;
    assert rest[..5] == name && rest[5..8] == version;
  }

  lemma SupportedIs(a: string, src: nat, rest: string)
    requires IsString(a, src, rest) && src + 8 <= |a|
    ensures Supported(rest) <==> a[src..src + 5] == "HTTP/" && (a[src + 5..src + 8] == "1.0" || a[src + 5..src + 8] == "1.1")
  {
    var got := a[src..src + |rest|];
    assert forall k :: 0 <= k < |rest| ==> rest[k] == got[k] == a[src + k];
    if |rest| >= 8 {
      assert rest[..5] == a[src..src + 5];
      forall k | 0 <= k < 3 ensures rest[5..8][k] == a[src + 5..src + 8][k] { assert rest[5 + k] == a[src + (5 + k)]; }
      assert rest[5..8] == a[src + 5..src + 8];
    } else if |rest| < 5 {
      assert a[src..src + 5][|rest|] == NUL;
    } else {
      assert a[src + 5..src + 8][|rest| - 5] == NUL;
    }
  }

  /** The version, and the end of its line. */
  method Version(a: array<char>, src: nat, ghost rest: string) returns (supported: bool, version: nat, next: nat)
    requires IsString(a[..], src, rest) && src + 8 <= a.Length
    requires Supported(rest) ==> |rest| >= 9 && '\n' in rest[9..]
    modifies a
    ensures supported <==> Supported(rest)
    ensures supported ==> version == src + 5 && next == src + 10 + IndexOf(rest[9..], '\n') && IsString(a[..], src, rest[..8])
    ensures forall k :: 0 <= k < a.Length && k != src + 8 ==> a[k] == old(a[k])
  {
    SupportedIs(a[..], src, rest);
    assert a[..][src..src + 5] == a[src..src + 5] && a[..][src + 5..src + 8] == a[src + 5..src + 8];
    supported, version, next := false, 0, 0;
    var http := Same(a, src, "HTTP/");
    var v0 := Same(a, src + 5, "1.0");
    var v1 := Same(a, src + 5, "1.1");
    if !http || (!v0 && !v1) {
      return;
    }
    supported, version := true, src + 5;
    ghost var before := a[..];
    LineFeedAt(before, src, rest);
    a[src + 8] := NUL;
    var url := FindLineFeed(a, src + 8, src + 9 + IndexOf(rest[9..], '\n'));
    next := url + 1;
    CutAt8(before, a[..], src, rest);
  }

  lemma CutAt8(a: string, b: string, src: nat, rest: string)
    requires IsString(a, src, rest) && |rest| >= 9 && |b| == |a| && b[src + 8] == NUL
    requires forall k :: 0 <= k < src + 8 ==> b[k] == a[k]
    ensures IsString(b, src, rest[..8])
  {
    assert forall k :: src <= k < src + |rest| ==> a[k] == a[src..src + |rest|][k - src] == rest[k - src];
    assert b[src..src + 8] == rest[..8];
    assert forall c :: c in rest[..8] ==> c in rest;
  }

  lemma LineFeedAt(a: string, src: nat, rest: string)
    requires IsString(a, src, rest) && |rest| >= 9 && '\n' in rest[9..]
    ensures var e := src + 9 + IndexOf(rest[9..], '\n'); e < |a| && a[e] == '\n' && forall k :: src + 9 <= k < e ==> a[k] != '\n'
  {
    var line := rest[9..];
    var e := IndexOf(line, '\n');
    assert forall k :: src <= k < src + |rest| ==> a[k] == a[src..src + |rest|][k - src] == rest[k - src];
    assert forall k :: src + 9 <= k < src + |rest| ==> a[k] == line[k - (src + 9)];
  }

  /** while (*url != '\n') url++ */
  method FindLineFeed(a: array<char>, from: nat, ghost at: nat) returns (url: nat)
    requires from <= at < a.Length && a[at] == '\n' && forall k :: from <= k < at ==> a[k] != '\n'
    ensures url == at
  {
    url := from;
    while a[url] != '\n'
      invariant from <= url <= at
      decreases at - url
    {
      url := url + 1;
    }
  }

  /**
   The first loop: method and URI up to a space each, then the version.  505 if the version is
   not supported; else `next` is behind the line.
   */
  method RequestLine(a: array<char>, ghost m: string, ghost u: string, ghost rest: string)
      returns (supported: bool, verbAt: nat, uri: nat, version: nat, next: nat)
    requires IsString(a[..], 0, Line(m, u, rest)) && ' ' !in m && ' ' !in u && rest != ""
    requires |m| + |u| + 10 <= a.Length
    requires Supported(rest) ==> |rest| >= 9 && '\n' in rest[9..]
    modifies a
    ensures supported <==> Supported(rest)
    ensures supported ==>
      && verbAt == 0 && uri == |m| + 1 && version == |m| + |u| + 7 && next == |m| + |u| + 12 + IndexOf(rest[9..], '\n')
      && IsString(a[..], verbAt, m) && IsString(a[..], uri, u) && IsString(a[..], version - 5, rest[..8])
      && forall k :: version + 4 <= k < a.Length ==> a[k] == old(a[k])
  {
    hide Unread, Holds, Line, Supported, IndexOf, IsString;
    ghost var t, was, vsrc := Line(m, u, rest), a[..], |m| + |u| + 2;
    StartLine(was, m, u, rest);
    supported, verbAt, uri, version, next := false, 0, 0, 0, 0;
    var url, src := 0, 0;
    var haveMethod, haveUri := false, false;
    LineNotOver(was, 0, 0, m, u, rest);
    while a[url] != NUL
      invariant 0 <= src <= url <= vsrc <= |t| < a.Length && Unread(a[..], src, t)
      invariant if !haveMethod then src == 0 && url <= |m| && !haveUri
                else if !haveUri then src == |m| + 1 && url < vsrc
                else src == url == vsrc && uri == |m| + 1
      invariant haveMethod ==> verbAt == 0 && Holds(a[..], src, 0, m)
      invariant haveUri ==> Holds(a[..], src, |m| + 1, u)
      invariant forall k :: url <= k < a.Length ==> a[k] == was[k]
      invariant a[url] != NUL
      decreases |t| - url
    {
      ghost var before := a[..];
      WhereSpacesAre(before, src, url, m, u, rest);
      if !haveMethod {
        if a[url] == ' ' {
          EndWord(a, t, src, url);
          verbAt, haveMethod, src := src, true, url + 1;
        }
      } else if !haveUri {
        if a[url] == ' ' {
          EndWord(a, t, src, url);
          HoldsKept(before, a[..], src, url + 1, 0, m);
          uri, haveUri, src := src, true, url + 1;
        }
      } else {
        supported, version, next := VersionPart(a, src, t, m, u, rest);
        return;
      }
      url := url + 1;
      LineNotOver(a[..], src, url, m, u, rest);
    }
    assert false;
  }

  method VersionPart(a: array<char>, src: nat, ghost t: string, ghost m: string, ghost u: string, ghost rest: string)
      returns (supported: bool, version: nat, next: nat)
    requires Unread(a[..], src, t) && NUL !in t && src == |m| + |u| + 2 <= |t| && t[src..] == rest && src + 8 <= a.Length
    requires Holds(a[..], src, 0, m) && Holds(a[..], src, |m| + 1, u)
    requires Supported(rest) ==> |rest| >= 9 && '\n' in rest[9..]
    modifies a
    ensures supported <==> Supported(rest)
    ensures supported ==>
      && version == src + 5 && next == src + 10 + IndexOf(rest[9..], '\n')
      && IsString(a[..], 0, m) && IsString(a[..], |m| + 1, u) && IsString(a[..], src, rest[..8])
    ensures forall k :: src + 9 <= k < a.Length ==> a[k] == old(a[k])
  {
    ghost var before := a[..];
    RestIsThere(before, t, src, rest);
    supported, version, next := Version(a, src, rest);
    HoldsKept(before, a[..], src, src, 0, m);
    HoldsKept(before, a[..], src, src, |m| + 1, u);
  }

  /** A space becomes the end of a string. */
  method EndWord(a: array<char>, ghost t: string, src: nat, url: nat)
    requires Unread(a[..], src, t) && src <= url < |t| && NUL !in t
    modifies a
    ensures Holds(a[..], url + 1, src, t[src..url]) && Unread(a[..], url + 1, t)
    ensures forall k :: 0 <= k < a.Length && k != url ==> a[k] == old(a[k])
  {
    ghost var before := a[..];
    a[url] := NUL;
    Terminated(before, a[..], t, src, url);
    UnreadLater(before, a[..], src, url + 1, t);
  }

  lemma StartLine(a: string, m: string, u: string, rest: string)
    requires IsString(a, 0, Line(m, u, rest)) && rest != ""
    ensures Unread(a, 0, Line(m, u, rest)) && NUL !in Line(m, u, rest)
    ensures |m| + |u| + 2 < |Line(m, u, rest)| < |a|
  {
    var t := Line(m, u, rest);
    Layout(m, u, rest);
    assert forall q :: 0 <= q < |t| ==> a[q] == a[0..0 + |t|][q] == t[q];
  }

  /** The first space ends the method and the second one the URI. */
  lemma WhereSpacesAre(a: string, src: nat, url: nat, m: string, u: string, rest: string)
    requires Unread(a, src, Line(m, u, rest)) && src <= url && ' ' !in m && ' ' !in u && rest != ""
    ensures var t, vsrc := Line(m, u, rest), |m| + |u| + 2;
      && vsrc < |t| && t[vsrc..] == rest && t[0..|m|] == m && t[|m| + 1..vsrc - 1] == u
      && (url <= |m| ==> (a[url] == ' ' <==> url == |m|))
      && (|m| < url < vsrc ==> (a[url] == ' ' <==> url == vsrc - 1))
  {
    Layout(m, u, rest);
    var t, vsrc := Line(m, u, rest), |m| + |u| + 2;
    assert url < |m| ==> t[url] == t[..|m|][url] && m[url] in m;
    assert |m| < url < vsrc - 1 ==> t[url] == t[|m| + 1..vsrc - 1][url - |m| - 1] && u[url - |m| - 1] in u;
  }

  lemma LineNotOver(a: string, src: nat, url: nat, m: string, u: string, rest: string)
    requires Unread(a, src, Line(m, u, rest)) && src <= url <= |m| + |u| + 2 && rest != "" && NUL !in Line(m, u, rest)
    ensures url < |a| && a[url] != NUL
  {
    Layout(m, u, rest);
    var t := Line(m, u, rest);
    assert t[url] in t;
  }

  lemma RestIsThere(a: string, t: string, src: nat, rest: string)
    requires Unread(a, src, t) && NUL !in t && src <= |t| && t[src..] == rest
    ensures IsString(a, src, rest)
  {
    assert a[src..src + |rest|] == rest;
    assert forall c :: c in rest ==> c in t;
  }

  // ------------------------------------------------------------------
  // The header lines
  // ------------------------------------------------------------------

  const MAX_HEADERS: nat := 30

  predicate GoodLine(l: string) {
    l != "" && '\r' !in l && NUL !in l
  }

  /** Lines, ended by a blank one. */
  function LinesText(lines: seq<string>): string {
    if lines == [] then EOL else lines[0] + (EOL + LinesText(lines[1..]))
  }

  /** The ':' that ends the name is not looked for at the very front. */
  function Colon(l: string): (c: nat)
    requires l != ""
    ensures 1 <= c <= |l| && (c < |l| ==> l[c] == ':') && forall k :: 1 <= k < c ==> l[k] != ':'
  {
    assert forall k :: 0 <= k < |l| - 1 ==> l[1..][k] == l[k + 1];
    1 + IndexOf(l[1..], ':')
  }

  function Name(l: string): (n: string)
    requires l != ""
    ensures n != ""
  {
    l[..Colon(l)]
  }

  /** One character is skipped behind the ':'. */
  function Value(l: string): Option<string>
    requires l != ""
  {
    var c := Colon(l);
    if c == |l| then None else if c + 1 == |l| then Some("") else Some(l[c + 2..])
  }

  /** "Name: Value" is split as it was put together. */
  lemma {:induction false} NameAndValue(name: string, value: string)
    requires name != "" && ':' !in name
    ensures var l := name + ": " + value; Name(l) == name && Value(l) == Some(value)
  {
    var l := name + ": " + value;
    assert l[|name|] == ':';
    forall k | 1 <= k < |name| ensures l[k] != ':' { assert l[k] == name[k] && name[k] in name; }
    assert Colon(l) == |name|;
    assert l[..|name|] == name && l[|name| + 2..] == value;
  }

  /**
   Other lines: one character is lost behind the ':' whatever it is, a line that ends with its ':'
   has the empty value and one without a ':' none, and a ':' in front belongs to the name.
   */
  lemma {:induction false} OtherLines(name: string, c: char, value: string)
    requires name != "" && ':' !in name[1..]
    ensures var l := name + [':', c] + value; Name(l) == name && Value(l) == Some(value)
    ensures Name(name + ":") == name && Value(name + ":") == Some("")
    ensures Name(name) == name && Value(name) == None
  {
    var l := name + [':', c] + value;
    assert l[|name|] == ':' && (name + ":")[|name|] == ':';
    forall k | 1 <= k < |name| ensures l[k] != ':' && (name + ":")[k] != ':' && name[k] != ':' {
      assert l[k] == name[k] == name[1..][k - 1] && name[1..][k - 1] in name[1..];
    }
    assert Colon(l) == |name| == Colon(name + ":") == Colon(name);
    assert l[..|name|] == name && l[|name| + 2..] == value;
    assert (name + ":")[..|name|] == name && name[..|name|] == name;
  }

  ghost predicate HoldsValue(a: string, hi: nat, at: Option<nat>, v: Option<string>) {
    if v.Some? then at.Some? && Holds(a, hi, at.value, v.value) else at.None?
  }

  /** The header line that began at a[lo] has been split there. */
  ghost predicate HoldsHeader(a: string, lo: nat, hi: nat, n: nat, v: Option<nat>, l: string) {
    && l != "" && n == lo && Holds(a, hi, n, Name(l)) && HoldsValue(a, hi, v, Value(l))
    && (v.Some? ==> n + |Name(l)| < v.value)
  }

  /** How far behind the first line line i begins. */
  function Behind(lines: seq<string>, i: nat): nat
    requires i <= |lines|
  {
    if i == 0 then 0 else Behind(lines, i - 1) + |lines[i - 1]| + 2
  }

  lemma {:induction false} BehindSame(x: seq<string>, y: seq<string>, i: nat)
    requires i <= |x| && i <= |y| && forall k :: 0 <= k < i ==> x[k] == y[k]
    ensures Behind(x, i) == Behind(y, i)
  {
    if i > 0 { BehindSame(x, y, i - 1); }
  }

  lemma {:induction false} BehindFirst(lines: seq<string>, i: nat)
    requires 1 <= i <= |lines|
    ensures Behind(lines, i) >= |lines[0]| + 2
  {
    if i > 1 { BehindFirst(lines, i - 1); }
  }

  ghost predicate HeaderAt(a: string, lo: nat, hi: nat, names: seq<nat>, values: seq<Option<nat>>, lines: seq<string>, i: nat)
    requires i < |lines| <= |names| && |lines| <= |values|
  {
    HoldsHeader(a, lo + Behind(lines, i), hi, names[i], values[i], lines[i])
  }

  /** The header pointers lead to the parts of the lines that were in a[lo..hi]. */
  ghost predicate Headers(a: string, lo: nat, hi: nat, names: seq<nat>, values: seq<Option<nat>>, lines: seq<string>) {
    && |lines| <= |names| && |lines| <= |values|
    && forall i: nat :: i < |lines| ==> HeaderAt(a, lo, hi, names, values, lines, i)
  }

  lemma HeaderKept(a: string, b: string, lo: nat, hi: nat, hi': nat, n: nat, v: Option<nat>, l: string)
    requires HoldsHeader(a, lo, hi, n, v, l) && hi <= hi' <= |b| && |b| == |a| && forall q :: lo <= q < hi ==> b[q] == a[q]
    ensures HoldsHeader(b, lo, hi', n, v, l)
  {
    HoldsKept(a, b, hi, hi', n, Name(l));
    if Value(l).Some? { HoldsKept(a, b, hi, hi', v.value, Value(l).value); }
  }

  lemma HeadersKept(a: string, b: string, lo: nat, hi: nat, hi': nat, names: seq<nat>, values: seq<Option<nat>>, lines: seq<string>)
    requires Headers(a, lo, hi, names, values, lines) && hi <= hi' <= |b| && |b| == |a| && forall q :: lo <= q < hi ==> b[q] == a[q]
    ensures Headers(b, lo, hi', names, values, lines)
  {
    hide HoldsHeader;
    forall i: nat | i < |lines| ensures HeaderAt(b, lo, hi', names, values, lines, i) {
      assert HeaderAt(a, lo, hi, names, values, lines, i);
      HeaderKept(a, b, lo + Behind(lines, i), hi, hi', names[i], values[i], lines[i]);
    }
  }

  lemma HeadersOneMore(a: string, lo: nat, hi: nat, names: seq<nat>, values: seq<Option<nat>>, names': seq<nat>, values': seq<Option<nat>>, lines: seq<string>, l: string)
    requires Headers(a, lo, hi, names, values, lines) && |names'| == |names| && |values'| == |values|
    requires |lines| < |names| && |lines| < |values|
    requires HoldsHeader(a, lo + Behind(lines, |lines|), hi, names'[|lines|], values'[|lines|], l)
    requires forall i :: 0 <= i < |lines| ==> names'[i] == names[i] && values'[i] == values[i]
    ensures Headers(a, lo, hi, names', values', lines + [l])
  {
    hide HoldsHeader, Behind;
    var more := lines + [l];
    forall i: nat | i < |more| ensures HeaderAt(a, lo, hi, names', values', more, i) {
      BehindSame(more, lines, i);
      if i < |lines| {
        assert HeaderAt(a, lo, hi, names, values, lines, i) && more[i] == lines[i];
      } else {
        assert more[i] == l;
      }
    }
  }

  // What the header pointers lead to, whatever the request line was.

  datatype Field = Field(name: string, value: Option<string>)

  function FieldOf(l: string): Field {
    if l == "" then Field("", None) else Field(Name(l), Value(l))
  }

  function Fields(lines: seq<string>): seq<Field> {
    seq(|lines|, i requires 0 <= i < |lines| => FieldOf(lines[i]))
  }

  ghost predicate HoldsField(a: string, n: nat, v: Option<nat>, f: Field) {
    && IsString(a, n, f.name)
    && if f.value.Some? then v.Some? && IsString(a, v.value, f.value.value) else v.None?
  }

  ghost predicate Sees(a: string, names: seq<nat>, values: seq<Option<nat>>, fields: seq<Field>) {
    && |fields| <= |names| && |fields| <= |values|
    && forall i :: 0 <= i < |fields| ==> HoldsField(a, names[i], values[i], fields[i])
  }

  lemma HeadersAreSeen(a: string, lo: nat, hi: nat, names: seq<nat>, values: seq<Option<nat>>, lines: seq<string>)
    requires Headers(a, lo, hi, names, values, lines)
    ensures Sees(a, names, values, Fields(lines))
  {
    forall i | 0 <= i < |lines| ensures HoldsField(a, names[i], values[i], FieldOf(lines[i])) {
      assert HeaderAt(a, lo, hi, names, values, lines, i);
    }
  }

  /** A change inside the first name leaves all values and all other names. */
  lemma OthersAreSeen(a: string, b: string, lo: nat, hi: nat, names: seq<nat>, values: seq<Option<nat>>, lines: seq<string>, name: string)
    requires Headers(a, lo, hi, names, values, lines) && lines != [] && lines[0] != "" && IsString(b, lo, name) && |b| == |a|
    requires forall q :: lo + |Name(lines[0])| < q < |a| ==> b[q] == a[q]
    ensures Sees(b, names, values, Fields(lines)[0 := Field(name, Value(lines[0]))])
  {
    hide IsString, Holds;
    var fields := Fields(lines)[0 := Field(name, Value(lines[0]))];
    assert HeaderAt(a, lo, hi, names, values, lines, 0);
    if Value(lines[0]).Some? { ValueKept(a, b, hi, values[0].value, Value(lines[0]).value); }
    forall i | 0 < i < |lines| ensures HoldsField(b, names[i], values[i], fields[i]) {
      var l, at := lines[i], lo + Behind(lines, i);
      assert HeaderAt(a, lo, hi, names, values, lines, i);
      BehindFirst(lines, i);
      ValueKept(a, b, hi, at, Name(l));
      if Value(l).Some? { ValueKept(a, b, hi, values[i].value, Value(l).value); }
    }
  }

  lemma ValueKept(a: string, b: string, hi: nat, at: nat, t: string)
    requires Holds(a, hi, at, t) && |b| == |a| && forall q :: at <= q < |a| ==> b[q] == a[q]
    ensures IsString(b, at, t)
  {
    StringKept(a, b, at, t);
  }

  lemma LineThere(a: string, t: string, url: nat, l: string, more: string)
    requires Unread(a, url, t) && url <= |t| && t[url..] == l + (EOL + more)
    ensures url + |l| + 2 + |more| == |t| < |a| && t[url + |l| + 2..] == more && t[url..url + |l|] == l
    ensures a[url + |l|] == '\r' && a[url + |l| + 1] == '\n' && forall k :: url <= k < url + |l| ==> a[k] == l[k - url]
  {
    assert t == t[..url] + t[url..];
    assert t[url..] == l + EOL + more;
    assert forall k :: url <= k < |t| ==> a[k] == t[k] == t[url..][k - url];
  }

  /** while (*url && *++url != c): the first c behind the front of the string, or its end. */
  method Advance(a: array<char>, from: nat, c: char, ghost stop: nat) returns (url: nat)
    requires from < stop < a.Length && (a[stop] == c || a[stop] == NUL)
    requires a[from] != NUL && forall k :: from < k < stop ==> a[k] != c && a[k] != NUL
    ensures url == stop
  {
    url := from;
    while a[url] != NUL
      invariant from <= url < stop || (url == stop && a[url] == NUL)
      decreases stop - url
    {
      url := url + 1;
      if a[url] == c { break; }
    }
  }

  /** One header line, found to end at `end`: its end and the ':' with what follows it become NULs. */
  method HeaderLine(a: array<char>, ghost t: string, src: nat, end: nat, ghost l: string, ghost more: string)
      returns (url: nat, name: nat, value: Option<nat>)
    requires end == src + |l|
    requires Unread(a[..], src, t) && NUL !in t && src <= |t| && GoodLine(l) && t[src..] == l + (EOL + more)
    modifies a
    ensures url == src + |l| + 2 <= |t| && t[url..] == more && Unread(a[..], url, t) && name == src
    ensures HoldsHeader(a[..], src, url, name, value, l)
    ensures FirstNameEnds(a[..], src, l)
    ensures forall k :: 0 <= k < a.Length && !(src <= k < url) ==> a[k] == old(a[k])
  {
    hide HoldsHeader, Unread, Colon;
    ghost var was := a[..];
    LineThere(was, t, src, l, more);
    assert forall k :: 0 <= k < |l| ==> l[k] in l;
    a[end] := NUL;
    a[end + 1] := NUL;
    url := end + 2;
    name := src;
    value := EndName(a, src, l);
    LineSplit(was, a[..], src, l, value);
    UnreadLater(was, a[..], src, url, t);
  }

  /** The search for ':'. */
  method EndName(a: array<char>, src: nat, ghost l: string) returns (value: Option<nat>)
    requires GoodLine(l) && src + |l| + 2 <= a.Length && forall k :: src <= k < src + |l| ==> a[k] == l[k - src]
    requires a[src + |l|] == NUL && a[src + |l| + 1] == NUL
    modifies a
    ensures var c := Colon(l);
      if c == |l| then value.None? && forall k :: 0 <= k < a.Length ==> a[k] == old(a[k])
      else value == Some(src + c + 2) && a[src + c] == NUL && a[src + c + 1] == NUL
           && forall k :: 0 <= k < a.Length && k != src + c && k != src + c + 1 ==> a[k] == old(a[k])
  {
    ghost var c := Colon(l);
    assert forall k :: 0 <= k < |l| ==> l[k] in l;
    var p := Advance(a, src, ':', src + c);
    value := None;
    if a[p] == ':' {
      a[p] := NUL;
      a[p + 1] := NUL;
      value := Some(p + 2);
    }
  }

  lemma LineSplit(a: string, b: string, src: nat, l: string, value: Option<nat>)
    requires GoodLine(l) && src + |l| + 2 <= |a| == |b| && forall k :: src <= k < src + |l| ==> a[k] == l[k - src]
    requires b[src + |l|] == NUL && b[src + |l| + 1] == NUL
    requires var c := Colon(l);
      if c == |l| then value.None? && forall k :: src <= k < src + |l| ==> b[k] == a[k]
      else value == Some(src + c + 2) && b[src + c] == NUL && b[src + c + 1] == NUL
           && forall k :: src <= k < src + |l| && k != src + c && k != src + c + 1 ==> b[k] == a[k]
    ensures HoldsHeader(b, src, src + |l| + 2, src, value, l) && FirstNameEnds(b, src, l)
  {
    var c := Colon(l);
    assert forall k :: 0 <= k < |l| ==> l[k] in l;
    assert b[src..src + c] == l[..c];
    if c + 1 < |l| {
      assert b[src + c + 2..src + c + 2 + |l[c + 2..]|] == l[c + 2..];
    } else if c + 1 == |l| {
      assert b[src + c + 2..src + c + 2 + |""|] == "";
    }
  }

  /** LinesText never ends without its blank line. */
  lemma BlankThere(a: string, t: string, url: nat)
    requires Unread(a, url, t) && url <= |t| && t[url..] == EOL
    ensures url + 2 == |t| < |a| && a[url] == '\r' && a[url + 1] == '\n' && a[url + 2] == NUL
  {
    assert t[url] == t[url..][0] && t[url + 1] == t[url..][1];
  }

  /** The first name is followed by two NULs. */
  ghost predicate FirstNameEnds(a: string, from: nat, l: string) {
    l != "" && from + |l| + 2 <= |a| && IsString(a, from, Name(l)) && a[from + |Name(l)| + 1] == NUL
  }

  lemma FirstNameKept(a: string, b: string, from: nat, l: string)
    requires FirstNameEnds(a, from, l) && |b| == |a| && forall k :: 0 <= k < from + |l| + 2 ==> b[k] == a[k]
    ensures FirstNameEnds(b, from, l)
  {
    StringKept(a, b, from, Name(l));
  }

  lemma NoHeaders(a: string, hi: nat, names: seq<nat>, values: seq<Option<nat>>, t: string, lines: seq<string>)
    ensures Headers(a, hi, hi, names, values, lines[..0]) && lines[0..] == lines
  {
  }

  /** Where the next search for '\r' stops: at the end of a line, or behind the blank line. */
  lemma WhereCr(a: string, t: string, url: nat, rest: seq<string>) returns (stop: nat)
    requires Unread(a, url, t) && NUL !in t && url < |t| && t[url..] == LinesText(rest) && forall l <- rest :: GoodLine(l)
    ensures url < stop <= |t| < |a| && a[stop] == (if rest == [] then NUL else '\r')
    ensures if rest == [] then stop == |t| else stop == url + |rest[0]|
    ensures forall k :: url < k < stop ==> a[k] != '\r' && a[k] != NUL
  {
    if rest == [] {
      BlankThere(a, t, url);
      stop := url + 2;
    } else {
      assert rest[0] in rest;
      LineThere(a, t, url, rest[0], LinesText(rest[1..]));
      stop := url + |rest[0]|;
      assert forall k :: 0 <= k < |rest[0]| ==> rest[0][k] in rest[0];
    }
  }

  /** There is always more in front of the end of the head. */
  lemma LinesNext(a: string, t: string, url: nat, rest: seq<string>)
    requires Unread(a, url, t) && NUL !in t && url <= |t| && t[url..] == LinesText(rest) && forall l <- rest :: GoodLine(l)
    ensures url < |t| < |a| && a[url] != NUL
  {
    if rest == [] {
      BlankThere(a, t, url);
    } else {
      assert rest[0] in rest;
      LineThere(a, t, url, rest[0], LinesText(rest[1..]));
      assert rest[0][0] in rest[0];
    }
  }

  // ------------------------------------------------------------------
  // The URI
  // ------------------------------------------------------------------

  /** Non-empty strings one behind the other, the last one followed by a second NUL. */
  ghost predicate Chain(a: string, at: nat, segs: seq<string>)
    decreases |segs|
  {
    if segs == [] then at < |a| && a[at] == NUL
    else segs[0] != "" && IsString(a, at, segs[0]) && Chain(a, at + |segs[0]| + 1, segs[1..])
  }

  /** Which string of a chain has the first '?', or |segs|. */
  function Hit(segs: seq<string>): (i: nat)
    ensures i <= |segs| && (i < |segs| ==> '?' in segs[i])
  {
    if segs == [] || '?' in segs[0] then 0 else 1 + Hit(segs[1..])
  }

  /** Where string i of a chain starts. */
  function Start(at: nat, segs: seq<string>, i: nat): nat
    requires i <= |segs|
    decreases i
  {
    if i == 0 then at else Start(at + |segs[0]| + 1, segs[1..], i - 1)
  }

  /**
   The loop that splits the URI, run on a chain of which the URI is the first string: it does
   not stop at the end of the URI but at the first '?' or at the second NUL in a row.
   */
  method SplitUri(a: array<char>, at: nat, ghost segs: seq<string>) returns (query: Option<nat>)
    requires Chain(a[..], at, segs)
    modifies a
    ensures var i := Hit(segs);
      if i < |segs| then
        && query == Some(Start(at, segs, i) + IndexOf(segs[i], '?') + 1) && query.value <= a.Length
        && a[..] == old(a[..])[query.value - 1 := NUL]
      else a[..] == old(a[..]) && (if segs == [] then query.None? else query == Some(Start(at, segs, |segs|) - 1))
  {
    hide Chain, IsString, IndexOf;
    var url: nat := at;
    query := None;
    ghost var rest, n := segs, 0;
    ChainFront(a[..], at, segs);
    assert segs[0..] == segs;
    while a[url] != NUL
      invariant url < a.Length && Chain(a[..], url, rest) && (a[url] == NUL <==> rest == []) && (rest != [] ==> IsString(a[..], url, rest[0]))
      invariant n <= |segs| && rest == segs[n..] && url == Start(at, segs, n)
      invariant Hit(segs) == n + Hit(rest)
      invariant a[..] == old(a[..])
      invariant query == if n == 0 then None else Some(url - 1)
      decreases |rest|
    {
      HitStep(at, segs, n);
      url := FindMark(a, url, rest[0]);
      ChainNext(a[..], Start(at, segs, n), rest);
      if a[url] == '?' {
        a[url] := NUL;
        query := Some(url + 1);
        break;
      } else {
        query := Some(url);
      }
      url := url + 1;
      rest, n := rest[1..], n + 1;
      ChainFront(a[..], url, rest);
    }
  }

  /** while (*url && *url != '?') url++ */
  method FindMark(a: array<char>, at: nat, ghost s: string) returns (url: nat)
    requires IsString(a[..], at, s)
    ensures url == at + IndexOf(s, '?') < a.Length && (a[url] == if '?' in s then '?' else NUL)
  {
    ghost var k := IndexOf(s, '?');
    assert forall p :: at <= p < at + |s| ==> a[p] == a[at..at + |s|][p - at] == s[p - at] && s[p - at] in s;
    url := at;
    while a[url] != NUL && a[url] != '?'
      invariant at <= url <= at + k
      decreases at + k - url
    {
      url := url + 1;
    }
  }

  lemma ChainFront(a: string, at: nat, segs: seq<string>)
    requires Chain(a, at, segs)
    ensures at < |a| && (a[at] == NUL <==> segs == []) && (segs != [] ==> IsString(a, at, segs[0]))
  {
    if segs != [] {
      assert a[at] == a[at..at + |segs[0]|][0];
      assert segs[0][0] in segs[0];
    }
  }

  lemma ChainNext(a: string, at: nat, segs: seq<string>)
    requires Chain(a, at, segs) && segs != []
    ensures Chain(a, at + |segs[0]| + 1, segs[1..])
    ensures '?' !in segs[0] ==> IndexOf(segs[0], '?') == |segs[0]|
  {
    if '?' !in segs[0] { IndexOfNone(segs[0], '?'); }
  }

  lemma {:induction false} HitStep(at: nat, segs: seq<string>, n: nat)
    requires n < |segs| && Hit(segs) == n + Hit(segs[n..])
    ensures Start(at, segs, n + 1) == Start(at, segs, n) + |segs[n]| + 1 && segs[n..][0] == segs[n] && segs[n..][1..] == segs[n + 1..]
    ensures if '?' in segs[n] then Hit(segs) == n else Hit(segs) == n + 1 + Hit(segs[n + 1..])
  {
    StartStep(at, segs, n);
    assert segs[n..][1..] == segs[n + 1..];
  }

  lemma {:induction false} StartStep(at: nat, segs: seq<string>, n: nat)
    requires n < |segs|
    ensures Start(at, segs, n + 1) == Start(at, segs, n) + |segs[n]| + 1
    decreases n
  {
    if n > 0 {
      StartStep(at + |segs[0]| + 1, segs[1..], n - 1);
    }
  }

  // ------------------------------------------------------------------
  // The whole head
  // ------------------------------------------------------------------

  /** The fields as they are once the URI is split: the search for '?' may have cut the first name. */
  function SeenFields(uri: string, lines: seq<string>): (fields: seq<Field>)
    ensures |fields| == |lines|
  {
    if Leaks(uri, lines) then Fields(lines)[0 := Field(FirstName(uri, lines), Value(lines[0]))] else Fields(lines)
  }

  /** The value of the first field with the name; "" if there is none. */
  function Find(fields: seq<Field>, wanted: string): Option<string> {
    if fields == [] then Some("")
    else if fields[0].name == wanted then fields[0].value
    else Find(fields[1..], wanted)
  }

  function Path(uri: string): string { uri[..IndexOf(uri, '?')] }

  /** The search for '?' finds one in the first header's name. */
  predicate Leaks(uri: string, lines: seq<string>) {
    uri != "" && '?' !in uri && lines != [] && lines[0] != "" && '?' in Name(lines[0])
  }

  function Query(uri: string, lines: seq<string>): string {
    if '?' in uri then uri[IndexOf(uri, '?') + 1..]
    else if Leaks(uri, lines) then Name(lines[0])[IndexOf(Name(lines[0]), '?') + 1..]
    else ""
  }

  /** What names[0] leads to. */
  function FirstName(uri: string, lines: seq<string>): string
    requires lines != [] && lines[0] != ""
  {
    if Leaks(uri, lines) then Name(lines[0])[..IndexOf(Name(lines[0]), '?')] else Name(lines[0])
  }

  /** Query and first header name are recovered exactly when the search stays in the URI. */
  lemma {:induction false} RecoveredExactlyWhen(uri: string, lines: seq<string>)
    requires uri != "" && lines != [] && lines[0] != ""
    ensures Query(uri, lines) == (if '?' in uri then uri[IndexOf(uri, '?') + 1..] else "") && FirstName(uri, lines) == Name(lines[0])
      <==> '?' in uri || '?' !in Name(lines[0])
  {
    var n := Name(lines[0]);
    assert IndexOf(n, '?') == |n| ==> '?' !in n;
  }

  /** What follows the URI in the buffer up to the second NUL in a row. */
  function Segments(uri: string, rest: string, lines: seq<string>): seq<string>
    requires |rest| >= 8 && (lines != [] ==> lines[0] != "")
  {
    if uri == "" then [] else [uri, rest[..8], ['\n'] + if lines == [] then EOL else Name(lines[0])]
  }

  /** The line end behind the version, and the header lines behind it. */
  lemma RestLines(verb: string, uri: string, rest: string, lines: seq<string>)
    requires |rest| >= 8 && rest[8..] == EOL + LinesText(lines)
    ensures |rest| >= 10 && '\n' in rest[9..] && IndexOf(rest[9..], '\n') == 0
    ensures var t, from := Line(verb, uri, rest), |verb| + |uri| + 12; from <= |t| && t[from..] == LinesText(lines) && t[from - 1] == '\n'
  {
    hide LinesText;
    Layout(verb, uri, rest);
    assert rest == rest[..8] + EOL + LinesText(lines);
    assert rest[9] == '\n' && rest[9..][0] == '\n';
    assert rest[10..] == LinesText(lines);
    var t, vsrc := Line(verb, uri, rest), |verb| + |uri| + 2;
    assert t[vsrc..][10..] == t[vsrc + 10..];
    assert t[vsrc + 9] == t[vsrc..][9];
  }

  lemma HeadersNext(was: string, a: string, verb: string, uri: string, rest: string, lines: seq<string>)
    requires |rest| >= 8 && rest[8..] == EOL + LinesText(lines) && IsString(was, 0, Line(verb, uri, rest))
    requires |a| == |was| && forall k :: |verb| + |uri| + 11 <= k < |a| ==> a[k] == was[k]
    ensures var t, from := Line(verb, uri, rest), |verb| + |uri| + 12;
      from <= |t| && Unread(a, from, t) && t[from..] == LinesText(lines) && NUL !in t && a[from - 1] == '\n'
  {
    hide LinesText;
    RestLines(verb, uri, rest, lines);
    var t := Line(verb, uri, rest);
    assert forall q :: 0 <= q < |t| ==> was[q] == was[0..0 + |t|][q] == t[q];
  }

  /** Newline and header name, or newline and blank line, are one string of the buffer. */
  lemma LastSegment(a: string, from: nat, lines: seq<string>, t: string)
    requires 0 < from <= |a| && a[from - 1] == '\n'
    requires if lines == [] then Unread(a, from, t) && from <= |t| && t[from..] == EOL && |t| + 1 < |a| && a[|t| + 1] == NUL
             else FirstNameEnds(a, from, lines[0])
    ensures var w := ['\n'] + if lines == [] then EOL else Name(lines[0]);
      IsString(a, from - 1, w) && from + |w| < |a| && a[from + |w|] == NUL
  {
    if lines == [] {
      BlankThere(a, t, from);
      assert a[from - 1..from - 1 + |['\n'] + EOL|] == ['\n'] + EOL;
    } else {
      var n := Name(lines[0]);
      assert a[from - 1..from + |n|] == ['\n'] + a[from..from + |n|];
    }
  }

  lemma ChainOfThree(a: string, at: nat, x: string, y: string, z: string)
    requires x != "" && y != "" && z != "" && IsString(a, at, x) && IsString(a, at + |x| + 1, y) && IsString(a, at + |x| + |y| + 2, z)
    requires at + |x| + |y| + |z| + 3 < |a| && a[at + |x| + |y| + |z| + 3] == NUL
    ensures Chain(a, at, [x, y, z])
  {
    hide IsString;
    assert Chain(a, at + |x| + |y| + |z| + 3, []);
    assert [z][1..] == [];
    assert Chain(a, at + |x| + |y| + 2, [z]);
    assert [y, z][1..] == [z];
    assert Chain(a, at + |x| + 1, [y, z]);
    assert [x, y, z][1..] == [y, z];
  }

  /** After the header loop the URI, the version and the last segment follow each other. */
  lemma UriChain(line: string, a: string, at: nat, from: nat, t: string, uri: string, rest: string, lines: seq<string>)
    requires |rest| >= 8 && |a| == |line| && from == at + |uri| + 11
    requires from <= |t| && t[from..] == LinesText(lines) && Unread(line, from, t) && |t| + 1 < |a| && line[|t| + 1] == NUL && line[from - 1] == '\n'
    requires IsString(line, at, uri) && IsString(line, from - 10, rest[..8])
    requires if lines == [] then a == line else FirstNameEnds(a, from, lines[0])
    requires forall k :: 0 <= k < |a| && !(from <= k < |t|) ==> a[k] == line[k]
    ensures Chain(a, at, Segments(uri, rest, lines))
    ensures IsString(a, at, uri) && IsString(a, from - 10, rest[..8])
  {
    hide Unread, FirstNameEnds, IsString, Chain;
    StringKept(line, a, at, uri);
    StringKept(line, a, from - 10, rest[..8]);
    LastSegment(a, from, lines, t);
    var w := ['\n'] + if lines == [] then EOL else Name(lines[0]);
    if uri == "" {
      EmptyChain(a, at);
    } else {
      ChainOfThree(a, at, uri, rest[..8], w);
    }
  }

  lemma EmptyChain(a: string, at: nat)
    requires IsString(a, at, "")
    ensures Chain(a, at, [])
  {
  }

  /** The buffer after the header loop, for any further change. */
  ghost predicate HeadersDone(a: string, at: nat, from: nat, verb: string, uri: string, rest: string, lines: seq<string>, names: seq<nat>, values: seq<Option<nat>>) {
    && |rest| >= 8 && at == |verb| + 1 && from == at + |uri| + 11 && from <= |a|
    && IsString(a, 0, verb) && IsString(a, at, uri) && IsString(a, from - 10, rest[..8])
    && Headers(a, from, |a|, names, values, lines) && (lines != [] ==> FirstNameEnds(a, from, lines[0]) && |names| > 0 && names[0] == from)
  }

  /** The head without its path and query. */
  ghost predicate FramePart(b: string, verb: string, version: nat, rest: string) {
    |rest| >= 8 && IsString(b, 0, verb) && IsString(b, version, rest[5..8])
  }

  lemma VersionString(a: string, at: nat, rest: string)
    requires |rest| >= 8 && IsString(a, at, rest[..8])
    ensures IsString(a, at + 5, rest[5..8])
  {
    assert forall q :: at <= q < at + 8 ==> a[q] == a[at..at + |rest[..8]|][q - at] == rest[q - at];
    assert a[at + 5..at + 5 + |rest[5..8]|] == rest[5..8];
    assert forall c :: c in rest[5..8] ==> c in rest[..8];
  }

  /** The URI has a '?': it is cut there. */
  lemma QueryInUri(a: string, at: nat, from: nat, verb: string, uri: string, rest: string, lines: seq<string>, names: seq<nat>, values: seq<Option<nat>>)
    requires HeadersDone(a, at, from, verb, uri, rest, lines, names, values) && '?' in uri
    ensures IndexOf(uri, '?') < |uri| && at + IndexOf(uri, '?') < |a|
    ensures var k := IndexOf(uri, '?');
      var b := a[at + k := NUL];
      && FramePart(b, verb, from - 5, rest) && Headers(b, from, |b|, names, values, lines)
      && IsString(b, at, Path(uri)) && IsString(b, at + k + 1, uri[k + 1..])
  {
    hide Headers, FirstNameEnds, IsString;
    var k := IndexOf(uri, '?');
    StringFits(a, at, uri);
    StringFits(a, 0, verb);
    StringFits(a, from - 10, rest[..8]);
    assert k < |uri|;
    var b := a[at + k := NUL];
    CutString(a, at, uri, k);
    StringKept(a, b, 0, verb);
    StringKept(a, b, from - 10, rest[..8]);
    VersionString(b, from - 10, rest);
    HeadersKept(a, b, from, |a|, |a|, names, values, lines);
  }

  /** Nothing has a '?': nothing is cut. */
  lemma NoQuery(a: string, at: nat, from: nat, verb: string, uri: string, rest: string, lines: seq<string>, names: seq<nat>, values: seq<Option<nat>>)
    requires HeadersDone(a, at, from, verb, uri, rest, lines, names, values) && '?' !in uri
    ensures FramePart(a, verb, from - 5, rest) && IsString(a, at, Path(uri)) && Headers(a, from, |a|, names, values, lines)
  {
    hide Headers, FirstNameEnds, IsString;
    IndexOfNone(uri, '?');
    VersionString(a, from - 10, rest);
    assert uri[..|uri|] == uri;
  }

  /** The first header name has the first '?': it is cut. */
  lemma QueryInName(a: string, at: nat, from: nat, verb: string, uri: string, rest: string, lines: seq<string>, names: seq<nat>, values: seq<Option<nat>>)
    requires HeadersDone(a, at, from, verb, uri, rest, lines, names, values) && Leaks(uri, lines)
    ensures IndexOf(Name(lines[0]), '?') < |Name(lines[0])| && from + IndexOf(Name(lines[0]), '?') < |a|
    ensures var n := Name(lines[0]);
      var k := IndexOf(n, '?');
      var b := a[from + k := NUL];
      && FramePart(b, verb, from - 5, rest) && IsString(b, at, Path(uri))
      && Sees(b, names, values, SeenFields(uri, lines)) && IsString(b, from + k + 1, n[k + 1..])
  {
    hide Headers, IsString, Sees, Fields;
    var n := Name(lines[0]);
    StringFits(a, at, uri);
    StringFits(a, 0, verb);
    StringFits(a, from - 10, rest[..8]);
    StringFits(a, from, n);
    IndexOfNone(uri, '?');
    var k := IndexOf(n, '?');
    assert k < |n|;
    NoQuery(a, at, from, verb, uri, rest, lines, names, values);
    var b := a[from + k := NUL];
    CutString(a, from, n, k);
    StringKept(a, b, 0, verb);
    StringKept(a, b, at, Path(uri));
    StringKept(a, b, from - 10, rest[..8]);
    VersionString(b, from - 10, rest);
    OthersAreSeen(a, b, from, |a|, names, values, lines, n[..k]);
  }

  lemma SupportedIsLong(rest: string)
    ensures Supported(rest) ==> |rest| >= 8
  {
  }

  lemma GoodLinesAreThere(lines: seq<string>)
    requires forall l <- lines :: GoodLine(l)
    ensures lines != [] ==> lines[0] != ""
  {
    if lines != [] { assert lines[0] in lines; }
  }

  lemma SegmentsEmpty(uri: string, rest: string, lines: seq<string>)
    requires |rest| >= 8 && (lines != [] ==> lines[0] != "")
    ensures Segments(uri, rest, lines) == [] <==> uri == ""
  {
  }

  lemma DoneNames(a: string, at: nat, from: nat, verb: string, uri: string, rest: string, lines: seq<string>, names: seq<nat>, values: seq<Option<nat>>)
    requires HeadersDone(a, at, from, verb, uri, rest, lines, names, values)
    ensures from == at + |uri| + 11 && (lines != [] ==> |names| > 0 && names[0] == from)
  {
    hide Headers, IsString;
  }

  /** Where the search for '?' ends, by what has one. */
  lemma {:induction false} WhichSegment(uri: string, rest: string, lines: seq<string>, at: nat)
    requires Supported(rest) && (lines != [] ==> lines[0] != "")
    ensures var segs := Segments(uri, rest, lines); var from := at + |uri| + 11;
      if '?' in uri then uri != "" && Hit(segs) == 0 < |segs| && Start(at, segs, 0) + IndexOf(segs[0], '?') == at + IndexOf(uri, '?')
      else if Leaks(uri, lines) then Hit(segs) == 2 < |segs| && Start(at, segs, 2) + IndexOf(segs[2], '?') == from + IndexOf(Name(lines[0]), '?')
      else Hit(segs) == |segs| && (uri != "" ==> |segs| == 3 && Start(at, segs, 3) == from + |segs[2]|)
  {
    var segs := Segments(uri, rest, lines);
    if uri != "" && '?' !in uri {
      var v, w := rest[..8], segs[2];
      assert v == rest[..5] + rest[5..8];
      assert '?' !in v;
      var none: seq<string> := [];
      assert segs[1..] == [v, w] && segs[1..][1..] == [w] && [w][1..] == none;
      assert Hit(segs) == 1 + Hit([v, w]) && Hit([v, w]) == 1 + Hit([w]);
      assert Start(at, segs, 2) == Start(at + |uri| + 1, [v, w], 1) == Start(at + |uri| + 10, [w], 0);
      assert Start(at, segs, 3) == Start(at + |uri| + 1, [v, w], 2) == Start(at + |uri| + 10, [w], 1) == Start(at + |uri| + 11 + |w|, none, 0);
      if lines != [] {
        assert w[1..] == Name(lines[0]);
      }
    }
  }

  /** Behind its last string a chain holds the empty string. */
  lemma {:induction false} ChainEnd(a: string, at: nat, segs: seq<string>)
    requires Chain(a, at, segs)
    ensures segs != [] ==> Start(at, segs, |segs|) > 0 && IsString(a, Start(at, segs, |segs|) - 1, "")
    decreases |segs|
  {
    if |segs| == 1 {
      assert segs[1..] == [];
    } else if segs != [] {
      ChainEnd(a, at + |segs[0]| + 1, segs[1..]);
    }
  }

  /** REQUEST_INFO: pointers into the buffer.  None is a null pointer. */
  class Request {
    const a: array<char>
    const names: array<nat>
    const values: array<Option<nat>>
    var numHeaders: nat
    var requestMethod: nat
    var requestUri: nat
    var queryString: Option<nat>
    var httpVersion: nat

    constructor (a: array<char>)
      ensures this.a == a && fresh(names) && fresh(values) && names.Length == values.Length == MAX_HEADERS && numHeaders == 0
    {
      this.a := a;
      names, values := new nat[MAX_HEADERS](_ => 0), new Option<nat>[MAX_HEADERS](_ => None);
      numHeaders, requestMethod, requestUri, queryString, httpVersion := 0, 0, 0, None, 0;
    }

    /** A header line is recorded. */
    method AddHeader(ghost t: string, ghost from: nat, src: nat, end: nat, ghost lines: seq<string>)
      requires Unread(a[..], src, t) && NUL !in t && from <= src <= |t| && (forall l <- lines :: GoodLine(l)) && numHeaders < |lines| <= MAX_HEADERS
      requires t[src..] == LinesText(lines[numHeaders..]) && end == src + |lines[numHeaders]|
      requires names.Length == values.Length == MAX_HEADERS && Headers(a[..], from, src, names[..], values[..], lines[..numHeaders])
      requires src == from + Behind(lines, numHeaders)
      modifies this`numHeaders, a, names, values
      ensures numHeaders == old(numHeaders) + 1 && end + 2 == from + Behind(lines, numHeaders)
      ensures Headers(a[..], from, end + 2, names[..], values[..], lines[..numHeaders])
      ensures end + 2 <= |t| && Unread(a[..], end + 2, t) && t[end + 2..] == LinesText(lines[numHeaders..])
      ensures FirstNameEnds(a[..], src, lines[old(numHeaders)]) && names[old(numHeaders)] == src
      ensures forall i :: 0 <= i < old(numHeaders) ==> names[i] == old(names[i])
      ensures forall k :: 0 <= k < a.Length && !(src <= k < end + 2) ==> a[k] == old(a[k])
    {
      hide Headers, Unread, Colon, GoodLine;
      ghost var n, l, more := numHeaders, lines[numHeaders], LinesText(lines[numHeaders + 1..]);
      assert lines[n..][0] == l && lines[n..][1..] == lines[n + 1..];
      ghost var before, names0, values0 := a[..], names[..], values[..];
      var url, name, value := HeaderLine(a, t, src, end, l, more);
      HeadersKept(before, a[..], from, src, url, names0, values0, lines[..n]);
      BehindSame(lines[..n], lines, n);
      names[numHeaders], values[numHeaders] := name, value;
      numHeaders := numHeaders + 1;
      HeadersOneMore(a[..], from, url, names0, values0, names[..], values[..], lines[..n], l);
      assert lines[..n + 1] == lines[..n] + [l];
    }

    /** The header loop: a line each, until the blank line has been run through. */
    method ParseHeaders(ghost t: string, from: nat, ghost lines: seq<string>)
      requires Unread(a[..], from, t) && NUL !in t && from <= |t| && t[from..] == LinesText(lines)
      requires (forall l <- lines :: GoodLine(l)) && |lines| <= MAX_HEADERS && numHeaders == 0
      requires names.Length == values.Length == MAX_HEADERS
      modifies this`numHeaders, a, names, values
      ensures numHeaders == |lines| && Headers(a[..], from, |t|, names[..], values[..], lines)
      ensures forall k :: 0 <= k < a.Length && !(from <= k < |t|) ==> a[k] == old(a[k])
      ensures if lines == [] then a[..] == old(a[..]) else FirstNameEnds(a[..], from, lines[0]) && names[0] == from
    {
      hide Headers, Unread, FirstNameEnds, GoodLine, LinesText;
      var url, src := from, from;
      ghost var was, rest := a[..], lines;
      NoHeaders(was, from, names[..], values[..], t, lines);
      LinesNext(was, t, from, lines);
      while a[url] != NUL
        invariant from <= url <= |t| < a.Length && numHeaders <= |lines| && rest == lines[numHeaders..]
        invariant a[url] != NUL ==> src == url < |t| && Unread(a[..], url, t) && t[url..] == LinesText(rest)
        invariant a[url] == NUL ==> rest == []
        invariant a[url] != NUL ==> url == from + Behind(lines, numHeaders)
        invariant Headers(a[..], from, url, names[..], values[..], lines[..numHeaders])
        invariant if numHeaders == 0 then a[..] == was else FirstNameEnds(a[..], from, lines[0]) && names[0] == from && from + |lines[0]| + 2 <= url
        invariant forall k :: 0 <= k < a.Length && !(from <= k < url) ==> a[k] == was[k]
        decreases |t| - url
      {
        ghost var before := a[..];
        ghost var stop := WhereCr(before, t, url, rest);
        var end := Advance(a, url, '\r', stop);
        if a[end] == '\r' {
          assert rest[0] == lines[numHeaders];
          AddHeader(t, from, src, end, lines);
          if numHeaders > 1 { FirstNameKept(before, a[..], from, lines[0]); }
          url := end + 2;
          src := url;
          rest := lines[numHeaders..];
          LinesNext(a[..], t, url, rest);
        } else {
          HeadersKept(before, before, from, url, end, names[..], values[..], lines[..numHeaders]);
          url := end;
        }
      }
      assert lines[..numHeaders] == lines;
      HeadersKept(a[..], a[..], from, url, |t|, names[..], values[..], lines);
    }

    method Split(ghost from: nat, ghost verb: string, ghost uri: string, ghost rest: string, ghost lines: seq<string>)
      requires HeadersDone(a[..], requestUri, from, verb, uri, rest, lines, names[..], values[..]) && (lines != [] ==> lines[0] != "")
      requires Chain(a[..], requestUri, Segments(uri, rest, lines)) && Supported(rest)
      modifies `queryString, a
      ensures HeadersDoneRight(from, verb, uri, rest, lines)
    {
      hide Headers, FirstNameEnds, IsString, Chain, FramePart, HeadersDone, Segments, Hit, Start, Supported, IndexOf, Name, Path, Sees;
      SupportedIsLong(rest);
      DoneNames(a[..], requestUri, from, verb, uri, rest, lines, names[..], values[..]);
      ghost var was := a[..];
      ChainEnd(was, requestUri, Segments(uri, rest, lines));
      queryString := SplitUri(a, requestUri, Segments(uri, rest, lines));
      WhichSegment(uri, rest, lines, requestUri);
      if '?' in uri {
        QueryInUri(was, requestUri, from, verb, uri, rest, lines, names[..], values[..]);
        HeadersAreSeen(a[..], from, a.Length, names[..], values[..], lines);
      } else if Leaks(uri, lines) {
        QueryInName(was, requestUri, from, verb, uri, rest, lines, names[..], values[..]);
      } else {
        NoQuery(was, requestUri, from, verb, uri, rest, lines, names[..], values[..]);
        SegmentsEmpty(uri, rest, lines);
        HeadersAreSeen(a[..], from, a.Length, names[..], values[..], lines);
      }
    }

    /** The headers, and the URI once they are split off. */
    method ParseRest(ghost was: string, next: nat, ghost verb: string, ghost uri: string, ghost rest: string, ghost lines: seq<string>)
      requires IsString(was, 0, Line(verb, uri, rest)) && Supported(rest) && rest[8..] == EOL + LinesText(lines)
      requires (forall l <- lines :: GoodLine(l)) && |lines| <= MAX_HEADERS && |was| == a.Length
      requires var n := |Line(verb, uri, rest)|; n + 1 < a.Length && was[n + 1] == NUL
      requires requestUri == |verb| + 1 && next == |verb| + |uri| + 12 && forall k :: next - 1 <= k < a.Length ==> a[k] == was[k]
      requires IsString(a[..], 0, verb) && IsString(a[..], requestUri, uri) && IsString(a[..], next - 10, rest[..8])
      requires names.Length == values.Length == MAX_HEADERS && numHeaders == 0
      modifies `queryString, `numHeaders, a, names, values
      ensures numHeaders == |lines| && HeadersDoneRight(next, verb, uri, rest, lines)
    {
      hide Headers, Unread, Chain, FirstNameEnds, GoodLine, LinesText, Line, IsString, Supported;
      ghost var t, line := Line(verb, uri, rest), a[..];
      SupportedIsLong(rest);
      HeadersNext(was, line, verb, uri, rest, lines);
      GoodLinesAreThere(lines);
      ParseHeaders(t, next, lines);
      UriChain(line, a[..], requestUri, next, t, uri, rest, lines);
      StringFits(line, 0, verb);
      StringKept(line, a[..], 0, verb);
      HeadersKept(a[..], a[..], next, |t|, a.Length, names[..], values[..], lines);
      Split(next, verb, uri, rest, lines);
    }

    /** The pointers lead to the parts of the head. */
    ghost predicate HeadersDoneRight(from: nat, verb: string, uri: string, rest: string, lines: seq<string>)
      requires from >= 5
      reads this, a, names, values
    {
      && FramePart(a[..], verb, from - 5, rest) && IsString(a[..], requestUri, Path(uri))
      && (if uri == "" then queryString.None? else queryString.Some? && IsString(a[..], queryString.value, Query(uri, lines)))
      && Sees(a[..], names[..], values[..], SeenFields(uri, lines))
    }

    /**
     The head is split: the pointers lead to method, path, query, version and header parts.  If
     the URI has no '?' but the first header name has one, the query is taken from there.
     */
    method ParseHead(ghost verb: string, ghost uri: string, ghost rest: string, ghost lines: seq<string>) returns (ok: bool)
      requires IsString(a[..], 0, Line(verb, uri, rest)) && ' ' !in verb && ' ' !in uri && rest != ""
      requires var n := |Line(verb, uri, rest)|; n + 1 < a.Length && a[n + 1] == NUL && |verb| + |uri| + 10 <= a.Length
      requires Supported(rest) ==> rest[8..] == EOL + LinesText(lines) && (forall l <- lines :: GoodLine(l)) && |lines| <= MAX_HEADERS
      requires names.Length == values.Length == MAX_HEADERS && numHeaders == 0
      modifies this, a, names, values
      ensures ok <==> Supported(rest)
      ensures ok ==> requestMethod == 0 && httpVersion == |verb| + |uri| + 7 && numHeaders == |lines|
      ensures ok ==> HeadersDoneRight(httpVersion + 5, verb, uri, rest, lines)
    {
      hide Headers, GoodLine, LinesText, Line, IsString, Supported;
      ghost var was := a[..];
      if Supported(rest) {
        SupportedIsLong(rest);
        RestLines(verb, uri, rest, lines);
      }
      var next;
      ok, requestMethod, requestUri, httpVersion, next := RequestLine(a, verb, uri, rest);
      if ok {
        ParseRest(was, next, verb, uri, rest, lines);
      }
    }

    /** get_httpheader: the first header with the name; None where its value is a null pointer. */
    method GetHeader(wanted: string, ghost fields: seq<Field>) returns (v: Option<string>)
      requires numHeaders == |fields| && Sees(a[..], names[..], values[..], fields)
      ensures v == Find(fields, wanted)
    {
      var i := 0;
      assert fields[0..] == fields;
      while i < numHeaders
        invariant 0 <= i <= numHeaders && Find(fields[i..], wanted) == Find(fields, wanted)
      {
        assert HoldsField(a[..], names[..][i], values[..][i], fields[i]);
        assert fields[i..][0] == fields[i] && fields[i..][1..] == fields[i + 1..];
        var name := Take(a, names[i], fields[i].name);
        if name == wanted {
          if values[i].None? {
            return None;
          }
          var value := Take(a, values[i].value, fields[i].value.value);
          return Some(value);
        }
        i := i + 1;
      }
      v := Some("");
    }
  }

  // ------------------------------------------------------------------
  // Rendering
  // ------------------------------------------------------------------

  datatype Header = Header(name: string, value: string)

  predicate Sendable(h: Header) {
    && h.name != "" && ':' !in h.name && '\r' !in h.name && NUL !in h.name && '?' !in h.name
    && '\r' !in h.value && NUL !in h.value
  }

  function HeaderText(h: Header): string { h.name + ": " + h.value }

  function HeaderTexts(hs: seq<Header>): seq<string> {
    seq(|hs|, i requires 0 <= i < |hs| => HeaderText(hs[i]))
  }

  /** The value of the first header with the name, or "". */
  function First(hs: seq<Header>, wanted: string): string {
    if hs == [] then "" else if hs[0].name == wanted then hs[0].value else First(hs[1..], wanted)
  }

  /** It is the one of the first header with that name. */
  lemma {:induction false} FirstIs(before: seq<Header>, h: Header, behind: seq<Header>)
    requires forall x <- before :: x.name != h.name
    ensures First(before + [h] + behind, h.name) == h.value && First(before, h.name) == ""
    decreases |before|
  {
    if before == [] {
      assert (before + [h] + behind)[0] == h;
    } else {
      assert before[0] in before && (before + [h] + behind)[1..] == before[1..] + [h] + behind;
      FirstIs(before[1..], h, behind);
    }
  }

  lemma {:induction false} GoodTexts(hs: seq<Header>)
    requires forall h <- hs :: Sendable(h)
    ensures forall l <- HeaderTexts(hs) :: GoodLine(l)
  {
    forall l | l in HeaderTexts(hs) ensures GoodLine(l) {
      var i :| 0 <= i < |hs| && l == HeaderText(hs[i]);
      assert hs[i] in hs;
    }
  }

  lemma {:induction false} FindIsFirst(hs: seq<Header>, wanted: string)
    requires forall h <- hs :: Sendable(h)
    ensures Find(Fields(HeaderTexts(hs)), wanted) == Some(First(hs, wanted))
  {
    hide Name, Value;
    if hs != [] {
      var h := hs[0];
      assert h in hs;
      NameAndValue(h.name, h.value);
      assert HeaderTexts(hs)[0] == HeaderText(h) && Fields(HeaderTexts(hs))[0] == FieldOf(HeaderText(h));
      assert Fields(HeaderTexts(hs))[1..] == Fields(HeaderTexts(hs[1..]));
      FindIsFirst(hs[1..], wanted);
    }
  }

  /** The first header name has no '?', so all fields are seen as they were sent. */
  lemma SeenAsSent(uri: string, hs: seq<Header>, wanted: string)
    requires forall h <- hs :: Sendable(h)
    ensures !Leaks(uri, HeaderTexts(hs)) && Find(SeenFields(uri, HeaderTexts(hs)), wanted) == Some(First(hs, wanted))
  {
    NoLeak(uri, hs);
    FindIsFirst(hs, wanted);
  }

  lemma {:induction false} NoNulInLines(lines: seq<string>)
    requires forall l <- lines :: GoodLine(l)
    ensures NUL !in LinesText(lines)
  {
    if lines != [] {
      assert lines[0] in lines;
      NoNulInLines(lines[1..]);
    }
  }

  function VersionLine(minor: char, lines: seq<string>): string {
    "HTTP/1." + [minor] + (EOL + LinesText(lines))
  }

  lemma VersionLineIs(minor: char, lines: seq<string>)
    requires minor in {'0', '1'}
    ensures var rest := VersionLine(minor, lines); Supported(rest) && rest[8..] == EOL + LinesText(lines) && rest[5..8] == "1." + [minor]
  {
    hide LinesText;
    var v := "HTTP/1." + [minor];
    var rest := VersionLine(minor, lines);
    assert |v| == 8 && rest[..8] == v;
    assert rest[..5] == v[..5] == "HTTP/";
    assert rest[5..8] == v[5..8] == "1." + [minor];
    assert "1." + ['0'] == "1.0" && "1." + ['1'] == "1.1";
  }

  lemma NoLeak(uri: string, hs: seq<Header>)
    requires forall h <- hs :: Sendable(h)
    ensures !Leaks(uri, HeaderTexts(hs))
  {
    if hs != [] {
      assert hs[0] in hs;
      NameAndValue(hs[0].name, hs[0].value);
      assert HeaderTexts(hs)[0] == HeaderText(hs[0]);
    }
  }

  /** A rendered head, parsed and asked for its parts and one of its headers. */
  method ParseRendered(verb: string, uri: string, minor: char, hs: seq<Header>, wanted: string)
      returns (ok: bool, verbRead: string, path: string, query: string, version: string, value: Option<string>)
    requires ' ' !in verb && NUL !in verb && ' ' !in uri && NUL !in uri && uri != "" && minor in {'0', '1'}
    requires |hs| <= MAX_HEADERS && forall h <- hs :: Sendable(h)
    ensures ok && verbRead == verb && path == uri[..IndexOf(uri, '?')] && version == "1." + [minor]
    ensures query == if '?' in uri then uri[IndexOf(uri, '?') + 1..] else ""
    ensures value == Some(First(hs, wanted))
  {
    hide LinesText, GoodLine, Name, Value, IsString, Find, SeenFields, Leaks, Supported, IndexOf, Sees;
    var lines := HeaderTexts(hs);
    var rest := VersionLine(minor, lines);
    GoodTexts(hs);
    VersionLineIs(minor, lines);
    SeenAsSent(uri, hs, wanted);
    var a := Buffer(verb, uri, minor, lines);
    var r := new Request(a);
    ok := r.ParseHead(verb, uri, rest, lines);
    verbRead := Take(a, r.requestMethod, verb);
    path := Take(a, r.requestUri, Path(uri));
    query := Take(a, r.queryString.value, Query(uri, lines));
    version := Take(a, r.httpVersion, rest[5..8]);
    value := r.GetHeader(wanted, SeenFields(uri, lines));
  }

  lemma NoNulInHead(verb: string, uri: string, minor: char, lines: seq<string>)
    requires NUL !in verb && NUL !in uri && minor in {'0', '1'} && forall l <- lines :: GoodLine(l)
    ensures NUL !in Line(verb, uri, VersionLine(minor, lines))
  {
    hide LinesText, GoodLine;
    NoNulInLines(lines);
    var v := "HTTP/1." + [minor];
    assert NUL !in v;
    assert NUL !in EOL + LinesText(lines);
    assert NUL !in VersionLine(minor, lines);
  }

  /** A buffer with a head and zeros behind it. */
  method Buffer(verb: string, uri: string, minor: char, lines: seq<string>) returns (a: array<char>)
    requires NUL !in verb && NUL !in uri && minor in {'0', '1'} && forall l <- lines :: GoodLine(l)
    ensures var t := Line(verb, uri, VersionLine(minor, lines));
      && fresh(a) && IsString(a[..], 0, t) && |t| + 1 < a.Length && a[|t| + 1] == NUL && |verb| + |uri| + 10 <= a.Length
  {
    hide LinesText, GoodLine;
    var t := Line(verb, uri, VersionLine(minor, lines));
    NoNulInHead(verb, uri, minor, lines);
    VersionLineIs(minor, lines);
    Layout(verb, uri, VersionLine(minor, lines));
    a := new char[|t| + 2](i requires 0 <= i <= |t| + 1 => if i < |t| then t[i] else NUL);
    assert a[0..0 + |t|] == t;
  }

  lemma LeakyLine()
    ensures var lines := ["X?y: 1"];
      && GoodLine(lines[0]) && Leaks("/a", lines) && Query("/a", lines) == "y"
      && SeenFields("/a", lines) == [Field("X", Some("1"))]
  {
    var l := "X?y: 1";
    NameAndValue("X?y", "1");
    assert "X?y" + ": " + "1" == l;
    assert '\r' !in l && NUL !in l && '?' !in "/a";
    assert "X?y" == "X" + ['?'] + "y";
    IndexOfFirst("X", '?', "y");
    assert "X?y"[..1] == "X" && "X?y"[2..] == "y";
  }

  lemma LeakyText()
    ensures Line("GET", "/a", VersionLine('1', ["X?y: 1"])) == "GET /a HTTP/1.1\r\nX?y: 1\r\n\r\n"
  {
    var lines := ["X?y: 1"];
    assert lines[1..] == [];
    assert LinesText(lines) == "X?y: 1\r\n\r\n";
    assert VersionLine('1', lines) == "HTTP/1.1\r\nX?y: 1\r\n\r\n";
    assert Line("GET", "/a", VersionLine('1', lines)) == "GET" + [' '] + "/a" + [' '] + VersionLine('1', lines);
  }

  /** A head without a query whose first header is X?y: it is taken for the query y and a header X. */
  method QuestionMarkLeaks() returns (head: string, query: string, sent: Option<string>, other: Option<string>)
    ensures head == "GET /a HTTP/1.1\r\nX?y: 1\r\n\r\n"
    ensures query == "y" && sent == Some("") && other == Some("1")
  {
    hide LinesText, Line, VersionLine, GoodLine, Leaks, Query, SeenFields, IsString, Sees, IndexOf;
    var lines := ["X?y: 1"];
    var rest := VersionLine('1', lines);
    LeakyLine();
    LeakyText();
    VersionLineIs('1', lines);
    var a := Buffer("GET", "/a", '1', lines);
    head := Take(a, 0, Line("GET", "/a", rest));
    var r := new Request(a);
    var ok := r.ParseHead("GET", "/a", rest, lines);
    query := Take(a, r.queryString.value, Query("/a", lines));
    sent := r.GetHeader("X?y", SeenFields("/a", lines));
    other := r.GetHeader("X", SeenFields("/a", lines));
  }
}
