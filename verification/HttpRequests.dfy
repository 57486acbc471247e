/**
 Framing and head parsing of amiproc/http.cpp together: a pipelined stream of rendered requests,
 each with a body of the length its Content-Length header says, is cut where it was put together.
 */
module HttpRequests {
  import opened Wrappers
  import opened CStrings
  import opened Transfer
  import opened Framing
  import H = HttpHead
  import Http
  import U = UrlDecode

  // ------------------------------------------------------------------
  // Characters and bytes
  // ------------------------------------------------------------------

  function Chars(b: seq<Byte>): (s: string)
    ensures |s| == |b| && forall i :: 0 <= i < |b| ==> s[i] == b[i] as char
  {
    seq(|b|, i requires 0 <= i < |b| => b[i] as char)
  }

  predicate Narrow(s: string) {
    forall i :: 0 <= i < |s| ==> s[i] as nat < 256
  }

  function BytesOf(s: string): (b: seq<Byte>)
    requires Narrow(s)
    ensures |b| == |s| && forall i :: 0 <= i < |s| ==> b[i] == s[i] as nat
  {
    seq(|s|, i requires 0 <= i < |s| => s[i] as nat)
  }

  lemma CharsOfBytes(s: string)
    requires Narrow(s)
    ensures Chars(BytesOf(s)) == s
  {
  }

  // ------------------------------------------------------------------
  // What a head says
  // ------------------------------------------------------------------

  /** The header lines of a text: each up to a '\r', until a blank line. */
  function SplitLines(s: string): seq<string>
    decreases |s|
  {
    var k := IndexOf(s, '\r');
    if k == 0 || k + 2 > |s| then [] else [s[..k]] + SplitLines(s[k + 2..])
  }

  function Verb(s: string): string { s[..IndexOf(s, ' ')] }

  function BehindWord(s: string): string {
    if ' ' in s then s[IndexOf(s, ' ') + 1..] else ""
  }

  /** The second word. */
  function Target(s: string): string { Verb(BehindWord(s)) }

  /** What is behind the request line: two words, the version and the rest of its line. */
  function BehindLine(s: string): string {
    var rest := BehindWord(BehindWord(s));
    if |rest| < 9 || '\n' !in rest[9..] then "" else rest[9..][IndexOf(rest[9..], '\n') + 1..]
  }

  /** The header fields as the code has them once the URI is split. */
  function FieldsOf(s: string): seq<H.Field> {
    H.SeenFields(Target(s), SplitLines(BehindLine(s)))
  }

  predicate IsDigit(c: char) { '0' <= c <= '9' }

  predicate IsSpace(c: char) { c == ' ' || '\t' <= c <= '\r' }

  /** The value of the digits at the front, behind those that gave v. */
  function Digits(s: string, v: nat): nat {
    if s != "" && IsDigit(s[0]) then Digits(s[1..], 10 * v + (s[0] - '0') as nat) else v
  }

  /** atoi, of a number that is not negative. */
  function Atoi(s: string): nat {
    if s != "" && IsSpace(s[0]) then Atoi(s[1..])
    else if s != "" && s[0] == '+' then Digits(s[1..], 0)
    else Digits(s, 0)
  }

  function Decimal(n: nat): string {
    (if n < 10 then "" else Decimal(n / 10)) + ['0' + (n % 10) as char]
  }

  lemma {:induction false} DigitsThenOne(s: string, c: char, v: nat)
    requires (forall i :: 0 <= i < |s| ==> IsDigit(s[i])) && IsDigit(c)
    ensures Digits(s + [c], v) == 10 * Digits(s, v) + (c - '0') as nat
  {
    if s == "" {
      assert Digits(([c])[1..], 10 * v + (c - '0') as nat) == 10 * v + (c - '0') as nat;
    } else {
      assert (s + [c])[1..] == s[1..] + [c];
      DigitsThenOne(s[1..], c, 10 * v + (s[0] - '0') as nat);
    }
  }

  /** atoi reads a number back from its decimal form. */
  lemma {:induction false} AtoiOfDecimal(n: nat)
    ensures Atoi(Decimal(n)) == Digits(Decimal(n), 0) == n && forall i :: 0 <= i < |Decimal(n)| ==> IsDigit(Decimal(n)[i])
  {
    var c := '0' + (n % 10) as char;
    var front := if n < 10 then "" else Decimal(n / 10);
    if n >= 10 { AtoiOfDecimal(n / 10); }
    DigitsThenOne(front, c, 0);
    assert IsDigit(Decimal(n)[0]);
  }

  /** Spaces and one plus sign in front are passed over, and what is no digit ends the number. */
  lemma {:induction false} AtoiInText(spaces: string, plus: bool, n: nat, more: string)
    requires (forall c <- spaces :: IsSpace(c)) && (more == "" || !IsDigit(more[0]))
    ensures Atoi(spaces + ((if plus then "+" else "") + (Decimal(n) + more))) == n
    decreases |spaces|
  {
    hide Decimal;
    AtoiOfDecimal(n);
    var d := Decimal(n);
    var s := spaces + ((if plus then "+" else "") + (d + more));
    if spaces != "" {
      assert spaces[0] in spaces && s[1..] == spaces[1..] + ((if plus then "+" else "") + (d + more));
      AtoiInText(spaces[1..], plus, n, more);
    } else {
      DigitsThenMore(d, more, 0);
      assert d != "" by { DecimalIsSome(n); }
      assert s == (if plus then "+" else "") + (d + more);
      if plus { assert s[1..] == d + more; } else { assert s == d + more && IsDigit(s[0]); }
    }
  }

  lemma DecimalIsSome(n: nat)
    ensures Decimal(n) != ""
  {
  }

  lemma {:induction false} DigitsThenMore(s: string, more: string, v: nat)
    requires (forall i :: 0 <= i < |s| ==> IsDigit(s[i])) && (more == "" || !IsDigit(more[0]))
    ensures Digits(s + more, v) == Digits(s, v)
  {
    if s == "" {
      assert s + more == more;
    } else {
      assert (s + more)[1..] == s[1..] + more;
      DigitsThenMore(s[1..], more, 10 * v + (s[0] - '0') as nat);
    }
  }

  /** Without a digit behind the spaces the number is 0. */
  lemma {:induction false} AtoiWithoutDigits(spaces: string, more: string)
    requires (forall c <- spaces :: IsSpace(c)) && (more == "" || (!IsDigit(more[0]) && !IsSpace(more[0]) && more[0] != '+'))
    ensures Atoi(spaces + more) == 0
    decreases |spaces|
  {
    if spaces == "" {
      assert spaces + more == more;
    } else {
      assert spaces[0] in spaces && (spaces + more)[1..] == spaces[1..] + more;
      AtoiWithoutDigits(spaces[1..], more);
    }
  }

  /** atoi(get_httpheader(req, "Content-Length")) */
  function AnnouncedLength(s: string): nat {
    var v := H.Find(FieldsOf(s), "Content-Length");
    if v.Some? then Atoi(v.value) else 0
  }

  /** Connection: Upgrade and Upgrade: websocket */
  predicate Upgrades(fields: seq<H.Field>) {
    H.Find(fields, "Connection") == Some("Upgrade") && H.Find(fields, "Upgrade") == Some("websocket")
  }

  /** The path of a URI as it is looked up: decoded, up to a NUL that decoding may have made. */
  function RouteOf(uri: string): string {
    var decoded := U.Rewritten(H.Path(uri), 0, 0);
    decoded[..IndexOf(decoded, NUL)]
  }

  /** What becomes of a request with the head s, by version, headers, method and path. */
  function KindOf(s: string, routes: set<string>): Http.Kind {
    if !H.Supported(BehindWord(BehindWord(s))) then Http.WrongVersion
    else if !Upgrades(FieldsOf(s)) && Verb(s) in {"GET", "POST"} && RouteOf(Target(s)) in routes then Http.Routed
    else Http.NotRouted
  }

  /** A server with a buffer of `size` bytes and these routes. */
  function Server(size: nat, routes: set<string>): Http.Server {
    Http.Server(size, (head: seq<Byte>) => AnnouncedLength(Chars(head)), (head: seq<Byte>) => KindOf(Chars(head), routes))
  }

  lemma {:induction false} SplitOfText(lines: seq<string>)
    requires forall l <- lines :: H.GoodLine(l)
    ensures SplitLines(H.LinesText(lines)) == lines
  {
    if lines == [] {
      assert IndexOf(H.EOL, '\r') == 0;
    } else {
      var l, more := lines[0], H.LinesText(lines[1..]);
      assert l in lines;
      var s := l + (H.EOL + more);
      assert s == l + ['\r'] + (['\n'] + more);
      IndexOfFirst(l, '\r', ['\n'] + more);
      assert s[..|l|] == l && s[|l| + 2..] == more;
      SplitOfText(lines[1..]);
    }
  }

  lemma BehindVersion(rest: string, lines: seq<string>)
    requires H.Supported(rest) && rest[8..] == H.EOL + H.LinesText(lines)
    ensures |rest| >= 9 && var line := rest[9..]; '\n' in line && IndexOf(line, '\n') == 0 && line[1..] == H.LinesText(lines)
  {
    hide H.LinesText;
    assert rest[9..] == rest[8..][1..] == ['\n'] + H.LinesText(lines);
    assert rest[9..][0] == '\n';
  }

  lemma Words(verb: string, uri: string, rest: string)
    requires ' ' !in verb && ' ' !in uri
    ensures var s := H.Line(verb, uri, rest);
      Verb(s) == verb && Target(s) == uri && BehindWord(BehindWord(s)) == rest
  {
    hide IndexOf;
    var s := H.Line(verb, uri, rest);
    var more := uri + ([' '] + rest);
    assert s == verb + [' '] + more && s[|verb|] == ' ';
    IndexOfFirst(verb, ' ', more);
    assert s[..|verb|] == verb && s[|verb| + 1..] == more;
    assert more == uri + [' '] + rest && more[|uri|] == ' ';
    IndexOfFirst(uri, ' ', rest);
    assert more[..|uri|] == uri && more[|uri| + 1..] == rest;
  }

  /** A head is taken apart into what it was put together from. */
  lemma PartsOfHead(verb: string, uri: string, rest: string, lines: seq<string>)
    requires ' ' !in verb && ' ' !in uri
    requires H.Supported(rest) && rest[8..] == H.EOL + H.LinesText(lines) && forall l <- lines :: H.GoodLine(l)
    ensures var s := H.Line(verb, uri, rest);
      && Verb(s) == verb && Target(s) == uri && BehindWord(BehindWord(s)) == rest
      && SplitLines(BehindLine(s)) == lines && FieldsOf(s) == H.SeenFields(uri, lines)
  {
    hide H.LinesText, H.Line, IndexOf, H.SeenFields, H.GoodLine, H.Supported, SplitLines, Verb, BehindWord, Target;
    Words(verb, uri, rest);
    BehindVersion(rest, lines);
    SplitOfText(lines);
  }

  /**
   The parser of the code on the same characters: it finds the announced length, and the decision
   about the request is the one by version, headers, method and path.
   */
  method JudgeHead(a: array<char>, ghost verb: string, ghost uri: string, ghost rest: string, ghost lines: seq<string>, routes: set<string>)
      returns (kind: Http.Kind, length: nat)
    requires IsString(a[..], 0, H.Line(verb, uri, rest)) && ' ' !in verb && ' ' !in uri && rest != ""
    requires var n := |H.Line(verb, uri, rest)|; n + 1 < a.Length && a[n + 1] == NUL && |verb| + |uri| + 10 <= a.Length
    requires H.Supported(rest) ==>
               rest[8..] == H.EOL + H.LinesText(lines) && (forall l <- lines :: H.GoodLine(l)) && |lines| <= H.MAX_HEADERS
    modifies a
    ensures kind == KindOf(H.Line(verb, uri, rest), routes)
    ensures kind.WrongVersion? || length == AnnouncedLength(H.Line(verb, uri, rest))
  {
    hide H.LinesText, H.Line, H.SeenFields, H.GoodLine, H.Supported, H.Find, IsString, FieldsOf, Verb, BehindWord, H.Path, U.Rewritten, H.Sees, H.FramePart;
    length := 0;
    var r := new H.Request(a);
    var ok := r.ParseHead(verb, uri, rest, lines);
    if !ok {
      WrongWords(verb, uri, rest);
      return Http.WrongVersion, 0;
    }
    PartsOfHead(verb, uri, rest, lines);
    ghost var fields := H.SeenFields(uri, lines);
    var announced := r.GetHeader("Content-Length", fields);
    if announced.Some? { length := Atoi(announced.value); }
    var connection := r.GetHeader("Connection", fields);
    if connection == Some("Upgrade") {
      var upgrade := r.GetHeader("Upgrade", fields);
      if upgrade == Some("websocket") {
        return Http.NotRouted, length;
      }
    }
    var method_ := TakeVerb(r, uri, verb, rest, lines);
    if method_ != "GET" && method_ != "POST" {
      return Http.NotRouted, length;
    }
    var path := TakePath(r, uri, verb, rest, lines);
    var decoded := U.Rewritten(path, 0, 0);
    kind := if decoded[..IndexOf(decoded, NUL)] in routes then Http.Routed else Http.NotRouted;
  }

  lemma WrongWords(verb: string, uri: string, rest: string)
    requires ' ' !in verb && ' ' !in uri && !H.Supported(rest)
    ensures !H.Supported(BehindWord(BehindWord(H.Line(verb, uri, rest))))
  {
    Words(verb, uri, rest);
  }

  method TakeVerb(r: H.Request, ghost uri: string, ghost verb: string, ghost rest: string, ghost lines: seq<string>) returns (v: string)
    requires r.requestMethod == 0 && r.httpVersion >= 0 && r.HeadersDoneRight(r.httpVersion + 5, verb, uri, rest, lines)
    ensures v == verb
  {
    v := Take(r.a, r.requestMethod, verb);
  }

  method TakePath(r: H.Request, ghost uri: string, ghost verb: string, ghost rest: string, ghost lines: seq<string>) returns (p: string)
    requires r.HeadersDoneRight(r.httpVersion + 5, verb, uri, rest, lines)
    ensures p == H.Path(uri)
  {
    p := Take(r.a, r.requestUri, H.Path(uri));
  }

  // ------------------------------------------------------------------
  // Where a head ends
  // ------------------------------------------------------------------

  predicate Blank(s: string, i: nat) {
    i + 4 <= |s| && s[i] == '\r' && s[i + 1] == '\n' && s[i + 2] == '\r' && s[i + 3] == '\n'
  }

  /** The first blank line of a head is its last. */
  lemma {:induction false} BlankOnlyAtEnd(pre: string, lines: seq<string>, i: nat)
    requires '\r' !in pre && (forall l <- lines :: H.GoodLine(l))
    requires Blank(pre + (H.EOL + H.LinesText(lines)), i)
    ensures i + 4 == |pre + (H.EOL + H.LinesText(lines))|
    decreases |lines|
  {
    var text := H.LinesText(lines);
    var s := pre + (H.EOL + text);
    assert forall k :: 0 <= k < |pre| ==> s[k] == pre[k] && pre[k] in pre;
    assert s[|pre| + 1] == '\n';
    assert forall k :: 0 <= k < |text| ==> s[|pre| + 2 + k] == text[k];
    if lines != [] {
      var l := lines[0];
      assert l in lines;
      assert text[0] == l[0] && l[0] in l;
      var j := i - |pre| - 2;
      assert Blank(text, j);
      BlankOnlyAtEnd(l, lines[1..], j);
    }
  }

  lemma BlankBehind(pre: string, text: string, i: nat)
    requires Blank(text, i)
    ensures Blank(pre + text, |pre| + i)
  {
  }

  lemma {:induction false} BlankAtEnd(pre: string, lines: seq<string>)
    ensures var s := pre + (H.EOL + H.LinesText(lines)); |s| >= 4 && Blank(s, |s| - 4)
    decreases |lines|
  {
    hide Blank;
    var text := H.EOL + H.LinesText(lines);
    if lines == [] {
      TwoEnds();
      BlankBehind(pre, text, 0);
    } else {
      BlankAtEnd(lines[0], lines[1..]);
      var inner := H.LinesText(lines);
      BlankBehind(H.EOL, inner, |inner| - 4);
      BlankBehind(pre, text, |text| - 4);
    }
  }

  lemma TwoEnds()
    ensures Blank(H.EOL + H.EOL, 0)
  {
  }

  /** Ends of a prefix of bytes is Blank of the characters. */
  lemma EndsIsBlank(s: string, k: nat)
    requires Narrow(s) && k <= |s|
    ensures Ends(BytesOf(s)[..k]) <==> k >= 4 && Blank(s, k - 4)
  {
    var b := BytesOf(s);
    if k >= 4 {
      assert b[..k][k - 4..] == [b[k - 4], b[k - 3], b[k - 2], b[k - 1]];
    }
  }

  lemma HeadEndsOnce(pre: string, lines: seq<string>, s: string)
    requires s == pre + (H.EOL + H.LinesText(lines)) && '\r' !in pre && (forall l <- lines :: H.GoodLine(l)) && Narrow(s)
    ensures IsHead(BytesOf(s), |s|)
  {
    hide H.LinesText, H.GoodLine, Ends;
    BlankAtEnd(pre, lines);
    EndsIsBlank(s, |s|);
    forall k: nat | k < |s| ensures !Ends(BytesOf(s)[..k]) {
      EndsIsBlank(s, k);
      if k >= 4 && Blank(s, k - 4) { BlankOnlyAtEnd(pre, lines, k - 4); }
    }
  }

  // ------------------------------------------------------------------
  // Requests
  // ------------------------------------------------------------------

  datatype Request = Request(verb: string, uri: string, minor: char, headers: seq<H.Header>, body: seq<Byte>)

  function Head(r: Request): string {
    H.Line(r.verb, r.uri, H.VersionLine(r.minor, H.HeaderTexts(r.headers)))
  }

  /** A request that fits a server with these routes and `size` bytes of buffer. */
  predicate Sendable(r: Request, size: nat, routes: set<string>) {
    && r.verb in {"GET", "POST"} && r.minor in {'0', '1'}
    && ' ' !in r.uri && '\r' !in r.uri && NUL !in r.uri && RouteOf(r.uri) in routes
    && |r.headers| <= H.MAX_HEADERS && (forall h <- r.headers :: H.Sendable(h)) && Narrow(Head(r))
    && !(H.First(r.headers, "Connection") == "Upgrade" && H.First(r.headers, "Upgrade") == "websocket")
    && Atoi(H.First(r.headers, "Content-Length")) == |r.body|
    && |Head(r)| < size && |r.body| <= size - |Head(r)|
  }

  function MessageOf(r: Request): Message
    requires Narrow(Head(r))
  {
    Message(BytesOf(Head(r)), r.body)
  }

  predicate AllSendable(rs: seq<Request>, size: nat, routes: set<string>) {
    forall i :: 0 <= i < |rs| ==> Sendable(rs[i], size, routes)
  }

  function MessagesOf(rs: seq<Request>, size: nat, routes: set<string>): seq<Message>
    requires AllSendable(rs, size, routes)
  {
    seq(|rs|, i requires 0 <= i < |rs| => assert Sendable(rs[i], size, routes); MessageOf(rs[i]))
  }

  /** Any method, path, version 1.0 or 1.1 and headers: what a head can be rendered from. */
  predicate Renderable(r: Request) {
    ' ' !in r.verb && ' ' !in r.uri && r.minor in {'0', '1'} && forall h <- r.headers :: H.Sendable(h)
  }

  lemma HeadParts(r: Request)
    requires Renderable(r)
    ensures var s, lines := Head(r), H.HeaderTexts(r.headers);
      && (forall l <- lines :: H.GoodLine(l)) && H.Supported(BehindWord(BehindWord(s)))
      && Verb(s) == r.verb && Target(s) == r.uri && FieldsOf(s) == H.SeenFields(r.uri, lines)
  {
    hide H.LinesText, H.Line, H.VersionLine, H.HeaderTexts, H.SeenFields, H.GoodLine, SplitLines, Target, Verb, BehindWord;
    var lines := H.HeaderTexts(r.headers);
    H.GoodTexts(r.headers);
    H.VersionLineIs(r.minor, lines);
    PartsOfHead(r.verb, r.uri, H.VersionLine(r.minor, lines), lines);
  }

  lemma {:induction false} AnnouncesItsBody(r: Request, size: nat, routes: set<string>)
    requires Sendable(r, size, routes)
    ensures AnnouncedLength(Head(r)) == |r.body|
  {
    hide Head, Atoi;
    AnnouncesExactly(r);
  }

  /** The announced length is atoi of the first Content-Length header, or 0. */
  lemma AnnouncesExactly(r: Request)
    requires Renderable(r)
    ensures AnnouncedLength(Head(r)) == Atoi(H.First(r.headers, "Content-Length"))
  {
    hide Head, FieldsOf, Atoi, H.Find, H.SeenFields;
    HeadParts(r);
    H.SeenAsSent(r.uri, r.headers, "Content-Length");
  }

  lemma {:induction false} IsRouted(r: Request, size: nat, routes: set<string>)
    requires Sendable(r, size, routes)
    ensures KindOf(Head(r), routes).Routed?
  {
    hide Head, Atoi, RouteOf, KindOf;
    IsRoutedExactly(r, routes);
  }

  /**
   GET and POST only, a path with a route, and no upgrade to a WebSocket; all other requests of a
   supported version are answered otherwise.
   */
  lemma {:induction false} IsRoutedExactly(r: Request, routes: set<string>)
    requires Renderable(r)
    ensures KindOf(Head(r), routes).Routed? <==>
      && r.verb in {"GET", "POST"} && RouteOf(r.uri) in routes
      && !(H.First(r.headers, "Connection") == "Upgrade" && H.First(r.headers, "Upgrade") == "websocket")
    ensures !KindOf(Head(r), routes).Routed? ==> KindOf(Head(r), routes).NotRouted?
  {
    hide Head, FieldsOf, Atoi, H.Find, H.SeenFields, Verb, Target, BehindWord, H.Supported, RouteOf;
    HeadParts(r);
    H.SeenAsSent(r.uri, r.headers, "Connection");
    H.SeenAsSent(r.uri, r.headers, "Upgrade");
  }

  /** 505: another version than 1.0 and 1.1, whatever the rest of the request is. */
  lemma WrongVersionExactly(verb: string, uri: string, name: string, version: string, more: string, routes: set<string>)
    requires ' ' !in verb && ' ' !in uri && |name| == 5 && |version| == 3
    ensures KindOf(H.Line(verb, uri, name + version + more), routes).WrongVersion? <==> !(name == "HTTP/" && version in {"1.0", "1.1"})
  {
    hide H.Line, Verb, Target, BehindWord, FieldsOf, RouteOf;
    Words(verb, uri, name + version + more);
    H.SupportedExactly(name, version, more);
  }

  /** The path of a URI without malformed escapes is decoded as by a decoder that writes elsewhere. */
  lemma RouteOfPlain(uri: string)
    requires U.WellFormed(H.Path(uri))
    ensures var path := U.Plain(H.Path(uri)); RouteOf(uri) == path[..IndexOf(path, NUL)]
  {
    U.RewrittenIsPlain(H.Path(uri));
  }

  /** However a path is percent-encoded and whatever query follows it, it is looked up as it was. */
  lemma {:induction false} RouteOfEncoded(path: string, keep: set<char>, high: bool, low: bool, query: string)
    requires U.Octets(path) && NUL !in path && '?' !in keep && (query == "" || query[0] == '?')
    ensures RouteOf(U.Encode(path, keep, high, low) + query) == path
  {
    hide U.Encode, U.Plain, U.WellFormed, U.Rewritten, IndexOf;
    var e := U.Encode(path, keep, high, low);
    U.DecodeOfEncode(path, keep, high, low);
    U.EncodeAvoids(path, keep, high, low, '?');
    PathInFront(e, query);
    RouteOfPlain(e + query);
    IndexOfNone(path, NUL);
    assert path[..|path|] == path;
  }

  lemma PathInFront(e: string, query: string)
    requires '?' !in e && (query == "" || query[0] == '?')
    ensures H.Path(e + query) == e
  {
    hide IndexOf;
    if query == "" {
      assert e + query == e;
      IndexOfNone(e, '?');
    } else {
      assert e + query == e + ['?'] + query[1..];
      IndexOfFirst(e, '?', query[1..]);
    }
    assert (e + query)[..|e|] == e;
  }

  lemma {:induction false} RequestFits(r: Request, size: nat, routes: set<string>)
    requires Sendable(r, size, routes)
    ensures Fits(Server(size, routes).Limits(), MessageOf(r)) && Server(size, routes).kind(MessageOf(r).head).Routed?
  {
    hide AnnouncedLength, KindOf, H.LinesText, H.HeaderTexts, H.GoodLine;
    AnnouncesItsBody(r, size, routes);
    IsRouted(r, size, routes);
    CharsOfBytes(Head(r));
    H.GoodTexts(r.headers);
    var lines := H.HeaderTexts(r.headers);
    var pre := r.verb + [' '] + r.uri + [' '] + "HTTP/1." + [r.minor];
    assert Head(r) == pre + (H.EOL + H.LinesText(lines));
    HeadEndsOnce(pre, lines, Head(r));
  }

  /** 413: a request is refused exactly when head and body do not fit the buffer; the head needs one byte more. */
  lemma {:induction false} RefusedExactly(r: Request, size: nat, routes: set<string>)
    requires Renderable(r) && '\r' !in r.verb && '\r' !in r.uri && Narrow(Head(r)) && |r.headers| <= H.MAX_HEADERS
    ensures var n := |Head(r)|;
      Refused(Server(size, routes).Limits(), BytesOf(Head(r))) <==> n >= size || Atoi(H.First(r.headers, "Content-Length")) > size - n
  {
    hide AnnouncedLength, KindOf, Atoi, H.LinesText, H.HeaderTexts, H.GoodLine;
    AnnouncesExactly(r);
    CharsOfBytes(Head(r));
    H.GoodTexts(r.headers);
    var lines := H.HeaderTexts(r.headers);
    var pre := r.verb + [' '] + r.uri + [' '] + "HTTP/1." + [r.minor];
    assert Head(r) == pre + (H.EOL + H.LinesText(lines));
    HeadEndsOnce(pre, lines, Head(r));
    HeadIs(BytesOf(Head(r)), |Head(r)|);
    assert BytesOf(Head(r))[..|Head(r)|] == BytesOf(Head(r));
  }

  /** A stream of requests is cut exactly where they were put together. */
  lemma {:induction false} RequestsOfStream(rs: seq<Request>, size: nat, routes: set<string>)
    requires AllSendable(rs, size, routes)
    ensures var server, ms := Server(size, routes), MessagesOf(rs, size, routes);
      Messages(server.Limits(), Stream(ms)) == ms && Http.AllRouted(server.kind, ms)
  {
    hide Fits, Server;
    var server, ms := Server(size, routes), MessagesOf(rs, size, routes);
    forall i | 0 <= i < |ms| ensures Fits(server.Limits(), ms[i]) && server.kind(ms[i].head).Routed? {
      assert Sendable(rs[i], size, routes);
      RequestFits(rs[i], size, routes);
    }
    MessagesOfStream(server.Limits(), ms);
  }

  /**
   However a pipelined stream of requests is cut into arrivals and reads, and whatever the routes
   answer as long as they keep the connection, the routes see each request with its body, in order.
   */
  method ServeRequests(rs: seq<Request>, chunks: seq<seq<Byte>>, kernel: nat -> nat, verdict: nat -> Next, size: nat, routes: set<string>)
      returns (delivered: seq<Message>)
    requires AllSendable(rs, size, routes) && size >= 4 && Concat(chunks) == Stream(MessagesOf(rs, size, routes))
    requires (forall i :: kernel(i) > 0) && (forall i :: verdict(i) in {Suspend, Send})
    ensures delivered == MessagesOf(rs, size, routes)
  {
    hide Server;
    var server := Server(size, routes);
    assert server.size == size by { ServerSize(size, routes); }
    delivered := Http.Serve(chunks, kernel, verdict, server);
    RequestsOfStream(rs, size, routes);
    Http.RoutableFront(server.kind, MessagesOf(rs, size, routes), []);
    assert MessagesOf(rs, size, routes) + [] == MessagesOf(rs, size, routes);
  }

  lemma ServerSize(size: nat, routes: set<string>)
    ensures Server(size, routes).size == size
  {
  }
}
