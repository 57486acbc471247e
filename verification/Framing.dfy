/**
 Streams of messages whose head ends at the first CR LF CR LF, each followed by a body whose
 length the head determines: HTTP requests, and AMI messages (which have no body).
 */
module Framing {
  import opened Wrappers
  import opened Transfer

  const CR: Byte := 13
  const LF: Byte := 10

  /** The reader's buffer size, and the body length a head announces. */
  datatype Rules = Rules(cap: nat, body: seq<Byte> -> nat)

  datatype Message = Message(head: seq<Byte>, body: seq<Byte>)

  predicate Ends(b: seq<Byte>) {
    |b| >= 4 && b[|b| - 4..] == [CR, LF, CR, LF]
  }

  /** No prefix of b shorter than n is a head. */
  predicate NoHead(b: seq<Byte>, n: nat)
    requires n <= |b| + 1
  {
    forall k :: 0 <= k < n ==> !Ends(b[..k])
  }

  /** b[..n] is the shortest prefix that ends in CR LF CR LF. */
  predicate IsHead(b: seq<Byte>, n: nat) {
    n <= |b| && Ends(b[..n]) && NoHead(b, n)
  }

  /** The length of the head, looking from n on. */
  function HeadFrom(b: seq<Byte>, n: nat): (k: Option<nat>)
    requires n <= |b| && NoHead(b, n)
    ensures k.Some? ==> IsHead(b, k.value)
    ensures k.None? ==> NoHead(b, |b| + 1)
    decreases |b| - n
  {
    if Ends(b[..n]) then Some(n) else if n == |b| then None else HeadFrom(b, n + 1)
  }

  function HeadSize(b: seq<Byte>): (k: Option<nat>)
    ensures k.Some? ==> IsHead(b, k.value)
    ensures k.None? ==> NoHead(b, |b| + 1)
  {
    HeadFrom(b, 0)
  }

  /** There is only one shortest prefix, whatever follows it. */
  lemma HeadIs(b: seq<Byte>, n: nat)
    requires IsHead(b, n)
    ensures HeadSize(b) == Some(n)
  {
    var k := HeadSize(b);
    assert Ends(b[..n]);
    if k.Some? { assert Ends(b[..k.value]); }
  }

  lemma NoHeadYet(b: seq<Byte>)
    requires NoHead(b, |b| + 1)
    ensures HeadSize(b).None?
  {
    var k := HeadSize(b);
    assert k.Some? ==> IsHead(b, k.value);
  }

  lemma HeadBehind(a: seq<Byte>, b: seq<Byte>, n: nat)
    requires IsHead(a, n)
    ensures IsHead(a + b, n) && (a + b)[..n] == a[..n] && HeadSize(a + b) == HeadSize(a) == Some(n)
  {
    forall k: nat | k <= n ensures (a + b)[..k] == a[..k] {}
    HeadIs(a, n);
    HeadIs(a + b, n);
  }

  // ------------------------------------------------------------------
  // Streams
  // ------------------------------------------------------------------

  function Body(r: Rules, b: seq<Byte>, n: nat): nat
    requires n <= |b|
  {
    r.body(b[..n])
  }

  /** A whole message that fits the buffer is at the front of b. */
  predicate Ready(r: Rules, b: seq<Byte>) {
    var k := HeadSize(b);
    k.Some? && k.value < r.cap && Body(r, b, k.value) <= r.cap - k.value && k.value + Body(r, b, k.value) <= |b|
  }

  /** The front of b can never become a message that fits. */
  predicate Refused(r: Rules, b: seq<Byte>) {
    var k := HeadSize(b);
    if k.Some? then k.value >= r.cap || Body(r, b, k.value) > r.cap - k.value else |b| >= r.cap
  }

  function Size(r: Rules, b: seq<Byte>): (n: nat)
    requires Ready(r, b)
    ensures 4 <= n <= |b|
  {
    var n := HeadSize(b).value;
    n + Body(r, b, n)
  }

  function First(r: Rules, b: seq<Byte>): Message
    requires Ready(r, b)
  {
    var n := HeadSize(b).value;
    Message(b[..n], b[n..Size(r, b)])
  }

  /** The messages at the front of a stream. */
  function Messages(r: Rules, b: seq<Byte>): seq<Message>
    decreases |b|
  {
    if Ready(r, b) then [First(r, b)] + Messages(r, b[Size(r, b)..]) else []
  }

  function Rest(r: Rules, b: seq<Byte>): seq<Byte>
    decreases |b|
  {
    if Ready(r, b) then Rest(r, b[Size(r, b)..]) else b
  }

  /** A head and a body of the announced length are one message, whatever follows. */
  lemma HeadAndBody(r: Rules, head: seq<Byte>, body: seq<Byte>, rest: seq<Byte>)
    requires IsHead(head, |head|) && |head| < r.cap && |body| == r.body(head) <= r.cap - |head|
    ensures var b := head + body + rest; Ready(r, b) && Size(r, b) == |head| + |body| && First(r, b) == Message(head, body) && b[Size(r, b)..] == rest
  {
    var b := head + body + rest;
    HeadBehind(head, body + rest, |head|);
    assert b == head + (body + rest);
    assert head[..|head|] == head;
    assert b[|head|..|head| + |body|] == body;
  }

  lemma FirstThenRest(r: Rules, b: seq<Byte>, n: nat, x: Message, rest: seq<Byte>)
    requires Ready(r, b) && Size(r, b) == n && First(r, b) == x && b[n..] == rest
    ensures Messages(r, b) == [x] + Messages(r, rest) && Rest(r, b) == Rest(r, rest)
  {
  }

  /** A message does not depend on what follows it. */
  lemma ReadyBehind(r: Rules, a: seq<Byte>, b: seq<Byte>)
    requires Ready(r, a)
    ensures Ready(r, a + b) && Size(r, a + b) == Size(r, a) && First(r, a + b) == First(r, a)
    ensures (a + b)[Size(r, a)..] == a[Size(r, a)..] + b
  {
    var n := HeadSize(a).value;
    HeadBehind(a, b, n);
    assert (a + b)[n..Size(r, a)] == a[n..Size(r, a)];
  }

  /** Complete messages can be read off before what follows them arrives. */
  lemma {:induction false} MessagesCompose(r: Rules, a: seq<Byte>, b: seq<Byte>)
    requires Rest(r, a) == []
    ensures Messages(r, a + b) == Messages(r, a) + Messages(r, b) && Rest(r, a + b) == Rest(r, b)
    decreases |a|
  {
    if Ready(r, a) {
      var n, x := Size(r, a), First(r, a);
      ReadyBehind(r, a, b);
      FirstThenRest(r, a, n, x, a[n..]);
      FirstThenRest(r, a + b, n, x, a[n..] + b);
      MessagesCompose(r, a[n..], b);
      Assoc([x], Messages(r, a[n..]), Messages(r, b));
    } else {
      assert a + b == b;
    }
  }

  /** Nothing fits any more, whatever follows. */
  lemma RefusedBehind(r: Rules, a: seq<Byte>, b: seq<Byte>)
    requires Refused(r, a)
    ensures Refused(r, a + b) && !Ready(r, a + b)
  {
    var k := HeadSize(a);
    if k.Some? {
      HeadBehind(a, b, k.value);
    } else {
      forall n: nat | n <= |a| ensures (a + b)[..n] == a[..n] {}
      var n := HeadSize(a + b);
      if n.Some? { assert Ends((a + b)[..n.value]); }
    }
  }

  /** A message a sender may put on a stream. */
  predicate Fits(r: Rules, m: Message) {
    IsHead(m.head, |m.head|) && |m.head| < r.cap && |m.body| == r.body(m.head) <= r.cap - |m.head|
  }

  function Stream(ms: seq<Message>): seq<Byte> {
    if ms == [] then [] else ms[0].head + ms[0].body + Stream(ms[1..])
  }

  /** Messages put one behind the other are told apart again. */
  lemma {:induction false} MessagesOfStream(r: Rules, ms: seq<Message>)
    requires forall m <- ms :: Fits(r, m)
    ensures Messages(r, Stream(ms)) == ms && Rest(r, Stream(ms)) == []
  {
    if ms == [] {
      assert HeadSize([]).None?;
    } else {
      var m := ms[0];
      assert m in ms;
      HeadAndBody(r, m.head, m.body, Stream(ms[1..]));
      FirstThenRest(r, Stream(ms), |m.head| + |m.body|, m, Stream(ms[1..]));
      MessagesOfStream(r, ms[1..]);
    }
  }

  // ------------------------------------------------------------------
  // How far a connection is
  // ------------------------------------------------------------------

  /**
   `done` is what was delivered, and while the connection is open `pending` is all the rest of
   what arrived.  If it was refused, the next message does not fit.
   */
  ghost predicate Tracks(r: Rules, arrived: seq<Byte>, done: seq<Byte>, delivered: seq<Message>, open: bool, refused: bool, pending: seq<Byte>) {
    && Messages(r, done) == delivered && Rest(r, done) == [] && done <= arrived
    && (refused ==> Refused(r, arrived[|done|..]))
    && (open ==> arrived == done + pending)
  }

  lemma TracksMore(r: Rules, arrived: seq<Byte>, done: seq<Byte>, delivered: seq<Message>, open: bool, refused: bool, pending: seq<Byte>, bytes: seq<Byte>)
    requires Tracks(r, arrived, done, delivered, open, refused, pending)
    ensures Tracks(r, arrived + bytes, done, delivered, open, refused, pending + bytes)
  {
    assert (arrived + bytes)[|done|..] == arrived[|done|..] + bytes;
    if refused { RefusedBehind(r, arrived[|done|..], bytes); }
    if open { Assoc(done, pending, bytes); }
  }

  lemma TracksMessage(r: Rules, arrived: seq<Byte>, done: seq<Byte>, delivered: seq<Message>, head: seq<Byte>, body: seq<Byte>, pending: seq<Byte>, stays: bool)
    requires Tracks(r, arrived, done, delivered, true, false, head + body + pending)
    requires IsHead(head, |head|) && |head| < r.cap && |body| == r.body(head) <= r.cap - |head|
    ensures Tracks(r, arrived, done + (head + body), delivered + [Message(head, body)], stays, false, pending)
  {
    HeadAndBody(r, head, body, []);
    assert head + body + [] == head + body;
    FirstThenRest(r, head + body, |head + body|, Message(head, body), []);
    MessagesCompose(r, done, head + body);
    Assoc(done, head + body, pending);
  }

  lemma TracksClosed(r: Rules, arrived: seq<Byte>, done: seq<Byte>, delivered: seq<Message>, pending: seq<Byte>, pending': seq<Byte>)
    requires Tracks(r, arrived, done, delivered, true, false, pending)
    ensures Tracks(r, arrived, done, delivered, false, false, pending')
  {
  }

  lemma TracksShut(r: Rules, arrived: seq<Byte>, done: seq<Byte>, delivered: seq<Message>, pending: seq<Byte>, pending': seq<Byte>)
    requires Tracks(r, arrived, done, delivered, false, false, pending)
    ensures Tracks(r, arrived, done, delivered, false, false, pending')
  {
  }

  lemma TracksRefused(r: Rules, arrived: seq<Byte>, done: seq<Byte>, delivered: seq<Message>, front: seq<Byte>, inbox: seq<Byte>, open: bool)
    requires Tracks(r, arrived, done, delivered, true, false, front + inbox) && Refused(r, front)
    ensures Tracks(r, arrived, done, delivered, open, true, front + inbox)
  {
    assert arrived[|done|..] == front + inbox;
    RefusedBehind(r, front, inbox);
  }

  /** What was delivered is always a prefix of the messages of the stream. */
  lemma TracksPrefix(r: Rules, arrived: seq<Byte>, done: seq<Byte>, delivered: seq<Message>, open: bool, refused: bool, pending: seq<Byte>)
    requires Tracks(r, arrived, done, delivered, open, refused, pending)
    ensures delivered <= Messages(r, arrived)
    ensures Messages(r, arrived) == delivered + Messages(r, arrived[|done|..])
  {
    MessagesCompose(r, done, arrived[|done|..]);
    assert arrived == done + arrived[|done|..];
  }

  /** It is all of them when what is pending is no message, or cannot become one. */
  lemma TracksInFull(r: Rules, arrived: seq<Byte>, done: seq<Byte>, delivered: seq<Message>, open: bool, refused: bool, pending: seq<Byte>)
    requires Tracks(r, arrived, done, delivered, open, refused, pending)
    requires refused || (open && !Ready(r, pending))
    ensures delivered == Messages(r, arrived)
  {
    TracksPrefix(r, arrived, done, delivered, open, refused, pending);
    if open { assert arrived[|done|..] == pending; }
    if refused { RefusedBehind(r, arrived[|done|..], []); assert arrived[|done|..] + [] == arrived[|done|..]; }
  }

  // ------------------------------------------------------------------
  // Reading a head byte by byte
  // ------------------------------------------------------------------

  lemma OneMoreByte(b: seq<Byte>, x: Byte)
    requires NoHead(b, |b| + 1)
    ensures NoHead(b + [x], |b| + 1) && (Ends(b + [x]) ==> IsHead(b + [x], |b| + 1)) && (!Ends(b + [x]) ==> NoHead(b + [x], |b| + 2))
  {
    forall k: nat | k <= |b| ensures (b + [x])[..k] == b[..k] {}
    assert (b + [x])[..|b| + 1] == b + [x];
  }

  lemma HeadOrNone(b: seq<Byte>)
    requires NoHead(b, |b|)
    ensures if Ends(b) then IsHead(b, |b|) else NoHead(b, |b| + 1)
  {
    assert b[..|b|] == b;
  }

  /** The last four bytes of the head so far are CR LF CR LF. */
  predicate Complete(recv: Data)
    reads recv, recv.s
    requires recv.reqPos + recv.comLen <= recv.s.Length
  {
    && recv.comLen >= 4
    && recv.s[recv.reqPos + recv.comLen - 4] == CR && recv.s[recv.reqPos + recv.comLen - 3] == LF
    && recv.s[recv.reqPos + recv.comLen - 2] == CR && recv.s[recv.reqPos + recv.comLen - 1] == LF
  }

  lemma CompleteIsEnds(recv: Data)
    requires recv.reqPos == 0 && recv.comLen <= recv.s.Length
    ensures Complete(recv) <==> Ends(recv.s[..recv.comLen])
  {
    if recv.comLen >= 4 {
      var n, b := recv.comLen, recv.s[..recv.comLen];
      assert b[n - 4..] == [recv.s[n - 4], recv.s[n - 3], recv.s[n - 2], recv.s[n - 1]];
    }
  }

  /** read(sd, s + req_pos + com_len, 1) */
  method ReadHeadByte(sock: Socket, recv: Data, stalls: bool)
    requires recv.Valid() && recv.reqPos == recv.reqLen == 0 && recv.comLen < recv.sLen && sock.inbox != []
    requires NoHead(recv.s[..recv.comLen], recv.comLen + 1)
    modifies recv`comLen, recv.s, sock`inbox
    ensures recv.Valid() && recv.comLen == old(recv.comLen) + (if stalls then 0 else 1)
    ensures recv.s[..recv.comLen] + sock.inbox == old(recv.s[..recv.comLen] + sock.inbox)
    ensures NoHead(recv.s[..recv.comLen], recv.comLen)
    ensures |sock.inbox| == |old(sock.inbox)| - (if stalls then 0 else 1)
  {
    ghost var before, x := recv.s[..recv.comLen], sock.inbox[0];
    var k := sock.Read(recv.s, recv.reqPos + recv.comLen, 1, if stalls then 0 else 1);
    recv.comLen := recv.comLen + k;
    OneMoreByte(before, x);
    assert recv.s[..recv.comLen] == if stalls then before else before + [x];
  }
}
