/**
 amiproc/http.cpp, http(): requests are read up to the blank line and, by the worker's automatic
 receiving, up to the announced length; nothing of the next request is touched.
 */
module Http {
  import opened Wrappers
  import opened Transfer
  import opened Framing

  lemma BodyMore(head: seq<Byte>, read: seq<Byte>, pos: nat, inbox: seq<Byte>, n: nat)
    requires pos <= |read| && n <= |inbox|
    ensures head + read[pos..] + inbox == head + (read + inbox[..n])[pos..] + inbox[n..]
  {
    assert (read + inbox[..n])[pos..] == read[pos..] + inbox[..n];
    assert inbox == inbox[..n] + inbox[n..];
  }

  /** What becomes of a request with a given head: a route function gets it; it is answered with
      404 or 501, or the connection is handed to websocket(); or it is answered with 505. */
  datatype Kind = Routed | NotRouted | WrongVersion

  /** The server: how it sorts heads, and the body length each announces. */
  datatype Server = Server(size: nat, body: seq<Byte> -> nat, kind: seq<Byte> -> Kind) {
    function Limits(): Rules { Rules(size, body) }
  }

  predicate AllRouted(kind: seq<Byte> -> Kind, ms: seq<Message>) {
    forall i :: 0 <= i < |ms| ==> kind(ms[i].head).Routed?
  }

  /** The requests in front of the first one that no route gets. */
  function Routable(kind: seq<Byte> -> Kind, ms: seq<Message>): (r: seq<Message>)
    ensures r <= ms && AllRouted(kind, r)
    ensures |r| < |ms| ==> !kind(ms[|r|].head).Routed?
  {
    if ms == [] || !kind(ms[0].head).Routed? then [] else [ms[0]] + Routable(kind, ms[1..])
  }

  lemma {:induction false} RoutableFront(kind: seq<Byte> -> Kind, front: seq<Message>, rest: seq<Message>)
    requires AllRouted(kind, front) && (rest == [] || !kind(rest[0].head).Routed?)
    ensures Routable(kind, front + rest) == front
    decreases |front|
  {
    if front == [] {
      assert front + rest == rest;
    } else {
      assert (front + rest)[1..] == front[1..] + rest;
      assert forall i :: 0 <= i < |front| - 1 ==> front[1..][i] == front[i + 1];
      RoutableFront(kind, front[1..], rest);
    }
  }

  /** The stream goes on with a head that no route gets. */
  predicate Unroutable(kind: seq<Byte> -> Kind, b: seq<Byte>) {
    var k := HeadSize(b);
    k.Some? && !kind(b[..k.value]).Routed?
  }

  lemma UnroutableBehind(kind: seq<Byte> -> Kind, a: seq<Byte>, b: seq<Byte>)
    requires Unroutable(kind, a)
    ensures Unroutable(kind, a + b)
  {
    HeadBehind(a, b, HeadSize(a).value);
  }

  lemma UnroutableHead(kind: seq<Byte> -> Kind, head: seq<Byte>, rest: seq<Byte>)
    requires IsHead(head, |head|) && !kind(head).Routed?
    ensures Unroutable(kind, head + rest)
  {
    HeadIs(head, |head|);
    assert head[..|head|] == head;
    UnroutableBehind(kind, head, rest);
  }

  /** A kept-open connection: socket, receive buffer and REQUEST_INFO. */
  class Connection {
    const sock: Socket
    const recv: Data
    const rules: Rules
    const kind: seq<Byte> -> Kind
    /** user_data: the head of the request whose body is being received. */
    var request: Option<seq<Byte>>
    var open: bool
    var refused: bool // answered with 413
    var declined: bool // closed, or handed on, without a route
    /** The calls of the route functions. */
    var delivered: seq<Message>
    ghost var arrived: seq<Byte>
    ghost var done: seq<Byte>

    /** What has been read but not delivered. */
    ghost function Held(): seq<Byte>
      reads `request, recv`s, recv`reqPos, recv`comLen, recv.s
    {
      if recv.reqPos + recv.comLen > recv.s.Length then []
      else if request.Some? then request.value + recv.s[recv.reqPos..recv.reqPos + recv.comLen]
      else recv.s[..recv.comLen]
    }

    /** The buffer while the connection is open: inside a head, or inside the body behind one. */
    ghost predicate BufferOk()
      reads `request, `open, recv, recv.s
    {
      && recv.Valid() && recv.sLen == rules.cap >= 4
      && (open && request.None? ==>
            && recv.reqPos == recv.reqLen == 0 && recv.comLen < recv.sLen
            && NoHead(recv.s[..recv.comLen], recv.comLen + 1))
      && (open && request.Some? ==>
            && IsHead(request.value, |request.value|) && |request.value| == recv.reqPos < rules.cap
            && recv.reqLen == rules.body(request.value) && recv.comLen < recv.reqLen)
    }

    ghost predicate Valid()
      reads this, sock, recv, recv.s
    {
      && BufferOk() && !(open && (refused || declined)) && StreamOk()
      && Tracks(rules, arrived, done, delivered, open, refused, Held() + sock.inbox)
    }

    /** Only routed requests were delivered, and behind them may come one that is not. */
    ghost predicate StreamOk()
      reads `delivered, `declined, `arrived, `done
    {
      AllRouted(kind, delivered) && (declined ==> |done| <= |arrived| && Unroutable(kind, arrived[|done|..]))
    }

    constructor (sock: Socket, recv: Data, server: Server)
      requires recv.Valid() && recv.sLen == server.size >= 4 && recv.reqPos == recv.reqLen == recv.comLen == 0
      ensures Valid() && open && delivered == [] && arrived == sock.inbox && request.None?
      ensures this.sock == sock && this.recv == recv && rules == server.Limits() && kind == server.kind
    {
      this.sock, this.recv, rules, kind := sock, recv, server.Limits(), server.kind;
      request, open, refused, declined, delivered := None, true, false, false, [];
      arrived, done := sock.inbox, [];
    }

    method Arrive(bytes: seq<Byte>)
      requires Valid()
      modifies sock`inbox, this`arrived
      ensures Valid() && arrived == old(arrived) + bytes && sock.inbox == old(sock.inbox) + bytes
    {
      hide Tracks;
      TracksMore(rules, arrived, done, delivered, open, refused, Held() + sock.inbox, bytes);
      Assoc(Held(), sock.inbox, bytes);
      if declined {
        UnroutableBehind(kind, arrived[|done|..], bytes);
        assert (arrived + bytes)[|done|..] == arrived[|done|..] + bytes;
      }
      sock.inbox := sock.inbox + bytes;
      arrived := arrived + bytes;
    }

    /** One byte at a time, so that nothing behind the blank line is read.  Read i may bring nothing. */
    method ReadHead(stalls: nat -> bool)
      requires BufferOk() && open && request.None? && 0 < recv.checkedLen <= |sock.inbox|
      modifies recv`comLen, recv.s, sock`inbox
      ensures recv.Valid() && recv.comLen <= recv.sLen
      ensures recv.s[..recv.comLen] + sock.inbox == old(recv.s[..recv.comLen] + sock.inbox)
      ensures NoHead(recv.s[..recv.comLen], recv.comLen)
      ensures |sock.inbox| <= |old(sock.inbox)| && (!stalls(0) ==> |sock.inbox| < |old(sock.inbox)|)
    {
      var remain: int := recv.sLen - recv.reqPos - recv.comLen;
      if remain > recv.checkedLen {
        remain := recv.checkedLen;
      }
      ghost var all := recv.s[..recv.comLen] + sock.inbox;
      var i := 0;
      CompleteIsEnds(recv);
      assert recv.s[..recv.comLen][..recv.comLen] == recv.s[..recv.comLen];
      while remain > 0 && recv.reqPos + recv.comLen < recv.sLen && !Complete(recv)
        invariant recv.Valid() && recv.reqPos == recv.reqLen == 0 && recv.comLen <= recv.sLen
        invariant recv.s[..recv.comLen] + sock.inbox == all
        invariant NoHead(recv.s[..recv.comLen], recv.comLen)
        invariant Complete(recv) <==> Ends(recv.s[..recv.comLen])
        invariant remain <= |sock.inbox| <= |old(sock.inbox)|
        invariant i == 0 ==> remain > 0 && recv.comLen < recv.sLen && !Complete(recv)
        invariant i > 0 && !stalls(0) ==> |sock.inbox| < |old(sock.inbox)|
        decreases remain
      {
        assert NoHead(recv.s[..recv.comLen], recv.comLen + 1);
        ReadHeadByte(sock, recv, stalls(i));
        remain, i := remain - 1, i + 1;
        CompleteIsEnds(recv);
      }
    }

    /** 413 Payload Too Large */
    method Refuse(ghost front: seq<Byte>)
      requires Tracks(rules, arrived, done, delivered, true, false, front + sock.inbox) && Refused(rules, front)
      requires recv.Valid() && recv.sLen == rules.cap >= 4 && !declined && StreamOk()
      modifies `open, `refused
      ensures Valid() && !open && refused
    {
      TracksRefused(rules, arrived, done, delivered, front, sock.inbox, false);
      open, refused := false, true;
    }

    method Close(ghost pending: seq<Byte>)
      requires Tracks(rules, arrived, done, delivered, true, false, pending)
      requires recv.Valid() && recv.sLen == rules.cap >= 4 && !refused && StreamOk()
      modifies `open
      ensures Valid() && !open
    {
      hide Tracks;
      TracksClosed(rules, arrived, done, delivered, pending, Held() + sock.inbox);
      open := false;
    }

    /** 404 Not found, 501 Not Implemented, 505 HTTP Version Not Supported, or on to websocket(). */
    method Decline(ghost head: seq<Byte>, ghost rest: seq<Byte>)
      requires Tracks(rules, arrived, done, delivered, true, false, head + rest)
      requires recv.Valid() && recv.sLen == rules.cap >= 4 && !refused && StreamOk()
      requires IsHead(head, |head|) && !kind(head).Routed?
      modifies `open, `declined
      ensures Valid() && !open && declined
    {
      UnroutableHead(kind, head, rest);
      assert arrived[|done|..] == head + rest;
      declined := true;
      Close(head + rest);
    }

    /**
     The whole request is there.  A route function gets it if there is one; unless that closes,
     the connection is made ready for the next request.
     */
    method Route(head: seq<Byte>, body: seq<Byte>, verdict: Next)
      requires recv.Valid() && recv.sLen == rules.cap >= 4 && open && !refused && !declined && StreamOk() && verdict != Run
      requires Fits(rules, Message(head, body))
      requires Tracks(rules, arrived, done, delivered, true, false, head + body + sock.inbox)
      modifies `request, `open, `declined, `delivered, `done, recv`reqPos, recv`reqLen, recv`comLen, recv.s
      ensures Valid() && !refused && declined == !kind(head).Routed? && open == (kind(head).Routed? && verdict != Disconnect)
      ensures delivered == if kind(head).Routed? then old(delivered) + [Message(head, body)] else old(delivered)
    {
      hide Tracks, Unroutable;
      if !kind(head).Routed? {
        Assoc(head, body, sock.inbox);
        Decline(head, body + sock.inbox);
        return;
      }
      TracksMessage(rules, arrived, done, delivered, head, body, sock.inbox, verdict != Disconnect);
      delivered := delivered + [Message(head, body)];
      done := done + (head + body);
      open := verdict != Disconnect;
      if verdict != Disconnect {
        request := None;
        recv.ResetData();
        assert Held() + sock.inbox == sock.inbox;
      } else {
        TracksShut(rules, arrived, done, delivered, sock.inbox, Held() + sock.inbox);
      }
    }

    /** The head is there: a body is left to the automatic receiving, anything else is routed. */
    method OnHead(verdict: Next)
      requires recv.Valid() && recv.sLen == rules.cap >= 4 && open && !refused && !declined && StreamOk() && request.None?
      requires verdict != Run
      requires recv.reqPos == recv.reqLen == 0 && recv.comLen < recv.sLen && IsHead(recv.s[..recv.comLen], recv.comLen)
      requires Tracks(rules, arrived, done, delivered, true, false, recv.s[..recv.comLen] + sock.inbox)
      modifies `request, `open, `refused, `declined, `delivered, `done, recv`reqPos, recv`reqLen, recv`comLen, recv.s
      ensures Valid() && (open || refused || declined || verdict == Disconnect)
      ensures old(delivered) <= delivered && |delivered| <= |old(delivered)| + 1
    {
      hide Tracks, Unroutable;
      var head := recv.s[..recv.comLen];
      HeadIs(head, recv.comLen);
      assert head[..recv.comLen] == head;
      if kind(head).WrongVersion? {
        Decline(head, sock.inbox);
        return;
      }
      var length := rules.body(head);
      if length != 0 {
        if length > recv.sLen - recv.comLen {
          Refuse(head);
          return;
        }
        request := Some(head);
        recv.reqPos := recv.comLen;
        recv.comLen := 0;
        recv.reqLen := length;
        assert Held() == head;
      } else {
        assert head + [] == head;
        Route(head, [], verdict);
      }
    }

    /** http(), for an input event. */
    method OnReady(verdict: Next, stalls: nat -> bool)
      requires recv.Valid() && recv.sLen == rules.cap >= 4 && open && !refused && !declined && StreamOk() && verdict != Run
      requires if request.Some?
        then
          && recv.reqPos + recv.comLen <= recv.s.Length
          && Fits(rules, Message(request.value, recv.s[recv.reqPos..recv.reqPos + recv.comLen])) && recv.checkedLen == 0
          && Tracks(rules, arrived, done, delivered, true, false, request.value + recv.s[recv.reqPos..recv.reqPos + recv.comLen] + sock.inbox)
        else Valid() && 0 < recv.checkedLen <= |sock.inbox|
      modifies this, recv`reqPos, recv`reqLen, recv`comLen, recv.s, sock`inbox
      ensures Valid() && arrived == old(arrived)
      ensures old(delivered) <= delivered && |delivered| <= |old(delivered)| + 1
      ensures |sock.inbox| <= |old(sock.inbox)|
      ensures old(request).None? && !stalls(0) ==> |sock.inbox| < |old(sock.inbox)|
      ensures open || refused || declined || verdict == Disconnect
    {
      hide Tracks, Complete, NoHead, Ends;
      if recv.checkedLen != 0 {
        ReadHead(stalls);
        CompleteIsEnds(recv);
        ghost var front := recv.s[..recv.comLen];
        HeadOrNone(front);
        if recv.reqPos + recv.comLen >= recv.sLen {
          Refuse(front);
          return;
        }
        if !Complete(recv) {
          return;
        }
      }
      if request.None? {
        OnHead(verdict);
      } else {
        Route(request.value, recv.s[recv.reqPos..recv.reqPos + recv.comLen], verdict);
      }
    }

    /** The automatic receiving does nothing while a head is read, and stops where the body ends. */
    method Receive(ioctlFails: bool, willing: nat) returns (next: Next)
      requires Valid() && open && 0 < recv.checkedLen <= |sock.inbox|
      modifies recv`comLen, recv`checkedLen, recv.s, sock`inbox
      ensures recv.Valid() && next in {Run, Suspend} && |sock.inbox| <= |old(sock.inbox)|
      ensures request.None? ==> next == Run && Valid() && sock.inbox == old(sock.inbox) && recv.checkedLen == old(recv.checkedLen)
      ensures request.Some? && next == Suspend ==> Valid()
      ensures request.Some? && next == Run ==>
                && recv.reqPos + recv.comLen <= recv.s.Length && recv.checkedLen == 0
                && Fits(rules, Message(request.value, recv.s[recv.reqPos..recv.reqPos + recv.comLen]))
                && Tracks(rules, arrived, done, delivered, true, false, request.value + recv.s[recv.reqPos..recv.reqPos + recv.comLen] + sock.inbox)
      ensures request.Some? && willing > 0 && !ioctlFails ==> |sock.inbox| < |old(sock.inbox)|
    {
      hide Tracks, IsHead, Ends, NoHead;
      ghost var inbox, read := sock.inbox, recv.s[..recv.reqPos + recv.comLen];
      assert request.Some? ==> read[recv.reqPos..] == recv.s[recv.reqPos..recv.reqPos + recv.comLen];
      ghost var n;
      next, n := recv.AutoReceive(sock, ioctlFails, willing);
      if request.Some? {
        BodyMore(request.value, read, recv.reqPos, inbox, n);
        assert recv.s[..recv.reqPos + recv.comLen] == read + inbox[..n];
        assert recv.s[recv.reqPos..recv.reqPos + recv.comLen] == (read + inbox[..n])[recv.reqPos..];
      }
    }

    /** A worker's job for an input event, after the dispatcher counted some of what is there now. */
    method InputJob(counted: nat, verdict: Next, ioctlFails: bool, willing: nat, stalls: nat -> bool)
      requires Valid() && open && verdict != Run && 0 < counted <= |sock.inbox|
      modifies this, recv`reqPos, recv`reqLen, recv`comLen, recv`checkedLen, recv.s, sock`inbox
      ensures Valid() && arrived == old(arrived)
      ensures old(delivered) <= delivered && |delivered| <= |old(delivered)| + 1
      ensures |sock.inbox| <= |old(sock.inbox)|
      ensures willing > 0 && !ioctlFails && !stalls(0) ==> |sock.inbox| < |old(sock.inbox)|
      ensures open || refused || declined || verdict == Disconnect
    {
      hide Tracks;
      recv.checkedLen := counted;
      var next := Receive(ioctlFails, willing);
      if next == Run {
        OnReady(verdict, stalls);
      }
    }

    /** http(), for an output event: the response is out, and the connection is closed. */
    method OutputJob()
      requires Valid() && open
      modifies `open
      ensures Valid() && !open
    {
      Close(Held() + sock.inbox);
    }

    method Happens(e: Event)
      requires Valid() && (e.Input? ==> e.verdict != Run)
      modifies this, recv`reqPos, recv`reqLen, recv`comLen, recv`checkedLen, recv.s, sock`inbox
      ensures Valid() && arrived == old(arrived) + (if e.Arrival? then e.bytes else [])
      ensures Keeps(e) && old(open || refused || declined) ==> open || refused || declined
      ensures e.Input? && old(open && sock.inbox != []) && e.willing > 0 && !e.ioctlFails && !e.stalls(0) ==>
                |sock.inbox| < |old(sock.inbox)|
    {
      hide Tracks;
      match e
      case Arrival(bytes) => Arrive(bytes);
      case Input(counted, verdict, ioctlFails, willing, stalls) =>
        if open && sock.inbox != [] {
          InputJob(Min(counted + 1, |sock.inbox|), verdict, ioctlFails, willing, stalls);
        }
      case Output =>
        if open {
          OutputJob();
        }
    }

    /** What was delivered is always a prefix of the stream's requests, whatever happens, and all of
        it is for routes. */
    lemma DeliveredInOrder()
      requires Valid()
      ensures delivered <= Messages(rules, arrived) && AllRouted(kind, delivered)
    {
      TracksPrefix(rules, arrived, done, delivered, open, refused, Held() + sock.inbox);
    }

    /** It is all of them up to one that no route gets, once everything was read, unless a route or
        an output event closed. */
    lemma DeliveredInFull()
      requires Valid() && (open || refused || declined) && (open ==> sock.inbox == [])
      ensures delivered == Routable(kind, Messages(rules, arrived))
    {
      hide Tracks;
      if declined {
        DeclinedInFull();
        return;
      }
      if open {
        assert Held() + sock.inbox == Held();
        if request.Some? {
          ghost var body := recv.s[recv.reqPos..recv.reqPos + recv.comLen];
          HeadBehind(request.value, body, |request.value|);
          assert request.value[..|request.value|] == request.value;
        } else {
          NoHeadYet(Held());
        }
      }
      TracksInFull(rules, arrived, done, delivered, open, refused, Held() + sock.inbox);
      RoutableFront(kind, delivered, []);
      assert delivered + [] == delivered;
    }

    lemma DeclinedInFull()
      requires Valid() && declined
      ensures delivered == Routable(kind, Messages(rules, arrived))
    {
      TracksPrefix(rules, arrived, done, delivered, open, refused, Held() + sock.inbox);
      RoutableFront(kind, delivered, Messages(rules, arrived[|done|..]));
    }

    /** Input events while something is left to read.  In step t the kernel moves `kernel(t)` bytes of
        a body, and the route says `verdict(t)`. */
    method Drain(kernel: nat -> nat, verdict: nat -> Next, from: nat) returns (t: nat)
      requires Valid() && (forall i :: kernel(i) > 0) && (forall i :: verdict(i) in {Suspend, Send}) && (open || refused || declined)
      modifies this, recv`reqPos, recv`reqLen, recv`comLen, recv`checkedLen, recv.s, sock`inbox
      ensures Valid() && (open || refused || declined) && (open ==> sock.inbox == []) && arrived == old(arrived)
    {
      hide Tracks;
      t := from;
      while open && sock.inbox != []
        invariant Valid() && (open || refused || declined) && arrived == old(arrived)
        decreases |sock.inbox|
      {
        InputJob(Min(kernel(t), |sock.inbox|), verdict(t), false, kernel(t), (i: nat) => false);
        t := t + 1;
      }
    }
  }

  /**
   For every way of cutting a stream into arrivals, every amount the kernel moves per read, and
   every answer of the routes that keeps the connection, over input events only, the routes see
   exactly the requests of the stream, up to one that no route gets.
   */
  method Serve(chunks: seq<seq<Byte>>, kernel: nat -> nat, verdict: nat -> Next, server: Server) returns (delivered: seq<Message>)
    requires (forall i :: kernel(i) > 0) && (forall i :: verdict(i) in {Suspend, Send}) && server.size >= 4
    ensures delivered == Routable(server.kind, Messages(server.Limits(), Concat(chunks)))
  {
    hide Tracks;
    var sock := new Socket();
    var recv := new Data(server.size);
    var c := new Connection(sock, recv, server);
    var i, t := 0, 0;
    while i < |chunks|
      invariant 0 <= i <= |chunks| && c.sock == sock && c.recv == recv
      invariant fresh(c) && fresh(sock) && fresh(recv) && fresh(recv.s)
      invariant c.Valid() && (c.open || c.refused || c.declined) && (c.open ==> sock.inbox == []) && c.arrived == Concat(chunks[..i])
    {
      c.Arrive(chunks[i]);
      t := c.Drain(kernel, verdict, t);
      assert chunks[..i + 1][..i] == chunks[..i];
      i := i + 1;
    }
    assert chunks[..i] == chunks;
    c.DeliveredInFull();
    delivered := c.delivered;
  }

  // ------------------------------------------------------------------
  // Any order of events
  // ------------------------------------------------------------------

  /** Bytes arrive, or a worker runs a job: what the dispatcher counted, the route's verdict, and
      what the kernel does in the job.  A job takes place only if there is something to read. */
  datatype Event =
    | Arrival(bytes: seq<Byte>)
    | Input(counted: nat, verdict: Next, ioctlFails: bool, willing: nat, stalls: nat -> bool)
    | Output

  function Arrivals(events: seq<Event>): seq<Byte> {
    if events == [] then []
    else Arrivals(events[..|events| - 1]) + (var e := events[|events| - 1]; if e.Arrival? then e.bytes else [])
  }

  predicate Keeps(e: Event) {
    !e.Output? && (e.Input? ==> e.verdict != Disconnect)
  }

  /**
   Whatever happens in whatever order, the routes see a front part of the requests of the stream,
   and none behind one that no route gets; when nothing is left to read it is all of those, unless
   an event closed the connection.
   */
  method RunEvents(events: seq<Event>, server: Server) returns (c: Connection)
    requires server.size >= 4 && forall i :: 0 <= i < |events| && events[i].Input? ==> events[i].verdict != Run
    ensures fresh(c) && c.Valid() && c.rules == server.Limits() && c.kind == server.kind && c.arrived == Arrivals(events)
    ensures c.delivered <= Routable(server.kind, Messages(server.Limits(), Arrivals(events)))
    ensures (forall i :: 0 <= i < |events| ==> Keeps(events[i])) ==> c.open || c.refused || c.declined
    ensures (c.open && c.sock.inbox == []) || c.refused || c.declined ==>
              c.delivered == Routable(server.kind, Messages(server.Limits(), Arrivals(events)))
  {
    hide Tracks;
    var sock := new Socket();
    var recv := new Data(server.size);
    c := new Connection(sock, recv, server);
    var i := 0;
    while i < |events|
      invariant 0 <= i <= |events| && c.sock == sock && c.recv == recv
      invariant fresh(c) && fresh(sock) && fresh(recv) && fresh(recv.s)
      invariant c.Valid() && c.arrived == Arrivals(events[..i])
      invariant (forall k :: 0 <= k < i ==> Keeps(events[k])) ==> c.open || c.refused || c.declined
    {
      assert events[..i + 1][..i] == events[..i];
      c.Happens(events[i]);
      i := i + 1;
    }
    assert events[..i] == events;
    c.DeliveredInOrder();
    PrefixRoutable(server.kind, c.delivered, Messages(server.Limits(), Arrivals(events)));
    if (c.open && c.sock.inbox == []) || c.refused || c.declined { c.DeliveredInFull(); }
  }

  lemma PrefixRoutable(kind: seq<Byte> -> Kind, a: seq<Message>, b: seq<Message>)
    requires a <= b && AllRouted(kind, a)
    ensures a <= Routable(kind, b)
  {
    assert forall n :: 0 <= n < |a| ==> a[n] == b[n];
  }
}
