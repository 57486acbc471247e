/**
 amiproc/amiproc.cpp, the reading part of ami_event: the byte stream is cut at CR LF CR LF and
 each event hands on at most one message.
 */
module AmiReader {
  import opened Wrappers
  import opened Transfer
  import opened Framing

  /** AMI messages are heads without bodies. */
  function AmiRules(size: nat): Rules {
    Rules(size, _ => 0)
  }

  /** The AMI connection.  A message of s_len bytes or more fills the buffer for good: `stuck`. */
  class Connection {
    const sock: Socket
    const recv: Data
    const send: Data
    var delivered: seq<Message>
    ghost var arrived: seq<Byte>
    ghost var done: seq<Byte>

    ghost predicate Stuck()
      reads recv
    {
      recv.comLen == recv.sLen - 1
    }

    ghost function Pending(): seq<Byte>
      reads sock, recv, recv.s
    {
      if recv.comLen <= recv.s.Length then recv.s[..recv.comLen] + sock.inbox else []
    }

    ghost predicate BufferOk()
      reads recv, recv.s
    {
      && recv.Valid() && recv.sLen >= 5 && recv.reqPos == recv.reqLen == 0 && recv.comLen < recv.sLen
      && NoHead(recv.s[..recv.comLen], recv.comLen + 1)
    }

    /** Delivered messages, what is in the buffer and what is unread are together what was sent. */
    ghost predicate Valid()
      reads this, sock, recv, recv.s
    {
      BufferOk() && Tracks(AmiRules(recv.sLen), arrived, done, delivered, true, false, Pending())
    }

    /** The send buffer: the login or the last action, and the com_len of the login and of output events. */
    ghost predicate SendOk()
      reads send, recv`s
    {
      send != recv && send.s != recv.s && send.reqPos == 0 && send.reqLen <= send.sLen < send.s.Length
    }

    constructor (sock: Socket, recv: Data, send: Data)
      requires recv.Valid() && recv.sLen >= 5 && recv.reqPos == recv.reqLen == recv.comLen == 0
      requires send.Valid() && send.reqPos == 0 && send != recv && send.s != recv.s
      ensures Valid() && SendOk() && delivered == [] && arrived == sock.inbox
      ensures this.sock == sock && this.recv == recv && this.send == send
    {
      this.sock, this.recv, this.send, delivered := sock, recv, send, [];
      arrived, done := sock.inbox, [];
    }

    method Arrive(bytes: seq<Byte>)
      requires Valid()
      modifies sock`inbox, this`arrived
      ensures Valid() && arrived == old(arrived) + bytes && sock.inbox == old(sock.inbox) + bytes
    {
      hide Tracks;
      TracksMore(AmiRules(recv.sLen), arrived, done, delivered, true, false, Pending(), bytes);
      Assoc(recv.s[..recv.comLen], sock.inbox, bytes);
      sock.inbox := sock.inbox + bytes;
      arrived := arrived + bytes;
    }

    /** One byte at a time, leaving room for the final NUL. */
    method ReadMessage(stalls: nat -> bool)
      requires BufferOk() && 0 < recv.checkedLen <= |sock.inbox|
      modifies recv`comLen, recv.s, sock`inbox
      ensures recv.Valid() && recv.comLen < recv.sLen && NoHead(recv.s[..recv.comLen], recv.comLen)
      ensures recv.s[..recv.comLen] + sock.inbox == old(recv.s[..recv.comLen] + sock.inbox)
      ensures |sock.inbox| <= |old(sock.inbox)|
      ensures !stalls(0) && !old(Stuck()) ==> |sock.inbox| < |old(sock.inbox)|
    {
      var remain: int := recv.sLen - recv.comLen - 1;
      if remain > recv.checkedLen {
        remain := recv.checkedLen;
      }
      ghost var all := recv.s[..recv.comLen] + sock.inbox;
      var i := 0;
      CompleteIsEnds(recv);
      assert recv.s[..recv.comLen][..recv.comLen] == recv.s[..recv.comLen];
      while remain > 0 && !Complete(recv)
        invariant recv.Valid() && recv.reqPos == recv.reqLen == 0 && remain >= 0 && recv.comLen + remain < recv.sLen
        invariant recv.s[..recv.comLen] + sock.inbox == all
        invariant NoHead(recv.s[..recv.comLen], recv.comLen)
        invariant Complete(recv) <==> Ends(recv.s[..recv.comLen])
        invariant remain <= |sock.inbox| <= |old(sock.inbox)|
        invariant i == 0 ==> !Complete(recv) && (remain > 0 || old(Stuck()))
        invariant i > 0 && !stalls(0) ==> |sock.inbox| < |old(sock.inbox)|
        decreases remain
      {
        assert NoHead(recv.s[..recv.comLen], recv.comLen + 1);
        ReadHeadByte(sock, recv, stalls(i));
        remain, i := remain - 1, i + 1;
        CompleteIsEnds(recv);
      }
    }

    /** The message goes to the response handling or the event handlers, and the buffer is emptied. */
    method HandOn()
      requires recv.Valid() && recv.sLen >= 5 && recv.reqPos == recv.reqLen == 0 && recv.comLen < recv.sLen
      requires IsHead(recv.s[..recv.comLen], recv.comLen)
      requires Tracks(AmiRules(recv.sLen), arrived, done, delivered, true, false, Pending())
      modifies `delivered, `done, recv`reqPos, recv`reqLen, recv`comLen, recv.s
      ensures Valid() && delivered == old(delivered) + [Message(old(recv.s[..recv.comLen]), [])]
    {
      hide Tracks;
      var message := recv.s[..recv.comLen];
      assert message + [] == message;
      TracksMessage(AmiRules(recv.sLen), arrived, done, delivered, message, [], sock.inbox, true);
      delivered := delivered + [Message(message, [])];
      done := done + (message + []);
      recv.ResetData();
      assert Pending() == sock.inbox;
    }

    /** ami_event for an input event, after the dispatcher counted some of what is there. */
    method InputJob(counted: nat, stalls: nat -> bool)
      requires Valid() && 0 < counted <= |sock.inbox|
      modifies `delivered, `done, recv`reqPos, recv`reqLen, recv`comLen, recv`checkedLen, recv.s, sock`inbox
      ensures Valid()
      ensures old(delivered) <= delivered && |delivered| <= |old(delivered)| + 1
      ensures |sock.inbox| <= |old(sock.inbox)|
      ensures !stalls(0) && !old(Stuck()) ==> |sock.inbox| < |old(sock.inbox)|
    {
      hide Tracks, Complete, NoHead, Ends, IsHead;
      recv.checkedLen := counted;
      ReadMessage(stalls);
      CompleteIsEnds(recv);
      HeadOrNone(recv.s[..recv.comLen]);
      if !Complete(recv) {
        return;
      }
      HandOn();
    }

    /** amiLogin: the login has been written in full, and both req_len and com_len are its length. */
    method Login(login: seq<Byte>)
      requires Valid() && SendOk() && |login| <= send.sLen
      modifies send`reqLen, send`comLen, send.s, sock`wire
      ensures Valid() && SendOk() && send.reqLen == send.comLen == |login| && sock.wire == old(sock.wire) + login
    {
      hide Tracks;
      Act(login, |login|);
      assert login[..|login|] == login;
      send.comLen := |login|;
    }

    /**
     ami_sync and ami_async: the action is put in the send buffer and written.  req_len stays set
     behind it, and com_len is left as it is.
     */
    method Act(action: seq<Byte>, taken: nat)
      requires Valid() && SendOk() && |action| <= send.sLen
      modifies send`reqLen, send.s, sock`wire
      ensures Valid() && SendOk() && send.reqLen == |action| && send.s[..send.reqLen] == action
      ensures sock.wire == old(sock.wire) + action[..Min(taken, |action|)]
    {
      hide Tracks;
      ghost var held := recv.s[..recv.comLen];
      forall i | 0 <= i < |action| { send.s[i] := action[i]; }
      send.reqLen := |action|;
      var k := sock.Write(send.s, 0, send.reqLen, taken);
      assert send.s[..|action|] == action;
      assert send.s[0..0 + k] == action[..k];
      assert recv.s[..recv.comLen] == held && Pending() == old(Pending());
    }

    /**
     A worker's job for an output event.  The automatic sending takes the last action for a request
     of its own, of which com_len bytes were sent: but com_len is what the login left and earlier
     output events added, so what is behind it is written although ami_sync or ami_async has
     written all of the action.  When nothing of it is left, ami_event runs and ends with reset_data, whatever
     is in the buffer: the connection goes on as if the buffered part of a message had never
     been sent.
     */
    method OutputJob(willing: nat) returns (armedForOutput: bool)
      requires Valid() && SendOk()
      modifies `arrived, recv`reqPos, recv`reqLen, recv`comLen, recv.s, send`comLen, sock`wire
      ensures Valid() && SendOk() && old(send.comLen) <= send.comLen && armedForOutput == (send.comLen < send.reqLen)
      // of the last action exactly this is sent again ...
      ensures if old(send.comLen) < send.reqLen
        then send.comLen == Min(old(send.comLen) + willing, send.reqLen)
             && sock.wire == old(sock.wire) + send.s[old(send.comLen)..send.comLen]
        else send.comLen == old(send.comLen) && sock.wire == old(sock.wire)
      ensures sock.wire == old(sock.wire) <==> willing == 0 || old(send.comLen) >= send.reqLen
      // ... and of what was received exactly this is lost
      ensures armedForOutput ==> arrived == old(arrived) && recv.comLen == old(recv.comLen)
      ensures !armedForOutput ==>
                && recv.comLen == 0 && old(arrived) == done + old(recv.s[..recv.comLen]) + sock.inbox && arrived == done + sock.inbox
      ensures arrived == old(arrived) <==> armedForOutput || old(recv.comLen) == 0
    {
      hide Tracks;
      ghost var wire := sock.wire;
      var next := send.AutoSend(sock, willing);
      armedForOutput := next == Send;
      assert |sock.wire| == |wire| + (send.comLen - old(send.comLen));
      if next == Run {
        Reset();
      }
    }

    /** The end of ami_event. */
    method Reset()
      requires Valid()
      modifies `arrived, recv`reqPos, recv`reqLen, recv`comLen, recv.s
      ensures Valid() && recv.comLen == 0
      ensures old(arrived) == done + old(recv.s[..recv.comLen]) + sock.inbox && arrived == done + sock.inbox
      ensures arrived == old(arrived) <==> old(recv.comLen) == 0
    {
      Assoc(done, recv.s[..recv.comLen], sock.inbox);
      ghost var held := recv.s[..recv.comLen];
      recv.ResetData();
      assert Pending() == sock.inbox;
      arrived := done + sock.inbox;
      assert |done + held + sock.inbox| == |arrived| + |held|;
      assert held == [] ==> done + held + sock.inbox == arrived;
    }

    /** Something happens to the connection. */
    method Happens(e: Event)
      requires Valid() && SendOk() && (e.Act? ==> |e.action| <= send.sLen)
      modifies `arrived, `delivered, `done, recv`reqPos, recv`reqLen, recv`comLen, recv`checkedLen, recv.s, sock,
        send`comLen, send`reqLen, send.s
      ensures Valid() && SendOk()
      ensures !e.Output? ==> arrived == old(arrived) + (if e.Arrival? then e.bytes else [])
      ensures e.Input? && old(sock.inbox != [] && !Stuck()) && !e.stalls(0) ==> |sock.inbox| < |old(sock.inbox)|
    {
      hide Tracks;
      match e
      case Arrival(bytes) => Arrive(bytes);
      case Input(counted, stalls) =>
        if sock.inbox != [] {
          InputJob(Min(counted + 1, |sock.inbox|), stalls);
        }
      case Output(willing) =>
        var armed := OutputJob(willing);
      case Act(action, taken) => Act(action, taken);
    }

    lemma NothingDelivered()
      requires Valid() && delivered == []
      ensures done == [] && arrived == Pending()
    {
      assert !Ready(AmiRules(recv.sLen), done);
      assert [] + Pending() == Pending();
    }

    lemma DeliveredInOrder()
      requires Valid()
      ensures delivered <= Messages(AmiRules(recv.sLen), arrived)
    {
      TracksPrefix(AmiRules(recv.sLen), arrived, done, delivered, true, false, Pending());
    }

    /** Everything that fits is delivered once nothing more can be read. */
    lemma DeliveredInFull()
      requires Valid() && (sock.inbox == [] || Stuck())
      ensures delivered == Messages(AmiRules(recv.sLen), arrived)
    {
      hide Tracks;
      ghost var front, r := recv.s[..recv.comLen], AmiRules(recv.sLen);
      if sock.inbox == [] {
        assert Pending() == front;
        NoHeadYet(front);
      } else {
        NotReadyWhenFull(r, front, sock.inbox);
      }
      TracksInFull(r, arrived, done, delivered, true, false, Pending());
    }

    /** Input events while something can be read; `counts(t)` is what the dispatcher counts in step t. */
    method Drain(counts: nat -> nat, from: nat) returns (t: nat)
      requires Valid() && forall i :: counts(i) > 0
      modifies `delivered, `done, recv`reqPos, recv`reqLen, recv`comLen, recv`checkedLen, recv.s, sock`inbox
      ensures Valid() && (sock.inbox == [] || Stuck())
    {
      hide Tracks;
      t := from;
      while sock.inbox != [] && recv.comLen != recv.sLen - 1
        invariant Valid()
        decreases |sock.inbox|
      {
        InputJob(Min(counts(t), |sock.inbox|), (i: nat) => false);
        t := t + 1;
      }
    }
  }

  lemma {:induction false} SmallMessage(front: seq<Byte>, rest: seq<Byte>)
    requires front == [65, CR, LF] && rest == [CR, LF]
    ensures Messages(AmiRules(4096), front + rest) == [Message(front + rest, [])]
    ensures Messages(AmiRules(4096), front) == Messages(AmiRules(4096), rest) == []
  {
    var b, r := front + rest, AmiRules(4096);
    assert b[..5] == b && b[1..] == [CR, LF, CR, LF];
    assert b[..4][0..] == [65, CR, LF, CR];
    assert IsHead(b, 5);
    MessagesOfStream(r, [Message(b, [])]);
    assert Stream([Message(b, [])]) == b;
    NoHeadYet(front);
    NoHeadYet(rest);
  }

  method NewConnection(size: nat) returns (c: Connection)
    requires size >= 5
    ensures c.Valid() && c.SendOk() && c.arrived == c.done == [] && c.delivered == [] && c.sock.inbox == c.sock.wire == []
    ensures c.recv.sLen == c.send.sLen == size && c.recv.comLen == c.send.comLen == c.send.reqLen == 0
    ensures fresh(c) && fresh(c.sock) && fresh(c.recv) && fresh(c.recv.s) && fresh(c.send) && fresh(c.send.s)
  {
    var sock := new Socket();
    var recv := new Data(size);
    var send := new Data(size);
    c := new Connection(sock, recv, send);
  }

  /** The connection as amiLogin leaves it. */
  method LoggedIn(size: nat, login: seq<Byte>) returns (c: Connection)
    requires size >= 5 && |login| <= size
    ensures c.Valid() && c.SendOk() && c.arrived == c.done == [] && c.delivered == [] && c.sock.inbox == [] && c.sock.wire == login
    ensures c.recv.sLen == c.send.sLen == size && c.recv.comLen == 0 && c.send.comLen == c.send.reqLen == |login|
    ensures fresh(c) && fresh(c.sock) && fresh(c.recv) && fresh(c.recv.s) && fresh(c.send) && fresh(c.send.s)
  {
    c := NewConnection(size);
    c.Login(login);
    assert [] + login == login;
  }

  /** A message of five bytes with an output event after the third: it is never handed on. */
  method OutputEventLosesMessage(login: seq<Byte>) returns (sent: seq<Byte>, delivered: seq<Message>)
    requires |login| <= 4096
    ensures Messages(AmiRules(4096), sent) == [Message(sent, [])] && delivered == []
  {
    hide Tracks, Messages;
    var front: seq<Byte>, rest: seq<Byte> := [65, CR, LF], [CR, LF];
    SmallMessage(front, rest);
    sent := front + rest;
    var c := LoggedIn(4096, login);
    c.Arrive(front);
    assert [] + front == front;
    var t := c.Drain((i: nat) => 3, 0);
    c.DeliveredInOrder();
    c.NothingDelivered();
    var armed := c.OutputJob(0);
    c.NothingDelivered();
    c.Arrive(rest);
    assert [] + rest == rest;
    t := c.Drain((i: nat) => 3, t);
    c.DeliveredInOrder();
    delivered := c.delivered;
  }

  /**
   The first action after the login, written in full, and an output event: what is longer than the
   login is written once more.
   */
  method TailTwice(login: seq<Byte>, action: seq<Byte>) returns (wire: seq<Byte>)
    requires |login| <= 4096 && |action| <= 4096
    ensures wire == login + action + (if |login| < |action| then action[|login|..] else [])
  {
    hide Tracks, Messages, NoHead;
    var c := LoggedIn(4096, login);
    c.Act(action, |action|);
    assert action[..|action|] == action;
    ghost var buffer := c.send.s[..c.send.reqLen];
    var armed := c.OutputJob(|action|);
    wire := c.sock.wire;
    if |login| < |action| {
      assert c.send.s[|login|..|action|] == buffer[|login|..] == action[|login|..];
    }
  }

  lemma NotReadyWhenFull(r: Rules, front: seq<Byte>, more: seq<Byte>)
    requires NoHead(front, |front| + 1) && r.cap == |front| + 1
    ensures !Ready(r, front + more)
  {
    forall n: nat | n <= |front| ensures (front + more)[..n] == front[..n] {}
    var k := HeadSize(front + more);
    if k.Some? { assert Ends((front + more)[..k.value]); }
  }

  /** For every way the stream arrives, if there are no output events, the messages handed on are those of the stream. */
  method Serve(chunks: seq<seq<Byte>>, counts: nat -> nat, size: nat) returns (delivered: seq<Message>)
    requires (forall i :: counts(i) > 0) && size >= 5
    ensures delivered == Messages(AmiRules(size), Concat(chunks))
  {
    hide Tracks;
    var c := NewConnection(size);
    var i, t := 0, 0;
    while i < |chunks|
      invariant 0 <= i <= |chunks| && c.recv.sLen == size
      invariant fresh(c) && fresh(c.sock) && fresh(c.recv) && fresh(c.recv.s)
      invariant c.Valid() && (c.sock.inbox == [] || c.Stuck()) && c.arrived == Concat(chunks[..i])
    {
      c.Arrive(chunks[i]);
      t := c.Drain(counts, t);
      assert chunks[..i + 1][..i] == chunks[..i];
      i := i + 1;
    }
    assert chunks[..i] == chunks;
    c.DeliveredInFull();
    delivered := c.delivered;
  }

  // ------------------------------------------------------------------
  // Any order of events
  // ------------------------------------------------------------------

  /** Bytes arrive, a worker runs a job for an input or output event, or an action is written. */
  datatype Event =
    | Arrival(bytes: seq<Byte>)
    | Input(counted: nat, stalls: nat -> bool)
    | Output(willing: nat)
    | Act(action: seq<Byte>, taken: nat)

  function Arrivals(events: seq<Event>): seq<Byte> {
    if events == [] then []
    else Arrivals(events[..|events| - 1]) + (var e := events[|events| - 1]; if e.Arrival? then e.bytes else [])
  }

  /**
   Whatever happens in whatever order, the messages handed on are a front part of those of the
   stream, and all of them when nothing more can be read, unless there was an output event.
   */
  method RunEvents(events: seq<Event>, size: nat) returns (c: Connection)
    requires size >= 5 && forall i :: 0 <= i < |events| && events[i].Act? ==> |events[i].action| <= size
    ensures fresh(c) && c.Valid() && c.recv.sLen == size
    ensures (forall i :: 0 <= i < |events| ==> !events[i].Output?) ==>
              && c.arrived == Arrivals(events) && c.delivered <= Messages(AmiRules(size), Arrivals(events))
              && (c.sock.inbox == [] || c.Stuck() ==> c.delivered == Messages(AmiRules(size), Arrivals(events)))
  {
    hide Tracks;
    c := NewConnection(size);
    var i := 0;
    while i < |events|
      invariant 0 <= i <= |events| && c.recv.sLen == c.send.sLen == size
      invariant fresh(c) && fresh(c.sock) && fresh(c.recv) && fresh(c.recv.s) && fresh(c.send) && fresh(c.send.s)
      invariant c.Valid() && c.SendOk()
      invariant (forall k :: 0 <= k < i ==> !events[k].Output?) ==> c.arrived == Arrivals(events[..i])
    {
      assert events[..i + 1][..i] == events[..i];
      c.Happens(events[i]);
      i := i + 1;
    }
    assert events[..i] == events;
    c.DeliveredInOrder();
    if c.sock.inbox == [] || c.Stuck() { c.DeliveredInFull(); }
  }
}
