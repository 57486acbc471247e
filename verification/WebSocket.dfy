/**
 amiproc/websocket.cpp: reading frames over any number of input events, with the worker's
 automatic receiving for what a single read did not bring, and ws_writetext.
 */
module WebSocket {
  import opened Wrappers
  import opened Transfer
  import opened WebSocketSpec

  /** What the frames at the front of `b` look like once the header was read. */
  ghost predicate HeaderIs(b: seq<Byte>, opcode: Byte, key: Option<seq<Byte>>, len: nat) {
    HeaderReady(b) && !TooLong(b) && |b| == HeaderSize(b[1]) && b[0] % 16 == opcode && Key(b) == key && Length(b) == len
  }

  /** A header and its payload make the frame. */
  lemma HeaderThenPayload(h: seq<Byte>, p: seq<Byte>, opcode: Byte, key: Option<seq<Byte>>, len: nat)
    requires HeaderIs(h, opcode, key, len) && |p| == len
    ensures Frames(h + p) == [Frame(opcode, Mask(p, key))] && Rest(h + p) == []
  {
    HeaderBehind(h, p);
    assert (h + p)[|h|..|h| + len] == p;
    assert (h + p)[|h| + len..] == [];
    FrameThenRest(h + p, |h| + len, Frame(opcode, Mask(p, key)), []);
  }

  /** A header whose payload is incomplete is no frame. */
  lemma HeaderAlone(h: seq<Byte>, p: seq<Byte>, opcode: Byte, key: Option<seq<Byte>>, len: nat)
    requires HeaderIs(h, opcode, key, len) && |p| < len
    ensures Frames(h + p) == []
  {
    HeaderBehind(h, p);
  }

  /** ntohs(*(uint16_t*)&s[at]) */
  function Be16(s: seq<Byte>, at: nat): nat
    requires at + 2 <= |s|
  {
    var high: nat := s[at];
    256 * high + s[at + 1]
  }

  /** ntohl(*(uint32_t*)&s[at]) */
  function Be32(s: seq<Byte>, at: nat): nat
    requires at + 4 <= |s|
  {
    0x1_0000 * Be16(s, at) + Be16(s, at + 2)
  }

  lemma TwoMore(b: seq<Byte>, n: nat)
    requires |b| == n + 2
    ensures Number(b) == 0x1_0000 * Number(b[..n]) + Be16(b, n)
  {
    assert b[..n + 1][..n] == b[..n];
  }

  lemma {:induction false} NumberOfTwo(b: seq<Byte>)
    requires |b| == 2
    ensures Number(b) == Be16(b, 0) < 0x1_0000
  {
    TwoMore(b, 0);
  }

  lemma {:induction false} NumberOfEight(b: seq<Byte>)
    requires |b| == 8
    ensures Number(b) == Be32(b, 0) * 0x1_0000_0000 + Be32(b, 4)
  {
    TwoMore(b, 6);
    TwoMore(b[..6], 4);
    assert b[..6][..4] == b[..4];
    TwoMore(b[..4], 2);
    assert b[..4][..2] == b[..2];
    TwoMore(b[..2], 0);
  }

  /** The three ways of taking the length out of the buffer agree with section 5.2. */
  lemma {:induction false} LengthIsRight(b: seq<Byte>, s: seq<Byte>)
    requires HeaderReady(b) && |s| >= 2 + LengthBytes(b[1]) && s[..2 + LengthBytes(b[1])] == b[..2 + LengthBytes(b[1])]
    ensures LengthBytes(b[1]) == 0 ==> Length(b) == b[1] % 128
    ensures LengthBytes(b[1]) == 2 ==> Length(b) == Be16(s, 2) <= LIMIT
    ensures LengthBytes(b[1]) == 8 ==> Length(b) == Be32(s, 2) * 0x1_0000_0000 + Be32(s, 6)
  {
    var n := LengthBytes(b[1]);
    assert forall i :: 0 <= i < 2 + n ==> s[i] == s[..2 + n][i] == b[i];
    if n == 2 {
      NumberOfTwo(b[2..4]);
    } else if n == 8 {
      NumberOfEight(b[2..10]);
    }
  }

  lemma HeaderOnly(b: seq<Byte>)
    requires HeaderReady(b)
    ensures b[..HeaderSize(b[1])] + b[HeaderSize(b[1])..] == b
    ensures var h := b[..HeaderSize(b[1])]; HeaderReady(h) && Length(h) == Length(b) && Key(h) == Key(b)
  {
    var n := HeaderSize(b[1]);
    HeaderBehind(b[..n], b[n..]);
    assert b[..n] + b[n..] == b;
  }

  /**
   How far a stream has been dealt with: `done` is its delivered part, and while the connection
   is open `pending` is all the rest.  A refused stream has an oversized frame next.
   */
  ghost predicate Tracks(arrived: seq<Byte>, done: seq<Byte>, delivered: seq<Frame>, open: bool, refused: bool, pending: seq<Byte>) {
    && Frames(done) == delivered && Rest(done) == [] && done <= arrived
    && (refused ==> !open && TooLong(arrived[|done|..]))
    && (open ==> arrived == done + pending)
  }

  lemma TracksMore(arrived: seq<Byte>, done: seq<Byte>, delivered: seq<Frame>, open: bool, refused: bool, pending: seq<Byte>, bytes: seq<Byte>)
    requires Tracks(arrived, done, delivered, open, refused, pending)
    ensures Tracks(arrived + bytes, done, delivered, open, refused, pending + bytes)
  {
    assert (arrived + bytes)[|done|..] == arrived[|done|..] + bytes;
    if refused { HeaderBehind(arrived[|done|..], bytes); }
    if open { Assoc(done, pending, bytes); }
  }

  lemma TracksFrame(arrived: seq<Byte>, done: seq<Byte>, delivered: seq<Frame>, frame: seq<Byte>, x: Frame, pending: seq<Byte>, stays: bool)
    requires Tracks(arrived, done, delivered, true, false, frame + pending)
    requires Frames(frame) == [x] && Rest(frame) == []
    ensures Tracks(arrived, done + frame, delivered + [x], stays, false, pending)
  {
    Assoc(done, frame, pending);
    FramesCompose(done, frame);
  }

  lemma TracksPayload(arrived: seq<Byte>, done: seq<Byte>, delivered: seq<Frame>, header: seq<Byte>, payload: seq<Byte>,
                      opcode: Byte, key: Option<seq<Byte>>, pending: seq<Byte>, stays: bool)
    requires HeaderIs(header, opcode, key, |payload|)
    requires Tracks(arrived, done, delivered, true, false, header + payload + pending)
    ensures Tracks(arrived, done + (header + payload), delivered + [Frame(opcode, Mask(payload, key))], stays, false, pending)
  {
    HeaderThenPayload(header, payload, opcode, key, |payload|);
    TracksFrame(arrived, done, delivered, header + payload, Frame(opcode, Mask(payload, key)), pending, stays);
  }

  lemma HeldMore(h: seq<Byte>, r: seq<Byte>, i: seq<Byte>, n: nat)
    requires n <= |i|
    ensures h + r + i == (h + (r + i[..n])) + i[n..]
  {
  }

  lemma TracksPrefix(arrived: seq<Byte>, done: seq<Byte>, delivered: seq<Frame>, open: bool, refused: bool, pending: seq<Byte>)
    requires Tracks(arrived, done, delivered, open, refused, pending)
    ensures delivered <= Frames(arrived)
    ensures Frames(arrived) == delivered + Frames(arrived[|done|..])
  {
    FramesCompose(done, arrived[|done|..]);
    assert arrived == done + arrived[|done|..];
  }

  lemma TracksClosed(arrived: seq<Byte>, done: seq<Byte>, delivered: seq<Frame>, pending: seq<Byte>, pending': seq<Byte>)
    requires Tracks(arrived, done, delivered, true, false, pending)
    ensures Tracks(arrived, done, delivered, false, false, pending')
  {
  }

  lemma TracksInFull(arrived: seq<Byte>, done: seq<Byte>, delivered: seq<Frame>, open: bool, refused: bool, pending: seq<Byte>)
    requires Tracks(arrived, done, delivered, open, refused, pending)
    requires refused || (open && Frames(pending) == [])
    ensures delivered == Frames(arrived)
  {
    TracksPrefix(arrived, done, delivered, open, refused, pending);
    if open { assert arrived[|done|..] == pending; }
  }

  lemma TracksRefusal(arrived: seq<Byte>, done: seq<Byte>, delivered: seq<Frame>, header: seq<Byte>, pending: seq<Byte>)
    requires Tracks(arrived, done, delivered, true, false, header + pending) && TooLong(header)
    ensures Tracks(arrived, done, delivered, false, true, pending)
  {
    assert arrived[|done|..] == header + pending;
    HeaderBehind(header, pending);
  }

  /** An upgraded connection: socket, receive buffer and WS_INFO. */
  class Connection {
    const sock: Socket
    const recv: Data
    var started: bool // step
    var opcode: Byte
    var key: Option<seq<Byte>> // is_masked and mask
    var dataLen: nat
    var open: bool
    var refused: bool // closed for a payload over the limit
    /** The calls of the user function. */
    var delivered: seq<Frame>
    /** Everything that ever arrived, what of it was delivered, and the header being worked on. */
    ghost var arrived: seq<Byte>
    ghost var done: seq<Byte>
    ghost var header: seq<Byte>

    /** What has been read but not delivered. */
    ghost function Held(): seq<Byte>
      reads `started, `header, recv`s, recv`reqPos, recv`comLen, recv.s
    {
      if started && recv.reqPos + recv.comLen <= recv.s.Length then header + recv.s[..recv.reqPos + recv.comLen] else []
    }

    /** The buffer while the connection is open: between messages, or inside the payload of one. */
    ghost predicate BufferOk()
      reads `started, `open, `header, `opcode, `key, `dataLen, recv
    {
      && recv.Valid() && recv.sLen >= 14
      && (open && !started ==> recv.reqPos == recv.reqLen == recv.comLen == 0)
      && (open && started ==>
            && HeaderIs(header, opcode, key, dataLen)
            && recv.reqPos + recv.reqLen == dataLen <= recv.sLen
            && recv.comLen < recv.reqLen)
    }

    ghost predicate Valid()
      reads this, sock, recv, recv.s
    {
      BufferOk() && !(open && refused) && Tracks(arrived, done, delivered, open, refused, Held() + sock.inbox)
    }

    constructor (sock: Socket, recv: Data)
      requires recv.Valid() && recv.sLen >= 14 && recv.reqPos == recv.reqLen == recv.comLen == 0
      ensures Valid() && open && !refused && !started && delivered == [] && arrived == sock.inbox
      ensures this.sock == sock && this.recv == recv
    {
      this.sock, this.recv, started, open, refused, delivered := sock, recv, false, true, false, [];
      opcode, key, dataLen := 0, None, 0;
      arrived, done, header := sock.inbox, [], [];
    }

    /** More bytes reach the socket. */
    method Arrive(bytes: seq<Byte>)
      requires Valid()
      modifies sock`inbox, this`arrived
      ensures Valid() && arrived == old(arrived) + bytes && sock.inbox == old(sock.inbox) + bytes
    {
      hide Tracks, HeaderIs;
      TracksMore(arrived, done, delivered, open, refused, Held() + sock.inbox, bytes);
      Assoc(Held(), sock.inbox, bytes);
      sock.inbox := sock.inbox + bytes;
      arrived := arrived + bytes;
    }

    /** A read of n header bytes; they are taken to be there. */
    method Fetch(n: nat, ghost inbox: seq<Byte>)
      requires recv.comLen + n <= recv.s.Length && recv.comLen + n <= |inbox|
      requires recv.s[..recv.comLen] == inbox[..recv.comLen] && sock.inbox == inbox[recv.comLen..]
      modifies recv`comLen, recv.s, sock`inbox
      ensures recv.comLen == old(recv.comLen) + n
      ensures recv.s[..recv.comLen] == inbox[..recv.comLen] && sock.inbox == inbox[recv.comLen..]
    {
      var k := sock.Read(recv.s, recv.comLen, n, n);
      recv.comLen := recv.comLen + k;
    }

    method ReadHeader() returns (acceptable: bool)
      requires Valid() && open && !started && HeaderReady(sock.inbox)
      modifies this`opcode, this`key, this`dataLen, this`header, recv`comLen, recv.s, sock`inbox
      ensures recv.Valid()
      ensures header + sock.inbox == old(sock.inbox)
      ensures if acceptable then HeaderIs(header, opcode, key, dataLen) else TooLong(header)
    {
      hide Tracks;
      ghost var inbox := sock.inbox;
      Fetch(2, inbox);
      opcode := recv.s[0] % 16;
      var b1 := recv.s[1];
      assert b1 == recv.s[..2][1] == inbox[1] && opcode == recv.s[..2][0] % 16 == inbox[0] % 16;
      dataLen := b1 % 128;
      if dataLen == 126 {
        Fetch(2, inbox);
        dataLen := Be16(recv.s[..], 2);
      } else if dataLen == 127 {
        Fetch(8, inbox);
        dataLen := Be32(recv.s[..], 2) * 0x1_0000_0000 + Be32(recv.s[..], 6);
      }
      LengthIsRight(inbox, recv.s[..]);
      acceptable := !(b1 % 128 == 127 && dataLen > LIMIT);
      key := ReadKey(b1 >= 128, inbox);
      header := inbox[..recv.comLen];
      HeaderOnly(inbox);
    }

    method ReadKey(masked: bool, ghost inbox: seq<Byte>) returns (k: Option<seq<Byte>>)
      requires recv.comLen + 4 <= recv.s.Length && (masked ==> recv.comLen + 4 <= |inbox|) && recv.comLen <= |inbox|
      requires recv.s[..recv.comLen] == inbox[..recv.comLen] && sock.inbox == inbox[recv.comLen..]
      modifies recv`comLen, recv.s, sock`inbox
      ensures recv.comLen == old(recv.comLen) + (if masked then 4 else 0) && sock.inbox == inbox[recv.comLen..]
      ensures k == if masked then Some(inbox[recv.comLen - 4..recv.comLen]) else None
    {
      k := None;
      if masked {
        Fetch(4, inbox);
        k := Some(recv.s[recv.comLen - 4..recv.comLen]);
        assert recv.s[recv.comLen - 4..recv.comLen] == recv.s[..recv.comLen][recv.comLen - 4..];
      }
    }

    /** realloc: the old contents stay. */
    method Grow()
      requires recv.Valid() && recv.sLen < dataLen
      modifies recv`s, recv`sLen
      ensures recv.Valid() && recv.sLen == dataLen && fresh(recv.s)
      ensures recv.s[..old(recv.sLen)] == old(recv.s[..recv.sLen])
    {
      var s := new Byte[dataLen + 1](_ => 0);
      forall i | 0 <= i < recv.sLen { s[i] := recv.s[i]; }
      recv.s, recv.sLen := s, dataLen;
    }

    method FirstRead(willing: nat)
      requires recv.Valid() && dataLen <= recv.sLen && recv.reqPos == recv.reqLen == recv.comLen == 0
      modifies recv`comLen, recv.s, sock`inbox
      ensures recv.Valid() && recv.comLen <= dataLen
      ensures recv.s[..recv.comLen] + sock.inbox == old(sock.inbox)
    {
      ghost var inbox := sock.inbox;
      recv.comLen := sock.Read(recv.s, 0, dataLen, willing);
      assert recv.s[..recv.comLen] == inbox[..recv.comLen];
    }

    /**
     The buffer grows to hold the payload, and whatever of it has come is read.  What is
     missing is left to the automatic receiving.
     */
    method BeginPayload(willing: nat) returns (complete: bool)
      requires recv.Valid()
      modifies recv, recv.s, sock`inbox
      ensures recv.Valid() && recv.sLen >= old(recv.sLen) && (recv.s == old(recv.s) || fresh(recv.s))
      ensures recv.reqPos + recv.comLen <= dataLen <= recv.sLen
      ensures recv.s[..recv.reqPos + recv.comLen] + sock.inbox == old(sock.inbox)
      ensures complete <==> recv.reqPos + recv.comLen == dataLen
      ensures !complete ==> recv.reqPos + recv.reqLen == dataLen && recv.comLen < recv.reqLen
    {
      if dataLen > recv.sLen {
        Grow();
      }
      recv.ResetData();
      FirstRead(willing);
      complete := recv.comLen == dataLen;
      if recv.comLen < dataLen {
        recv.reqPos := recv.comLen;
        recv.reqLen := dataLen - recv.reqPos;
        recv.comLen := 0;
      }
    }

    /** data[i] ^= mask[i & 3] */
    method Unmask()
      requires dataLen <= recv.s.Length && (key.Some? ==> |key.value| == 4)
      modifies recv.s
      ensures recv.s[..dataLen] == Mask(old(recv.s[..dataLen]), key)
    {
      if key.Some? {
        ghost var p := recv.s[..dataLen];
        var i := 0;
        while i < dataLen
          invariant 0 <= i <= dataLen
          invariant forall k :: 0 <= k < i ==> recv.s[k] == Mask(p, key)[k]
          invariant forall k :: i <= k < dataLen ==> recv.s[k] == p[k]
        {
          recv.s[i] := Xor(recv.s[i], key.value[i % 4]);
          i := i + 1;
        }
      }
    }

    method TakePayload() returns (payload: seq<Byte>)
      requires recv.Valid() && dataLen <= recv.sLen && (key.Some? ==> |key.value| == 4)
      modifies recv`reqPos, recv`reqLen, recv`comLen, recv.s
      ensures payload == Mask(old(recv.s[..dataLen]), key)
      ensures recv.Valid() && recv.reqPos == recv.reqLen == recv.comLen == 0
    {
      Unmask();
      payload := recv.s[..dataLen];
      recv.ResetData();
    }

    /** All of the payload is there: the user function is called and decides. */
    method Deliver(verdict: Next)
      requires recv.Valid() && recv.sLen >= 14 && open && !refused && verdict != Run
      requires HeaderIs(header, opcode, key, dataLen) && dataLen <= recv.sLen
      requires Tracks(arrived, done, delivered, true, false, header + recv.s[..dataLen] + sock.inbox)
      modifies `started, `opcode, `key, `dataLen, `open, `delivered, `done, recv`reqPos, recv`reqLen, recv`comLen, recv.s
      ensures Valid() && open == (verdict != Disconnect) && !started
      ensures old(delivered) <= delivered && |delivered| == |old(delivered)| + 1
    {
      hide Tracks;
      ghost var read := recv.s[..dataLen];
      var payload := TakePayload();
      assert |read| == dataLen;
      TracksPayload(arrived, done, delivered, header, read, opcode, key, sock.inbox, verdict != Disconnect);
      delivered := delivered + [Frame(opcode, payload)];
      done := done + (header + read);
      open := verdict != Disconnect;
      started, opcode, key, dataLen := false, 0, None, 0;
      assert Held() + sock.inbox == sock.inbox;
    }

    /** The first call for a message: its header, and what has come of its payload. */
    method Begin(allocationFails: bool) returns (acceptable: bool)
      requires Valid() && open && !refused && !started && HeaderReady(sock.inbox)
      modifies this`opcode, this`key, this`dataLen, this`header, this`open, this`refused, recv`comLen, recv.s, sock`inbox
      ensures recv.Valid() && |sock.inbox| < |old(sock.inbox)|
      ensures open == acceptable && (acceptable ==> HeaderIs(header, opcode, key, dataLen) && !refused)
      ensures Tracks(arrived, done, delivered, open, refused, if acceptable then header + sock.inbox else sock.inbox)
      ensures acceptable || refused || allocationFails
    {
      hide Tracks;
      assert Held() + sock.inbox == sock.inbox;
      acceptable := ReadHeader();
      if !acceptable {
        TracksRefusal(arrived, done, delivered, header, sock.inbox);
        open, refused := false, true;
      } else if dataLen > recv.sLen && allocationFails {
        TracksClosed(arrived, done, delivered, header + sock.inbox, sock.inbox);
        open, acceptable := false, false;
      }
    }

    /** websocket(): called when a message starts, or when the rest of one has been received. */
    method OnReady(verdict: Next, willing: nat, allocationFails: bool)
      requires recv.Valid() && recv.sLen >= 14 && open && !refused && verdict != Run
      requires if started then HeaderIs(header, opcode, key, dataLen) && recv.reqPos + recv.comLen == dataLen <= recv.sLen
                               && Tracks(arrived, done, delivered, true, false, header + recv.s[..dataLen] + sock.inbox)
               else Valid() && HeaderReady(sock.inbox)
      modifies this, recv, recv.s, sock`inbox
      ensures Valid() && arrived == old(arrived) && (recv.s == old(recv.s) || fresh(recv.s))
      ensures old(delivered) <= delivered && |delivered| <= |old(delivered)| + 1
      ensures old(started) ==> |delivered| == |old(delivered)| + 1 && sock.inbox == old(sock.inbox)
      ensures !old(started) ==> |sock.inbox| < |old(sock.inbox)|
      ensures refused || open || allocationFails || verdict == Disconnect
    {
      hide Tracks, HeaderIs;
      var complete := true;
      if !started {
        var acceptable := Begin(allocationFails);
        if !acceptable {
          assert Held() + sock.inbox == sock.inbox;
          return;
        }
        started := true;
        ghost var rest := sock.inbox;
        complete := BeginPayload(willing);
        Assoc(header, recv.s[..recv.reqPos + recv.comLen], sock.inbox);
      }
      if complete {
        Deliver(verdict);
      }
    }

    /** The automatic receiving does nothing at the start of a message. */
    method Receive(ioctlFails: bool, willing: nat) returns (next: Next)
      requires Valid() && open
      modifies recv`comLen, recv`checkedLen, recv.s, sock`inbox
      ensures recv.Valid() && Tracks(arrived, done, delivered, open, refused, Held() + sock.inbox)
      ensures |sock.inbox| <= |old(sock.inbox)| && next in {Run, Suspend}
      ensures started && next == Run ==> Tracks(arrived, done, delivered, open, refused, header + recv.s[..dataLen] + sock.inbox)
      ensures !started ==> next == Run && Valid() && sock.inbox == old(sock.inbox)
      ensures started && next == Run ==> recv.reqPos + recv.comLen == dataLen
      ensures started && next == Suspend ==> Valid()
      ensures started && willing > 0 && !ioctlFails && |old(sock.inbox)| > 0 ==> |sock.inbox| < |old(sock.inbox)|
    {
      hide Tracks, HeaderIs;
      ghost var read, inbox := if started then recv.s[..recv.reqPos + recv.comLen] else [], sock.inbox;
      ghost var n;
      next, n := recv.AutoReceive(sock, ioctlFails, willing);
      if started {
        HeldMore(header, read, inbox, n);
        assert recv.s[..recv.reqPos + recv.comLen] == read + inbox[..n];
      }
    }

    /** A worker's job for an input event on this connection. */
    method InputJob(verdict: Next, willing: nat, ioctlFails: bool, allocationFails: bool)
      requires Valid() && open && verdict != Run && (started || HeaderReady(sock.inbox))
      modifies this, recv, recv.s, sock`inbox
      ensures Valid() && arrived == old(arrived) && (recv.s == old(recv.s) || fresh(recv.s))
      ensures old(delivered) <= delivered && |delivered| <= |old(delivered)| + 1
      ensures |sock.inbox| <= |old(sock.inbox)|
      ensures willing > 0 && !ioctlFails && |old(sock.inbox)| > 0 ==> |sock.inbox| < |old(sock.inbox)|
      ensures refused || open || allocationFails || verdict == Disconnect
    {
      hide Tracks, HeaderIs;
      var next := Receive(ioctlFails, willing);
      if next == Run {
        OnReady(verdict, willing, allocationFails);
      }
    }

    /** What was delivered is always a prefix of the stream's frames, whatever happens. */
    lemma DeliveredInOrder()
      requires Valid()
      ensures delivered <= Frames(arrived)
    {
      TracksPrefix(arrived, done, delivered, open, refused, Held() + sock.inbox);
    }

    /** Nothing more can be delivered before more arrives. */
    ghost predicate Quiet()
      reads this, sock
    {
      !open || (if started then sock.inbox == [] else !HeaderReady(sock.inbox))
    }

    /** Then the frames delivered are all there are, unless the user function closed. */
    lemma DeliveredInFull()
      requires Valid() && Quiet() && (open || refused)
      ensures delivered == Frames(arrived)
    {
      hide Tracks;
      if open && started {
        ghost var read := recv.s[..recv.reqPos + recv.comLen];
        HeaderAlone(header, read, opcode, key, dataLen);
        assert Held() + sock.inbox == header + read;
      } else if open {
        assert Held() + sock.inbox == sock.inbox;
      }
      TracksInFull(arrived, done, delivered, open, refused, Held() + sock.inbox);
    }

    /** Something happens to the connection.  A job takes place only where its input is there. */
    method Happens(e: Event)
      requires Valid() && (e.Input? ==> e.verdict != Run)
      modifies this, recv, recv.s, sock`inbox
      ensures Valid() && arrived == old(arrived) + (if e.Arrival? then e.bytes else [])
      ensures recv.s == old(recv.s) || fresh(recv.s)
      ensures Keeps(e) && old(open || refused) ==> open || refused
      ensures e.Input? && old(open && sock.inbox != [] && (started || HeaderReady(sock.inbox))) && e.willing > 0 && !e.ioctlFails ==>
                |sock.inbox| < |old(sock.inbox)|
    {
      hide Tracks, HeaderIs;
      match e
      case Arrival(bytes) => Arrive(bytes);
      case Input(verdict, willing, ioctlFails, allocationFails) =>
        if open && (started || HeaderReady(sock.inbox)) {
          InputJob(verdict, willing, ioctlFails, allocationFails);
        }
    }

    /** Input events as long as there is something to do.  In job t the kernel moves `kernel(t)`
        bytes, and the user function says `verdict(t)`. */
    method Drain(kernel: nat -> nat, verdict: nat -> Next, from: nat) returns (t: nat)
      requires Valid() && (forall i :: kernel(i) > 0) && (forall i :: verdict(i) in {Suspend, Send})
      requires open || refused
      modifies this, recv, recv.s, sock`inbox
      ensures Valid() && Quiet() && (open || refused) && arrived == old(arrived)
      ensures recv.s == old(recv.s) || fresh(recv.s)
    {
      hide Tracks, HeaderIs;
      t := from;
      while open && (if started then sock.inbox != [] else HeaderReady(sock.inbox))
        invariant Valid() && (open || refused) && arrived == old(arrived) && (recv.s == old(recv.s) || fresh(recv.s))
        decreases |sock.inbox|
      {
        InputJob(verdict(t), kernel(t), false, false);
        t := t + 1;
      }
    }

    /** A chunk arrives and is dealt with as far as possible. */
    method ServeChunk(chunk: seq<Byte>, kernel: nat -> nat, verdict: nat -> Next, from: nat) returns (t: nat)
      requires Valid() && (forall i :: kernel(i) > 0) && (forall i :: verdict(i) in {Suspend, Send}) && (open || refused)
      modifies this, recv, recv.s, sock`inbox
      ensures Valid() && Quiet() && (open || refused) && arrived == old(arrived) + chunk
      ensures recv.s == old(recv.s) || fresh(recv.s)
    {
      hide Tracks, HeaderIs;
      Arrive(chunk);
      t := Drain(kernel, verdict, from);
    }
  }

  /**
   For every way of cutting a stream into arrivals, every amount the kernel moves per read, and
   every answer of the user function that keeps the connection, it sees exactly the frames of
   the stream.
   */
  method Serve(chunks: seq<seq<Byte>>, kernel: nat -> nat, verdict: nat -> Next, size: nat) returns (delivered: seq<Frame>)
    requires (forall i :: kernel(i) > 0) && (forall i :: verdict(i) in {Suspend, Send}) && size >= 14
    ensures delivered == Frames(Concat(chunks))
  {
    hide Tracks, HeaderIs;
    var sock := new Socket();
    var recv := new Data(size);
    var c := new Connection(sock, recv);
    var i, t := 0, 0;
    while i < |chunks|
      invariant 0 <= i <= |chunks| && c.sock == sock && c.recv == recv
      invariant fresh(c) && fresh(sock) && fresh(recv) && fresh(recv.s)
      invariant c.Valid() && c.Quiet() && (c.open || c.refused) && c.arrived == Concat(chunks[..i])
    {
      t := c.ServeChunk(chunks[i], kernel, verdict, t);
      assert chunks[..i + 1][..i] == chunks[..i];
      i := i + 1;
    }
    assert chunks[..i] == chunks;
    c.DeliveredInFull();
    delivered := c.delivered;
  }

  /** However the encoding of frames arrives, the user function sees the frames that were sent. */
  method ServeSent(xs: seq<Sent>, chunks: seq<seq<Byte>>, kernel: nat -> nat, verdict: nat -> Next, size: nat) returns (delivered: seq<Frame>)
    requires (forall x <- xs :: WellFormed(x)) && Concat(chunks) == EncodeAll(xs)
    requires (forall i :: kernel(i) > 0) && (forall i :: verdict(i) in {Suspend, Send}) && size >= 14
    ensures delivered == Messages(xs)
  {
    RoundTrip(xs);
    delivered := Serve(chunks, kernel, verdict, size);
  }

  // ------------------------------------------------------------------
  // Any order of events
  // ------------------------------------------------------------------

  /** Bytes arrive, or a worker runs a job, with the user function's verdict and what the kernel does. */
  datatype Event =
    | Arrival(bytes: seq<Byte>)
    | Input(verdict: Next, willing: nat, ioctlFails: bool, allocationFails: bool)

  function Arrivals(events: seq<Event>): seq<Byte> {
    if events == [] then []
    else Arrivals(events[..|events| - 1]) + (var e := events[|events| - 1]; if e.Arrival? then e.bytes else [])
  }

  predicate Keeps(e: Event) {
    e.Input? ==> e.verdict != Disconnect && !e.allocationFails
  }

  /**
   Whatever happens in whatever order, the user function sees a front part of the frames of the
   stream; when nothing is left to do it is all of them, unless an event closed the connection.
   */
  method RunEvents(events: seq<Event>, size: nat) returns (c: Connection)
    requires size >= 14 && forall i :: 0 <= i < |events| && events[i].Input? ==> events[i].verdict != Run
    ensures fresh(c) && c.Valid() && c.arrived == Arrivals(events)
    ensures c.delivered <= Frames(Arrivals(events))
    ensures (forall i :: 0 <= i < |events| ==> Keeps(events[i])) ==> c.open || c.refused
    ensures c.Quiet() && (c.open || c.refused) ==> c.delivered == Frames(Arrivals(events))
  {
    hide Tracks, HeaderIs;
    var sock := new Socket();
    var recv := new Data(size);
    c := new Connection(sock, recv);
    var i := 0;
    while i < |events|
      invariant 0 <= i <= |events| && c.sock == sock && c.recv == recv
      invariant fresh(c) && fresh(sock) && fresh(recv) && fresh(recv.s)
      invariant c.Valid() && c.arrived == Arrivals(events[..i])
      invariant (forall k :: 0 <= k < i ==> Keeps(events[k])) ==> c.open || c.refused
    {
      assert events[..i + 1][..i] == events[..i];
      c.Happens(events[i]);
      i := i + 1;
    }
    assert events[..i] == events;
    c.DeliveredInOrder();
    if c.Quiet() && (c.open || c.refused) { c.DeliveredInFull(); }
  }
}
