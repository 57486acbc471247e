/**
 The transfer engine of a worker (tst/tst.cpp, tst_work): TST_DATA buffers, a socket's kernel
 queues, and the automatic receiving and sending of `req_len` bytes over any number of events.
 read and write return any count between 0 and what was asked for: how much the kernel
 is willing to move is an argument of every operation here.
 */
module Transfer {
  type Byte = b: nat | b < 256

  /** What a job tells the worker to do next (TST_STAT). */
  datatype Next = Suspend | Run | Send | Disconnect

  function Min(a: nat, b: nat): nat { if a <= b then a else b }

  lemma Assoc<T>(a: seq<T>, b: seq<T>, c: seq<T>)
    ensures a + b + c == a + (b + c)
  {
  }

  /** A stream that arrives in pieces. */
  function Concat(chunks: seq<seq<Byte>>): seq<Byte> {
    if chunks == [] then [] else Concat(chunks[..|chunks| - 1]) + chunks[|chunks| - 1]
  }

  /** All of `counts` together. */
  function Total(counts: seq<nat>): nat {
    if counts == [] then 0 else Total(counts[..|counts| - 1]) + counts[|counts| - 1]
  }

  lemma {:induction false} TotalOfPrefix(counts: seq<nat>, i: nat)
    requires i <= |counts|
    ensures Total(counts[..i]) <= Total(counts)
    decreases |counts|
  {
    if i < |counts| {
      assert counts[..|counts| - 1][..i] == counts[..i];
      TotalOfPrefix(counts[..|counts| - 1], i);
    } else {
      assert counts[..i] == counts;
    }
  }

  /** The kernel's side of a socket: bytes that have arrived but were not read, and bytes written. */
  class Socket {
    var inbox: seq<Byte>
    var wire: seq<Byte>

    constructor ()
      ensures inbox == [] && wire == []
    {
      inbox, wire := [], [];
    }

    /** read(sd, &buffer[at], n) */
    method Read(buffer: array<Byte>, at: nat, n: nat, willing: nat) returns (k: nat)
      requires at + n <= buffer.Length
      modifies `inbox, buffer
      ensures k == Min(willing, Min(n, |old(inbox)|)) && inbox == old(inbox)[k..]
      ensures buffer[..] == old(buffer[..at]) + old(inbox)[..k] + old(buffer[at + k..])
    {
      k := Min(willing, Min(n, |inbox|));
      forall i | 0 <= i < k { buffer[at + i] := inbox[i]; }
      inbox := inbox[k..];
    }

    /** write(sd, &buffer[at], n) */
    method Write(buffer: array<Byte>, at: nat, n: nat, willing: nat) returns (k: nat)
      requires at + n <= buffer.Length
      modifies `wire
      ensures k == Min(willing, n) && wire == old(wire) + buffer[at..at + k]
    {
      k := Min(willing, n);
      wire := wire + buffer[at..at + k];
    }
  }

  /** TST_DATA.  One byte more than s_len is allocated. */
  class Data {
    var s: array<Byte>
    var sLen: nat
    var reqPos: nat
    var reqLen: nat
    var comLen: nat
    var checkedLen: nat

    ghost predicate Valid()
      reads this
    {
      sLen < s.Length && reqPos + reqLen <= sLen && (reqLen > 0 ==> comLen <= reqLen)
    }

    constructor (size: nat)
      ensures Valid() && fresh(s) && sLen == size && reqPos == reqLen == comLen == checkedLen == 0
    {
      s := new Byte[size + 1](_ => 0);
      sLen := size;
      reqPos, reqLen, comLen, checkedLen := 0, 0, 0, 0;
    }

    method ResetData()
      requires Valid()
      modifies this`reqLen, this`reqPos, this`comLen, s
      ensures Valid() && reqLen == reqPos == comLen == 0
      ensures forall i :: 0 <= i < sLen ==> s[i] == 0
    {
      reqLen, reqPos, comLen := 0, 0, 0;
      forall i | 0 <= i < sLen { s[i] := 0; }
    }

    /**
     The receiving half of a job.  While `req_len` is set, what has arrived is appended up to
     `req_len` and never beyond; the user function runs only when it is complete.
     */
    method AutoReceive(sock: Socket, ioctlFails: bool, willing: nat) returns (next: Next, ghost n: nat)
      requires Valid()
      modifies this`comLen, this`checkedLen, s, sock`inbox
      ensures Valid() && next in {Run, Suspend} && (next == Run <==> reqLen == 0 || comLen >= reqLen)
      ensures n == (if reqLen == 0 || ioctlFails then 0 else Min(willing, Min(reqLen - old(comLen), |old(sock.inbox)|)))
      ensures sock.inbox == old(sock.inbox)[n..] && comLen == old(comLen) + n
      ensures reqLen == 0 || old(comLen) >= reqLen ==> checkedLen == old(checkedLen)
      ensures reqLen > 0 && comLen >= reqLen && n > 0 ==> checkedLen == 0
      ensures n > 0 ==> s[..reqPos + comLen] == old(s[..reqPos + comLen]) + old(sock.inbox)[..n]
      ensures n == 0 ==> s[..] == old(s[..])
    {
      next, n := Suspend, 0;
      if reqLen != 0 {
        if comLen >= reqLen {
          next := Run;
        } else if !ioctlFails {
          checkedLen := |sock.inbox|;
          if checkedLen > reqLen - comLen { checkedLen := reqLen - comLen; }
          var k := sock.Read(s, reqPos + comLen, checkedLen, willing);
          comLen := comLen + k;
          n := k;
          if comLen >= reqLen {
            checkedLen := 0;
            next := Run;
          }
        }
      } else {
        next := Run;
      }
    }

    /** The sending half of a job: the rest of the request is written, if there is one. */
    method AutoSend(sock: Socket, willing: nat) returns (next: Next)
      requires reqPos + reqLen <= s.Length
      modifies this`comLen, sock`wire
      ensures comLen == if old(comLen) < reqLen then Min(old(comLen) + willing, reqLen) else old(comLen)
      ensures old(comLen) <= comLen && (old(comLen) < comLen ==> comLen <= reqLen)
      ensures sock.wire == if old(comLen) < reqLen then old(sock.wire) + s[reqPos + old(comLen)..reqPos + comLen] else old(sock.wire)
      ensures next == if comLen < reqLen then Send else Run
    {
      if reqLen == 0 || comLen >= reqLen {
        next := Run;
      } else {
        var k := sock.Write(s, reqPos + comLen, reqLen - comLen, willing);
        comLen := comLen + k;
        next := if comLen < reqLen then Send else Run;
      }
    }
  }

  /** One send request on a socket: the user set req_pos and req_len in the send buffer. */
  class Sender {
    const sock: Socket
    const send: Data
    var armedForOutput: bool
    ghost const base: seq<Byte>
    ghost const request: seq<Byte>
    /** How often the user function has been called since. */
    var calls: nat

    /** The bytes on the wire are those of the request, in order and once each. */
    ghost predicate Valid()
      reads this, sock, send, send.s
    {
      && send.Valid() && send.reqLen > 0
      && send.s[send.reqPos..send.reqPos + send.reqLen] == request
      && sock.wire == base + send.s[send.reqPos..send.reqPos + send.comLen]
      && (calls > 0 ==> send.comLen == send.reqLen)
    }

    constructor (sock: Socket, send: Data)
      requires send.Valid() && send.reqLen > 0 && send.comLen == 0
      ensures Valid() && calls == 0 && this.sock == sock && this.send == send
      ensures base == sock.wire && request == send.s[send.reqPos..send.reqPos + send.reqLen]
    {
      this.sock, this.send, armedForOutput, calls := sock, send, true, 0;
      base := sock.wire;
      request := send.s[send.reqPos..send.reqPos + send.reqLen];
    }

    /** The sending half of a job. */
    method AutoSend(willing: nat) returns (next: Next)
      requires Valid()
      modifies send`comLen, sock`wire
      ensures Valid() && send.comLen == Min(old(send.comLen) + willing, send.reqLen)
      ensures next == if send.comLen == send.reqLen then Run else Send
    {
      next := send.AutoSend(sock, willing);
    }

    /** A whole job for an output event: send, maybe call the user function, arm the socket again. */
    method OutputJob(willing: nat, verdict: Next)
      requires Valid() && calls == 0
      modifies this`armedForOutput, this`calls, send`comLen, sock`wire
      ensures Valid() && send.comLen == Min(old(send.comLen) + willing, send.reqLen)
      ensures calls == if send.comLen == send.reqLen then 1 else 0
      ensures armedForOutput == (if send.comLen == send.reqLen then verdict == Send else true)
    {
      var next := AutoSend(willing);
      if next == Run {
        calls := calls + 1;
        next := verdict;
      }
      armedForOutput := next == Send;
    }

    /**
     Output events until the user function has been told: under any sequence of short writes
     the wire holds exactly what the kernel took of the request, and the user function runs
     once, when and only when all of it was taken.
     */
    method OutputJobs(taken: seq<nat>, verdict: Next)
      requires Valid() && calls == 0 && armedForOutput && send.comLen == 0
      modifies this`armedForOutput, this`calls, send`comLen, sock`wire
      ensures Valid() && sock.wire == base + request[..Min(Total(taken), |request|)]
      ensures calls == if Total(taken) >= |request| then 1 else 0
      ensures calls == 0 ==> armedForOutput
    {
      var e := 0;
      while e < |taken| && calls == 0
        invariant e <= |taken| && Valid() && (calls == 0 ==> armedForOutput)
        invariant calls == if send.comLen == send.reqLen then 1 else 0
        invariant send.comLen == Min(Total(taken[..e]), send.reqLen)
      {
        assert taken[..e + 1][..e] == taken[..e];
        OutputJob(taken[e], verdict);
        e := e + 1;
      }
      TotalOfPrefix(taken, e);
      assert e == |taken| ==> taken[..e] == taken;
    }
  }
}
