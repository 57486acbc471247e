/**
 ws_writetext of amiproc/websocket.cpp against the reader: a 64-bit length is written in the
 host's (little-endian) order, and read in network order.
 */
module WebSocketWriter {
  import opened Wrappers
  import opened Transfer
  import opened WebSocketSpec
  import WebSocket

  const TEXT: Byte := 1

  function LittleEndian(n: nat, size: nat): (b: seq<Byte>)
    ensures |b| == size
  {
    if size == 0 then [] else [n % 256] + LittleEndian(n / 256, size - 1)
  }

  function TextHeader(n: nat): seq<Byte> {
    if n < 126 then [0x81, n]
    else if n == 126 then [0x81, 126] + Bytes(126, 2)
    else [0x81, 127] + LittleEndian(n, 8)
  }

  function TextFrame(text: seq<Byte>): seq<Byte> {
    TextHeader(|text|) + text
  }

  /** The header is built in full, but the kernel may take less of it. */
  method WriteHeader(sock: Socket, reqLen: nat, willing: nat)
    modifies sock`wire
    ensures sock.wire == old(sock.wire) + TextHeader(reqLen)[..Min(willing, |TextHeader(reqLen)|)]
  {
    var buf := new Byte[10](_ => 0);
    var size;
    buf[0] := 0x80 + TEXT;
    if reqLen < 126 {
      buf[1] := reqLen;
      size := 2;
    } else if reqLen == 126 {
      buf[1], buf[2], buf[3] := 126, 0, 126;
      size := 4;
      assert Bytes(126, 2) == Bytes(0, 1) + [126] && Bytes(0, 1) == Bytes(0, 0) + [0];
    } else {
      buf[1] := 127;
      var plen := LittleEndian(reqLen, 8);
      forall i | 0 <= i < 8 { buf[2 + i] := plen[i]; }
      size := 10;
    }
    assert buf[0..size] == TextHeader(reqLen);
    var k := sock.Write(buf, 0, size, willing);
    assert buf[0..k] == buf[0..size][..k];
  }

  /**
   Two writes, whose counts the code does not look at: the frame is on the wire exactly when the
   kernel took all of both.  A null text is reported.
   */
  method WriteText(sock: Socket, text: array?<Byte>, reqLen: nat, first: nat, second: nat) returns (r: int)
    requires text != null ==> reqLen <= text.Length
    modifies sock`wire
    ensures text == null ==> r == -1 && sock.wire == old(sock.wire)
    ensures text != null ==>
              var header := TextHeader(reqLen);
              && r == Min(second, reqLen)
              && sock.wire == old(sock.wire) + (header[..Min(first, |header|)] + text[..r])
              && (sock.wire == old(sock.wire) + TextFrame(text[..reqLen]) <==> first >= |header| && second >= reqLen)
  {
    if text == null {
      return -1;
    }
    ghost var wire, header := sock.wire, TextHeader(reqLen);
    WriteHeader(sock, reqLen, first);
    var k := sock.Write(text, 0, reqLen, second);
    r := k;
    assert text[0..0 + k] == text[..k];
    Assoc(wire, header[..Min(first, |header|)], text[..k]);
    assert |sock.wire| == |wire| + Min(first, |header|) + k;
    assert |TextFrame(text[..reqLen])| == |header| + reqLen;
    if first >= |header| { assert header[..|header|] == header; }
  }

  lemma {:induction false} ShortText(text: seq<Byte>)
    requires |text| <= 126
    ensures Frames(TextFrame(text)) == [Frame(TEXT, text)] && Rest(TextFrame(text)) == []
  {
    var x := Sent(0x80, Frame(TEXT, text), if |text| < 126 then Short else Medium, None);
    assert Encode(x) == TextFrame(text);
    OneFrame(x);
  }

  lemma LowHalf(n: nat)
    requires 0 < n < 0x1_0000_0000
    ensures WebSocket.Be32(LittleEndian(n, 8), 0) > 0
  {
    var a, b, c := n / 256, n / 256 / 256, n / 256 / 256 / 256;
    assert LittleEndian(n, 8)[0] == n % 256;
    assert LittleEndian(n, 8)[1] == LittleEndian(a, 7)[0] == a % 256;
    assert LittleEndian(n, 8)[2] == LittleEndian(a, 7)[1] == LittleEndian(b, 6)[0] == b % 256;
    assert LittleEndian(n, 8)[3] == LittleEndian(a, 7)[2] == LittleEndian(b, 6)[1] == LittleEndian(c, 5)[0] == c % 256;
  }

  /** A longer text makes the reader refuse the connection: it reads a length of 2^32 or more. */
  lemma {:induction false} LongTextIsRefused(text: seq<Byte>)
    requires 126 < |text| < 0x1_0000_0000
    ensures TooLong(TextFrame(text))
  {
    var n := |text|;
    var b := TextFrame(text);
    assert b[2..10] == LittleEndian(n, 8);
    WebSocket.NumberOfEight(b[2..10]);
    LowHalf(n);
  }

  /** What is written is read back exactly when the text has at most 126 bytes. */
  lemma {:induction false} TextRoundTripExactly(text: seq<Byte>)
    ensures Frames(TextFrame(text)) == [Frame(TEXT, text)] && Rest(TextFrame(text)) == [] <==> |text| <= 126
  {
    var b := TextFrame(text);
    if |text| <= 126 {
      ShortText(text);
    } else if |text| < 0x1_0000_0000 {
      LongTextIsRefused(text);
    }
  }
}
