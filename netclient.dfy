/** The line client used for the peers (NetClient.cs): connection state, the
    reading loop, and the in-place trimming of line ends from each 16-byte buffer.
    The reading thread runs as one method; a Stop that happens while it runs is
    part of what each read reports. */
module Net {
  newtype byte = x: int | 0 <= x < 256

  /** The size of the buffer each read fills. */
  const BufferSize := 16

  /** What one `stream.Read` returns: 1 to 16 bytes. */
  type Chunk = s: seq<byte> | 1 <= |s| <= BufferSize witness [0]

  predicate IsLineEnd(b: byte) {
    b == 10 || b == 13
  }

  // ---- trimming ----

  /** Where the trimming loop stops when it starts at index i: the first index at or below i,
      and above 0, whose byte is not a line end; 0 when there is none. */
  function TrimPoint(s: seq<byte>, i: int): (p: nat)
    requires i < |s|
    ensures p <= (if i < 0 then 0 else i)
    ensures forall k :: p < k <= i ==> IsLineEnd(s[k])
    ensures p > 0 ==> !IsLineEnd(s[p])
    decreases i
  {
    if i <= 0 then 0 else if IsLineEnd(s[i]) then TrimPoint(s, i - 1) else i
  }

  /** The buffer after the trimming loop of ReadInLoop, for `count` bytes read:
      the line ends after the stop point and below `count` become 0. */
  function Trimmed(s: seq<byte>, count: int): (r: seq<byte>)
    requires count <= |s|
    ensures |r| == |s|
  {
    var p := TrimPoint(s, count - 1);
    seq(|s|, k requires 0 <= k < |s| => if p < k < count then 0 else s[k])
  }

  /** Trimming only zeroes line ends: index 0, every byte up to the stop point and
      every byte from `count` on are unchanged, and a byte that changed was CR or LF. */
  lemma TrimmedChangesOnlyLineEnds(s: seq<byte>, count: int)
    requires 1 <= count <= |s|
    ensures Trimmed(s, count)[0] == s[0]
    ensures forall k :: 0 <= k <= TrimPoint(s, count - 1) ==> Trimmed(s, count)[k] == s[k]
    ensures forall k :: count <= k < |s| ==> Trimmed(s, count)[k] == s[k]
    ensures forall k :: 0 <= k < |s| && Trimmed(s, count)[k] != s[k] ==> IsLineEnd(s[k]) && Trimmed(s, count)[k] == 0
  {
  }

  /** The trailing CR/LF loop of ReadInLoop: from byteCount - 1 down to 1, zero each line
      end and stop at the first other byte. */
  method TrimLineEnds(buffer: array<byte>, byteCount: int)
    requires 0 <= byteCount <= buffer.Length
    modifies buffer
    ensures buffer[..] == Trimmed(old(buffer[..]), byteCount)
  {
    ghost var s := buffer[..];
    var i := byteCount - 1;
    while i > 0
      invariant -1 <= i <= byteCount - 1
      invariant i == -1 ==> byteCount == 0
      invariant TrimPoint(s, byteCount - 1) == TrimPoint(s, i)
      invariant forall k :: 0 <= k < buffer.Length ==> buffer[k] == if i < k < byteCount then 0 else s[k]
    {
      if buffer[i] == 10 || buffer[i] == 13 {
        buffer[i] := 0;
        i := i - 1;
      } else {
        break;
      }
    }
    var p := TrimPoint(s, byteCount - 1);
    assert p == if i < 0 then 0 else i;
    forall k | 0 <= k < buffer.Length ensures buffer[k] == Trimmed(s, byteCount)[k] {
    }
    assert buffer[..] == Trimmed(s, byteCount);
  }

  // ---- decoding ----

  /** ASCIIEncoding: bytes up to 127 are their character, others become '?'. */
  function DecodeByte(b: byte): char {
    if b < 128 then (b as int) as char else '?'
  }

  function Decode(bytes: seq<byte>): (text: string)
    ensures |text| == |bytes|
    ensures forall k :: 0 <= k < |bytes| ==> text[k] == DecodeByte(bytes[k])
  {
    seq(|bytes|, k requires 0 <= k < |bytes| => DecodeByte(bytes[k]))
  }

  function Encode(text: string): seq<byte>
    requires forall k :: 0 <= k < |text| ==> text[k] < 128 as char
  {
    seq(|text|, k requires 0 <= k < |text| => (text[k] as int) as byte)
  }

  /** A fresh 16-byte buffer after a read of `data`. */
  function Filled(data: Chunk): (r: seq<byte>)
    ensures |r| == BufferSize
  {
    data + seq(BufferSize - |data|, _ => 0)
  }

  /** The text the Message event carries for one read: all 16 bytes, decoded. */
  function MessageText(data: Chunk): string {
    Decode(Trimmed(Filled(data), |data|))
  }

  /** A line of up to 14 ASCII characters sent with CR LF arrives as one Message: the
      line followed by NUL characters up to 16. */
  lemma LineArrivesPadded(line: string)
    requires 1 <= |line| <= BufferSize - 2
    requires forall k :: 0 <= k < |line| ==> line[k] < 128 as char
    requires line[|line| - 1] != '\r' && line[|line| - 1] != '\n'
    ensures |Encode(line) + [13, 10]| <= BufferSize
    ensures MessageText(Encode(line) + [13, 10]) == line + seq(BufferSize - |line|, _ => '\0')
  {
    var data: Chunk := Encode(line) + [13, 10];
    var s := Filled(data);
    var n := |line|;
    assert s[n] == 13 && s[n + 1] == 10;
    assert !IsLineEnd(s[n - 1]);
    assert TrimPoint(s, n + 1) == n - 1 by {
      assert TrimPoint(s, n + 1) == TrimPoint(s, n);
      assert TrimPoint(s, n) == TrimPoint(s, n - 1);
    }
    var t := Trimmed(s, |data|);
    forall k | 0 <= k < BufferSize
      ensures Decode(t)[k] == (line + seq(BufferSize - n, _ => '\0'))[k]
    {
      if k < n {
        assert t[k] == s[k] == (line[k] as int) as byte;
      } else {
        assert t[k] == 0;
      }
    }
  }

  // ---- the client ----

  datatype ClientEvent = Connected | Message(text: string) | Disconnected

  /** How the connection attempt in Connect ends. */
  datatype Attempt = Established | SocketFailure | TimedOut | OtherFailure

  datatype ConnectError = AlreadyConnected | SocketError | Timeout

  /** What Connect's task completes with: null, a returned exception, or an exception
      that escapes (anything but a socket error or a cancellation). */
  datatype ConnectResult = Ok | Failed(error: ConnectError) | Faulted

  /** What one `stream.Read` in the reading loop gives: bytes (and whether Stop ran
      while they were handled), zero bytes, or an exception. */
  datatype ReadResult = Received(data: Chunk, stopRequested: bool) | EndOfStream | ReadFailed

  /** The events the reading loop raises after Connected, for the steps it makes: one
      Message per non-empty read, until a zero read, a failure, or IsConnected is false
      at the loop condition. */
  function LoopEvents(steps: seq<ReadResult>, connected: bool): seq<ClientEvent> {
    if steps == [] then []
    else match steps[0]
      case EndOfStream => []
      case ReadFailed => []
      case Received(data, stop) =>
        [Message(MessageText(data))] + (if connected && !stop then LoopEvents(steps[1..], true) else [])
  }

  /** The loop raises at most one event per read, and each is a Message of a whole buffer. */
  lemma {:induction false} LoopEventsAreMessages(steps: seq<ReadResult>, connected: bool)
    ensures |LoopEvents(steps, connected)| <= |steps|
    ensures forall k :: 0 <= k < |LoopEvents(steps, connected)| ==>
      LoopEvents(steps, connected)[k].Message? && |LoopEvents(steps, connected)[k].text| == BufferSize
  {
    if steps != [] && steps[0].Received? {
      LoopEventsAreMessages(steps[1..], true);
      var r := LoopEvents(steps, connected);
      var rest := if connected && !steps[0].stopRequested then LoopEvents(steps[1..], true) else [];
      assert r == [Message(MessageText(steps[0].data))] + rest;
      assert forall k :: 1 <= k < |r| ==> r[k] == rest[k - 1];
    }
  }

  /** The events of the loop from step k on: those of step k's read, then the rest. */
  lemma LoopEventsAt(steps: seq<ReadResult>, k: nat, connected: bool)
    requires k < |steps|
    ensures LoopEvents(steps[k..], connected) == match steps[k]
      case Received(data, stop) =>
        [Message(MessageText(data))] + (if connected && !stop then LoopEvents(steps[k + 1..], true) else [])
      case _ => []
  {
    assert steps[k..][0] == steps[k] && steps[k..][1..] == steps[k + 1..];
  }

  /** Every non-empty read before the loop ends raises exactly one Message, in order. */
  lemma {:induction false} LoopEventsCount(steps: seq<ReadResult>, n: nat)
    requires n <= |steps|
    requires forall k :: 0 <= k < n ==> steps[k].Received? && !steps[k].stopRequested
    requires n < |steps| ==> !steps[n].Received?
    ensures |LoopEvents(steps, true)| == n
    ensures forall k :: 0 <= k < n ==> LoopEvents(steps, true)[k] == Message(MessageText(steps[k].data))
  {
    if n > 0 {
      LoopEventsCount(steps[1..], n - 1);
    }
  }

  /** One pass of the reading loop for a non-empty read: a fresh buffer receives the
      bytes, its line ends are trimmed and all of it is decoded. */
  method ReadMessage(data: Chunk) returns (text: string)
    ensures text == MessageText(data)
    ensures |text| == BufferSize
  {
    var buffer := new byte[BufferSize](j => 0);
    forall j | 0 <= j < |data| {
      buffer[j] := data[j];
    }
    assert buffer[..] == Filled(data);
    TrimLineEnds(buffer, |data|);
    text := Decode(buffer[..]);
  }

  class NetClient {
    var isConnected: bool
    /** `_readingThread is not null`. */
    var reading: bool
    /** The TcpClient was closed or disposed. */
    var closed: bool
    /** Connected, Message and Disconnected, in the order raised. */
    var events: seq<ClientEvent>

    constructor ()
      ensures !isConnected && !reading && !closed && events == []
    {
      isConnected, reading, closed, events := false, false, false, [];
    }

    /** NetClient.Connect. */
    method Connect(attempt: Attempt) returns (result: ConnectResult)
      modifies this
      ensures old(reading) ==> result == Failed(AlreadyConnected) && unchanged(this)
      ensures !old(reading) && attempt == Established ==> result == Ok && isConnected && reading
      ensures !old(reading) && attempt != Established ==> unchanged(this)
      ensures !old(reading) && attempt == SocketFailure ==> result == Failed(SocketError)
      ensures !old(reading) && attempt == TimedOut ==> result == Failed(Timeout)
      ensures !old(reading) && attempt == OtherFailure ==> result == Faulted
      ensures closed == old(closed) && events == old(events)
    {
      if reading {
        return Failed(AlreadyConnected);
      }
      match attempt
      case Established =>
        isConnected := true;
        reading := true;
        result := Ok;
      case SocketFailure =>
        result := Failed(SocketError);
      case TimedOut =>
        result := Failed(Timeout);
      case OtherFailure =>
        result := Faulted;
    }

    /** NetClient.Stop: IsConnected is cleared first, then the client is closed and the
        reading thread joined; a running loop then ends with its exit bookkeeping. */
    method Stop()
      modifies this
      ensures !isConnected && closed && !reading
      ensures events == old(events) + (if old(reading) then [Disconnected] else [])
    {
      isConnected := false;
      closed := true;
      if reading {
        ExitReadLoop();
      }
    }

    /** NetClient.Dispose: the client is disposed; the flags are untouched. */
    method Dispose()
      modifies this
      ensures closed
      ensures isConnected == old(isConnected) && reading == old(reading) && events == old(events)
    {
      closed := true;
    }

    /** The bookkeeping after the reading loop: IsConnected and the thread are cleared
        and Disconnected is raised. */
    method ExitReadLoop()
      modifies this
      ensures !isConnected && !reading && closed == old(closed)
      ensures events == old(events) + [Disconnected]
    {
      isConnected := false;
      reading := false;
      events := events + [Disconnected];
    }

    /** One pass of the reading loop's body: a non-empty read raises its Message, and
        the loop goes on only while IsConnected holds and the read was not empty. */
    method ReadOnce(step: ReadResult) returns (going: bool)
      modifies this`events, this`isConnected
      ensures events == old(events) + (if step.Received? then [Message(MessageText(step.data))] else [])
      ensures isConnected == (old(isConnected) && !(step.Received? && step.stopRequested))
      ensures going <==> step.Received? && isConnected
    {
      going := false;
      match step
      case Received(data, stopRequested) =>
        var text := ReadMessage(data);
        events := events + [Message(text)];
        if stopRequested {
          isConnected := false;
        }
        going := isConnected;
      case _ =>
    }

    /** NetClient.ReadInLoop, the body of the reading thread, for the steps it makes
        (running out of steps stands for the read that throws once the client is closed). */
    method ReadInLoop(steps: seq<ReadResult>)
      modifies this
      ensures events == old(events) + [Connected] + LoopEvents(steps, old(isConnected)) + [Disconnected]
      ensures !isConnected && !reading && closed == old(closed)
    {
      events := events + [Connected];
      ghost var target := events + LoopEvents(steps, isConnected);
      assert steps[0..] == steps;
      var k := 0;
      var going := true;
      while going && k < |steps|
        invariant 0 <= k <= |steps|
        invariant going ==> events + LoopEvents(steps[k..], isConnected) == target
        invariant !going ==> events == target
        modifies this`events, this`isConnected
        decreases |steps| - k, going
      {
        ghost var before, wasConnected := events, isConnected;
        LoopEventsAt(steps, k, wasConnected);
        going := ReadOnce(steps[k]);
        if going {
          assert events + LoopEvents(steps[k + 1..], isConnected) == before + LoopEvents(steps[k..], wasConnected);
        } else {
          assert events == before + LoopEvents(steps[k..], wasConnected);
        }
        k := k + 1;
      }
      assert going ==> steps[k..] == [];
      assert events == target;
      ExitReadLoop();
    }
  }
}
