/** Reading one request line from a socket, whatever the chunks it arrives in (src/framing.cpp). */
module Framing {
  import opened Lines
  import opened Wire

  datatype HeaderResult = Received(header: string, extra: string) | NotReceived(errorMessage: string)

  // The position of the first newline, or the length when there is none.
  function FindNewline(s: string): (n: nat)
    ensures n <= |s|
    ensures n < |s| ==> s[n] == '\n'
    ensures forall k :: 0 <= k < n ==> s[k] != '\n'
  {
    if s == "" || s[0] == '\n' then 0 else 1 + FindNewline(s[1..])
  }

  // The first newline of a prefix that has one is the first newline of the whole.
  lemma NewlineInPrefix(s: string, t: string)
    requires s <= t && FindNewline(s) < |s|
    ensures FindNewline(t) == FindNewline(s)
  {
    var n, m := FindNewline(s), FindNewline(t);
    assert t[n] == s[n];
  }

  lemma LineEndIsFirstNewline(s: string)
    requires FindNewline(s) < |s|
    ensures LineEnd(s, 0) == FindNewline(s) + 1
  {
    LineEndIsNext(s, 0, FindNewline(s) + 1);
    var e := LineEnd(s, 0);
    assert e < |s| ==> s[e - 1] == '\n';
  }

  lemma HeaderOfPrefix(stream: string, n: nat)
    requires n <= |stream| && FindNewline(stream[..n]) < n
    ensures FindNewline(stream) < |stream| && LineEnd(stream, 0) == FindNewline(stream[..n]) + 1 <= n
    ensures stream[..n][..LineEnd(stream, 0)] == stream[..LineEnd(stream, 0)]
  {
    NewlineInPrefix(stream[..n], stream);
    LineEndIsFirstNewline(stream);
  }

  function SplitAt(s: string, n: nat): (r: HeaderResult)
    requires n <= |s|
    ensures r.Received? && r.header == s[..n] && r.header + r.extra == s
  {
    Received(s[..n], s[n..])
  }

  /** The header is the stream up to and including its first newline, and together with `extra`
      it is everything received; on failure no newline was received. Unless a receive fails, the
      header is found whenever the stream has one. */
  method ReadRequestHeader(socket: ClientSocket) returns (result: HeaderResult)
    requires socket.Valid() && socket.read == 0 && socket.open
    modifies socket`read, socket`misuses, socket`recvFaults
    ensures socket.Valid() && socket.State() == old(socket.State()).(read := socket.read)
    ensures match result
            case Received(header, extra) =>
              && FindNewline(socket.stream) < |socket.stream|
              && header == socket.stream[..LineEnd(socket.stream, 0)]
              && header + extra == socket.stream[..socket.read]
            case NotReceived(message) =>
              message == "Failed to receive request header" && '\n' !in socket.stream[..socket.read]
    ensures old(socket.recvFaults) <= socket.recvFaults
    ensures socket.recvFaults == old(socket.recvFaults) ==> (result.Received? <==> '\n' in socket.stream)
  {
    var bufferString := "";
    while true
      invariant socket.Valid() && socket.State() == old(socket.State()).(read := socket.read)
      invariant bufferString == socket.stream[..socket.read]
      invariant '\n' !in bufferString && socket.recvFaults == old(socket.recvFaults)
      decreases |socket.stream| - socket.read
    {
      var received := socket.Recv(1024);
      if |received| == 0 {
        return NotReceived("Failed to receive request header");
      }
      bufferString := bufferString + received;
      assert bufferString == socket.stream[..socket.read];
      var newLinePos := FindNewline(bufferString);
      if newLinePos < |bufferString| {
        HeaderOfPrefix(socket.stream, socket.read);
        return SplitAt(bufferString, newLinePos + 1);
      }
    }
  }
}
