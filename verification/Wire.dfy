/** A connected client socket and the reply helpers built on it (src/response.cpp). */
module Wire {
  import opened Decimal

  /** What can be observed of a socket: `stream` is everything the peer ever sends, of which
      `read` bytes were received; `packets` logs the completed line batches and `misuses`
      counts operations on a socket that is already closed. */
  datatype Sock = Sock(
    open: bool,
    closes: nat,
    misuses: nat,
    sent: string,
    packets: seq<string>,
    stream: string,
    read: nat)

  function OkLine(value: nat): (s: string) {
    "OK " + ToString(value) + "\n"
  }

  function ErrLine(message: string): (s: string) {
    "ERR " + message + "\n"
  }

  // The reasons a round gives for its failure.
  predicate IsRoundError(message: string) {
    || message == "Unable to open file" || message == "Failed to read file"
    || message == "Unable to receive file" || message == "Failed to write file"
  }

  // A possibly empty prefix of the error line of a round.
  ghost predicate IsErrPart(s: string) {
    exists message: string :: IsRoundError(message) && s <= ErrLine(message)
  }

  /** What one round sets out to send of a reply, and whether more of the reply is owed after it. */
  datatype Part = Part(text: string, more: bool)

  // Sending stopped inside the reply: the whole part may be out only if it was not the end of it.
  predicate StopsIn(body: string, p: Part) {
    body <= p.text && (body == p.text ==> p.more)
  }

  ghost predicate CutAt(before: string, after: string, p: Part, body: string, err: string) {
    StopsIn(body, p) && IsErrPart(err) && after == before + body + err
  }

  // The reply was cut off inside `p`, and perhaps followed by part of an error line.
  ghost predicate CutOff(before: string, after: string, p: Part) {
    exists body: string, err: string :: CutAt(before, after, p, body, err)
  }

  /** The socket after an abandoned round: closed by this round, with the intended part `p` of the
      reply cut off, and perhaps part of an error line after it. */
  ghost predicate Aborted(s: Sock, t: Sock, p: Part) {
    && t == s.(open := false, closes := s.closes + 1, misuses := t.misuses, sent := t.sent, packets := t.packets,
               read := t.read)
    && s.read <= t.read <= |t.stream|
    && (s.open ==> t.misuses == s.misuses)
    && CutOff(s.sent, t.sent, p)
  }

  class ClientSocket {
    const stream: string
    var open: bool
    var closes: nat
    var misuses: nat
    var sent: string
    var packets: seq<string>
    var read: nat
    ghost var sendFaults: nat
    ghost var recvFaults: nat

    ghost predicate Valid()
      reads this
    {
      read <= |stream|
    }

    // How many calls have failed; to find that the peer has sent all it will is no failure.
    ghost function Faults(): nat
      reads this
    {
      sendFaults + recvFaults
    }

    function State(): (s: Sock)
      reads this
    {
      Sock(open, closes, misuses, sent, packets, stream, read)
    }

    // A freshly accepted connection on which the peer will send `stream`.
    constructor (stream: string)
      ensures Valid() && State() == Sock(true, 0, 0, "", [], stream, 0)
    {
      this.stream := stream;
      open, closes, misuses := true, 0, 0;
      sent, packets, read := "", [], 0;
      sendFaults, recvFaults := 0, 0;
    }

    // The `send` call: it may take any positive part of the data, or fail.
    method Send(data: string) returns (n: int)
      requires data != ""
      modifies this`sent, this`misuses, this`sendFaults
      ensures n <= |data|
      ensures !old(open) ==> n <= 0 && State() == old(State()).(misuses := old(misuses) + 1)
      ensures old(open) ==> State() == old(State()).(sent := old(sent) + data[..if n > 0 then n else 0])
      ensures sendFaults == old(sendFaults) + if n > 0 then 0 else 1
    {
      if !open {
        misuses, sendFaults := misuses + 1, sendFaults + 1;
        return -1;
      }
      if * {
        sendFaults := sendFaults + 1;
        return -1;
      }
      n :| 1 <= n <= |data|;
      sent := sent + data[..n];
    }

    // The `recv` call: it may give any non-empty part of what is still to come, or fail (`""`).
    method Recv(limit: nat) returns (data: string)
      requires Valid()
      modifies this`read, this`misuses, this`recvFaults
      ensures Valid() && |data| <= limit
      ensures old(open) ==> State() == old(State()).(read := old(read) + |data|)
      ensures old(open) ==> data == stream[old(read)..read]
      ensures !old(open) ==> data == "" && State() == old(State()).(misuses := old(misuses) + 1)
      ensures old(recvFaults) <= recvFaults && (data != "" ==> recvFaults == old(recvFaults))
      ensures data == "" && limit > 0 && recvFaults == old(recvFaults) ==> read == |stream|
    {
      if !open {
        misuses, recvFaults := misuses + 1, recvFaults + 1;
        return "";
      }
      var available := if |stream| - read < limit then |stream| - read else limit;
      if available == 0 {
        return "";
      }
      if * {
        recvFaults := recvFaults + 1;
        return "";
      }
      var n: nat :| 1 <= n <= available;
      data := stream[read..read + n];
      read := read + n;
    }

    method Close()
      modifies this`open, this`closes, this`misuses
      ensures State() == old(State()).(open := false, closes := old(closes) + 1,
                                       misuses := if old(open) then old(misuses) else old(misuses) + 1)
    {
      if !open {
        misuses := misuses + 1;
      }
      open := false;
      closes := closes + 1;
    }

    // Whatever the peer's `send` window does, all of `data` arrives once and in order, or only a
    // proper prefix does and the result is false.
    method SendResponse(data: string) returns (ok: bool)
      modifies this`sent, this`misuses, this`sendFaults
      ensures ok ==> State() == old(State()).(sent := old(sent) + data)
      ensures ok && data != "" ==> old(open)
      ensures !ok ==> State() == old(State()).(sent := sent, misuses := misuses)
      ensures !ok ==> if old(open) then misuses == old(misuses) else sent == old(sent) && misuses == old(misuses) + 1
      ensures !ok ==> old(sent) <= sent < old(sent) + data
      ensures sendFaults == old(sendFaults) + if ok then 0 else 1
    {
      var totalBytesSent := 0;
      while totalBytesSent < |data|
        invariant 0 <= totalBytesSent <= |data|
        invariant State() == old(State()).(sent := old(sent) + data[..totalBytesSent])
        invariant sendFaults == old(sendFaults)
        invariant totalBytesSent > 0 ==> old(open)
      {
        var bytesSent := Send(data[totalBytesSent..]);
        if bytesSent <= 0 {
          return false;
        }
        assert data[..totalBytesSent] + data[totalBytesSent..][..bytesSent] == data[..totalBytesSent + bytesSent];
        totalBytesSent := totalBytesSent + bytesSent;
      }
      assert data[..totalBytesSent] == data;
      ok := true;
    }

    method SendOkResponse(value: nat) returns (ok: bool)
      modifies this`sent, this`misuses, this`sendFaults
      ensures ok ==> old(open) && State() == old(State()).(sent := old(sent) + OkLine(value))
      ensures !ok ==> State() == old(State()).(sent := sent, misuses := misuses)
      ensures !ok ==> if old(open) then misuses == old(misuses) else sent == old(sent) && misuses == old(misuses) + 1
      ensures !ok ==> old(sent) <= sent < old(sent) + OkLine(value)
      ensures sendFaults == old(sendFaults) + if ok then 0 else 1
    {
      ok := SendResponse(OkLine(value));
    }

    // Callers ignore whether the error line could be sent.
    method SendErrorResponse(message: string)
      modifies this`sent, this`misuses, this`sendFaults
      ensures State() == old(State()).(sent := sent, misuses := misuses)
      ensures if old(open) then misuses == old(misuses) else sent == old(sent)
      ensures old(sent) <= sent <= old(sent) + ErrLine(message)
      ensures old(sendFaults) <= sendFaults
      ensures sendFaults == old(sendFaults) ==> sent == old(sent) + ErrLine(message)
    {
      var ok := SendResponse(ErrLine(message));
    }

    // `sendAllBytes` on a batch of lines; a completed batch is logged.
    method SendAllBytes(data: string) returns (ok: bool)
      modifies this`sent, this`misuses, this`packets, this`sendFaults
      ensures ok ==> State() == old(State()).(sent := old(sent) + data, packets := old(packets) + [data])
      ensures ok && data != "" ==> old(open)
      ensures !ok ==> State() == old(State()).(sent := sent, misuses := misuses)
      ensures !ok ==> if old(open) then misuses == old(misuses) else sent == old(sent) && misuses == old(misuses) + 1
      ensures !ok ==> old(sent) <= sent < old(sent) + data
      ensures sendFaults == old(sendFaults) + if ok then 0 else 1
    {
      var totalSent := 0;
      while totalSent < |data|
        invariant 0 <= totalSent <= |data|
        invariant State() == old(State()).(sent := old(sent) + data[..totalSent])
        invariant sendFaults == old(sendFaults)
        invariant totalSent > 0 ==> old(open)
      {
        var bytesActuallySent := Send(data[totalSent..]);
        if bytesActuallySent <= 0 {
          return false;
        }
        assert data[..totalSent] + data[totalSent..][..bytesActuallySent] == data[..totalSent + bytesActuallySent];
        totalSent := totalSent + bytesActuallySent;
      }
      assert data[..totalSent] == data;
      packets := packets + [data];
      ok := true;
    }
  }

  // The reply so far, and then the whole error line.
  ghost predicate ToldWhy(before: string, after: string, message: string) {
    exists body: string :: after == before + body + ErrLine(message)
  }

  lemma EmptyIsErrPart()
    ensures IsErrPart("")
  {
    assert IsRoundError("Unable to open file") && "" <= ErrLine("Unable to open file");
  }

  // A round that stopped in the middle of sending.
  lemma CutOffPlain(before: string, after: string, p: Part)
    requires before <= after <= before + p.text && (after == before + p.text ==> p.more)
    ensures CutOff(before, after, p)
  {
    EmptyIsErrPart();
    var body := after[|before|..];
    assert after == before + body + "";
    assert body <= p.text by {
      assert (before + p.text)[|before|..|after|] == p.text[..|body|];
    }
    assert CutAt(before, after, p, body, "");
  }

  // A round that stopped between sends and then reported an error.
  lemma CutOffWithError(before: string, middle: string, after: string, p: Part, message: string)
    requires before <= middle <= before + p.text && (middle == before + p.text ==> p.more)
    requires IsRoundError(message) && middle <= after <= middle + ErrLine(message)
    ensures CutOff(before, after, p)
  {
    var body, err := middle[|before|..], after[|middle|..];
    assert body <= p.text by {
      assert (before + p.text)[|before|..|middle|] == p.text[..|body|];
    }
    assert err <= ErrLine(message) by {
      assert (middle + ErrLine(message))[|middle|..|after|] == ErrLine(message)[..|err|];
    }
    assert middle == before + body;
    assert after == before + body + err;
    assert CutAt(before, after, p, body, err);
  }

  /** A round abandoned after its opening is a round abandoned. */
  lemma AbortedLater(s: Sock, base: Sock, t: Sock, opening: string, part: Part, full: Part)
    requires base == s.(sent := s.sent + opening, misuses := base.misuses)
    requires s.open ==> base.misuses == s.misuses
    requires Aborted(base, t, part) && opening + part.text <= full.text
    requires opening + part.text == full.text && part.more ==> full.more
    ensures Aborted(s, t, full)
  {
    var body, err :| CutAt(base.sent, t.sent, part, body, err);
    assert t.sent == s.sent + (opening + body) + err;
    assert opening + body <= opening + part.text;
    assert opening + body == opening + part.text ==> body == part.text by {
      assert (opening + body)[|opening|..] == body && (opening + part.text)[|opening|..] == part.text;
    }
    assert CutAt(s.sent, t.sent, full, opening + body, err);
  }

  lemma AbortedEarly(s: Sock, t: Sock, text: string, more: bool)
    requires Aborted(s, t, Part(text, false))
    ensures Aborted(s, t, Part(text, more))
  {
    var body, err :| CutAt(s.sent, t.sent, Part(text, false), body, err);
    assert CutAt(s.sent, t.sent, Part(text, more), body, err);
  }
}
