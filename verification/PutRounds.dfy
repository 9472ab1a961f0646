/** The PUT round functions (src/request_handler.cpp). Bytes come first from what was received
    with the header (`extra`), then from the socket. */
module PutRounds {
  import opened Wire
  import opened Storage
  import opened Requests
  import opened GetRounds

  const BUFFER_SIZE: nat := 8192

  function Min(a: nat, b: nat): nat {
    if a < b then a else b
  }

  // How much of `extra` a round with this allowance takes; the declared total does not limit it.
  function ExtraShare(r: Admitted, allowance: nat): (e: nat)
    ensures e <= |r.extra| && e <= allowance
  {
    Min(|r.extra|, allowance)
  }

  // How much the same round then takes from the socket.
  function SocketShare(r: Admitted, allowance: nat): (m: nat)
    ensures ExtraShare(r, allowance) + m <= allowance
  {
    var e := ExtraShare(r, allowance);
    if r.transferred + e >= r.total then 0 else Min(allowance - e, r.total - r.transferred - e)
  }

  function Moved(r: Admitted, allowance: nat): nat {
    ExtraShare(r, allowance) + SocketShare(r, allowance)
  }

  lemma SharesDependOnBytes(r: Admitted, q: Admitted, allowance: nat)
    requires r.extra == q.extra && r.transferred == q.transferred && r.total == q.total
    ensures ExtraShare(r, allowance) == ExtraShare(q, allowance)
    ensures SocketShare(r, allowance) == SocketShare(q, allowance)
    ensures Moved(r, allowance) == Moved(q, allowance)
  {
  }

  // What is in the file once the round has opened it: only the first round truncates.
  function Reopened(r: Admitted, stored: string): string {
    if r.transferred == 0 then "" else stored
  }

  // What the round sends: the closing line only when the declared total is hit exactly.
  function PutReply(r: Admitted, allowance: nat): string {
    Opening(r) + if r.transferred + Moved(r, allowance) == r.total then OkLine(0) else ""
  }

  // What the round sets out to send; an upload is owed two lines in all.
  function PutPart(r: Admitted, allowance: nat): Part {
    Part(PutReply(r, allowance), r.transferred + Moved(r, allowance) != r.total)
  }

  lemma OpeningInPart(r: Admitted, allowance: nat)
    ensures StopsIn(Opening(r), PutPart(r, allowance))
  {
    assert |OkLine(0)| > 0;
    assert PutReply(r, allowance)[..|Opening(r)|] == Opening(r);
  }

  // Request, socket and file after a successful round, up to the deficit and the misuse count.
  function PutResult(allowance: nat, r: Admitted, s: Sock, stored: string): (Admitted, Sock, string)
    requires s.read + SocketShare(r, allowance) <= |s.stream|
  {
    var e, m := ExtraShare(r, allowance), SocketShare(r, allowance);
    var done := r.transferred + e + m == r.total;
    (r.(responseStarted := true, extra := r.extra[e..], transferred := r.transferred + e + m, deficit := 0),
     s.(sent := s.sent + PutReply(r, allowance), read := s.read + m, open := s.open && !done,
        closes := if done then s.closes + 1 else s.closes, misuses := 0),
     Reopened(r, stored) + r.extra[..e] + s.stream[s.read..s.read + m])
  }

  // The most a round that fails can have put into the file.
  function PutAtMost(allowance: nat, r: Admitted, s: Sock, stored: string): string
    requires s.read <= |s.stream|
  {
    Reopened(r, stored) + r.extra[..ExtraShare(r, allowance)]
    + s.stream[s.read..Min(|s.stream|, s.read + SocketShare(r, allowance))]
  }

  /** One preemptible PUT round. On failure the file was not touched, or holds what it held and a
      part of what the round would have added. */
  ghost predicate PutRoundPost(allowance: nat, r: Admitted, s: Sock, stored: string,
                               r': Admitted, s': Sock, stored': string, ok: bool)
  {
    if ok then
      && s.read + SocketShare(r, allowance) <= |s.stream|
      && (r'.(deficit := 0), s'.(misuses := 0), stored') == PutResult(allowance, r, s, stored)
      && (s.open ==> s'.misuses == s.misuses)
    else
      && s.read <= |s.stream|
      && Aborted(s, s', PutPart(r, allowance))
      && (stored' == stored || Reopened(r, stored) <= stored' <= PutAtMost(allowance, r, s, stored))
  }

  ghost predicate PutRoundRobinPost(options: ServerOptions, r: Admitted, s: Sock, stored: string,
                                    r': Admitted, s': Sock, stored': string, ok: bool)
  {
    && PutRoundPost(options.quantum, r, s, stored, r', s', stored', ok)
    && (ok ==> r'.deficit == if r'.transferred == r.total then 0 else r.deficit)
  }

  ghost predicate PutDeficitRoundRobinPost(options: ServerOptions, r: Admitted, s: Sock, stored: string,
                                           r': Admitted, s': Sock, stored': string, ok: bool)
  {
    && PutRoundPost(r.deficit + options.quantum, r, s, stored, r', s', stored', ok)
    && (ok ==> r'.deficit == if r'.transferred == r.total then 0
                             else r.deficit + options.quantum - Moved(r, r.deficit + options.quantum))
  }

  // The whole reply to an upload served in one go.
  function OneGoPart(): Part {
    Part(OkLine(0) + OkLine(0), false)
  }

  // The bytes an upload served in one go is to store.
  function OneGoBody(r: Admitted, s: Sock): string
    requires s.read + (r.total - Min(|r.extra|, r.total)) <= |s.stream|
  {
    var e := Min(|r.extra|, r.total);
    r.extra[..e] + s.stream[s.read..s.read + (r.total - e)]
  }

  /** A PUT served in one go. Failed writes of received data are not noticed: the result is true
      all the same, and `written`, that no write failed, is known by the file alone. */
  ghost predicate PutToCompletionPost(r: Admitted, s: Sock, stored: string, r': Admitted, s': Sock, stored': string,
                                      ok: bool, written: bool)
    requires r.transferred == 0
  {
    var e := Min(|r.extra|, r.total);
    var m := r.total - e;
    if ok then
      && s.read + m <= |s.stream|
      && stored' <= OneGoBody(r, s) && (written <==> stored' == OneGoBody(r, s))
      && r' == r.(transferred := r.total)
      && s' == s.(sent := s.sent + OneGoPart().text, read := s.read + m, open := false,
                  closes := s.closes + 1, misuses := s'.misuses)
      && (s.open ==> s'.misuses == s.misuses)
    else
      && s.read <= |s.stream|
      && Aborted(s, s', OneGoPart())
      && (stored' == stored || stored' <= r.extra[..e] + s.stream[s.read..Min(|s.stream|, s.read + m)])
  }

  // The reason given for a failed upload round: its file could not be opened, or not written, or the
  // bytes not received.
  function PutReason(openFailed: bool, writeFailed: bool): (message: string) {
    if openFailed then "Unable to open file"
    else if writeFailed then "Failed to write file"
    else "Unable to receive file"
  }

  // The peer has sent all it will, which is too little for the round.
  predicate RanOut(s: Sock, t: Sock, share: nat) {
    t.read == |s.stream| < s.read + share
  }

  /** Why a preemptible upload round failed, from the calls that had failed before and after it:
      some call of it failed, or its peer ran out; and the peer was told which unless a send failed. */
  predicate PutFailure(s: Sock, t: Sock, opening: string, share: nat, before: FaultCounts, now: FaultCounts) {
    && (now == before ==> RanOut(s, t, share))
    && (now.sends == before.sends ==>
          t.sent == s.sent + opening
                    + ErrLine(PutReason(now.opens > before.opens, now.transfers > before.transfers)))
  }

  // The same in one go, where only the write of early bytes is checked.
  predicate OneGoFailure(s: Sock, t: Sock, opening: string, share: nat, before: FaultCounts, now: FaultCounts) {
    && (now == before ==> RanOut(s, t, share))
    && (now.sends == before.sends ==>
          || t.sent == s.sent + opening + ErrLine(PutReason(now.opens > before.opens, false))
          || (now.transfers > before.transfers && t.read == s.read
              && t.sent == s.sent + opening + ErrLine("Failed to write file")))
  }

  // The socket once `opening` is sent and some of the body is received.
  ghost predicate Receiving(s: Sock, t: Sock, opening: string) {
    && t == s.(sent := s.sent + opening, read := t.read, misuses := t.misuses)
    && s.read <= t.read <= |t.stream|
    && (s.open ==> t.misuses == s.misuses)
  }

  // Every early exit of a PUT round after its opening: an error line, then the close.
  method FailPut(socket: ClientSocket, message: string, ghost s: Sock, ghost opening: string, ghost full: Part)
    requires StopsIn(opening, full) && Receiving(s, socket.State(), opening) && IsRoundError(message)
    modifies socket
    ensures Aborted(s, socket.State(), full) && socket.read == old(socket.read)
    ensures old(socket.sendFaults) <= socket.sendFaults && socket.recvFaults == old(socket.recvFaults)
    ensures socket.sendFaults == old(socket.sendFaults) ==> socket.sent == s.sent + opening + ErrLine(message)
  {
    ghost var middle := socket.sent;
    assert s.sent + full.text == (s.sent + opening) + full.text[|opening|..];
    socket.SendErrorResponse(message);
    socket.Close();
    CutOffWithError(s.sent, middle, socket.sent, full, message);
  }

  /** One turn of a preemptible receive loop: at most `limit` bytes move from the socket to the file. */
  method ReceiveChunk(request: AdmittedRequest, writer: FileWriter, limit: nat, ghost s: Sock, ghost opening: string,
                      ghost full: Part)
    returns (ok: bool, received: nat)
    requires StopsIn(opening, full) && Receiving(s, request.clientSocket.State(), opening) && writer.good
    requires limit > 0
    modifies request`bytesTransferred, request.clientSocket, writer, writer.file`contents, writer.file`ioFaults
    ensures s.read <= old(request.clientSocket.read) <= request.clientSocket.read <= |s.stream|
    ensures request.clientSocket.read <= old(request.clientSocket.read) + limit
    ensures ok ==> 0 < received && request.clientSocket.read == old(request.clientSocket.read) + received
    ensures ok ==> Receiving(s, request.clientSocket.State(), opening)
    ensures ok ==> writer.good && request.bytesTransferred == old(request.bytesTransferred) + received
    ensures ok ==> writer.file.contents == old(writer.file.contents)
                   + s.stream[old(request.clientSocket.read)..request.clientSocket.read]
    ensures !ok ==> Aborted(s, request.clientSocket.State(), full)
    ensures !ok ==> old(writer.file.contents) <= writer.file.contents
                    <= old(writer.file.contents) + s.stream[old(request.clientSocket.read)..request.clientSocket.read]
    ensures Counts(request.clientSocket, writer.file).Since(old(Counts(request.clientSocket, writer.file)))
    ensures ok ==> Counts(request.clientSocket, writer.file) == old(Counts(request.clientSocket, writer.file))
    ensures !ok ==>
              PutFailure(s, request.clientSocket.State(), opening, old(request.clientSocket.read) - s.read + 1,
                         old(Counts(request.clientSocket, writer.file)),
                         Counts(request.clientSocket, writer.file))
  {
    var socket := request.clientSocket;
    var buffer := socket.Recv(limit);
    received := |buffer|;
    ok := false;
    if received == 0 {
      FailPut(socket, "Unable to receive file", s, opening, full);
      return;
    }
    writer.Write(buffer);
    if !writer.good {
      FailPut(socket, "Failed to write file", s, opening, full);
      return;
    }
    request.bytesTransferred := request.bytesTransferred + received;
    ok := true;
  }

  // Opening line and file: how every preemptible PUT round begins.
  method BeginPutRound(request: AdmittedRequest, store: StoredFile, ghost full: Part) returns (writer: FileWriter?)
    requires request.op.Put? && request.clientSocket.Valid() && StopsIn(Opening(request.Snapshot()), full)
    modifies request`responseStarted, request.clientSocket, store
    ensures writer != null ==> fresh(writer) && writer.file == store && writer.good && request.responseStarted
    ensures writer != null ==> store.present && store.contents == Reopened(request.Snapshot(), old(store.contents))
    ensures writer != null ==> request.clientSocket.Valid()
    ensures writer != null ==>
              request.clientSocket.State() ==
              old(request.clientSocket.State()).(sent := old(request.clientSocket.sent)
                                                             + Opening(old(request.Snapshot())))
    ensures writer == null ==> store.contents == old(store.contents) && store.present == old(store.present)
    ensures writer == null ==> Aborted(old(request.clientSocket.State()), request.clientSocket.State(), full)
    ensures Counts(request.clientSocket, store).Since(old(Counts(request.clientSocket, store)))
    ensures writer != null <==> Counts(request.clientSocket, store) == old(Counts(request.clientSocket, store))
    ensures writer == null ==> PutFailure(old(request.clientSocket.State()), request.clientSocket.State(),
                                          old(Opening(request.Snapshot())), 0,
                                          old(Counts(request.clientSocket, store)), Counts(request.clientSocket, store))
  {
    ghost var s, opening := request.clientSocket.State(), Opening(request.Snapshot());
    writer := null;
    var sendOkSuccess := SendOpening(request, 0, full);
    if sendOkSuccess {
      writer := OpenForWriting(store, request.bytesTransferred == 0);
      if writer == null {
        CloseUnopened(request, s, opening, full);
      }
    }
  }

  // The part of a round that writes bytes received with the header.
  method WriteExtra(request: AdmittedRequest, writer: FileWriter, count: nat, ghost s: Sock, ghost opening: string,
                    ghost full: Part)
    returns (ok: bool)
    requires StopsIn(opening, full) && Receiving(s, request.clientSocket.State(), opening) && writer.good
    requires count <= |request.extra|
    modifies request`bytesTransferred, request`extra, request.clientSocket, writer
    modifies writer.file`contents, writer.file`ioFaults
    ensures ok ==> writer.good && writer.file.contents == old(writer.file.contents) + old(request.extra)[..count]
    ensures ok ==> request.extra == old(request.extra)[count..]
    ensures ok ==> request.bytesTransferred == old(request.bytesTransferred) + count
    ensures ok ==> request.clientSocket.State() == old(request.clientSocket.State())
    ensures !ok ==> Aborted(s, request.clientSocket.State(), full)
    ensures !ok ==> old(writer.file.contents) <= writer.file.contents
                    <= old(writer.file.contents) + old(request.extra)[..count]
    ensures !ok ==> PutFailure(s, request.clientSocket.State(), opening, 0,
                               old(Counts(request.clientSocket, writer.file)),
                               Counts(request.clientSocket, writer.file))
    ensures Counts(request.clientSocket, writer.file).Since(old(Counts(request.clientSocket, writer.file)))
    ensures ok <==> Counts(request.clientSocket, writer.file) == old(Counts(request.clientSocket, writer.file))
  {
    writer.Write(request.extra[..count]);
    ok := writer.good;
    if !ok {
      FailPut(request.clientSocket, "Failed to write file", s, opening, full);
      return;
    }
    request.bytesTransferred := request.bytesTransferred + count;
    request.extra := request.extra[count..];
  }

  // The end of a round: the closing line and the close if the declared total is reached exactly.
  method EndPutRound(request: AdmittedRequest, ghost s: Sock, ghost opening: string) returns (ok: bool)
    requires Receiving(s, request.clientSocket.State(), opening)
    modifies request`deficit, request.clientSocket
    ensures ok ==> request.deficit ==
                   if request.bytesTransferred == request.totalBytesToTransfer then 0 else old(request.deficit)
    ensures var done := request.bytesTransferred == request.totalBytesToTransfer;
            var full := Part(opening + if done then OkLine(0) else "", !done);
            if ok then
              && request.clientSocket.State() ==
                 old(request.clientSocket.State()).(sent := s.sent + full.text, open := s.open && !done,
                                                    closes := if done then s.closes + 1 else s.closes)
            else
              Aborted(s, request.clientSocket.State(), full)
    ensures old(request.clientSocket.sendFaults) <= request.clientSocket.sendFaults
    ensures request.clientSocket.recvFaults == old(request.clientSocket.recvFaults)
    ensures ok <==> request.clientSocket.sendFaults == old(request.clientSocket.sendFaults)
  {
    var socket := request.clientSocket;
    ok := true;
    assert opening + "" == opening;
    if request.bytesTransferred == request.totalBytesToTransfer {
      request.deficit := 0;
      assert s.sent + (opening + OkLine(0)) == (s.sent + opening) + OkLine(0);
      ok := socket.SendOkResponse(0);
      socket.Close();
      if !ok {
        CutOffPlain(s.sent, socket.sent, Part(opening + OkLine(0), false));
      }
    }
  }

  // A file that fails while growing still holds a prefix of what it was to hold.
  lemma GrewWithin(a: string, f: string, lo: nat, mid: nat, now: nat, hi: nat, stored: string)
    requires lo <= mid <= now <= hi <= |f|
    requires stored <= (a + f[lo..mid]) + f[mid..now]
    ensures stored <= a + f[lo..hi]
  {
    assert a + f[lo..hi] == ((a + f[lo..mid]) + f[mid..now]) + f[now..hi];
  }

  lemma KeptWithin(a: string, b: string, stored: string)
    requires a + b <= stored
    ensures a <= stored
  {
    assert stored[..|a|] == (a + b)[..|a|] == a;
  }

  lemma Grew(a: string, f: string, lo: nat, mid: nat, now: nat)
    requires lo <= mid <= now <= |f|
    ensures (a + f[lo..mid]) + f[mid..now] == a + f[lo..now]
  {
  }

  /** The receive loop of a round-robin round; `start` bytes of the socket were read before it. */
  method ReceiveRoundRobin(request: AdmittedRequest, writer: FileWriter, quantum: Int32, ghost s: Sock,
                           ghost opening: string, ghost full: Part)
    returns (ok: bool)
    requires StopsIn(opening, full) && Receiving(s, request.clientSocket.State(), opening) && writer.good
    requires request.clientSocket.read == s.read && 0 <= quantum
    modifies request`bytesTransferred, request.clientSocket, writer, writer.file`contents, writer.file`ioFaults
    ensures var left := if old(request.bytesTransferred) >= request.totalBytesToTransfer then 0
                        else Min(quantum as nat, request.totalBytesToTransfer - old(request.bytesTransferred));
            if ok then
              && s.read + left <= |s.stream| && request.clientSocket.read == s.read + left
              && Receiving(s, request.clientSocket.State(), opening)
              && request.bytesTransferred == old(request.bytesTransferred) + left
              && writer.file.contents == old(writer.file.contents) + s.stream[s.read..s.read + left]
            else
              && Aborted(s, request.clientSocket.State(), full)
              && old(writer.file.contents) <= writer.file.contents
                 <= old(writer.file.contents) + s.stream[s.read..Min(|s.stream|, s.read + left)]
    ensures Counts(request.clientSocket, writer.file).Since(old(Counts(request.clientSocket, writer.file)))
    ensures ok ==> Counts(request.clientSocket, writer.file) == old(Counts(request.clientSocket, writer.file))
    ensures var left := if old(request.bytesTransferred) >= request.totalBytesToTransfer then 0
                        else Min(quantum as nat, request.totalBytesToTransfer - old(request.bytesTransferred));
            !ok ==> PutFailure(s, request.clientSocket.State(), opening, left,
                               old(Counts(request.clientSocket, writer.file)),
                               Counts(request.clientSocket, writer.file))
  {
    hide OkLine, Aborted, StopsIn, ErrLine, Counts;
    var quantumRemaining := quantum;
    ghost var before, t := writer.file.contents, request.bytesTransferred;
    ghost var left := if t >= request.totalBytesToTransfer then 0
                      else Min(quantum as nat, request.totalBytesToTransfer - t);
    assert before + s.stream[s.read..s.read] == before;
    while request.bytesTransferred < request.totalBytesToTransfer && quantumRemaining > 0
      invariant Receiving(s, request.clientSocket.State(), opening) && writer.good
      invariant request.bytesTransferred == t + (request.clientSocket.read - s.read)
      invariant 0 <= quantumRemaining as int == quantum as int - (request.clientSocket.read - s.read)
      invariant request.clientSocket.read <= s.read + left
      invariant Counts(request.clientSocket, writer.file) == old(Counts(request.clientSocket, writer.file))
      invariant writer.file.contents == before + s.stream[s.read..request.clientSocket.read]
      decreases quantumRemaining
    {
      ghost var mid := request.clientSocket.read;
      var remainingRequestBytes := request.totalBytesToTransfer - request.bytesTransferred;
      var bytesToReceive := Min(BUFFER_SIZE, Min(remainingRequestBytes, quantumRemaining as nat));
      var received;
      ok, received := ReceiveChunk(request, writer, bytesToReceive, s, opening, full);
      ghost var now := request.clientSocket.read;
      if !ok {
        KeptWithin(before, s.stream[s.read..mid], writer.file.contents);
        GrewWithin(before, s.stream, s.read, mid, now, Min(|s.stream|, s.read + left), writer.file.contents);
        return;
      }
      Grew(before, s.stream, s.read, mid, now);
      quantumRemaining := quantumRemaining - received as Int32;
    }
    ok := true;
  }

  /** What a round's loops do to a request `r` with this much allowance: the file grew from
      `before` to `after`. */
  ghost predicate BytesMoved(r: Admitted, allowance: nat, s: Sock, t: Sock, opening: string, full: Part,
                             before: string, after: string, extra: string, transferred: nat, ok: bool)
  {
    var e, m := ExtraShare(r, allowance), SocketShare(r, allowance);
    s.read <= |s.stream| &&
    if ok then
      && Receiving(s, t, opening) && t.read == s.read + m
      && after == before + r.extra[..e] + s.stream[s.read..s.read + m]
      && extra == r.extra[e..] && transferred == r.transferred + e + m
    else
      && Aborted(s, t, full)
      && before <= after <= before + r.extra[..e] + s.stream[s.read..Min(|s.stream|, s.read + m)]
  }

  method MoveRoundRobin(request: AdmittedRequest, writer: FileWriter, quantum: Quantum, ghost s: Sock,
                        ghost opening: string, ghost full: Part)
    returns (ok: bool)
    requires StopsIn(opening, full) && Receiving(s, request.clientSocket.State(), opening) && writer.good
    requires request.clientSocket.read == s.read
    modifies request`bytesTransferred, request`extra, request.clientSocket, writer
    modifies writer.file`contents, writer.file`ioFaults
    ensures BytesMoved(old(request.Snapshot()), quantum, s, request.clientSocket.State(), opening, full,
                       old(writer.file.contents), writer.file.contents, request.extra, request.bytesTransferred, ok)
    ensures Counts(request.clientSocket, writer.file).Since(old(Counts(request.clientSocket, writer.file)))
    ensures ok ==> Counts(request.clientSocket, writer.file) == old(Counts(request.clientSocket, writer.file))
    ensures !ok ==> PutFailure(s, request.clientSocket.State(), opening, SocketShare(old(request.Snapshot()), quantum),
                               old(Counts(request.clientSocket, writer.file)),
                               Counts(request.clientSocket, writer.file))
  {
    hide OkLine, CutOff;
    ghost var r, before := request.Snapshot(), writer.file.contents;
    ghost var e := ExtraShare(r, quantum);
    var quantumRemaining := quantum as Int32;
    if request.extra != "" {
      var extraBytesToWrite := Min(|request.extra|, quantumRemaining as nat);
      ok := WriteExtra(request, writer, extraBytesToWrite, s, opening, full);
      if !ok {
        return;
      }
      quantumRemaining := quantumRemaining - extraBytesToWrite as Int32;
    }
    assert writer.file.contents == before + r.extra[..e];
    ok := ReceiveRoundRobin(request, writer, quantumRemaining, s, opening, full);
  }

  // Ends a round that began as `r` and whose loops ran.
  method FinishPut(request: AdmittedRequest, moved: bool, ghost allowance: nat, ghost r: Admitted, ghost s: Sock,
                   ghost stored: string, ghost after: string) returns (ok: bool)
    requires BytesMoved(r, allowance, s, request.clientSocket.State(), Opening(r), PutPart(r, allowance),
                        Reopened(r, stored), after, request.extra, request.bytesTransferred, moved)
    requires moved ==> request.Snapshot() == r.(responseStarted := true, extra := request.extra,
                                                transferred := request.bytesTransferred, deficit := request.deficit)
    modifies request`deficit, request.clientSocket
    ensures PutRoundPost(allowance, r, s, stored, request.Snapshot(), request.clientSocket.State(), after, ok)
    ensures ok ==> moved && request.deficit == if request.bytesTransferred == r.total then 0 else old(request.deficit)
    ensures old(request.clientSocket.sendFaults) <= request.clientSocket.sendFaults
    ensures request.clientSocket.recvFaults == old(request.clientSocket.recvFaults)
    ensures moved ==> (ok <==> request.clientSocket.sendFaults == old(request.clientSocket.sendFaults))
    ensures !moved ==> request.clientSocket.State() == old(request.clientSocket.State())
  {
    ok := moved;
    if moved {
      assert request.bytesTransferred == r.transferred + Moved(r, allowance);
      ok := EndPutRound(request, s, Opening(r));
    }
  }

  method ServePutRoundRobin(request: AdmittedRequest, options: ServerOptions, store: StoredFile) returns (ok: bool)
    requires request.op.Put? && request.clientSocket.Valid()
    modifies request, request.clientSocket, store
    ensures PutRoundRobinPost(options, old(request.Snapshot()), old(request.clientSocket.State()), old(store.contents),
                              request.Snapshot(), request.clientSocket.State(), store.contents, ok)
    ensures Counts(request.clientSocket, store).Since(old(Counts(request.clientSocket, store)))
    ensures ok ==> Counts(request.clientSocket, store) == old(Counts(request.clientSocket, store))
    ensures !ok ==> PutFailure(old(request.clientSocket.State()), request.clientSocket.State(),
                               old(Opening(request.Snapshot())), SocketShare(old(request.Snapshot()), options.quantum),
                               old(Counts(request.clientSocket, store)), Counts(request.clientSocket, store))
    ensures ok ==> store.present
    ensures !store.present ==> !old(store.present) && store.contents == old(store.contents)
  {
    hide OkLine, Aborted, PutResult, StopsIn, ErrLine, SocketShare, ExtraShare;
    ghost var r, s, stored := request.Snapshot(), request.clientSocket.State(), store.contents;
    ghost var opening, full := Opening(r), PutPart(r, options.quantum);
    OpeningInPart(r, options.quantum);
    var writer := BeginPutRound(request, store, full);
    if writer == null {
      return false;
    }
    SharesDependOnBytes(r, request.Snapshot(), options.quantum);
    ok := MoveRoundRobin(request, writer, options.quantum, s, opening, full);
    ok := FinishPut(request, ok, options.quantum, r, s, stored, store.contents);
  }

  /** The receive loop of a deficit round, which spends `deficit`. */
  method ReceiveDeficit(request: AdmittedRequest, writer: FileWriter, ghost s: Sock, ghost opening: string,
                        ghost full: Part)
    returns (ok: bool)
    requires StopsIn(opening, full) && Receiving(s, request.clientSocket.State(), opening) && writer.good
    requires request.clientSocket.read == s.read
    modifies request`bytesTransferred, request`deficit, request.clientSocket, writer
    modifies writer.file`contents, writer.file`ioFaults
    ensures var left := if old(request.bytesTransferred) >= request.totalBytesToTransfer then 0
                        else Min(old(request.deficit), request.totalBytesToTransfer - old(request.bytesTransferred));
            if ok then
              && s.read + left <= |s.stream| && request.clientSocket.read == s.read + left
              && Receiving(s, request.clientSocket.State(), opening)
              && request.bytesTransferred == old(request.bytesTransferred) + left
              && request.deficit == old(request.deficit) - left
              && writer.file.contents == old(writer.file.contents) + s.stream[s.read..s.read + left]
            else
              && Aborted(s, request.clientSocket.State(), full)
              && old(writer.file.contents) <= writer.file.contents
                 <= old(writer.file.contents) + s.stream[s.read..Min(|s.stream|, s.read + left)]
    ensures Counts(request.clientSocket, writer.file).Since(old(Counts(request.clientSocket, writer.file)))
    ensures ok ==> Counts(request.clientSocket, writer.file) == old(Counts(request.clientSocket, writer.file))
    ensures var left := if old(request.bytesTransferred) >= request.totalBytesToTransfer then 0
                        else Min(old(request.deficit), request.totalBytesToTransfer - old(request.bytesTransferred));
            !ok ==> PutFailure(s, request.clientSocket.State(), opening, left,
                               old(Counts(request.clientSocket, writer.file)),
                               Counts(request.clientSocket, writer.file))
  {
    hide OkLine, Aborted, StopsIn, ErrLine, Counts;
    ghost var before, t, d := writer.file.contents, request.bytesTransferred, request.deficit;
    ghost var left := if t >= request.totalBytesToTransfer then 0 else Min(d, request.totalBytesToTransfer - t);
    assert before + s.stream[s.read..s.read] == before;
    while request.bytesTransferred < request.totalBytesToTransfer && request.deficit > 0
      invariant Receiving(s, request.clientSocket.State(), opening) && writer.good
      invariant request.bytesTransferred == t + (request.clientSocket.read - s.read)
      invariant request.deficit == d - (request.clientSocket.read - s.read)
      invariant request.clientSocket.read <= s.read + left
      invariant Counts(request.clientSocket, writer.file) == old(Counts(request.clientSocket, writer.file))
      invariant writer.file.contents == before + s.stream[s.read..request.clientSocket.read]
      decreases request.deficit
    {
      ghost var mid := request.clientSocket.read;
      var remainingRequestBytes := request.totalBytesToTransfer - request.bytesTransferred;
      var bytesToReceive := Min(BUFFER_SIZE, Min(remainingRequestBytes, request.deficit));
      var received;
      ok, received := ReceiveChunk(request, writer, bytesToReceive, s, opening, full);
      ghost var now := request.clientSocket.read;
      if !ok {
        KeptWithin(before, s.stream[s.read..mid], writer.file.contents);
        GrewWithin(before, s.stream, s.read, mid, now, Min(|s.stream|, s.read + left), writer.file.contents);
        return;
      }
      Grew(before, s.stream, s.read, mid, now);
      request.deficit := request.deficit - received;
    }
    ok := true;
  }

  // The body of a deficit round, entered with the allowance in `deficit`.
  method MoveDeficit(request: AdmittedRequest, writer: FileWriter, ghost s: Sock, ghost opening: string,
                     ghost full: Part)
    returns (ok: bool)
    requires StopsIn(opening, full) && Receiving(s, request.clientSocket.State(), opening) && writer.good
    requires request.clientSocket.read == s.read
    modifies request`bytesTransferred, request`deficit, request`extra, request.clientSocket
    modifies writer, writer.file`contents, writer.file`ioFaults
    ensures BytesMoved(old(request.Snapshot()), old(request.deficit), s, request.clientSocket.State(), opening, full,
                       old(writer.file.contents), writer.file.contents, request.extra, request.bytesTransferred, ok)
    ensures Counts(request.clientSocket, writer.file).Since(old(Counts(request.clientSocket, writer.file)))
    ensures ok ==> Counts(request.clientSocket, writer.file) == old(Counts(request.clientSocket, writer.file))
    ensures !ok ==> PutFailure(s, request.clientSocket.State(), opening,
                               SocketShare(old(request.Snapshot()), old(request.deficit)),
                               old(Counts(request.clientSocket, writer.file)),
                               Counts(request.clientSocket, writer.file))
    ensures ok ==> request.deficit == old(request.deficit) - Moved(old(request.Snapshot()), old(request.deficit))
  {
    hide OkLine, CutOff;
    ghost var r, before := request.Snapshot(), writer.file.contents;
    if request.extra != "" && request.deficit > 0 {
      var extraBytesToWrite := Min(|request.extra|, request.deficit);
      ok := WriteExtra(request, writer, extraBytesToWrite, s, opening, full);
      if !ok {
        return;
      }
      request.deficit := request.deficit - extraBytesToWrite;
    }
    assert writer.file.contents == before + r.extra[..ExtraShare(r, r.deficit)];
    ok := ReceiveDeficit(request, writer, s, opening, full);
  }

  // A deficit round from the opened file on; it began as `r`.
  method PutDeficitBytes(request: AdmittedRequest, writer: FileWriter, ghost allowance: nat, ghost r: Admitted,
                         ghost s: Sock, ghost stored: string)
    returns (ok: bool)
    requires request.Snapshot() == r.(responseStarted := true, deficit := allowance)
    requires Receiving(s, request.clientSocket.State(), Opening(r)) && request.clientSocket.read == s.read
    requires writer.good && writer.file.contents == Reopened(r, stored)
    modifies request, request.clientSocket, writer, writer.file`contents, writer.file`ioFaults
    ensures PutRoundPost(allowance, r, s, stored, request.Snapshot(), request.clientSocket.State(),
                         writer.file.contents, ok)
    ensures ok ==> request.deficit == if request.bytesTransferred == r.total then 0 else allowance - Moved(r, allowance)
    ensures Counts(request.clientSocket, writer.file).Since(old(Counts(request.clientSocket, writer.file)))
    ensures ok ==> Counts(request.clientSocket, writer.file) == old(Counts(request.clientSocket, writer.file))
    ensures !ok ==> PutFailure(s, request.clientSocket.State(), Opening(r), SocketShare(r, allowance),
                               old(Counts(request.clientSocket, writer.file)),
                               Counts(request.clientSocket, writer.file))
  {
    SharesDependOnBytes(r, request.Snapshot(), allowance);
    ok := MoveDeficit(request, writer, s, Opening(r), PutPart(r, allowance));
    ok := FinishPut(request, ok, allowance, r, s, stored, writer.file.contents);
  }

  method ServePutDeficitRoundRobin(request: AdmittedRequest, options: ServerOptions, store: StoredFile)
    returns (ok: bool)
    requires request.op.Put? && request.clientSocket.Valid()
    modifies request, request.clientSocket, store
    ensures PutDeficitRoundRobinPost(options, old(request.Snapshot()), old(request.clientSocket.State()),
                                     old(store.contents),
                                     request.Snapshot(), request.clientSocket.State(), store.contents, ok)
    ensures Counts(request.clientSocket, store).Since(old(Counts(request.clientSocket, store)))
    ensures ok ==> Counts(request.clientSocket, store) == old(Counts(request.clientSocket, store))
    ensures !ok ==> PutFailure(old(request.clientSocket.State()), request.clientSocket.State(),
                               old(Opening(request.Snapshot())),
                               SocketShare(old(request.Snapshot()), old(request.deficit) + options.quantum),
                               old(Counts(request.clientSocket, store)), Counts(request.clientSocket, store))
    ensures ok ==> store.present
    ensures !store.present ==> !old(store.present) && store.contents == old(store.contents)
  {
    hide OkLine, Aborted, PutResult, StopsIn, ErrLine, SocketShare, ExtraShare;
    ghost var r, s, stored := request.Snapshot(), request.clientSocket.State(), store.contents;
    ghost var allowance := r.deficit + options.quantum;
    OpeningInPart(r, allowance);
    var writer := BeginPutRound(request, store, PutPart(r, allowance));
    if writer == null {
      return false;
    }
    request.deficit := request.deficit + options.quantum;
    ok := PutDeficitBytes(request, writer, allowance, r, s, stored);
  }

  /** The receive loop of the run-to-completion policies: writes are not checked. */
  method ReceiveAll(request: AdmittedRequest, writer: FileWriter, ghost s: Sock, ghost opening: string,
                    ghost full: Part)
    returns (ok: bool)
    requires StopsIn(opening, full) && Receiving(s, request.clientSocket.State(), opening)
    requires request.clientSocket.read == s.read && request.bytesTransferred <= request.totalBytesToTransfer
    requires writer.good
    modifies request`bytesTransferred, request.clientSocket, writer, writer.file`contents, writer.file`ioFaults
    ensures var left := request.totalBytesToTransfer - old(request.bytesTransferred);
            if ok then
              && s.read + left <= |s.stream| && request.clientSocket.read == s.read + left
              && Receiving(s, request.clientSocket.State(), opening)
              && request.bytesTransferred == request.totalBytesToTransfer
              && writer.file.contents <= old(writer.file.contents) + s.stream[s.read..s.read + left]
              && (writer.good <==> writer.file.contents == old(writer.file.contents) + s.stream[s.read..s.read + left])
            else
              && Aborted(s, request.clientSocket.State(), full)
              && writer.file.contents <= old(writer.file.contents) + s.stream[s.read..Min(|s.stream|, s.read + left)]
    ensures Counts(request.clientSocket, writer.file).Since(old(Counts(request.clientSocket, writer.file)))
    ensures ok ==> request.clientSocket.sendFaults == old(request.clientSocket.sendFaults)
    ensures ok ==> request.clientSocket.recvFaults == old(request.clientSocket.recvFaults)
    ensures ok ==> (writer.good <==> writer.file.ioFaults == old(writer.file.ioFaults))
    ensures var left := request.totalBytesToTransfer - old(request.bytesTransferred);
            !ok ==> OneGoFailure(s, request.clientSocket.State(), opening, left,
                                 old(Counts(request.clientSocket, writer.file)),
                                 Counts(request.clientSocket, writer.file))
  {
    hide OkLine, Aborted, StopsIn, ErrLine;
    ghost var before, t := writer.file.contents, request.bytesTransferred;
    ghost var left := request.totalBytesToTransfer - t;
    assert before + s.stream[s.read..s.read] == before;
    while request.bytesTransferred < request.totalBytesToTransfer
      invariant Receiving(s, request.clientSocket.State(), opening)
      invariant request.bytesTransferred == t + (request.clientSocket.read - s.read) <= request.totalBytesToTransfer
      invariant writer.file.contents <= before + s.stream[s.read..request.clientSocket.read]
      invariant writer.good <==> writer.file.contents == before + s.stream[s.read..request.clientSocket.read]
      invariant request.clientSocket.sendFaults == old(request.clientSocket.sendFaults)
      invariant request.clientSocket.recvFaults == old(request.clientSocket.recvFaults)
      invariant old(writer.file.ioFaults) <= writer.file.ioFaults
      invariant writer.good <==> writer.file.ioFaults == old(writer.file.ioFaults)
      decreases request.totalBytesToTransfer - request.bytesTransferred
    {
      ghost var mid := request.clientSocket.read;
      var remainingBytesToTransfer := request.totalBytesToTransfer - request.bytesTransferred;
      var bytesToReceive := Min(BUFFER_SIZE, remainingBytesToTransfer);
      var buffer := request.clientSocket.Recv(bytesToReceive);
      ghost var now := request.clientSocket.read;
      Grew(before, s.stream, s.read, mid, now);
      if |buffer| == 0 {
        GrewWithin(before, s.stream, s.read, mid, now, Min(|s.stream|, s.read + left), writer.file.contents);
        FailPut(request.clientSocket, "Unable to receive file", s, opening, full);
        return false;
      }
      writer.Write(buffer);
      request.bytesTransferred := request.bytesTransferred + |buffer|;
    }
    ok := true;
  }

  // Opening line and file of an upload served in one go.
  method BeginPutToCompletion(request: AdmittedRequest, store: StoredFile) returns (writer: FileWriter?)
    requires request.clientSocket.Valid()
    modifies request.clientSocket, store
    ensures writer != null ==> fresh(writer) && writer.file == store && writer.good
    ensures writer != null ==> store.present && store.contents == "" && request.clientSocket.Valid()
    ensures writer != null ==>
              request.clientSocket.State() ==
              old(request.clientSocket.State()).(sent := old(request.clientSocket.sent) + OkLine(0))
    ensures writer == null ==> store.contents == old(store.contents) && store.present == old(store.present)
    ensures writer == null ==> Aborted(old(request.clientSocket.State()), request.clientSocket.State(), OneGoPart())
    ensures Counts(request.clientSocket, store).Since(old(Counts(request.clientSocket, store)))
    ensures writer != null <==> Counts(request.clientSocket, store) == old(Counts(request.clientSocket, store))
    ensures writer == null ==>
              OneGoFailure(old(request.clientSocket.State()), request.clientSocket.State(), OkLine(0), 0,
                           old(Counts(request.clientSocket, store)), Counts(request.clientSocket, store))
  {
    hide OkLine, CutOff;
    ghost var s := request.clientSocket.State();
    writer := null;
    OpeningStops();
    var sendOkSuccess := request.clientSocket.SendOkResponse(0);
    if !sendOkSuccess {
      request.clientSocket.Close();
      CutOffPlain(s.sent, request.clientSocket.sent, OneGoPart());
      return;
    }
    writer := OpenForWriting(store, true);
    if writer == null {
      CloseUnopened(request, s, OkLine(0), OneGoPart());
    }
  }

  // The closing line of an upload served in one go, and the close.
  method EndPutToCompletion(socket: ClientSocket, ghost s: Sock) returns (ok: bool)
    requires Receiving(s, socket.State(), OkLine(0))
    modifies socket
    ensures if ok then
              socket.State() == old(socket.State()).(sent := s.sent + OneGoPart().text, open := false,
                                                     closes := s.closes + 1) && s.open
            else
              Aborted(s, socket.State(), OneGoPart())
    ensures old(socket.sendFaults) <= socket.sendFaults && socket.recvFaults == old(socket.recvFaults)
    ensures ok <==> socket.sendFaults == old(socket.sendFaults)
  {
    hide OkLine, CutOff;
    assert (s.sent + OkLine(0)) + OkLine(0) == s.sent + OneGoPart().text;
    ok := socket.SendOkResponse(0);
    socket.Close();
    if !ok {
      CutOffPlain(s.sent, socket.sent, OneGoPart());
    }
  }

  /** `written` tells whether every write went through, which the code never asks. */
  method ServePutToCompletion(request: AdmittedRequest, store: StoredFile) returns (ok: bool, ghost written: bool)
    requires request.clientSocket.Valid() && request.bytesTransferred == 0
    modifies request, request.clientSocket, store
    ensures PutToCompletionPost(old(request.Snapshot()), old(request.clientSocket.State()), old(store.contents),
                                request.Snapshot(), request.clientSocket.State(), store.contents, ok, written)
    ensures Counts(request.clientSocket, store).Since(old(Counts(request.clientSocket, store)))
    ensures ok ==> (written <==> Counts(request.clientSocket, store) == old(Counts(request.clientSocket, store)))
    ensures !ok ==> OneGoFailure(old(request.clientSocket.State()), request.clientSocket.State(), OkLine(0),
                                 request.totalBytesToTransfer
                                 - Min(|old(request.extra)|, request.totalBytesToTransfer),
                                 old(Counts(request.clientSocket, store)), Counts(request.clientSocket, store))
    ensures ok ==> store.present
    ensures !store.present ==> !old(store.present) && store.contents == old(store.contents)
  {
    hide OkLine, Aborted, StopsIn, ErrLine;
    ghost var s, opening, full := request.clientSocket.State(), OkLine(0), OneGoPart();
    written := false;
    OpeningStops();
    var writer := BeginPutToCompletion(request, store);
    if writer == null {
      return false, false;
    }
    ok := WriteStart(request, writer, s, opening, full);
    if ok {
      ok := ReceiveAll(request, writer, s, opening, full);
    }
    if !ok {
      return;
    }
    written := writer.good;
    ok := EndPutToCompletion(request.clientSocket, s);
  }

  lemma OpeningStops()
    ensures StopsIn(OkLine(0), OneGoPart())
  {
    assert OneGoPart().text[..|OkLine(0)|] == OkLine(0) && |OkLine(0)| > 0;
  }

  // The bytes received with the header, capped by the declared total.
  method WriteStart(request: AdmittedRequest, writer: FileWriter, ghost s: Sock, ghost opening: string,
                    ghost full: Part)
    returns (ok: bool)
    requires StopsIn(opening, full) && Receiving(s, request.clientSocket.State(), opening)
    requires writer.good && writer.file.contents == "" && request.bytesTransferred == 0
    modifies request`bytesTransferred, request.clientSocket, writer, writer.file`contents, writer.file`ioFaults
    ensures var e := Min(|request.extra|, request.totalBytesToTransfer);
            if ok then
              && request.bytesTransferred == e && writer.good && writer.file.contents == request.extra[..e]
              && request.clientSocket.State() == old(request.clientSocket.State())
            else
              Aborted(s, request.clientSocket.State(), full) && writer.file.contents <= request.extra[..e]
    ensures Counts(request.clientSocket, writer.file).Since(old(Counts(request.clientSocket, writer.file)))
    ensures ok <==> Counts(request.clientSocket, writer.file) == old(Counts(request.clientSocket, writer.file))
    ensures request.clientSocket.read == old(request.clientSocket.read)
    ensures !ok ==> PutFailure(s, request.clientSocket.State(), opening, 0,
                               old(Counts(request.clientSocket, writer.file)),
                               Counts(request.clientSocket, writer.file))
  {
    ok := true;
    if request.extra != "" {
      var extraBytesToWrite := Min(|request.extra|, request.totalBytesToTransfer);
      writer.Write(request.extra[..extraBytesToWrite]);
      if !writer.good {
        FailPut(request.clientSocket, "Failed to write file", s, opening, full);
        return false;
      }
      request.bytesTransferred := request.bytesTransferred + extraBytesToWrite;
    }
  }
}
