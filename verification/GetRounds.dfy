/** The GET round functions (src/request_handler.cpp), each proved against what one round is
    meant to achieve in terms of line boundaries. */
module GetRounds {
  import opened Lines
  import opened Wire
  import opened Storage
  import opened Requests
  import opened Batching

  /** Where a round-robin round that starts at `o` stops: after one oversized line, or else at
      the last line boundary within `q` bytes. */
  function RrNext(f: string, o: nat, q: nat): (n: nat)
    requires Boundary(f, o) && q >= 1
    ensures Boundary(f, n) && o <= n
    ensures o < |f| ==> LineEnd(f, o) <= n
  {
    if o == |f| then o
    else if LineEnd(f, o) - o > q then LineEnd(f, o)
    else
      assert LineEnd(f, o) <= Floor(f, o + q) by { FloorIsLargest(f, o + q, LineEnd(f, o)); }
      Floor(f, o + q)
  }

  // Lines that end within the quantum belong to the round.
  lemma RrTakes(f: string, o: nat, q: nat, c: nat)
    requires Boundary(f, o) && Boundary(f, c) && q >= 1 && o <= c <= o + q
    ensures c <= RrNext(f, o, q)
  {
    if o < c {
      LineEndIsNext(f, o, c);
      FloorIsLargest(f, o + q, c);
    }
  }

  // Within an allowance of `x`, lines stop at the end, when it is used up, or before a longer line.
  lemma FloorStops(f: string, c: nat, x: nat)
    requires Boundary(f, c) && c <= x && (c == |f| || c == x || x < LineEnd(f, c))
    ensures c == Floor(f, x)
  {
    hide Floor, LineEnd;
    if c == x {
      FloorOfBoundary(f, c);
    } else if c == |f| {
      FloorBeyondEnd(f, x);
    } else {
      FloorInLine(f, c, x);
    }
  }

  // The round ends at the end of the file, when the quantum is used up, or before a line that
  // does not fit any more.
  lemma RrStops(f: string, o: nat, q: nat, c: nat)
    requires Boundary(f, o) && Boundary(f, c) && q >= 1 && o <= c <= o + q
    requires c == |f| || c == o + q || (o < c && o + q < LineEnd(f, c))
    ensures c == RrNext(f, o, q)
  {
    if o < c {
      LineEndIsNext(f, o, c);
      RrWhenFits(f, o, q);
      FloorStops(f, c, o + q);
    }
  }

  lemma RrWhenFits(f: string, o: nat, q: nat)
    requires Boundary(f, o) && q >= 1 && o < |f| && LineEnd(f, o) <= o + q
    ensures RrNext(f, o, q) == Floor(f, o + q)
  {
  }

  // What the round gives up because the next whole line does not fit.
  function RrForfeit(f: string, o: nat, q: nat): nat
    requires Boundary(f, o) && q >= 1
  {
    var n := RrNext(f, o, q);
    if n < |f| && n - o < q then q - (n - o) else 0
  }

  // Where a deficit round stops: at the last boundary the accumulated allowance pays for.
  function DrrNext(f: string, o: nat, allowance: nat): (n: nat)
    requires Boundary(f, o)
    ensures Boundary(f, n) && o <= n <= o + allowance
  {
    assert o <= Floor(f, o + allowance) by { FloorIsLargest(f, o + allowance, o); }
    Floor(f, o + allowance)
  }

  // Affordable lines belong to the round, which stops before one that is not or at the end.
  lemma DrrTakes(f: string, o: nat, allowance: nat, c: nat)
    requires Boundary(f, o) && Boundary(f, c) && c <= o + allowance
    ensures c <= DrrNext(f, o, allowance)
  {
    FloorIsLargest(f, o + allowance, c);
  }

  lemma DrrStops(f: string, o: nat, allowance: nat, c: nat)
    requires Boundary(f, o) && Boundary(f, c) && o <= c <= o + allowance
    requires c == |f| || o + allowance < LineEnd(f, c)
    ensures c == DrrNext(f, o, allowance)
  {
    FloorStops(f, c, o + allowance);
  }

  // A reply `text`, its line part written as `packets`, ending with the socket closed if `done`.
  ghost predicate Delivered(s: Sock, t: Sock, text: string, packets: seq<string>, done: bool) {
    && t == s.(sent := s.sent + text, packets := s.packets + packets, open := s.open && !done,
               closes := if done then s.closes + 1 else s.closes, misuses := t.misuses)
    && (s.open ==> t.misuses == s.misuses)
  }

  // What a round from the request's offset up to `next` sets out to send.
  function GetPart(f: string, r: Admitted, next: nat): Part
    requires r.transferred <= next <= |f|
  {
    Part(Opening(r) + f[r.transferred..next], next < |f| || r.transferred == |f|)
  }

  ghost predicate GetRoundRobinPost(f: string, options: ServerOptions, r: Admitted, s: Sock, r': Admitted, s': Sock,
                                    ok: bool)
    requires Boundary(f, r.transferred) && r.total == |f|
  {
    var next := RrNext(f, r.transferred, options.quantum);
    var text := Opening(r) + f[r.transferred..next];
    if ok then
      && r' == r.(responseStarted := true, transferred := next,
                  forfeited := r.forfeited + RrForfeit(f, r.transferred, options.quantum))
      && Delivered(s, s', text, Packets(LinesBetween(f, r.transferred, next), options.PacketLimit()), next == r.total)
    else
      Aborted(s, s', GetPart(f, r, next))
  }

  ghost predicate GetDeficitRoundRobinPost(f: string, options: ServerOptions, r: Admitted, s: Sock, r': Admitted,
                                           s': Sock, ok: bool)
    requires Boundary(f, r.transferred) && r.total == |f|
  {
    var allowance := r.deficit + options.quantum;
    var next := DrrNext(f, r.transferred, allowance);
    var text := Opening(r) + f[r.transferred..next];
    if ok then
      && r' == r.(responseStarted := true, transferred := next,
                  deficit := if next == r.total then 0 else r.transferred + allowance - next)
      && Delivered(s, s', text, Packets(LinesBetween(f, r.transferred, next), options.PacketLimit()), next == r.total)
    else
      Aborted(s, s', GetPart(f, r, next))
  }

  /** One go serves from the start of the file. A failing read ends it early, and the result
      is still true. */
  ghost predicate GetToCompletionPost(f: string, options: ServerOptions, r: Admitted, s: Sock, r': Admitted, s': Sock,
                                      ok: bool)
    requires r.total == |f|
  {
    if ok then
      && s.open && r.transferred <= r'.transferred
      && var p := r'.transferred - r.transferred;
      && r' == r.(transferred := r'.transferred)
      && Boundary(f, p)
      && Delivered(s, s', OkLine(r.total) + f[..p], Packets(LinesBetween(f, 0, p), options.PacketLimit()), true)
    else
      && Aborted(s, s', Part(OkLine(r.total) + f, f == ""))
      && (!s.open ==> s'.sent == s.sent && s'.misuses == s.misuses + 2)
  }

  // The line part of a reply that was cut off belongs to the reply the round set out to send.
  lemma CutLines(s: Sock, base: Sock, t: Sock, opening: string, f: string, o: nat, c: nat, next: nat, p: Part)
    requires Boundary(f, o) && Boundary(f, c) && o <= c <= next <= |f|
    requires base == s.(sent := s.sent + opening, misuses := base.misuses) && (s.open ==> base.misuses == s.misuses)
    requires Aborted(base, t, Part(Concat(LinesBetween(f, o, c)), c < |f|))
    requires p.text == opening + f[o..next] && (next < |f| ==> p.more)
    ensures Aborted(s, t, p)
  {
    LinesBetweenText(f, o, c);
    PrefixOfSlice(opening, f, o, c, next);
    AbortedLater(s, base, t, opening, Part(f[o..c], c < |f|), p);
  }

  lemma PrefixOfSlice(opening: string, f: string, o: nat, c: nat, next: nat)
    requires o <= c <= next <= |f|
    ensures opening + f[o..c] <= opening + f[o..next]
    ensures opening + f[o..c] == opening + f[o..next] ==> c == next
  {
  }

  /** Why a download round failed, from the calls that had failed before and after it: its peer was
      told that the file could not be opened, or not be read, unless a send failed. */
  ghost predicate GetFailure(s: Sock, t: Sock, opening: string, before: FaultCounts, now: FaultCounts) {
    && now != before
    && (now.sends == before.sends ==>
          if now.opens > before.opens then t.sent == s.sent + opening + ErrLine("Unable to open file")
          else ToldWhy(s.sent + opening, t.sent, "Failed to read file"))
  }

  // Sends the opening line of a reply that has not started; on failure the socket is closed.
  method SendOpening(request: AdmittedRequest, value: nat, ghost full: Part) returns (ok: bool)
    requires request.clientSocket.Valid()
    requires value == if request.op.Get? then request.totalBytesToTransfer else 0
    requires Opening(request.Snapshot()) <= full.text
    modifies request`responseStarted, request.clientSocket
    ensures ok ==> request.responseStarted && request.clientSocket.Valid()
    ensures ok ==> request.clientSocket.State() ==
                   old(request.clientSocket.State()).(sent := old(request.clientSocket.sent)
                                                                  + Opening(old(request.Snapshot())))
    ensures !ok ==> Aborted(old(request.clientSocket.State()), request.clientSocket.State(), full)
    ensures old(request.clientSocket.sendFaults) <= request.clientSocket.sendFaults
    ensures request.clientSocket.recvFaults == old(request.clientSocket.recvFaults)
    ensures ok <==> request.clientSocket.sendFaults == old(request.clientSocket.sendFaults)
  {
    var socket := request.clientSocket;
    ghost var before, opening := socket.sent, Opening(request.Snapshot());
    assert before + full.text == (before + opening) + full.text[|opening|..];
    assert before + "" == before;
    if !request.responseStarted {
      ok := socket.SendOkResponse(value);
      if !ok {
        socket.Close();
        CutOffPlain(before, socket.sent, full);
        return;
      }
      request.responseStarted := true;
    }
    ok := true;
  }

  // The exit of a round whose file could not be opened.
  method CloseUnopened(request: AdmittedRequest, ghost s: Sock, ghost opening: string, ghost full: Part)
    requires request.clientSocket.Valid() && StopsIn(opening, full)
    requires request.clientSocket.State() == s.(sent := s.sent + opening)
    modifies request.clientSocket
    ensures Aborted(s, request.clientSocket.State(), full)
    ensures request.clientSocket.sendFaults == old(request.clientSocket.sendFaults) ==>
              request.clientSocket.sent == s.sent + opening + ErrLine("Unable to open file")
    ensures old(request.clientSocket.sendFaults) <= request.clientSocket.sendFaults
    ensures request.clientSocket.recvFaults == old(request.clientSocket.recvFaults)
  {
    var socket := request.clientSocket;
    ghost var middle := socket.sent;
    assert s.sent + full.text == (s.sent + opening) + full.text[|opening|..];
    socket.SendErrorResponse("Unable to open file");
    socket.Close();
    CutOffWithError(s.sent, middle, socket.sent, full, "Unable to open file");
  }

  // The lines from offset `o` up to the request's own offset are in the batch or written.
  ghost predicate TakenFrom(file: string, o: nat, request: AdmittedRequest, batch: LineBatch)
    reads request, batch
  {
    && Boundary(file, o) && Boundary(file, request.bytesTransferred) && o <= request.bytesTransferred
    && batch.taken == LinesBetween(file, o, request.bytesTransferred)
  }

  // Accounts for one more line and batches it.
  method SendLine(request: AdmittedRequest, batch: LineBatch, line: string, ghost file: string, ghost o: nat)
    returns (ok: bool)
    requires batch.Valid() && TakenFrom(file, o, request, batch)
    requires request.bytesTransferred < |file|
    requires line == file[request.bytesTransferred..LineEnd(file, request.bytesTransferred)]
    modifies request`bytesTransferred, batch.socket
    modifies batch`batchBuffer, batch`linesInBatch, batch`taken, batch`flushed
    ensures request.bytesTransferred == LineEnd(file, old(request.bytesTransferred))
    ensures TakenFrom(file, o, request, batch)
    ensures if ok then batch.Valid() else
              Aborted(batch.base, batch.socket.State(), Part(Concat(batch.taken), request.bytesTransferred < |file|))
    ensures old(batch.socket.sendFaults) <= batch.socket.sendFaults
    ensures batch.socket.recvFaults == old(batch.socket.recvFaults)
    ensures ok <==> batch.socket.sendFaults == old(batch.socket.sendFaults)
  {
    LinesBetweenAppend(file, o, request.bytesTransferred);
    request.bytesTransferred := request.bytesTransferred + |line|;
    ok := batch.Add(line);
    if !ok {
      AbortedEarly(batch.base, batch.socket.State(), Concat(batch.taken), request.bytesTransferred < |file|);
    }
  }

  // The same for the single line of an overrun round, which is written by the final flush.
  method HoldLine(request: AdmittedRequest, batch: LineBatch, line: string, ghost file: string, ghost o: nat)
    requires batch.Valid() && TakenFrom(file, o, request, batch)
    requires request.bytesTransferred < |file|
    requires line == file[request.bytesTransferred..LineEnd(file, request.bytesTransferred)]
    modifies request`bytesTransferred, batch`batchBuffer, batch`taken
    ensures request.bytesTransferred == LineEnd(file, old(request.bytesTransferred))
    ensures TakenFrom(file, o, request, batch) && batch.Pending()
  {
    LinesBetweenAppend(file, o, request.bytesTransferred);
    batch.Append(line);
    request.bytesTransferred := request.bytesTransferred + |line|;
  }

  // The line loop of one round-robin round, from offset `o` of the file.
  method SendRoundRobinLines(request: AdmittedRequest, quantum: Quantum, reader: FileReader, batch: LineBatch)
    returns (ok: bool)
    requires batch.Valid() && batch.taken == [] && batch.socket == request.clientSocket
    requires request.totalBytesToTransfer == |reader.data| && Boundary(reader.data, request.bytesTransferred)
    requires LinesAtMost(reader.data, 0x7fff_ffff)
    requires reader.Valid() && reader.pos == request.bytesTransferred && !reader.eof
    modifies request`bytesTransferred, request`forfeitedBytes, request.clientSocket, reader, reader.file`ioFaults
    modifies batch`batchBuffer, batch`linesInBatch, batch`taken, batch`flushed
    ensures TakenFrom(reader.data, old(request.bytesTransferred), request, batch)
    ensures request.bytesTransferred <= RrNext(reader.data, old(request.bytesTransferred), quantum)
    ensures ok ==> batch.Pending()
    ensures ok ==> request.bytesTransferred == RrNext(reader.data, old(request.bytesTransferred), quantum)
    ensures ok ==> request.forfeitedBytes ==
                   old(request.forfeitedBytes) + RrForfeit(reader.data, old(request.bytesTransferred), quantum)
    ensures !ok ==> Aborted(batch.base, batch.socket.State(),
                            Part(Concat(batch.taken), request.bytesTransferred < |reader.data|))
    ensures Counts(request.clientSocket, reader.file).Since(old(Counts(request.clientSocket, reader.file)))
    ensures ok <==> Counts(request.clientSocket, reader.file) == old(Counts(request.clientSocket, reader.file))
    ensures !ok && request.clientSocket.sendFaults == old(request.clientSocket.sendFaults) ==>
              ToldWhy(batch.base.sent, request.clientSocket.sent, "Failed to read file")
  {
    hide Aborted, Packets, Concat, ToldWhy, LineEnd, Floor;
    ghost var file, o := reader.data, request.bytesTransferred;
    var quantumRemaining := quantum as Int32;
    var isFirstLineOfRound := true;
    while request.bytesTransferred < request.totalBytesToTransfer
      invariant batch.Valid() && TakenFrom(file, o, request, batch)
      invariant request.forfeitedBytes == old(request.forfeitedBytes)
      invariant reader.Valid() && reader.pos == request.bytesTransferred <= RrNext(file, o, quantum)
      invariant 0 < quantumRemaining as int == quantum - (request.bytesTransferred - o)
      invariant isFirstLineOfRound <==> request.bytesTransferred == o
      invariant Counts(request.clientSocket, reader.file) == old(Counts(request.clientSocket, reader.file))
      decreases |file| - request.bytesTransferred
    {
      ghost var c := request.bytesTransferred;
      var read, currentLine := TakeLine(reader);
      if !read {
        batch.CloseWithError("Failed to read file");
        return false;
      }
      var lineBytes := |currentLine| as Int32;
      if lineBytes > quantumRemaining && isFirstLineOfRound {
        HoldLine(request, batch, currentLine, file, o);
        return true;
      }
      if lineBytes > quantumRemaining {
        RrStops(file, o, quantum, c);
        request.forfeitedBytes := request.forfeitedBytes + quantumRemaining as nat;
        return true;
      }
      RrTakes(file, o, quantum, LineEnd(file, c));
      quantumRemaining := quantumRemaining - lineBytes;
      isFirstLineOfRound := false;
      ok := SendLine(request, batch, currentLine, file, o);
      if !ok {
        return;
      }
      if quantumRemaining == 0 {
        RrStops(file, o, quantum, request.bytesTransferred);
        return true;
      }
    }
    assert request.bytesTransferred == |file|;
    RrStops(file, o, quantum, |file|);
    ok := true;
  }

  // Opening line, file and offset: how every preemptible GET round begins.
  method BeginGetRound(request: AdmittedRequest, store: StoredFile, ghost next: nat) returns (reader: FileReader?)
    requires request.op.Get? && request.clientSocket.Valid()
    requires request.totalBytesToTransfer == |store.contents| && request.bytesTransferred <= next <= |store.contents|
    modifies request`responseStarted, request.clientSocket, store`openFaults
    ensures reader != null ==> fresh(reader) && reader.Valid() && reader.file == store && !reader.eof
    ensures reader != null ==> reader.data == store.contents
    ensures reader != null ==> reader.pos == request.bytesTransferred
    ensures reader != null ==> request.responseStarted && request.clientSocket.Valid()
    ensures reader != null ==>
              request.clientSocket.State() ==
              old(request.clientSocket.State()).(sent := old(request.clientSocket.sent)
                                                             + Opening(old(request.Snapshot())))
    ensures reader == null ==>
              Aborted(old(request.clientSocket.State()), request.clientSocket.State(),
                      GetPart(store.contents, old(request.Snapshot()), next))
    ensures Counts(request.clientSocket, store).Since(old(Counts(request.clientSocket, store)))
    ensures reader != null <==> Counts(request.clientSocket, store) == old(Counts(request.clientSocket, store))
    ensures reader == null ==>
              GetFailure(old(request.clientSocket.State()), request.clientSocket.State(),
                         old(Opening(request.Snapshot())),
                         old(Counts(request.clientSocket, store)), Counts(request.clientSocket, store))
  {
    ghost var s, opening := request.clientSocket.State(), Opening(request.Snapshot());
    ghost var part := GetPart(store.contents, request.Snapshot(), next);
    reader := null;
    var sendSizeSuccess := SendOpening(request, request.totalBytesToTransfer, part);
    if sendSizeSuccess {
      reader := OpenForReading(store);
      if reader == null {
        CloseUnopened(request, s, opening, part);
      } else {
        reader.Seek(request.bytesTransferred);
      }
    }
  }

  /** The final flush, and the close if this was the `last` round: with the lines up to `c` taken
      of a reply meant to go up to `next`. */
  method EndGetRound(batch: LineBatch, linesSent: bool, last: bool, ghost s: Sock, ghost opening: string,
                     ghost file: string, ghost o: nat, ghost c: nat, ghost next: nat, ghost p: Part) returns (ok: bool)
    requires Boundary(file, o) && Boundary(file, c) && o <= c <= next <= |file|
    requires batch.packetLimit >= 1 && batch.taken == LinesBetween(file, o, c)
    requires batch.base == s.(sent := s.sent + opening, misuses := batch.base.misuses)
    requires s.open ==> batch.base.misuses == s.misuses
    requires if linesSent then batch.Pending()
             else Aborted(batch.base, batch.socket.State(), Part(Concat(batch.taken), c < |file|))
    requires p.text == opening + file[o..next] && (next < |file| ==> p.more)
    modifies batch.socket
    ensures ok ==> linesSent
    ensures if ok then
              Delivered(s, batch.socket.State(), opening + file[o..c],
                        Packets(LinesBetween(file, o, c), batch.packetLimit), last)
            else
              Aborted(s, batch.socket.State(), p)
    ensures old(batch.socket.sendFaults) <= batch.socket.sendFaults
    ensures batch.socket.recvFaults == old(batch.socket.recvFaults)
    ensures if linesSent then ok <==> batch.socket.sendFaults == old(batch.socket.sendFaults)
            else !ok && unchanged(batch.socket)
  {
    hide Packets, Concat, LinesBetween;
    ok := linesSent;
    if linesSent {
      ok := batch.Flush();
      if !ok {
        AbortedEarly(batch.base, batch.socket.State(), Concat(batch.taken), c < |file|);
      }
    }
    if !ok {
      CutLines(s, batch.base, batch.socket.State(), opening, file, o, c, next, p);
      return;
    }
    LinesBetweenText(file, o, c);
    assert (s.sent + opening) + file[o..c] == s.sent + (opening + file[o..c]);
    if last {
      batch.socket.Close();
    }
  }

  // The rest of a round that began as `r` on the socket `s`, once the file is open.
  method SendRoundRobin(request: AdmittedRequest, options: ServerOptions, reader: FileReader,
                        ghost r: Admitted, ghost s: Sock)
    returns (ok: bool)
    requires request.Snapshot() == r.(responseStarted := true)
    requires request.clientSocket.Valid() && request.clientSocket.State() == s.(sent := s.sent + Opening(r))
    requires reader.Valid() && reader.pos == r.transferred && !reader.eof && r.total == |reader.data|
    requires Boundary(reader.data, r.transferred) && LinesAtMost(reader.data, 0x7fff_ffff)
    modifies request, request.clientSocket, reader, reader.file`ioFaults
    ensures GetRoundRobinPost(reader.data, options, r, s, request.Snapshot(), request.clientSocket.State(), ok)
    ensures Counts(request.clientSocket, reader.file).Since(old(Counts(request.clientSocket, reader.file)))
    ensures ok <==> Counts(request.clientSocket, reader.file) == old(Counts(request.clientSocket, reader.file))
    ensures reader.file.openFaults == old(reader.file.openFaults)
    ensures !ok && request.clientSocket.sendFaults == old(request.clientSocket.sendFaults) ==>
              ToldWhy(s.sent + Opening(r), request.clientSocket.sent, "Failed to read file")
  {
    hide OkLine, Aborted, Delivered, Packets, LinesBetween, ToldWhy;
    ghost var file, o, opening := reader.data, r.transferred, Opening(r);
    ghost var next := RrNext(file, o, options.quantum);
    var batch := new LineBatch(request.clientSocket, options.PacketLimit());
    ok := SendRoundRobinLines(request, options.quantum, reader, batch);
    ok := EndGetRound(batch, ok, request.bytesTransferred == request.totalBytesToTransfer, s, opening,
                      file, o, request.bytesTransferred, next, GetPart(file, r, next));
  }

  method ServeGetRoundRobin(request: AdmittedRequest, options: ServerOptions, store: StoredFile) returns (ok: bool)
    requires request.op.Get? && request.clientSocket.Valid()
    requires request.totalBytesToTransfer == |store.contents| && Boundary(store.contents, request.bytesTransferred)
    requires LinesAtMost(store.contents, 0x7fff_ffff)
    modifies request, request.clientSocket, store`openFaults, store`ioFaults
    ensures GetRoundRobinPost(store.contents, options, old(request.Snapshot()), old(request.clientSocket.State()),
                              request.Snapshot(), request.clientSocket.State(), ok)
    ensures Counts(request.clientSocket, store).Since(old(Counts(request.clientSocket, store)))
    ensures ok <==> Counts(request.clientSocket, store) == old(Counts(request.clientSocket, store))
    ensures !ok ==>
              GetFailure(old(request.clientSocket.State()), request.clientSocket.State(),
                         old(Opening(request.Snapshot())),
                         old(Counts(request.clientSocket, store)), Counts(request.clientSocket, store))
  {
    hide OkLine, Aborted, Delivered, Packets, LinesBetween, ToldWhy, RrForfeit;
    ghost var r, s := request.Snapshot(), request.clientSocket.State();
    var reader := BeginGetRound(request, store, RrNext(store.contents, r.transferred, options.quantum));
    if reader == null {
      return false;
    }
    ok := SendRoundRobin(request, options, reader, r, s);
  }

  // The line loop of one deficit round, entered with the allowance in `deficit`.
  method SendDeficitLines(request: AdmittedRequest, reader: FileReader, batch: LineBatch) returns (ok: bool)
    requires batch.Valid() && batch.taken == [] && batch.socket == request.clientSocket
    requires request.totalBytesToTransfer == |reader.data| && Boundary(reader.data, request.bytesTransferred)
    requires reader.Valid() && reader.pos == request.bytesTransferred && !reader.eof
    modifies request`bytesTransferred, request`deficit, request.clientSocket, reader, reader.file`ioFaults
    modifies batch`batchBuffer, batch`linesInBatch, batch`taken, batch`flushed
    ensures TakenFrom(reader.data, old(request.bytesTransferred), request, batch)
    ensures request.bytesTransferred <= DrrNext(reader.data, old(request.bytesTransferred), old(request.deficit))
    ensures ok ==> batch.Pending()
    ensures ok ==> request.bytesTransferred == DrrNext(reader.data, old(request.bytesTransferred), old(request.deficit))
    ensures ok ==> request.bytesTransferred + request.deficit == old(request.bytesTransferred) + old(request.deficit)
    ensures !ok ==> Aborted(batch.base, batch.socket.State(),
                            Part(Concat(batch.taken), request.bytesTransferred < |reader.data|))
    ensures Counts(request.clientSocket, reader.file).Since(old(Counts(request.clientSocket, reader.file)))
    ensures ok <==> Counts(request.clientSocket, reader.file) == old(Counts(request.clientSocket, reader.file))
    ensures !ok && request.clientSocket.sendFaults == old(request.clientSocket.sendFaults) ==>
              ToldWhy(batch.base.sent, request.clientSocket.sent, "Failed to read file")
  {
    hide Aborted, Packets, Concat, ToldWhy;
    ghost var file, o := reader.data, request.bytesTransferred;
    ghost var d := request.deficit;
    ghost var next := DrrNext(file, o, d);
    while request.bytesTransferred < request.totalBytesToTransfer
      invariant batch.Valid() && TakenFrom(file, o, request, batch)
      invariant reader.Valid() && reader.pos == request.bytesTransferred <= next
      invariant request.bytesTransferred + request.deficit == o + d
      invariant Counts(request.clientSocket, reader.file) == old(Counts(request.clientSocket, reader.file))
      decreases |file| - request.bytesTransferred
    {
      ghost var c := request.bytesTransferred;
      var read, currentLine := TakeLine(reader);
      if !read {
        batch.CloseWithError("Failed to read file");
        return false;
      }
      var lineBytes := |currentLine|;
      if lineBytes > request.deficit {
        DrrStops(file, o, d, c);
        return true;
      }
      DrrTakes(file, o, d, LineEnd(file, c));
      request.deficit := request.deficit - lineBytes;
      ok := SendLine(request, batch, currentLine, file, o);
      if !ok {
        return;
      }
    }
    assert request.bytesTransferred == |file|;
    DrrStops(file, o, d, |file|);
    ok := true;
  }

  // The rest of a round that began as `r` on the socket `s`, once the file is open.
  method SendDeficitRoundRobin(request: AdmittedRequest, options: ServerOptions, reader: FileReader,
                               ghost r: Admitted, ghost s: Sock)
    returns (ok: bool)
    requires request.Snapshot() == r.(responseStarted := true, deficit := r.deficit + options.quantum)
    requires request.clientSocket.Valid() && request.clientSocket.State() == s.(sent := s.sent + Opening(r))
    requires reader.Valid() && reader.pos == r.transferred && !reader.eof && r.total == |reader.data|
    requires Boundary(reader.data, r.transferred)
    modifies request, request.clientSocket, reader, reader.file`ioFaults
    ensures GetDeficitRoundRobinPost(reader.data, options, r, s, request.Snapshot(), request.clientSocket.State(), ok)
    ensures Counts(request.clientSocket, reader.file).Since(old(Counts(request.clientSocket, reader.file)))
    ensures ok <==> Counts(request.clientSocket, reader.file) == old(Counts(request.clientSocket, reader.file))
    ensures reader.file.openFaults == old(reader.file.openFaults)
    ensures !ok && request.clientSocket.sendFaults == old(request.clientSocket.sendFaults) ==>
              ToldWhy(s.sent + Opening(r), request.clientSocket.sent, "Failed to read file")
  {
    hide OkLine, Aborted, Delivered, Packets, LinesBetween, ToldWhy;
    ghost var file, o, opening := reader.data, r.transferred, Opening(r);
    ghost var next := DrrNext(file, o, request.deficit);
    var batch := new LineBatch(request.clientSocket, options.PacketLimit());
    ok := SendDeficitLines(request, reader, batch);
    assert ok ==> request.Snapshot() == r.(responseStarted := true, transferred := next,
                                           deficit := o + r.deficit + options.quantum - next);
    ok := EndGetRound(batch, ok, request.bytesTransferred == request.totalBytesToTransfer, s, opening,
                      file, o, request.bytesTransferred, next, GetPart(file, r, next));
    if ok && request.bytesTransferred == request.totalBytesToTransfer {
      request.deficit := 0;
    }
  }

  method ServeGetDeficitRoundRobin(request: AdmittedRequest, options: ServerOptions, store: StoredFile)
    returns (ok: bool)
    requires request.op.Get? && request.clientSocket.Valid()
    requires request.totalBytesToTransfer == |store.contents| && Boundary(store.contents, request.bytesTransferred)
    modifies request, request.clientSocket, store`openFaults, store`ioFaults
    ensures GetDeficitRoundRobinPost(store.contents, options, old(request.Snapshot()),
                                     old(request.clientSocket.State()),
                                     request.Snapshot(), request.clientSocket.State(), ok)
    ensures Counts(request.clientSocket, store).Since(old(Counts(request.clientSocket, store)))
    ensures ok <==> Counts(request.clientSocket, store) == old(Counts(request.clientSocket, store))
    ensures !ok ==>
              GetFailure(old(request.clientSocket.State()), request.clientSocket.State(),
                         old(Opening(request.Snapshot())),
                         old(Counts(request.clientSocket, store)), Counts(request.clientSocket, store))
  {
    hide OkLine, Aborted, Delivered, Packets, LinesBetween, ToldWhy;
    ghost var r, s := request.Snapshot(), request.clientSocket.State();
    ghost var next := DrrNext(store.contents, r.transferred, r.deficit + options.quantum);
    var reader := BeginGetRound(request, store, next);
    if reader == null {
      return false;
    }
    request.deficit := request.deficit + options.quantum;
    ok := SendDeficitRoundRobin(request, options, reader, r, s);
  }

  // The line loop of the run-to-completion policies, from the start of the file.
  method SendAllLines(request: AdmittedRequest, reader: FileReader, batch: LineBatch) returns (ok: bool, ghost p: nat)
    requires batch.Valid() && batch.taken == [] && batch.socket == request.clientSocket
    requires reader.Valid() && reader.pos == 0 && !reader.eof
    modifies request`bytesTransferred, request.clientSocket, reader, reader.file`ioFaults
    modifies batch`batchBuffer, batch`linesInBatch, batch`taken, batch`flushed
    ensures Boundary(reader.data, p) && batch.taken == LinesBetween(reader.data, 0, p)
    ensures request.bytesTransferred == old(request.bytesTransferred) + p
    ensures if ok then batch.Pending()
            else Aborted(batch.base, batch.socket.State(), Part(Concat(batch.taken), p < |reader.data|))
    ensures Counts(request.clientSocket, reader.file).Since(old(Counts(request.clientSocket, reader.file)))
    ensures Counts(request.clientSocket, reader.file) == old(Counts(request.clientSocket, reader.file)) ==>
              ok && (request.bytesTransferred >= request.totalBytesToTransfer || p == |reader.data|)
    ensures !ok ==> request.clientSocket.sendFaults > old(request.clientSocket.sendFaults)
  {
    hide Aborted, Packets, Concat, ToldWhy;
    ghost var file := reader.data;
    p := 0;
    while request.bytesTransferred < request.totalBytesToTransfer
      invariant Boundary(file, p) && batch.Valid() && batch.taken == LinesBetween(file, 0, p)
      invariant reader.Valid() && reader.pos == p
      invariant request.bytesTransferred == old(request.bytesTransferred) + p
      invariant Counts(request.clientSocket, reader.file) == old(Counts(request.clientSocket, reader.file))
      decreases |file| - p
    {
      var read, currentLine := TakeLine(reader);
      if !read {
        break;
      }
      LinesBetweenAppend(file, 0, p);
      p := LineEnd(file, p);
      request.bytesTransferred := request.bytesTransferred + |currentLine|;
      ok := batch.Add(currentLine);
      if !ok {
        AbortedEarly(batch.base, batch.socket.State(), Concat(batch.taken), p < |file|);
        return;
      }
    }
    ok := true;
  }

  // Opening line and file of a download served in one go.
  method BeginGetToCompletion(request: AdmittedRequest, store: StoredFile, ghost part: Part)
    returns (reader: FileReader?)
    requires request.clientSocket.Valid() && request.totalBytesToTransfer == |store.contents|
    requires part == Part(OkLine(|store.contents|) + store.contents, store.contents == "")
    modifies request.clientSocket, store`openFaults
    ensures reader != null ==> fresh(reader) && reader.Valid() && reader.file == store && !reader.eof
    ensures reader != null ==> reader.data == store.contents && reader.pos == 0 && old(request.clientSocket.open)
    ensures reader != null ==>
              request.clientSocket.State() ==
              old(request.clientSocket.State()).(sent := old(request.clientSocket.sent) + OkLine(|store.contents|))
    ensures reader == null ==> Aborted(old(request.clientSocket.State()), request.clientSocket.State(), part)
    ensures reader == null && !old(request.clientSocket.open) ==>
              && request.clientSocket.sent == old(request.clientSocket.sent)
              && request.clientSocket.misuses == old(request.clientSocket.misuses) + 2
    ensures Counts(request.clientSocket, store).Since(old(Counts(request.clientSocket, store)))
    ensures reader != null <==> Counts(request.clientSocket, store) == old(Counts(request.clientSocket, store))
    ensures request.clientSocket.recvFaults == old(request.clientSocket.recvFaults)
    ensures reader == null ==>
              GetFailure(old(request.clientSocket.State()), request.clientSocket.State(), OkLine(|store.contents|),
                         old(Counts(request.clientSocket, store)), Counts(request.clientSocket, store))
  {
    hide CutOff;
    var socket := request.clientSocket;
    ghost var s, opening := socket.State(), OkLine(request.totalBytesToTransfer);
    assert s.sent + part.text == (s.sent + opening) + store.contents;
    reader := null;
    var sendSizeSuccess := socket.SendOkResponse(request.totalBytesToTransfer);
    if !sendSizeSuccess {
      socket.Close();
      CutOffPlain(s.sent, socket.sent, part);
      return;
    }
    reader := OpenForReading(store);
    if reader == null {
      CloseUnopened(request, s, opening, part);
    }
  }

  /** Without a failed call, one go sends the whole file. */
  method ServeGetToCompletion(request: AdmittedRequest, options: ServerOptions, store: StoredFile) returns (ok: bool)
    requires request.clientSocket.Valid() && request.totalBytesToTransfer == |store.contents|
    modifies request, request.clientSocket, store`openFaults, store`ioFaults
    ensures GetToCompletionPost(store.contents, options, old(request.Snapshot()), old(request.clientSocket.State()),
                                request.Snapshot(), request.clientSocket.State(), ok)
    ensures Counts(request.clientSocket, store).Since(old(Counts(request.clientSocket, store)))
    ensures Counts(request.clientSocket, store) == old(Counts(request.clientSocket, store)) ==>
              ok && request.bytesTransferred >= request.totalBytesToTransfer
    ensures !ok ==>
              GetFailure(old(request.clientSocket.State()), request.clientSocket.State(), OkLine(|store.contents|),
                         old(Counts(request.clientSocket, store)), Counts(request.clientSocket, store))
    ensures !ok ==> (Counts(request.clientSocket, store).sends > old(Counts(request.clientSocket, store)).sends
                     || Counts(request.clientSocket, store).opens > old(Counts(request.clientSocket, store)).opens)
  {
    hide Aborted, Delivered, Packets, LinesBetween, ToldWhy;
    ghost var file, s, opening := store.contents, request.clientSocket.State(), OkLine(request.totalBytesToTransfer);
    ghost var part := Part(opening + file, file == "");
    var reader := BeginGetToCompletion(request, store, part);
    if reader == null {
      return false;
    }
    var batch := new LineBatch(request.clientSocket, options.PacketLimit());
    ghost var p;
    ok, p := SendAllLines(request, reader, batch);
    assert file[0..|file|] == file && file[0..p] == file[..p];
    ok := EndGetRound(batch, ok, true, s, opening, file, 0, p, |file|, part);
  }
}
