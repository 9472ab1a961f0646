/** The bodies of the thread loops (src/server.cpp): each turn of the parser and of a worker takes
    one step of the server machine. */
module Threads {
  import opened Lines
  import opened Wire
  import opened Storage
  import opened Requests
  import opened Scheduler
  import opened GetRounds
  import opened PutRounds
  import opened Service
  import opened Server
  import opened Census
  import opened ServerInvariant
  import Framing
  import RequestParser
  import Client

  datatype Decision = Refuse(message: string) | AnswerHealth | Crash | Queue(request: RequestParser.Request, total: nat)

  datatype ParserTurn = Queued | Refused | AnsweredHealth | Crashed

  class FileServer {
    const options: ServerOptions
    const schedulerQueue: SchedulerQueue
    var completedRequests: seq<(Admitted, nat)>
    var shutdownRequested: bool
    var nextRequestId: nat
    ghost var state: State

    ghost predicate Valid()
      reads this, schedulerQueue
    {
      && schedulerQueue.queue == state.queue && |completedRequests| == |state.completed|
      && nextRequestId == state.nextId && shutdownRequested == state.shutdown
      && forall i :: 0 <= i < |state.completed| ==>
                       completedRequests[i] == (state.completed[i].r, state.completed[i].finish)
    }

    constructor (options: ServerOptions, workerThreads: nat, ghost disk: map<string, string>, ghost now: nat)
      ensures Valid() && Init(state) && this.options == options && fresh(schedulerQueue)
      ensures |state.workers| == workerThreads && state.disk == disk && state.clock == now
    {
      this.options := options;
      schedulerQueue := new SchedulerQueue();
      completedRequests, shutdownRequested, nextRequestId := [], false, 1;
      state := State([], seq(workerThreads, _ => Idle), [], [], map[], map[], disk, 1, now, false, false, []);
    }

    /** One connection in the parser thread: read the header line, parse it, find out the size,
        and queue the request. Everything else answers with an error line and closes. */
    method ParseConnection(socket: ClientSocket, stat: string -> Client.Option<nat>, now: nat)
      returns (turn: ParserTurn, ghost step: Step)
      requires Valid() && !state.parserDone && state.clock <= now
      requires socket.Valid() && socket.State() == Sock(true, 0, 0, "", [], socket.stream, 0)
      requires forall name :: stat(name) == if name in state.disk then Client.Some(|state.disk[name]|) else Client.None
      requires Admissible(options, state, socket.stream)
      modifies this, schedulerQueue, socket
      ensures Valid() && socket.Valid()
      ensures turn.Queued? ==> step.Admit? && Next(options, old(state), step, state) && step.stream == socket.stream
      ensures turn.Queued? ==> state.socks[old(state.nextId)] == socket.State()
      ensures !turn.Queued? ==> state == old(state)
      ensures turn == if '\n' in socket.stream[..socket.read] then TurnFor(old(state), socket.stream) else Refused
      ensures socket.recvFaults == old(socket.recvFaults) ==>
                turn == if '\n' in socket.stream then TurnFor(old(state), socket.stream) else Refused
      ensures turn.Refused? || turn.AnsweredHealth? ==> !socket.open && socket.closes == 1 && socket.misuses == 0
      ensures turn.Refused? ==>
                exists message: string ::
                  && RefusedWith(old(state), socket.stream, socket.read, message)
                  && SentLine(socket.sent, ErrLine(message), socket.sendFaults == old(socket.sendFaults))
      ensures turn.AnsweredHealth? ==>
                SentLine(socket.sent, OkLine(|old(state.queue)|), socket.sendFaults == old(socket.sendFaults))
      ensures turn.Crashed? ==> socket.State() == old(socket.State()).(read := socket.read)
    {
      hide RequestParser.Meaning, RequestParser.Tokens, MayAdmit, Next, LineEnd, Valid, SentLine;
      var headerResult := Framing.ReadRequestHeader(socket);
      if headerResult.NotReceived? {
        RefuseConnection(socket, headerResult.errorMessage);
        assert RefusedWith(state, socket.stream, socket.read, headerResult.errorMessage);
        return Refused, Signal;
      }
      HeaderEndsAtBody(socket.stream, headerResult.header, headerResult.extra, socket.read);
      var decision := DecideOn(headerResult.header, stat);
      match decision {
        case Refuse(message) =>
          RefuseConnection(socket, message);
          assert RefusedWith(state, socket.stream, socket.read, message);
          return Refused, Signal;
        case AnswerHealth =>
          ServeHealthRequestImmediately(socket);
          return AnsweredHealth, Signal;
        case Crash =>
          return Crashed, Signal;
        case Queue(request, totalBytesToTransfer) =>
          ghost var a := Admission(request, |headerResult.header|, socket.read, Stored(state.disk, request.fileName));
          step := Admit(socket.stream, a, now);
          QueueRequest(request, headerResult.extra, totalBytesToTransfer, now, step);
          turn := Queued;
      }
    }

    // The length of the queue, unless the send fails.
    method ServeHealthRequestImmediately(socket: ClientSocket)
      requires Valid() && socket.open && socket.closes == 0 && socket.misuses == 0 && socket.sent == ""
      modifies socket
      ensures !socket.open && socket.closes == 1 && socket.misuses == 0 && socket.read == old(socket.read)
      ensures SentLine(socket.sent, OkLine(|state.queue|), socket.sendFaults == old(socket.sendFaults))
      ensures socket.recvFaults == old(socket.recvFaults)
    {
      var queueDepth := |schedulerQueue.queue|;
      assert "" + OkLine(queueDepth) == OkLine(queueDepth);
      var sent := socket.SendOkResponse(queueDepth);
      socket.Close();
    }

    method QueueRequest(request: RequestParser.Request, extra: string, totalBytesToTransfer: nat, now: nat,
                        ghost step: Step)
      requires Valid() && !state.parserDone && state.clock <= now
      requires step.Admit? && step.now == now && step.a.request == request && Understood(step.stream, step.a)
      requires extra == step.stream[step.a.bodyStart..step.a.headerRead]
      requires step.a.found == Stored(state.disk, request.fileName)
      requires totalBytesToTransfer == if request.kind.Get? then |step.a.found| else request.bytes
      requires MayAdmit(options, state, NewRequest(state.nextId, step.a, step.stream, 0))
      modifies this, schedulerQueue
      ensures Valid() && Next(options, old(state), step, state)
      ensures state == AfterAdmission(old(state), step, NewRequest(old(state.nextId), step.a, step.stream, now))
    {
      var r := Admitted(nextRequestId, if request.kind.Get? then Get else Put, request.fileName, extra,
                        totalBytesToTransfer, 0, 0, false, now, 0, 0, 0);
      assert r == NewRequest(state.nextId, step.a, step.stream, now);
      nextRequestId := nextRequestId + 1;
      schedulerQueue.EnqueueAdmittedRequest(r);
      state := AfterAdmission(state, step, r);
    }

    /** A worker at the top of its loop, once the wait is over: it exits, or picks a request and
        counts the round. */
    method TakeRequest(w: nat, now: nat) returns (request: Client.Option<Admitted>, ghost step: Step)
      requires Valid() && w < |state.workers| && state.workers[w] == Idle && state.clock <= now
      requires state.queue != [] || state.shutdown
      modifies this, schedulerQueue
      ensures Valid() && Next(options, old(state), step, state)
      ensures if request.Some? then step.Pick? && state.workers[w] == Serving(request.value)
              else step.WorkerExit? && old(state.queue) == [] && state.workers[w] == Exited
    {
      if schedulerQueue.queue == [] && shutdownRequested {
        step := WorkerExit(w);
        state := state.(workers := state.workers[w := Exited]);
        return Client.None, step;
      }
      ghost var i := Selected(options.scheduler, state.queue);
      var r := schedulerQueue.SelectNextRequestToProcess(options.scheduler);
      if r.rounds == 0 {
        r := r.(start := now);
      }
      r := r.(rounds := r.rounds + 1);
      step := Pick(w, now);
      state := state.(queue := Without(state.queue, i), clock := now, workers := state.workers[w := Serving(r)]);
      request := Client.Some(r);
    }

    /** The rest of the worker's turn: serve one round and put the request where it belongs. */
    method ServeRound(w: nat, r: Admitted, socket: ClientSocket, store: StoredFile, now: nat) returns (ghost step: Step)
      requires Valid() && w < |state.workers| && state.workers[w] == Serving(r) && state.clock <= now
      requires r.id in state.socks && socket.Valid() && socket.State() == state.socks[r.id]
      requires store.contents == Stored(state.disk, r.fileName) && CanServe(options, r, store.contents)
      requires store.present <==> r.fileName in state.disk
      modifies this, schedulerQueue, socket, store
      ensures Valid() && step.Finish? && Next(options, old(state), step, state)
      ensures state.socks == old(state.socks)[r.id := socket.State()] && state.workers == old(state.workers)[w := Idle]
      ensures store.contents == Stored(state.disk, r.fileName) && (store.present <==> r.fileName in state.disk)
      ensures Accounted(options, r, old(socket.State()), step.r', step.s', step.ok, step.written,
                        old(Counts(socket, store)), Counts(socket, store))
    {
      hide RoundPost, CanServe, Counts, Accounted, Next, Served, AfterRound, Stored, Valid;
      ghost var s := state;
      var success, done;
      ghost var written;
      success, done, written := RunRound(options, r, socket, store);
      step := Finish(w, done, socket.State(), store.contents, r.op.Get? || store.present, success, written, now);
      RoundIsNext(options, s, step);
      FileSettled(options, s, step, store.present);
      SettleRound(success, done, now, step);
    }

    // Requeued, recorded as completed, or dropped.
    method SettleRound(success: bool, request: Admitted, now: nat, ghost step: Step)
      requires Valid() && Serves(state, step) && step.r' == request && step.ok == success && step.now == now
      modifies this, schedulerQueue
      ensures Valid() && state == AfterRound(old(state), step)
      ensures state.socks == old(state.socks)[old(state.workers)[step.w].r.id := step.s']
      ensures state.workers == old(state.workers)[step.w := Idle]
    {
      RoundSettled(state, step);
      hide AfterRound;
      if success && request.transferred < request.total {
        schedulerQueue.EnqueueAdmittedRequest(request);
      }
      if success && request.transferred >= request.total {
        completedRequests := completedRequests + [(request, now)];
      }
      state := AfterRound(state, step);
    }
  }

  // One round on a worker's own copy of the request.
  method RunRound(options: ServerOptions, r: Admitted, socket: ClientSocket, store: StoredFile)
    returns (success: bool, done: Admitted, ghost written: bool)
    requires socket.Valid() && CanServe(options, r, store.contents)
    modifies socket, store
    ensures RoundPost(options, r, old(socket.State()), old(store.contents), done, socket.State(), store.contents,
                      success, written)
    ensures r.op.Put? && success ==> store.present
    ensures !store.present ==> !old(store.present) && store.contents == old(store.contents)
    ensures r.op.Get? ==> store.present == old(store.present)
    ensures Accounted(options, r, old(socket.State()), done, socket.State(), success, written,
                      old(Counts(socket, store)), Counts(socket, store))
  {
    hide RoundPost, CanServe, Counts, Accounted;
    var request := new AdmittedRequest(r, socket);
    success, written := ServeRequest(request, options, store);
    done := request.Snapshot();
  }

  // The lists after a round.
  lemma RoundSettled(s: State, step: Step)
    requires Serves(s, step)
    ensures var (s', done) := (AfterRound(s, step), step.r'.transferred >= step.r'.total);
            && s'.queue == (if step.ok && !done then s.queue + [step.r'] else s.queue)
            && s'.completed == (if step.ok && done
                                then s.completed + [Departed(step.r', step.now, step.stored', step.written)]
                                else s.completed)
            && s'.socks == s.socks[s.workers[step.w].r.id := step.s'] && s'.workers == s.workers[step.w := Idle]
            && s'.nextId == s.nextId && s'.shutdown == s.shutdown
  {
  }

  lemma RoundIsNext(options: ServerOptions, s: State, step: Step)
    requires Serves(s, step) && s.clock <= step.now
    requires var r := s.workers[step.w].r;
             var stored := Stored(s.disk, r.fileName);
             && CanServe(options, r, stored)
             && RoundPost(options, r, s.socks[r.id], stored, step.r', step.s', step.stored', step.ok, step.written)
             && (step.ok ==> step.created) && (!step.created ==> step.stored' == stored)
    ensures Served(options, s, step) && Next(options, s, step, AfterRound(s, step))
  {
  }

  // The file after a round, as the machine records it.
  lemma FileSettled(options: ServerOptions, s: State, step: Step, present: bool)
    requires Serves(s, step) && Served(options, s, step)
    requires var r := s.workers[step.w].r;
             && step.created == (r.op.Get? || present) && (!present ==> r.fileName !in s.disk)
             && (r.op.Get? ==> (present <==> r.fileName in s.disk))
    ensures var (r, s') := (s.workers[step.w].r, AfterRound(s, step));
            Stored(s'.disk, r.fileName) == step.stored' && (present <==> r.fileName in s'.disk)
  {
    ServedKeeps(options, s, step);
    FinishFiles(s, step, AfterRound(s, step), s.workers[step.w].r);
  }

  // What the first line of a stream means.
  function Understanding(stream: string): RequestParser.ParseResult {
    var line := if BodyStart(stream) <= |stream| then stream[..BodyStart(stream)] else stream;
    RequestParser.Meaning(RequestParser.Tokens(line))
  }

  // One line was sent, and all of it if nothing failed.
  predicate SentLine(sent: string, line: string, noFault: bool) {
    sent <= line && (noFault ==> sent == line)
  }

  // What becomes of a connection whose first line was received.
  ghost function TurnFor(s: State, stream: string): ParserTurn {
    match Understanding(stream)
    case Uncaught => Crashed
    case Rejected(_) => Refused
    case Parsed(request) =>
      if request.kind.Health? then AnsweredHealth
      else if request.kind.Get? && request.fileName !in s.disk then Refused
      else Queued
  }

  // The reasons for which the parser turns a connection away.
  ghost predicate RefusedWith(s: State, stream: string, read: nat, message: string)
    requires read <= |stream|
  {
    || (message == "Failed to receive request header" && '\n' !in stream[..read])
    || Understanding(stream) == RequestParser.Rejected(message)
    || (message == "file does not exist" && Understanding(stream).Parsed?
        && Understanding(stream).request.kind.Get? && Understanding(stream).request.fileName !in s.disk)
  }

  // What the parser may assume of the files named in a request line it understands.
  ghost predicate Admissible(options: ServerOptions, s: State, stream: string) {
    forall a: Admission ::
      Understood(stream, a) && (a.request.kind.Get? ==> a.request.fileName in s.disk)
      && a.found == Stored(s.disk, a.request.fileName) ==>
        MayAdmit(options, s, NewRequest(s.nextId, a, stream, 0))
  }

  lemma HeaderEndsAtBody(stream: string, header: string, extra: string, read: nat)
    requires Framing.FindNewline(stream) < |stream| && read <= |stream|
    requires header == stream[..LineEnd(stream, 0)] && header + extra == stream[..read]
    ensures |header| == BodyStart(stream) <= read && extra == stream[|header|..read]
  {
    Framing.LineEndIsFirstNewline(stream);
    assert stream[..read][|header|..] == extra;
  }

  // What becomes of a connection whose header line was received.
  method DecideOn(header: string, stat: string -> Client.Option<nat>) returns (decision: Decision)
    ensures match RequestParser.Meaning(RequestParser.Tokens(header))
            case Rejected(message) => decision == Refuse(message)
            case Uncaught => decision == Crash
            case Parsed(request) =>
              if request.kind.Health? then decision == AnswerHealth
              else if request.kind.Put? then decision == Queue(request, request.bytes)
              else if stat(request.fileName).None? then decision == Refuse("file does not exist")
              else decision == Queue(request, stat(request.fileName).value)
  {
    var parsed := RequestParser.ParseRequest(header);
    if parsed.Uncaught? {
      return Crash;
    }
    if parsed.Rejected? {
      return Refuse(parsed.errorMessage);
    }
    if parsed.request.kind.Health? {
      return AnswerHealth;
    }
    var totalBytesToTransfer := GetAdmittedRequestTotalBytesToTransfer(parsed.request, stat);
    if totalBytesToTransfer.None? {
      return Refuse(if parsed.request.kind.Get? then "file does not exist" else "invalid request size");
    }
    decision := Queue(parsed.request, totalBytesToTransfer.value);
  }

  method GetAdmittedRequestTotalBytesToTransfer(request: RequestParser.Request, stat: string -> Client.Option<nat>)
    returns (total: Client.Option<nat>)
    requires !request.kind.Health?
    ensures total == if request.kind.Get? then stat(request.fileName) else Client.Some(request.bytes)
  {
    if request.kind.Get? {
      return stat(request.fileName);
    }
    if request.kind.Put? {
      return Client.Some(request.bytes);
    }
    total := Client.None;
  }

  method RefuseConnection(socket: ClientSocket, message: string)
    requires socket.open && socket.closes == 0 && socket.misuses == 0 && socket.sent == ""
    modifies socket
    ensures !socket.open && socket.closes == 1 && socket.misuses == 0
    ensures SentLine(socket.sent, ErrLine(message), socket.sendFaults == old(socket.sendFaults))
    ensures socket.packets == old(socket.packets) && socket.read == old(socket.read)
    ensures socket.recvFaults == old(socket.recvFaults)
  {
    socket.SendErrorResponse(message);
    socket.Close();
    assert "" + ErrLine(message) == ErrLine(message);
  }
}
