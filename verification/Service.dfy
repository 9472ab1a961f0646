/** One round of any request under any policy: the dispatch of src/request_handler.cpp. */
module Service {
  import opened Lines
  import opened Wire
  import opened Storage
  import opened Requests
  import opened GetRounds
  import opened PutRounds

  /** What a round relies on: a file being read still has the size recorded at admission, a
      preemptible read resumes at a line boundary, lines fit an `int` under round robin, and an
      upload served in one go has not been served before. */
  ghost predicate CanServe(options: ServerOptions, r: Admitted, stored: string) {
    if r.op.Get? then
      && r.total == |stored|
      && (!options.scheduler.RunsToCompletion() ==> Boundary(stored, r.transferred))
      && (options.scheduler.RoundRobin? ==> LinesAtMost(stored, 0x7fff_ffff))
    else
      options.scheduler.RunsToCompletion() ==> r.transferred == 0
  }

  /** What the round achieves: `stored` is the file before it and `stored'` after it. `written`
      says that no write of the round failed; only an upload served in one go succeeds without. */
  ghost predicate RoundPost(options: ServerOptions, r: Admitted, s: Sock, stored: string,
                            r': Admitted, s': Sock, stored': string, ok: bool, written: bool)
    requires CanServe(options, r, stored)
  {
    match (r.op, options.scheduler)
    case (Get, RoundRobin) => written && stored' == stored && GetRoundRobinPost(stored, options, r, s, r', s', ok)
    case (Get, Drr) => written && stored' == stored && GetDeficitRoundRobinPost(stored, options, r, s, r', s', ok)
    case (Get, _) => written && stored' == stored && GetToCompletionPost(stored, options, r, s, r', s', ok)
    case (Put, RoundRobin) => (ok ==> written) && PutRoundRobinPost(options, r, s, stored, r', s', stored', ok)
    case (Put, Drr) => (ok ==> written) && PutDeficitRoundRobinPost(options, r, s, stored, r', s', stored', ok)
    case (Put, _) => PutToCompletionPost(r, s, stored, r', s', stored', ok, written)
  }

  // The bytes a round of an upload still takes from its socket.
  function FromSocket(options: ServerOptions, r: Admitted): nat {
    if options.scheduler.RunsToCompletion() then r.total - Min(|r.extra|, r.total)
    else SocketShare(r, (if options.scheduler.Drr? then r.deficit else 0) + options.quantum)
  }

  /** What a round needs to succeed: a download served in one go an open socket, an upload the bytes
      of the round. */
  predicate Servable(options: ServerOptions, r: Admitted, sk: Sock) {
    if r.op.Get? then options.scheduler.RunsToCompletion() ==> sk.open
    else sk.read + FromSocket(options, r) <= |sk.stream|
  }

  lemma OnlyServableSucceeds(options: ServerOptions, r: Admitted, sk: Sock, stored: string,
                             r': Admitted, sk': Sock, stored': string, written: bool)
    requires CanServe(options, r, stored) && RoundPost(options, r, sk, stored, r', sk', stored', true, written)
    ensures Servable(options, r, sk)
  {
  }

  // Why a round failed, and what its peer was told.
  ghost predicate FailedRound(options: ServerOptions, r: Admitted, s: Sock, s': Sock, before: FaultCounts,
                              now: FaultCounts)
  {
    if r.op.Get? then
      && GetFailure(s, s', if options.scheduler.RunsToCompletion() then OkLine(r.total) else Opening(r), before, now)
      && (options.scheduler.RunsToCompletion() ==> now.sends > before.sends || now.opens > before.opens)
    else if options.scheduler.RunsToCompletion() then
      OneGoFailure(s, s', OkLine(0), FromSocket(options, r), before, now)
    else
      PutFailure(s, s', Opening(r), FromSocket(options, r), before, now)
  }

  /** The calls that have failed account for the outcome of a round: without one it succeeds if and
      only if it is servable, and then does all it set out to; and a failed round told its peer which
      call it was, unless it was a send. */
  ghost predicate Accounted(options: ServerOptions, r: Admitted, s: Sock, r': Admitted, s': Sock, ok: bool,
                            written: bool, before: FaultCounts, now: FaultCounts)
  {
    && now.Since(before)
    && (now == before ==> (ok <==> Servable(options, r, s)))
    && (now == before && ok ==> written && (options.scheduler.RunsToCompletion() ==> r'.transferred >= r'.total))
    && (ok && !options.scheduler.RunsToCompletion() ==> now == before)
    && (!ok ==> FailedRound(options, r, s, s', before, now))
  }

  method ServeGetRequest(request: AdmittedRequest, options: ServerOptions, store: StoredFile)
    returns (ok: bool, ghost written: bool)
    requires request.op.Get? && request.clientSocket.Valid() && CanServe(options, request.Snapshot(), store.contents)
    modifies request, request.clientSocket, store`openFaults, store`ioFaults
    ensures RoundPost(options, old(request.Snapshot()), old(request.clientSocket.State()), old(store.contents),
                      request.Snapshot(), request.clientSocket.State(), store.contents, ok, written)
    ensures Accounted(options, old(request.Snapshot()), old(request.clientSocket.State()),
                      request.Snapshot(), request.clientSocket.State(), ok, written,
                      old(Counts(request.clientSocket, store)), Counts(request.clientSocket, store))
  {
    written := true;
    match options.scheduler {
      case Fcfs => ok := ServeGetToCompletion(request, options, store);
      case Sjf => ok := ServeGetToCompletion(request, options, store);
      case RoundRobin => ok := ServeGetRoundRobin(request, options, store);
      case Drr => ok := ServeGetDeficitRoundRobin(request, options, store);
    }
  }

  method ServePutRequest(request: AdmittedRequest, options: ServerOptions, store: StoredFile)
    returns (ok: bool, ghost written: bool)
    requires request.op.Put? && request.clientSocket.Valid() && CanServe(options, request.Snapshot(), store.contents)
    modifies request, request.clientSocket, store
    ensures RoundPost(options, old(request.Snapshot()), old(request.clientSocket.State()), old(store.contents),
                      request.Snapshot(), request.clientSocket.State(), store.contents, ok, written)
    ensures Accounted(options, old(request.Snapshot()), old(request.clientSocket.State()),
                      request.Snapshot(), request.clientSocket.State(), ok, written,
                      old(Counts(request.clientSocket, store)), Counts(request.clientSocket, store))
    ensures ok ==> store.present
    ensures !store.present ==> !old(store.present) && store.contents == old(store.contents)
  {
    match options.scheduler {
      case Fcfs => ok, written := ServePutToCompletion(request, store);
      case Sjf => ok, written := ServePutToCompletion(request, store);
      case RoundRobin => ok := ServePutRoundRobin(request, options, store); written := ok;
      case Drr => ok := ServePutDeficitRoundRobin(request, options, store); written := ok;
    }
  }

  method ServeRequest(request: AdmittedRequest, options: ServerOptions, store: StoredFile)
    returns (ok: bool, ghost written: bool)
    requires request.clientSocket.Valid() && CanServe(options, request.Snapshot(), store.contents)
    modifies request, request.clientSocket, store
    ensures RoundPost(options, old(request.Snapshot()), old(request.clientSocket.State()), old(store.contents),
                      request.Snapshot(), request.clientSocket.State(), store.contents, ok, written)
    ensures Accounted(options, old(request.Snapshot()), old(request.clientSocket.State()),
                      request.Snapshot(), request.clientSocket.State(), ok, written,
                      old(Counts(request.clientSocket, store)), Counts(request.clientSocket, store))
    ensures request.op.Put? && ok ==> store.present
    ensures !store.present ==> !old(store.present) && store.contents == old(store.contents)
    ensures request.op.Get? ==> store.present == old(store.present)
  {
    if request.op.Get? {
      ok, written := ServeGetRequest(request, options, store);
    } else {
      ok, written := ServePutRequest(request, options, store);
    }
  }
}
