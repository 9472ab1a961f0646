/** What the server promises over whole runs, for any interleaving of any number of workers. */
module Guarantees {
  import opened Wire
  import opened Decimal
  import opened Lines
  import opened Requests
  import opened PutTheory
  import opened DrrTheory
  import opened RrTheory
  import opened Service
  import opened Server
  import opened Lifecycle
  import opened Census
  import opened ServerInvariant
  import opened Tracking
  import Framing
  import RequestParser
  import Client

  lemma CompletedOk(options: ServerOptions, run: Run, j: nat, d: Departed)
    requires run.FromInit(options) && j < |run.states| && d in run.states[j].completed
    ensures Done(d) in Places(run.states[j]) && PlaceOk(options, run.states[j], Done(d))
  {
    PlacesAreReal(run.states[j], Done(d));
    PlaceAt(options, run, j, Done(d));
  }

  /** A download admitted at step `i` and completed by state `j` has put on its socket exactly the
      announced size and the bytes its file held at admission, and nothing else. */
  lemma CompletedDownload(options: ServerOptions, run: Run, i: nat, j: nat, d: Departed)
    requires run.FromInit(options) && i < |run.steps| && i < j < |run.states| && run.steps[i].Admit?
    requires d in run.states[j].completed && d.r.id == run.states[i].nextId && d.r.op.Get?
    ensures var f := Stored(run.states[i].disk, d.r.fileName);
            && d.r.id in run.states[j].socks
            && run.states[j].socks[d.r.id].sent == OkLine(|f|) + f
            && ClosedOnce(run.states[j].socks[d.r.id])
            && d.r.transferred == d.r.total == |f| && DownloadMetrics(options, f, d.r)
            && d.r.arrival <= d.r.start <= d.finish
  {
    assert run.StepAt(options, i);
    AdmissionsPersist(options, run, i + 1, j, d.r.id);
    CompletedOk(options, run, j, d);
  }

  /** The numbers a completed round-robin download reports balance its bytes: what was sent,
      forfeited and left unused is `rounds` quanta and the overruns. Its rounds are the fewest any
      cut of the file into whole-line chunks allows, and any two in a row send more than a quantum. */
  lemma CompletedLedger(options: ServerOptions, run: Run, j: nat, d: Departed, ends: seq<nat>)
    requires run.FromInit(options) && j < |run.states| && d in run.states[j].completed
    requires options.scheduler.RoundRobin? && d.r.op.Get?
    ensures var (f, q, k) := (d.body, options.quantum, d.r.rounds);
            && k >= 1 && d.r.total == |f|
            && d.r.total + d.r.forfeited + RrUnused(f, RrOffset(f, q, k - 1), q) == k * q + RrOverruns(f, q, k)
            && (|f| > 0 ==> d.r.forfeited < |f|)
            && (|f| > 0 && IsCut(f, q, ends) ==> k <= |ends|)
            && (k >= 2 ==> k / 2 * (q + 1) <= |f|)
  {
    hide RrUnused, RrOffset, RrOverruns, RrForfeited, RrRounds, IsCut, Places;
    CompletedOk(options, run, j, d);
    var (f, q, k) := (d.body, options.quantum, d.r.rounds);
    LedgerOf(f, q, k, d.r.forfeited, ends);
  }

  lemma LedgerOf(f: string, q: nat, k: nat, forfeited: nat, ends: seq<nat>)
    requires q >= 1 && k == RrRounds(f, q) && forfeited == RrForfeited(f, q, k)
    ensures k >= 1 && |f| + forfeited + RrUnused(f, RrOffset(f, q, k - 1), q) == k * q + RrOverruns(f, q, k)
    ensures |f| > 0 ==> forfeited < |f|
    ensures |f| > 0 && IsCut(f, q, ends) ==> k <= |ends|
    ensures k >= 2 ==> k / 2 * (q + 1) <= |f|
  {
    RrLedger(f, q, k);
    if |f| > 0 {
      RrForfeitedBelowSize(f, q, k);
      if IsCut(f, q, ends) {
        RrIsOptimal(f, q, ends);
      }
    }
    if k >= 2 {
      RrRoundBound(f, q);
    }
  }

  /** At every reachable state an unfinished preemptible download has sent exactly the prefix of
      its reply that ends at its saved offset, which is a line boundary, on a socket never closed. */
  lemma LiveDownload(options: ServerOptions, run: Run, j: nat, p: Place)
    requires run.FromInit(options) && j < |run.states| && p in Places(run.states[j]) && p.IsLive()
    requires p.Request().op.Get? && !options.scheduler.RunsToCompletion()
    ensures var (s, r) := (run.states[j], p.Request());
            && r.id in s.socks && r.id in s.admitted
            && var (f, sk) := (s.admitted[r.id].found, s.socks[r.id]);
            && Boundary(f, r.transferred) && Untouched(sk)
            && sk.sent == if r.responseStarted then OkLine(|f|) + f[..r.transferred] else ""
  {
    hide Places;
    PlaceAt(options, run, j, p);
  }

  /** An upload under round robin or deficit round robin stores exactly the first `transferred`
      bytes after its request line, in `TotalRounds` rounds; these are the declared number of
      bytes, with the closing line sent, just when `EndsExactly` holds. */
  lemma CompletedUpload(options: ServerOptions, run: Run, j: nat, d: Departed)
    requires run.FromInit(options) && j < |run.states| && d in run.states[j].completed
    requires d.r.op.Put? && !options.scheduler.RunsToCompletion()
    ensures var s := run.states[j];
            && d.r.id in s.socks && d.r.id in s.admitted
            && var (a, sk) := (s.admitted[d.r.id], s.socks[d.r.id]);
            && a.bodyStart <= a.headerRead <= |sk.stream| && a.bodyStart + d.r.transferred <= |sk.stream|
            && d.body == sk.stream[a.bodyStart..a.bodyStart + d.r.transferred]
            && d.r.rounds == TotalRounds(d.r.total, options.quantum) && d.r.forfeited == 0
            && (d.r.transferred == d.r.total <==> EndsExactly(a.headerRead - a.bodyStart, d.r.total, options.quantum))
            && (if d.r.transferred == d.r.total then ClosedOnce(sk) && sk.sent == OkLine(0) + OkLine(0)
                else Untouched(sk) && sk.sent == OkLine(0))
            && d.r.arrival <= d.r.start <= d.finish
  {
    CompletedOk(options, run, j, d);
  }

  /** At every reachable state an unfinished preemptible upload has spent one quantum for each round
      behind it, its file holds exactly these first bytes of the body, and the bytes that came early
      and are not stored yet wait in `extra`. */
  lemma LiveUpload(options: ServerOptions, run: Run, j: nat, p: Place)
    requires run.FromInit(options) && j < |run.states| && p in Places(run.states[j]) && p.IsLive()
    requires p.Request().op.Put? && !options.scheduler.RunsToCompletion()
    ensures var (s, r) := (run.states[j], p.Request());
            && r.id in s.socks && r.id in s.admitted
            && var (a, sk, t) := (s.admitted[r.id], s.socks[r.id], r.transferred);
            && Untouched(sk) && r.deficit == 0 && t == RoundsBehind(p) * options.quantum
            && a.bodyStart + t <= sk.read <= |sk.stream| && a.bodyStart <= a.headerRead <= |sk.stream|
            && (t > 0 ==> Stored(s.disk, r.fileName) == sk.stream[a.bodyStart..a.bodyStart + t])
            && r.extra == (if a.bodyStart + t < a.headerRead then sk.stream[a.bodyStart + t..a.headerRead] else "")
            && sk.sent == if r.responseStarted then OkLine(0) else ""
  {
    hide Places;
    PlaceAt(options, run, j, p);
  }

  // A body that is no longer than declared always ends exactly.
  lemma FittingBodyEndsExactly(a: Admission, stream: string, total: nat, q: nat)
    requires q >= 1 && a.bodyStart <= a.headerRead <= |stream| <= a.bodyStart + total
    ensures EndsExactly(a.headerRead - a.bodyStart, total, q)
  {
  }

  /** End to end: a client that sends a request for a one-word, valid name and then the announced
      bytes, and whose upload is completed, has stored exactly these bytes under that name if and only
      if no write failed, which is certain unless it was served in one go. */
  lemma UploadEndToEnd(options: ServerOptions, run: Run, j: nat, d: Departed, filePath: string, destination: string,
                       name: string, content: string)
    requires run.FromInit(options) && j < |run.states| && d in run.states[j].completed && d.r.id in run.states[j].socks
    requires Client.SentAs(filePath, destination, name)
    requires RequestParser.IsWord(name) && RequestParser.ValidFileName(name)
    requires |content| < SIZE_LIMIT
    requires run.states[j].socks[d.r.id].stream == Client.BuildPutRequest(filePath, |content|, destination) + content
    ensures d.r.op.Put? && d.r.fileName == name
    ensures d.r.transferred == d.r.total == |content|
    ensures d.body <= content && (d.body == content <==> d.written)
    ensures (!options.scheduler.RunsToCompletion() ==> d.written)
    ensures run.states[j].socks[d.r.id].sent == OkLine(0) + OkLine(0)
  {
    var s := run.states[j];
    CompletedOk(options, run, j, d);
    UploadIsUnderstood(s.socks[d.r.id].stream, s.admitted[d.r.id], filePath, destination, name, content);
    UploadOfContent(options, s, d, content);
  }

  lemma UploadOfContent(options: ServerOptions, s: State, d: Departed, content: string)
    requires CompletedIn(options, s, d) && d.r.op.Put? && d.r.total == |content|
    requires var (a, sk) := (s.admitted[d.r.id], s.socks[d.r.id]);
             a.bodyStart + |content| == |sk.stream| && sk.stream[a.bodyStart..] == content
    ensures d.r.transferred == d.r.total && s.socks[d.r.id].sent == OkLine(0) + OkLine(0)
    ensures d.body <= content && (d.body == content <==> d.written)
    ensures (!options.scheduler.RunsToCompletion() ==> d.written)
  {
    var (a, sk) := (s.admitted[d.r.id], s.socks[d.r.id]);
    FittingBodyEndsExactly(a, sk.stream, d.r.total, options.quantum);
    assert sk.stream[a.bodyStart..a.bodyStart + |content|] == content;
  }

  lemma UploadIsUnderstood(stream: string, a: Admission, filePath: string, destination: string, name: string,
                           content: string)
    requires Client.SentAs(filePath, destination, name)
    requires RequestParser.IsWord(name) && RequestParser.ValidFileName(name)
    requires |content| < SIZE_LIMIT && Understood(stream, a)
    requires stream == Client.BuildPutRequest(filePath, |content|, destination) + content
    ensures a.request == RequestParser.Request(RequestParser.Put, name, |content|)
    ensures a.bodyStart + |content| == |stream| && stream[a.bodyStart..] == content
  {
    var line := Client.BuildPutRequest(filePath, |content|, destination);
    Client.PutRequestRoundTrip(filePath, |content|, destination, name);
    Client.PutRequestIsOneLine(filePath, |content|, destination, name);
    RequestLineEnds(line, content);
    assert stream[..a.bodyStart] == line;
  }

  // The body starts after the one line the client sends.
  lemma RequestLineEnds(line: string, content: string)
    requires Framing.FindNewline(line) == |line| - 1
    ensures BodyStart(line + content) == |line|
  {
    Framing.NewlineInPrefix(line, line + content);
  }

  // What a completed upload was to store: the declared number of bytes after its request line.
  function DeclaredBody(a: Admission, stream: string, total: nat): string
    requires a.bodyStart + total <= |stream|
  {
    stream[a.bodyStart..a.bodyStart + total]
  }

  // No write failed, and a preemptible upload was not given more early bytes than it can end on.
  ghost predicate EndsWhole(options: ServerOptions, s: State, d: Departed)
    requires Known(s, d.r.id)
  {
    var a := s.admitted[d.r.id];
    && d.written
    && (options.scheduler.RunsToCompletion() || EndsExactly(a.headerRead - a.bodyStart, d.r.total, options.quantum))
  }

  lemma WholeBody(options: ServerOptions, s: State, d: Departed)
    requires CompletedIn(options, s, d) && d.r.op.Put?
    ensures var (a, sk) := (s.admitted[d.r.id], s.socks[d.r.id]);
            && a.bodyStart + d.r.total <= |sk.stream|
            && (d.body == DeclaredBody(a, sk.stream, d.r.total) <==> EndsWhole(options, s, d))
  {
  }

  /** A completed upload stored exactly its declared body if and only if `EndsWhole` holds: under
      round robin and deficit round robin no write of it can have failed, and served in one go the
      early bytes do no harm. */
  lemma CompletedUploadIsWhole(options: ServerOptions, run: Run, j: nat, d: Departed)
    requires run.FromInit(options) && j < |run.states| && d in run.states[j].completed && d.r.op.Put?
    ensures Known(run.states[j], d.r.id)
    ensures var (s, a, sk) := (run.states[j], run.states[j].admitted[d.r.id], run.states[j].socks[d.r.id]);
            && a.bodyStart + d.r.total <= |sk.stream|
            && (d.body == DeclaredBody(a, sk.stream, d.r.total) <==> EndsWhole(options, s, d))
            && (!options.scheduler.RunsToCompletion() ==> d.written)
  {
    CompletedOk(options, run, j, d);
    WholeBody(options, run.states[j], d);
  }

  /** Whatever the policies, quanta, worker counts and chunks: when one completed upload of some
      bytes ended whole, another completed upload of the same bytes left the same file under the same
      name if and only if it ended whole, too. */
  lemma PoliciesStoreTheSame(options: ServerOptions, run: Run, j: nat, d: Departed,
                             options': ServerOptions, run': Run, j': nat, d': Departed)
    requires run.FromInit(options) && j < |run.states| && d in run.states[j].completed && d.r.op.Put?
    requires run'.FromInit(options') && j' < |run'.states| && d' in run'.states[j'].completed
    requires Known(run.states[j], d.r.id) && Known(run'.states[j'], d'.r.id)
    requires run.states[j].socks[d.r.id].stream == run'.states[j'].socks[d'.r.id].stream
    requires EndsWhole(options, run.states[j], d)
    ensures d'.r.op.Put? && d'.r.fileName == d.r.fileName && d'.r.total == d.r.total
    ensures d'.body == d.body <==> EndsWhole(options', run'.states[j'], d')
  {
    CompletedOk(options, run, j, d);
    CompletedOk(options', run', j', d');
    hide Places, Completed, EndsWhole;
    WholeBody(options, run.states[j], d);
    WholeBody(options', run'.states[j'], d');
  }

  // The request was put back into the queue by a download round that had closed its socket.
  predicate CutShort(options: ServerOptions, run: Run, j: nat, r: Admitted)
    requires j <= |run.steps|
  {
    options.scheduler.RunsToCompletion() && r.op.Get? && RequeuesIn(run, j, r.id) > 0
  }

  /** While a request is live its socket is open and unharmed if and only if no short read has put
      a download served in one go back into the queue; otherwise it is closed, once. */
  lemma SocketWhileLive(options: ServerOptions, run: Run, j: nat, p: Place)
    requires run.FromInit(options) && j < |run.states| && p in Places(run.states[j]) && p.IsLive()
    ensures var (s, r) := (run.states[j], p.Request());
            && r.id in s.socks
            && (Untouched(s.socks[r.id]) <==> !CutShort(options, run, j, r))
            && (CutShort(options, run, j, r) ==> ClosedOnce(s.socks[r.id]))
  {
    hide Places;
    PlaceAt(options, run, j, p);
    RequeuesAreRounds(options, run, j, p);
  }

  // The upload took more bytes than declared and was never acknowledged.
  ghost predicate Overshot(options: ServerOptions, s: State, p: Place)
    requires p.Done? && Known(s, p.d.r.id)
  {
    var (a, r) := (s.admitted[p.d.r.id], p.d.r);
    && r.op.Put? && !options.scheduler.RunsToCompletion()
    && !EndsExactly(a.headerRead - a.bodyStart, r.total, options.quantum)
  }

  /** Once a request has left the server its socket was closed exactly once and never misused if and
      only if no short read cut a download served in one go short and no preemptible upload
      overshot. In the first case the request failed, using its closed socket once and closing it
      again; in the second its socket is still open. */
  lemma SocketAfterwards(options: ServerOptions, run: Run, j: nat, p: Place)
    requires run.FromInit(options) && j < |run.states| && p in Places(run.states[j]) && !p.IsLive()
    ensures Known(run.states[j], p.d.r.id)
    ensures var (s, r) := (run.states[j], p.d.r);
            var sk := s.socks[r.id];
            && (ClosedOnce(sk) <==> !CutShort(options, run, j, r) && !(p.Done? && Overshot(options, s, p)))
            && (CutShort(options, run, j, r) ==> p.Lost? && !sk.open && sk.closes == 2 && sk.misuses == 2)
            && (p.Done? && Overshot(options, s, p) ==> Untouched(sk))
  {
    PlaceAt(options, run, j, p);
    RequeuesAreRounds(options, run, j, p);
  }

  /** A failed request was sent less than its reply, and perhaps part of an error line after it; only
      to a failed download of nothing may the whole reply have gone out. */
  lemma FailedRequest(options: ServerOptions, run: Run, j: nat, d: Departed)
    requires run.FromInit(options) && j < |run.states| && d in run.states[j].failed
    ensures d.r.id in run.states[j].socks && Failed(options, d.r, run.states[j].socks[d.r.id], d.body)
    ensures d.r.arrival <= d.r.start <= d.finish
  {
    PlacesAreReal(run.states[j], Lost(d));
    PlaceAt(options, run, j, Lost(d));
  }

  /** The round of any request in flight can be served: everything the round functions rely on
      holds at every reachable state. */
  lemma RoundIsEnabled(options: ServerOptions, run: Run, j: nat, w: nat)
    requires run.FromInit(options) && j < |run.states| && w < |run.states[j].workers|
    requires run.states[j].workers[w].Serving?
    ensures var (s, r) := (run.states[j], run.states[j].workers[w].r);
            && r.id in s.socks && s.socks[r.id].read <= |s.socks[r.id].stream|
            && CanServe(options, r, Stored(s.disk, r.fileName))
  {
    var s := run.states[j];
    PlacesAreReal(s, InRound(s.workers[w].r));
    PlaceAt(options, run, j, InRound(s.workers[w].r));
  }
}
