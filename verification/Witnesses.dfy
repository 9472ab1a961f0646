/** Runs that show what can happen: a clean one, and one for each way in which the code falls short. */
module Witnesses {
  import opened Wire
  import opened Decimal
  import opened Lines
  import opened Requests
  import opened GetRounds
  import opened PutRounds
  import opened Scheduler
  import opened Service
  import opened Server
  import opened Tracking
  import opened Shutdown
  import opened Transfers
  import Client
  import Framing
  import Guarantees
  import Lifecycle
  import Progress
  import RequestParser

  // One idle worker and the files on disk.
  function Fresh(disk: map<string, string>): State {
    State([], [Idle], [], [], map[], map[], disk, 1, 0, false, false, [])
  }

  // The request line of an upload of `size` bytes to `a`, and what the parser makes of it.
  lemma UploadLine(size: nat) returns (line: string)
    requires size < SIZE_LIMIT
    ensures RequestParser.Meaning(RequestParser.Tokens(line))
            == RequestParser.Parsed(RequestParser.Request(RequestParser.Put, "a", size))
    ensures line != "" && Framing.FindNewline(line) == |line| - 1
  {
    line := Client.BuildPutRequest("a", size, "a");
    assert RequestParser.IsWord("a") && RequestParser.ValidFileName("a");
    Client.PutRequestRoundTrip("a", size, "a", "a");
    Client.PutRequestIsOneLine("a", size, "a", "a");
  }

  lemma DownloadLine() returns (line: string)
    ensures RequestParser.Meaning(RequestParser.Tokens(line))
            == RequestParser.Parsed(RequestParser.Request(RequestParser.Get, "a", 0))
    ensures line != "" && Framing.FindNewline(line) == |line| - 1
  {
    line := Client.BuildGetRequest("a");
    assert RequestParser.IsWord("a") && RequestParser.ValidFileName("a") && Client.IsPathTo("a", "a");
    Client.GetRequestRoundTrip("a", "a");
    Client.GetRequestIsOneLine("a", "a");
  }

  // A connection that sends a request line for `a` and then `content`, of which `early` bytes come
  // with the header.
  function Connection(request: RequestParser.Request, line: string, early: nat, found: string): Admission {
    Admission(request, |line|, |line| + early, found)
  }

  lemma LineIsUnderstood(request: RequestParser.Request, line: string, content: string, early: nat, found: string)
    requires RequestParser.Meaning(RequestParser.Tokens(line)) == RequestParser.Parsed(request) && !request.kind.Health?
    requires line != "" && Framing.FindNewline(line) == |line| - 1 && early <= |content|
    ensures Understood(line + content, Connection(request, line, early, found))
  {
    Guarantees.RequestLineEnds(line, content);
    assert (line + content)[..|line|] == line;
  }

  /** A server whose only request, for the file `a`, waits untouched for its only worker. */
  ghost predicate OneWaiting(s: State, op: Op, f: string, total: nat, line: string, content: string, early: nat)
    requires early <= |content|
  {
    && s.workers == [Idle] && s.queue == [Admitted(1, op, "a", content[..early], total, 0, 0, false, 0, 0, 0, 0)]
    && s.socks == map[1 := Sock(true, 0, 0, "", [], line + content, |line| + early)]
    && Stored(s.disk, "a") == f && s.completed == [] && s.failed == [] && s.late == [] && s.clock == 0
  }

  lemma AdmitOne(options: ServerOptions, s: State, request: RequestParser.Request, line: string, content: string,
                 early: nat)
    returns (step: Step, s': State)
    requires RequestParser.Meaning(RequestParser.Tokens(line)) == RequestParser.Parsed(request)
    requires request.fileName == "a"
    requires !request.kind.Health? && line != "" && Framing.FindNewline(line) == |line| - 1 && early <= |content|
    requires s.queue == [] && !s.parserDone && forall w :: 0 <= w < |s.workers| ==> !s.workers[w].Serving?
    requires request.kind.Get? ==> "a" in s.disk
    requires request.kind.Get? && options.scheduler.RoundRobin? ==> LinesAtMost(s.disk["a"], 0x7fff_ffff)
    ensures step.Admit? && Next(options, s, step, s')
    ensures var a := Connection(request, line, early, Stored(s.disk, "a"));
            && step == Admit(line + content, a, s.clock)
            && Understood(line + content, a)
            && s' == AfterAdmission(s, step, NewRequest(s.nextId, a, line + content, s.clock))
  {
    LineIsUnderstood(request, line, content, early, Stored(s.disk, "a"));
    var a := Connection(request, line, early, Stored(s.disk, "a"));
    step := Admit(line + content, a, s.clock);
    s' := AfterAdmission(s, step, NewRequest(s.nextId, a, line + content, s.clock));
  }

  function OpOf(request: RequestParser.Request): Op {
    if request.kind.Get? then Get else Put
  }

  lemma AdmittedWaits(disk: map<string, string>, request: RequestParser.Request, line: string, content: string,
                      early: nat)
    requires early <= |content| && request.fileName == "a"
    ensures var (s, f) := (Fresh(disk), Stored(disk, "a"));
            var a := Connection(request, line, early, f);
            OneWaiting(AfterAdmission(s, Admit(line + content, a, 0), NewRequest(1, a, line + content, 0)),
                       OpOf(request), f, if request.kind.Get? then |f| else request.bytes, line, content, early)
  {
    assert !Fresh(disk).workers[0].Exited?;
    assert (line + content)[|line|..|line| + early] == content[..early];
  }

  // The run that admits it.
  lemma OneRequest(options: ServerOptions, disk: map<string, string>, request: RequestParser.Request, line: string,
                   content: string, early: nat) returns (run: Run)
    requires RequestParser.Meaning(RequestParser.Tokens(line)) == RequestParser.Parsed(request)
    requires request.fileName == "a"
    requires !request.kind.Health? && line != "" && Framing.FindNewline(line) == |line| - 1 && early <= |content|
    requires request.kind.Get? ==> "a" in disk
    requires request.kind.Get? && options.scheduler.RoundRobin? ==> LinesAtMost(disk["a"], 0x7fff_ffff)
    ensures run.FromInit(options)
    ensures OneWaiting(run.states[|run.steps|], OpOf(request), Stored(disk, "a"),
                       if request.kind.Get? then |Stored(disk, "a")| else request.bytes, line, content, early)
  {
    var s := Fresh(disk);
    var step, s' := AdmitOne(options, s, request, line, content, early);
    AdmittedWaits(disk, request, line, content, early);
    hide OneWaiting, Next, AfterAdmission;
    run := Extended(options, Run([s], []), step, s');
  }

  // An idle worker serves the only request for one round.
  lemma ServeOnce(options: ServerOptions, run: Run, r': Admitted, sk': Sock, stored': string, ok: bool, written: bool)
    returns (run': Run)
    requires run.FromInit(options)
    requires var s := run.states[|run.steps|]; s.workers == [Idle] && |s.queue| == 1 && s.queue[0].id in s.socks
    requires var (s, r) := (run.states[|run.steps|],
                            Picked(run.states[|run.steps|].queue[0], run.states[|run.steps|].clock));
             && CanServe(options, r, Stored(s.disk, r.fileName))
             && RoundPost(options, r, s.socks[r.id], Stored(s.disk, r.fileName), r', sk', stored', ok, written)
             && (r.op.Get? ==> stored' == Stored(s.disk, r.fileName))
    ensures run'.FromInit(options)
    ensures var (s, t) := (run.states[|run.steps|], run'.states[|run'.steps|]);
            var r := Picked(s.queue[0], s.clock);
            && t.workers == [Idle] && t.socks == s.socks[r.id := sk'] && t.clock == s.clock && t.late == s.late
            && t.queue == (if ok && r'.transferred < r'.total then [r'] else [])
            && t.completed == (if ok && r'.transferred >= r'.total
                               then s.completed + [Departed(r', s.clock, stored', written)] else s.completed)
            && t.failed == (if ok then s.failed else s.failed + [Departed(r, s.clock, stored', written)])
            && Stored(t.disk, r.fileName) == stored'
  {
    var s := run.states[|run.steps|];
    var r := Picked(s.queue[0], s.clock);
    var t := s.(queue := [], workers := [Serving(r)]);
    PicksOnly(options, s, t);
    var t' := FinishOnly(options, t, r', sk', stored', ok, written);
    hide Next, RoundPost, CanServe;
    run' := Extended(options, run, Pick(0, s.clock), t);
    run' := Extended(options, run', Finish(0, r', sk', stored', true, ok, written, s.clock), t');
  }

  lemma FinishOnly(options: ServerOptions, t: State, r': Admitted, sk': Sock, stored': string, ok: bool, written: bool)
    returns (t': State)
    requires |t.workers| == 1 && t.workers[0].Serving? && t.workers[0].r.id in t.socks
    requires var r := t.workers[0].r;
             && CanServe(options, r, Stored(t.disk, r.fileName))
             && RoundPost(options, r, t.socks[r.id], Stored(t.disk, r.fileName), r', sk', stored', ok, written)
             && (r.op.Get? ==> stored' == Stored(t.disk, r.fileName))
    ensures Next(options, t, Finish(0, r', sk', stored', true, ok, written, t.clock), t')
    ensures var r := t.workers[0].r;
            && t'.workers == [Idle] && t'.socks == t.socks[r.id := sk'] && t'.clock == t.clock && t'.late == t.late
            && t'.queue == (if ok && r'.transferred < r'.total then t.queue + [r'] else t.queue)
            && t'.completed == (if ok && r'.transferred >= r'.total
                                then t.completed + [Departed(r', t.clock, stored', written)] else t.completed)
            && t'.failed == (if ok then t.failed else t.failed + [Departed(r, t.clock, stored', written)])
            && Stored(t'.disk, r.fileName) == stored'
  {
    var finish := Finish(0, r', sk', stored', true, ok, written, t.clock);
    assert Serves(t, finish) && Served(options, t, finish);
    t' := AfterRound(t, finish);
  }

  lemma PicksOnly(options: ServerOptions, s: State, t: State)
    requires s.workers == [Idle] && |s.queue| == 1
    requires t == s.(queue := [], workers := [Serving(Picked(s.queue[0], s.clock))])
    ensures Next(options, s, Pick(0, s.clock), t)
  {
    assert Selected(options.scheduler, s.queue) == 0 && Without(s.queue, 0) == [];
  }

  /** A clean run, under any options: an upload of no bytes is served, completed and acknowledged, and
      the server shuts down with an empty queue. */
  lemma DrainingRun(options: ServerOptions) returns (run: Run)
    ensures run.FromInit(options) && AdmitsWhileServed(run, |run.steps|)
    ensures var last := run.states[|run.steps|];
            Final(last) && last.queue == [] && last.failed == [] && |last.completed| == 1
  {
    var line := UploadLine(0);
    run := OneRequest(options, map[], RequestParser.Request(RequestParser.Put, "a", 0), line, "", 0);
    var s := run.states[|run.steps|];
    var r := Picked(s.queue[0], s.clock);
    var r', sk', stored' := Progress.GoodUpload(options, r, s.socks[1], "");
    EmptyUploadEnds(options, r, s.socks[1], r', sk', stored');
    hide RoundPost, CanServe, Next;
    run := ServeOnce(options, run, r', sk', stored', true, true);
    run := WindDown(options, run);
    LateMeansUnserved(options, run, |run.steps|);
    var last := run.states[|run.steps|];
    assert last.late == [] && Final(last);
  }

  lemma EmptyUploadEnds(options: ServerOptions, r: Admitted, sk: Sock, r': Admitted, sk': Sock, stored': string)
    requires r.op.Put? && r.total == r.transferred == 0 && r.extra == "" && CanServe(options, r, "")
    requires RoundPost(options, r, sk, "", r', sk', stored', true, true)
    ensures r'.transferred >= r'.total
  {
  }

  // An idle server that is told to stop.
  lemma WindDown(options: ServerOptions, run: Run) returns (run': Run)
    requires run.FromInit(options)
    requires var s := run.states[|run.steps|]; s.workers == [Idle] && s.queue == []
    ensures run'.FromInit(options)
    ensures var (s, last) := (run.states[|run.steps|], run'.states[|run'.steps|]);
            last == s.(shutdown := true, workers := [Exited], parserDone := true)
  {
    var s := run.states[|run.steps|];
    run' := Extended(options, run, Signal, s.(shutdown := true));
    run' := Extended(options, run', WorkerExit(0), s.(shutdown := true, workers := [Exited]));
    run' := Extended(options, run', ParserExit, s.(shutdown := true, workers := [Exited], parserDone := true));
  }

  /** The code does not enforce the hypothesis of `Shutdown.ShutdownDrains`: a worker may exit while
      the parser still holds a connection, and the request it then admits stays in the queue. */
  lemma StrandingRun(options: ServerOptions) returns (run: Run)
    ensures run.FromInit(options)
    ensures var last := run.states[|run.steps|];
            Final(last) && |last.queue| == 1 && last.completed == last.failed == []
  {
    var s1 := Fresh(map[]).(shutdown := true);
    var s2 := s1.(workers := [Exited]);
    var line := UploadLine(0);
    var step, s3 := AdmitOne(options, s2, RequestParser.Request(RequestParser.Put, "a", 0), line, "", 0);
    run := Extended(options, Run([Fresh(map[])], []), Signal, s1);
    run := Extended(options, run, WorkerExit(0), s2);
    run := Extended(options, run, step, s3);
    run := Extended(options, run, ParserExit, s3.(parserDone := true));
  }

  // A round in one go whose only write fails.
  lemma UnwrittenRound(options: ServerOptions, r: Admitted, sk: Sock, stored: string) returns (r': Admitted, sk': Sock)
    requires options.scheduler.RunsToCompletion() && r.op.Put? && r.total == 1 && r.transferred == 0 && r.extra == ""
    requires sk.read + 1 <= |sk.stream|
    ensures CanServe(options, r, stored) && RoundPost(options, r, sk, stored, r', sk', "", true, false)
    ensures r' == r.(transferred := 1) && sk'.sent == sk.sent + (OkLine(0) + OkLine(0))
  {
    r' := r.(transferred := 1);
    sk' := sk.(sent := sk.sent + OneGoPart().text, read := sk.read + 1, open := false, closes := sk.closes + 1);
    assert |OneGoBody(r, sk)| == 1;
  }

  /** Served in one go, an upload whose write failed is completed and acknowledged all the same. */
  lemma UnwrittenRun(options: ServerOptions) returns (run: Run)
    requires options.scheduler.RunsToCompletion()
    ensures run.FromInit(options)
    ensures var last := run.states[|run.steps|];
            && |last.completed| == 1 && 1 in last.socks && Acknowledged(last.socks[1].sent)
            && last.completed[0].r.total == 1 && last.completed[0].body == "" && !last.completed[0].written
  {
    var line := UploadLine(1);
    run := OneRequest(options, map[], RequestParser.Request(RequestParser.Put, "a", 1), line, "x", 0);
    var s := run.states[|run.steps|];
    var r', sk' := UnwrittenRound(options, Picked(s.queue[0], s.clock), s.socks[1], "");
    run := ServeOnce(options, run, r', sk', "", true, false);
    BothLinesAreNeeded();
    assert "" + (OkLine(0) + OkLine(0)) == OkLine(0) + OkLine(0);
  }

  // A round in one go whose first read fails, and the round on the closed socket after it.
  lemma ShortRounds(options: ServerOptions, r: Admitted, sk: Sock, f: string)
    returns (r1: Admitted, sk1: Sock, sk2: Sock)
    requires options.scheduler.RunsToCompletion() && r.op.Get? && r.total == |f| > 0 && r.transferred == 0
    requires Lifecycle.Untouched(sk) && sk.sent == "" && sk.read <= |sk.stream|
    ensures r1 == r && CanServe(options, r, f) && RoundPost(options, r, sk, f, r1, sk1, f, true, true)
    ensures var r2 := Picked(r1, 0); CanServe(options, r2, f) && RoundPost(options, r2, sk1, f, r2, sk2, f, false, true)
    ensures !sk2.open && sk2.closes == 2 && sk2.misuses == 2
  {
    r1 := r;
    assert f[..0] == "" && Boundary(f, 0);
    sk1 := Progress.After(sk, OkLine(|f|) + f[..0], Packets(LinesBetween(f, 0, 0), options.PacketLimit()), true);
    assert r1 == r.(transferred := 0);
    sk2 := sk1.(closes := 2, misuses := 2);
    CutOffPlain(sk1.sent, sk1.sent, Part(OkLine(|f|) + f, false));
    assert f != "";
  }

  /** Served in one go, a download whose file cannot be read has its socket closed, comes up again,
      and has it used and closed once more. */
  lemma ShortReadRun(options: ServerOptions, f: string) returns (run: Run)
    requires options.scheduler.RunsToCompletion() && f != ""
    ensures run.FromInit(options)
    ensures var last := run.states[|run.steps|];
            && |last.failed| == 1 && last.completed == [] && 1 in last.socks
            && last.socks[1].closes == 2 && last.socks[1].misuses == 2
  {
    var line := DownloadLine();
    run := OneRequest(options, map["a" := f], RequestParser.Request(RequestParser.Get, "a", 0), line, "", 0);
    var s := run.states[|run.steps|];
    var r1, sk1, sk2 := ShortRounds(options, Picked(s.queue[0], s.clock), s.socks[1], f);
    run := ServeOnce(options, run, r1, sk1, f, true, true);
    run := ServeOnce(options, run, Picked(r1, 0), sk2, f, false, true);
  }

  // One round of two bytes out of `extra`.
  lemma ExtraRound(options: ServerOptions, r: Admitted, sk: Sock, stored: string) returns (r': Admitted, sk': Sock)
    requires !options.scheduler.RunsToCompletion() && options.quantum == 2 && r.op.Put? && r.total == 3
    requires r.deficit == 0
    requires |r.extra| >= 2 && (r.transferred == 2 || (r.transferred == 0 && |r.extra| > 2)) && sk.open
    requires sk.read <= |sk.stream|
    ensures CanServe(options, r, stored)
    ensures RoundPost(options, r, sk, stored, r', sk', Reopened(r, stored) + r.extra[..2], true, true)
    ensures r' == r.(responseStarted := true, extra := r.extra[2..], transferred := r.transferred + 2)
    ensures sk' == sk.(sent := sk.sent + Opening(r))
  {
    r' := r.(responseStarted := true, extra := r.extra[2..], transferred := r.transferred + 2);
    sk' := sk.(sent := sk.sent + Opening(r));
    assert ExtraShare(r, 2) == 2 && SocketShare(r, 2) == 0;
    assert Opening(r) + "" == Opening(r) && sk.stream[sk.read..sk.read] == "";
    var result := PutResult(2, r, sk, stored);
    assert result.0 == r' && result.1 == sk'.(misuses := 0) && result.2 == Reopened(r, stored) + r.extra[..2] + "";
    assert Reopened(r, stored) + r.extra[..2] + "" == Reopened(r, stored) + r.extra[..2];
  }

  lemma OvershootRounds(options: ServerOptions, r: Admitted, sk: Sock, content: string)
    returns (r1: Admitted, sk1: Sock, r2: Admitted, sk2: Sock)
    requires !options.scheduler.RunsToCompletion() && options.quantum == 2 && |content| == 5
    requires r.op.Put? && r.total == 3 && r.transferred == r.deficit == 0 && r.extra == content && !r.responseStarted
    requires Lifecycle.Untouched(sk) && sk.sent == "" && sk.read <= |sk.stream|
    ensures CanServe(options, r, "") && RoundPost(options, r, sk, "", r1, sk1, content[..2], true, true)
    ensures Lifecycle.SameRequest(r, r1) && r1.transferred == 2
    ensures var p := Picked(r1, 0);
            && CanServe(options, p, content[..2])
            && RoundPost(options, p, sk1, content[..2], r2, sk2, content[..4], true, true)
    ensures Lifecycle.SameRequest(Picked(r1, 0), r2) && r2.transferred == 4 && sk2.open && sk2.sent == OkLine(0)
  {
    hide RoundPost, CanServe, OkLine;
    r1, sk1 := ExtraRound(options, r, sk, "");
    assert "" + content[..2] == content[..2];
    r2, sk2 := ExtraRound(options, Picked(r1, 0), sk1, content[..2]);
    assert content[..2] + content[2..][..2] == content[..4];
    assert "" + OkLine(0) == OkLine(0) && OkLine(0) + "" == OkLine(0);
  }

  /** Under round robin or deficit round robin with a quantum of two, an upload that declares three
      bytes and sends five with its header stores four of them, is recorded as completed, and is left
      with an open socket and without its closing line. */
  lemma OvershootRun(options: ServerOptions, content: string) returns (run: Run)
    requires !options.scheduler.RunsToCompletion() && options.quantum == 2 && |content| == 5
    ensures run.FromInit(options)
    ensures var last := run.states[|run.steps|];
            && |last.completed| == 1 && 1 in last.socks && last.socks[1].open && !Acknowledged(last.socks[1].sent)
            && last.completed[0].r.total == 3 && last.completed[0].r.transferred == 4
            && last.completed[0].body == content[..4]
  {
    var line := UploadLine(3);
    run := OneRequest(options, map[], RequestParser.Request(RequestParser.Put, "a", 3), line, content, 5);
    var s := run.states[|run.steps|];
    assert content[..5] == content;
    var r1, sk1, r2, sk2 := OvershootRounds(options, Picked(s.queue[0], 0), s.socks[1], content);
    BothLinesAreNeeded();
    hide RoundPost, CanServe, OkLine, Acknowledged;
    run := ServeOnce(options, run, r1, sk1, content[..2], true, true);
    run := ServeOnce(options, run, r2, sk2, content[..4], true, true);
  }

  lemma SmallLines(f: string)
    requires |f| <= 0x7fff_ffff
    ensures LinesAtMost(f, 0x7fff_ffff)
  {
  }

  // The first line of the file, of two bytes, is one round.
  lemma FirstLineRound(options: ServerOptions, r: Admitted, sk: Sock, f: string) returns (r': Admitted, sk': Sock)
    requires options.scheduler.RoundRobin? && options.quantum == 2 && r.op.Get? && r.total == |f| == 4
    requires r.transferred == 0
    requires f[0] != '\n' && f[1] == '\n' && !r.responseStarted && LinesAtMost(f, 0x7fff_ffff)
    requires Lifecycle.Untouched(sk) && sk.sent == "" && sk.read <= |sk.stream|
    ensures CanServe(options, r, f) && RoundPost(options, r, sk, f, r', sk', f, true, true)
    ensures Lifecycle.SameRequest(r, r') && r'.transferred == 2
    ensures Lifecycle.Untouched(sk') && sk'.sent == OkLine(4) + f[..2] && sk'.read <= |sk'.stream|
  {
    assert Boundary(f, 2);
    RrStops(f, 0, 2, 2);
    r', sk' := Progress.GoodDownload(options, r, sk, f);
    assert "" + (OkLine(4) + f[0..2]) == OkLine(4) + f[..2];
  }

  // Then the file cannot be read.
  lemma ReadErrorRound(options: ServerOptions, r: Admitted, sk: Sock, f: string) returns (sk': Sock)
    requires options.scheduler.RoundRobin? && r.op.Get? && r.total == |f| == 4 && r.transferred == 2 && f[1] == '\n'
    requires LinesAtMost(f, 0x7fff_ffff) && Lifecycle.Untouched(sk) && sk.read <= |sk.stream|
    ensures CanServe(options, r, f) && RoundPost(options, r, sk, f, r, sk', f, false, true)
    ensures sk'.sent == sk.sent + ErrLine("Failed to read file")
  {
    assert Boundary(f, 2);
    sk' := sk.(sent := sk.sent + ErrLine("Failed to read file"), open := false, closes := sk.closes + 1);
    var part := GetPart(f, r, RrNext(f, 2, options.quantum));
    hide RrNext, ErrLine;
    CutOffWithError(sk.sent, sk.sent, sk'.sent, part, "Failed to read file");
  }

  /** The error line of a round that cannot read its file is taken by the client for the rest of it. */
  lemma MisreadRun(options: ServerOptions, f: string) returns (run: Run)
    requires options.scheduler.RoundRobin? && options.quantum == 2
    requires |f| == 4 && f[0] != '\n' && f[1] == '\n'
    ensures run.FromInit(options)
    ensures var last := run.states[|run.steps|];
            && |last.failed| == 1 && 1 in last.socks
            && ReadReply(last.socks[1].sent) == Client.Some(f[..2] + "ER")
  {
    hide RoundPost, CanServe, ErrLine, OkLine, ReadReply, LinesAtMost;
    SmallLines(f);
    var line := DownloadLine();
    run := OneRequest(options, map["a" := f], RequestParser.Request(RequestParser.Get, "a", 0), line, "", 0);
    var s := run.states[|run.steps|];
    var r1, sk1 := FirstLineRound(options, Picked(s.queue[0], s.clock), s.socks[1], f);
    var sk2 := ReadErrorRound(options, Picked(r1, 0), sk1, f);
    MisreadReply(f, sk2.sent);
    run := ServeOnce(options, run, r1, sk1, f, true, true);
    run := ServeOnce(options, run, Picked(r1, 0), sk2, f, false, true);
  }

  lemma MisreadReply(f: string, sent: string)
    requires |f| == 4 && sent == (OkLine(4) + f[..2]) + ErrLine("Failed to read file")
    ensures ReadReply(sent) == Client.Some(f[..2] + "ER")
  {
    var err := ErrLine("Failed to read file");
    assert sent == OkLine(4) + (f[..2] + err);
    MisreadExample(f, err);
  }
}
