/** The server as a step machine (src/server.cpp): the parser thread, any number of workers, the
    shared queue and the shutdown flag. The steps under the queue mutex are atomic; a round is
    one step because nothing else touches its socket, its file or its copy of the request. */
module Server {
  import opened Wire
  import opened Framing
  import opened Requests
  import opened Scheduler
  import opened Service
  import opened Lines
  import RequestParser

  datatype Worker = Idle | Serving(r: Admitted) | Exited

  // A request that has left the server, with its file as it was then; `written` says that no write
  // of its last round failed.
  datatype Departed = Departed(r: Admitted, finish: nat, body: string, written: bool)

  /** What the parser saw of a request: the body starts after `bodyStart` bytes of the stream,
      `headerRead` bytes were received, and its file held `found`. */
  datatype Admission = Admission(request: RequestParser.Request, bodyStart: nat, headerRead: nat, found: string)

  /** Sockets are named by the request they belong to. `admitted` keeps what the parser saw, and
      `late` lists the requests admitted when every worker had exited. */
  datatype State = State(
    queue: seq<Admitted>,
    workers: seq<Worker>,
    completed: seq<Departed>,
    failed: seq<Departed>,
    socks: map<nat, Sock>,
    admitted: map<nat, Admission>,
    disk: map<string, string>,
    nextId: nat,
    clock: nat,
    shutdown: bool,
    parserDone: bool,
    late: seq<nat>)

  datatype Step =
    | Admit(stream: string, a: Admission, now: nat)
    | Pick(w: nat, now: nat)
    | Finish(w: nat, r': Admitted, s': Sock, stored': string, created: bool, ok: bool, written: bool, now: nat)
    | Signal
    | ParserExit
    | WorkerExit(w: nat)

  ghost predicate Init(s: State) {
    && s.queue == [] && s.completed == [] && s.failed == [] && s.late == []
    && s.socks == map[] && s.admitted == map[] && s.nextId == 1
    && !s.shutdown && !s.parserDone
    && forall w :: 0 <= w < |s.workers| ==> s.workers[w] == Idle
  }

  // Where the body starts in what a client sends.
  function BodyStart(stream: string): nat {
    FindNewline(stream) + 1
  }

  predicate AllExited(s: State) {
    forall w :: 0 <= w < |s.workers| ==> s.workers[w].Exited?
  }

  ghost predicate IsLive(s: State, r: Admitted) {
    r in s.queue || Serving(r) in s.workers
  }

  // The standing assumption on files: nobody writes a file that a live request uses.
  ghost predicate NameFree(s: State, op: Op, fileName: string) {
    forall r :: IsLive(s, r) && r.fileName == fileName ==> op.Get? && r.op.Get?
  }

  function Stored(disk: map<string, string>, fileName: string): string {
    if fileName in disk then disk[fileName] else ""
  }

  // The request's own line, as the parser understood it.
  ghost predicate Understood(stream: string, a: Admission) {
    && a.bodyStart == BodyStart(stream) && a.bodyStart <= a.headerRead <= |stream|
    && RequestParser.Meaning(RequestParser.Tokens(stream[..a.bodyStart])) == RequestParser.Parsed(a.request)
    && !a.request.kind.Health?
  }

  // The request the parser builds from it.
  function NewRequest(id: nat, a: Admission, stream: string, now: nat): Admitted
    requires a.bodyStart <= a.headerRead <= |stream|
  {
    var op := if a.request.kind.Get? then Get else Put;
    Admitted(id, op, a.request.fileName, stream[a.bodyStart..a.headerRead],
             if op.Get? then |a.found| else a.request.bytes, 0, 0, false, now, 0, 0, 0)
  }

  // The file exists, nobody is writing it, and under round robin its lines fit an `int`.
  ghost predicate MayAdmit(options: ServerOptions, s: State, r: Admitted) {
    && NameFree(s, r.op, r.fileName)
    && (r.op.Get? ==> r.fileName in s.disk)
    && (r.op.Get? && options.scheduler.RoundRobin? ==> LinesAtMost(s.disk[r.fileName], 0x7fff_ffff))
  }

  // A new request joins the tail of the queue.
  function AfterAdmission(s: State, step: Step, r: Admitted): State
    requires step.Admit?
  {
    s.(queue := s.queue + [r], nextId := s.nextId + 1, clock := step.now,
       socks := s.socks[r.id := Sock(true, 0, 0, "", [], step.stream, step.a.headerRead)],
       admitted := s.admitted[r.id := step.a],
       late := if AllExited(s) then s.late + [r.id] else s.late)
  }

  ghost predicate Admits(options: ServerOptions, s: State, step: Step, s': State)
    requires step.Admit?
  {
    && !s.parserDone && s.clock <= step.now
    && Understood(step.stream, step.a) && step.a.found == Stored(s.disk, step.a.request.fileName)
    && var r := NewRequest(s.nextId, step.a, step.stream, step.now);
    MayAdmit(options, s, r) && s' == AfterAdmission(s, step, r)
  }

  // A picked request: the first pick stamps its start, every pick counts a round.
  function Picked(r: Admitted, now: nat): Admitted {
    r.(start := if r.rounds == 0 then now else r.start, rounds := r.rounds + 1)
  }

  ghost predicate Picks(options: ServerOptions, s: State, step: Step, s': State)
    requires step.Pick?
  {
    && step.w < |s.workers| && s.workers[step.w] == Idle && s.queue != [] && s.clock <= step.now
    && var i := Selected(options.scheduler, s.queue);
    s' == s.(queue := Without(s.queue, i), clock := step.now,
             workers := s.workers[step.w := Serving(Picked(s.queue[i], step.now))])
  }

  predicate Serves(s: State, step: Step) {
    step.Finish? && step.w < |s.workers| && s.workers[step.w].Serving? && s.workers[step.w].r.id in s.socks
  }

  // The round itself; a file that was never opened is as it was.
  ghost predicate Served(options: ServerOptions, s: State, step: Step)
    requires Serves(s, step)
  {
    var r := s.workers[step.w].r;
    var stored := Stored(s.disk, r.fileName);
    && CanServe(options, r, stored)
    && RoundPost(options, r, s.socks[r.id], stored, step.r', step.s', step.stored', step.ok, step.written)
    && (step.ok ==> step.created) && (!step.created ==> step.stored' == stored)
  }

  // After a round the request is dropped, requeued at the tail, or recorded as completed.
  function AfterRound(s: State, step: Step): State
    requires Serves(s, step)
  {
    var r := s.workers[step.w].r;
    var t := s.(workers := s.workers[step.w := Idle], clock := step.now, socks := s.socks[r.id := step.s'],
                disk := if r.op.Put? && step.created then s.disk[r.fileName := step.stored'] else s.disk);
    if !step.ok then t.(failed := s.failed + [Departed(r, step.now, step.stored', step.written)])
    else if step.r'.transferred < step.r'.total then t.(queue := s.queue + [step.r'])
    else t.(completed := s.completed + [Departed(step.r', step.now, step.stored', step.written)])
  }

  ghost predicate Finishes(options: ServerOptions, s: State, step: Step, s': State)
    requires step.Finish?
  {
    Serves(s, step) && s.clock <= step.now && Served(options, s, step) && s' == AfterRound(s, step)
  }

  ghost predicate Next(options: ServerOptions, s: State, step: Step, s': State) {
    match step
    case Admit(_, _, _) => Admits(options, s, step, s')
    case Pick(_, _) => Picks(options, s, step, s')
    case Finish(_, _, _, _, _, _, _, _) => Finishes(options, s, step, s')
    case Signal => s' == s.(shutdown := true)
    case ParserExit => s.shutdown && s' == s.(parserDone := true)
    case WorkerExit(w) =>
      && w < |s.workers| && s.workers[w] == Idle && s.queue == [] && s.shutdown
      && s' == s.(workers := s.workers[w := Exited])
  }

  /** A step that moves a request on and is no I/O error: a pick, or a round that succeeds and, in
      one go, reads its file to the end. */
  predicate Good(options: ServerOptions, step: Step) {
    || step.Pick?
    || (step.Finish? && step.ok && (options.scheduler.RunsToCompletion() ==> step.r'.transferred >= step.r'.total))
  }

  /** A run: `states[i]` goes to `states[i + 1]` by `steps[i]`. */
  datatype Run = Run(states: seq<State>, steps: seq<Step>) {
    ghost predicate Valid(options: ServerOptions) {
      && |states| == |steps| + 1
      && forall i :: 0 <= i < |steps| ==> StepAt(options, i)
    }

    ghost predicate StepAt(options: ServerOptions, i: nat)
      requires |states| == |steps| + 1 && i < |steps|
    {
      Next(options, states[i], steps[i], states[i + 1])
    }

    ghost predicate FromInit(options: ServerOptions) {
      Valid(options) && Init(states[0])
    }
  }
}
