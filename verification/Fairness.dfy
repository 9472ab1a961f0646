/** Fairness of the policies that requeue at the tail and pick the front, with one worker. */
module Fairness {
  import opened Arithmetic
  import opened Wire
  import opened Lines
  import opened Requests
  import opened Scheduler
  import opened Server
  import opened Lifecycle
  import opened Census
  import opened ServerInvariant
  import Tracking
  import opened Drain
  import opened DrrTheory
  import opened PutTheory

  // The position of the request in the queue, or the length of the queue.
  function Position(queue: seq<Admitted>, id: nat): (n: nat)
    ensures n <= |queue|
    ensures n < |queue| ==> queue[n].id == id
    ensures forall i :: 0 <= i < n ==> queue[i].id != id
  {
    if queue == [] || queue[0].id == id then 0 else 1 + Position(queue[1..], id)
  }

  lemma PositionIs(queue: seq<Admitted>, id: nat, n: nat)
    requires n < |queue| && queue[n].id == id && forall i :: 0 <= i < n ==> queue[i].id != id
    ensures Position(queue, id) == n
  {
  }

  lemma PositionAfterPick(queue: seq<Admitted>, id: nat)
    requires queue != [] && queue[0].id != id && Position(queue, id) < |queue|
    ensures Position(queue[1..], id) == Position(queue, id) - 1
  {
    PositionIs(queue[1..], id, Position(queue, id) - 1);
  }

  lemma PositionAfterAppend(queue: seq<Admitted>, r: Admitted, id: nat)
    ensures Position(queue, id) < |queue| ==> Position(queue + [r], id) == Position(queue, id)
    ensures Position(queue, id) == |queue| && r.id == id ==> Position(queue + [r], id) == |queue|
  {
    var n := Position(queue, id);
    if n < |queue| {
      PositionIs(queue + [r], id, n);
    } else if r.id == id {
      assert forall i :: 0 <= i < n ==> (queue + [r])[i] == queue[i];
      PositionIs(queue + [r], id, n);
    }
  }

  predicate InFlight(s: State, id: nat)
    requires |s.workers| == 1
  {
    s.workers[0].Serving? && s.workers[0].r.id == id
  }

  predicate Unfinished(s: State, id: nat)
    requires |s.workers| == 1
  {
    InFlight(s, id) || Position(s.queue, id) < |s.queue|
  }

  // The unfinished request as it is now.
  function RequestOf(s: State, id: nat): (r: Admitted)
    requires |s.workers| == 1 && Unfinished(s, id)
    ensures r.id == id
  {
    if InFlight(s, id) then s.workers[0].r else s.queue[Position(s.queue, id)]
  }

  // 1 when `a` is in flight, or `b` waits ahead of it: `a` has had the turn that `b` is owed.
  function Lead(s: State, a: nat, b: nat): nat
    requires |s.workers| == 1
  {
    if InFlight(s, a) then 1
    else if InFlight(s, b) then 0
    else if Position(s.queue, b) < Position(s.queue, a) then 1 else 0
  }

  ghost predicate OneEach(s: State) {
    && |s.workers| == 1
    && (forall i, j :: 0 <= i < j < |s.queue| ==> s.queue[i].id != s.queue[j].id)
    && (forall i :: 0 <= i < |s.queue| ==> !InFlight(s, s.queue[i].id))
  }

  lemma QueueIdsDiffer(options: ServerOptions, s: State, i: nat, j: nat)
    requires Inv(options, s) && i < j < |s.queue|
    ensures s.queue[i].id != s.queue[j].id
  {
    PlacesAreReal(s, Waiting(s.queue[i]));
    PlacesAreReal(s, Waiting(s.queue[j]));
    if s.queue[i].id == s.queue[j].id {
      assert Waiting(s.queue[i]) == Waiting(s.queue[j]);
      BagTwice(s.queue, i, j);
      assert false;
    }
  }

  lemma InvOneEach(options: ServerOptions, s: State)
    requires Inv(options, s) && |s.workers| == 1
    ensures OneEach(s)
  {
    forall i, j | 0 <= i < j < |s.queue| ensures s.queue[i].id != s.queue[j].id {
      QueueIdsDiffer(options, s, i, j);
    }
    forall i | 0 <= i < |s.queue| ensures !InFlight(s, s.queue[i].id) {
      PlacesAreReal(s, Waiting(s.queue[i]));
      if s.workers[0].Serving? {
        PlacesAreReal(s, InRound(s.workers[0].r));
      }
    }
  }

  /** A step as the queue and the one worker see it, when the front is picked. */
  ghost predicate Turn(s: State, step: Step, s': State)
    requires |s.workers| == 1 == |s'.workers|
  {
    match step
    case Pick(_, now) =>
      && !s.workers[0].Serving? && s.queue != []
      && s'.queue == s.queue[1..] && s'.workers[0] == Serving(Picked(s.queue[0], now))
    case Finish(_, r', _, _, _, _, _, _) =>
      && s.workers[0].Serving? && !s'.workers[0].Serving?
      && (s'.queue == s.queue
          || (s'.queue == s.queue + [r'] && r'.id == s.workers[0].r.id && r'.rounds == s.workers[0].r.rounds))
    case Admit(_, _, _) =>
      && s'.workers == s.workers
      && |s'.queue| == |s.queue| + 1 && s'.queue[..|s.queue|] == s.queue
    case _ =>
      && s'.queue == s.queue
      && (s.workers[0] == s'.workers[0] || !(s.workers[0].Serving? || s'.workers[0].Serving?))
  }

  /** While both stay unfinished, picks and lead move together: `a` is picked once more than `b`
      exactly when the lead passes to it. */
  lemma TurnKeepsLead(s: State, step: Step, s': State, a: nat, b: nat)
    requires OneEach(s) && OneEach(s') && Turn(s, step, s') && a != b
    requires Unfinished(s, a) && Unfinished(s, b) && Unfinished(s', a) && Unfinished(s', b)
    ensures RequestOf(s', a).rounds - RequestOf(s', b).rounds - Lead(s', a, b)
            == RequestOf(s, a).rounds - RequestOf(s, b).rounds - Lead(s, a, b)
  {
    TurnPosition(s, step, s', a);
    TurnPosition(s, step, s', b);
  }

  // Where a step leaves one request that stays unfinished.
  lemma TurnPosition(s: State, step: Step, s': State, id: nat)
    requires OneEach(s) && OneEach(s') && Turn(s, step, s') && Unfinished(s, id) && Unfinished(s', id)
    ensures var (n, n') := (Position(s.queue, id), Position(s'.queue, id));
            match step
            case Pick(_, _) =>
              && !InFlight(s, id)
              && (if n == 0 then InFlight(s', id) else !InFlight(s', id) && n' == n - 1)
              && RequestOf(s', id).rounds == RequestOf(s, id).rounds + if n == 0 then 1 else 0
            case Finish(_, _, _, _, _, _, _, _) =>
              && !InFlight(s', id)
              && n' == (if InFlight(s, id) then |s.queue| else n)
              && RequestOf(s', id).rounds == RequestOf(s, id).rounds
            case _ =>
              && InFlight(s', id) == InFlight(s, id) && (!InFlight(s, id) ==> n' == n)
              && RequestOf(s', id).rounds == RequestOf(s, id).rounds
  {
    var n := Position(s.queue, id);
    match step
    case Pick(_, _) =>
      if 0 < n < |s.queue| {
        PositionAfterPick(s.queue, id);
      }
    case Finish(_, r', _, _, _, _, _, _) =>
      PositionAfterAppend(s.queue, r', id);
    case Admit(_, _, _) =>
      assert s'.queue == s.queue + [s'.queue[|s.queue|]];
      PositionAfterAppend(s.queue, s'.queue[|s.queue|], id);
    case _ =>
  }

  lemma NextIsTurn(options: ServerOptions, s: State, step: Step, s': State)
    requires Inv(options, s) && Next(options, s, step, s') && |s.workers| == 1 && !options.scheduler.Sjf?
    ensures |s'.workers| == 1 && Turn(s, step, s')
  {
    if step.Finish? {
      PlacesAreReal(s, InRound(s.workers[step.w].r));
      FinishIsTurn(options, s, step, s');
    }
  }

  lemma FinishIsTurn(options: ServerOptions, s: State, step: Step, s': State)
    requires step.Finish? && Finishes(options, s, step, s') && |s.workers| == 1
    requires PlaceOk(options, s, InRound(s.workers[step.w].r))
    ensures |s'.workers| == 1 && Turn(s, step, s')
  {
    FinishedRound(options, s, step, s');
    assert s' == AfterRound(s, step);
  }

  lemma NextKeepsWorkers(options: ServerOptions, s: State, step: Step, s': State)
    requires Next(options, s, step, s')
    ensures |s'.workers| == |s.workers|
  {
    if step.Finish? {
      assert s' == AfterRound(s, step);
    }
  }

  lemma {:induction false} OneWorkerThroughout(options: ServerOptions, run: Run, i: nat)
    requires run.FromInit(options) && i < |run.states| && |run.states[0].workers| == 1
    ensures |run.states[i].workers| == 1
  {
    if i > 0 {
      OneWorkerThroughout(options, run, i - 1);
      assert run.StepAt(options, i - 1);
      NextKeepsWorkers(options, run.states[i - 1], run.steps[i - 1], run.states[i]);
    }
  }

  lemma EachAt(options: ServerOptions, run: Run, i: nat)
    requires run.FromInit(options) && i < |run.states| && |run.states[0].workers| == 1
    ensures OneEach(run.states[i])
  {
    OneWorkerThroughout(options, run, i);
    RunKeeps(options, run, i);
    InvOneEach(options, run.states[i]);
  }

  lemma TurnAt(options: ServerOptions, run: Run, k: nat)
    requires run.FromInit(options) && k < |run.steps| && |run.states[0].workers| == 1 && !options.scheduler.Sjf?
    ensures |run.states[k].workers| == |run.states[k + 1].workers| == 1
    ensures Turn(run.states[k], run.steps[k], run.states[k + 1])
  {
    OneWorkerThroughout(options, run, k);
    RunKeeps(options, run, k);
    assert run.StepAt(options, k);
    NextIsTurn(options, run.states[k], run.steps[k], run.states[k + 1]);
  }

  // One worker, and the request is there at every state from `i` to `j`.
  ghost predicate UnfinishedFrom(run: Run, i: nat, j: nat, id: nat)
    requires j < |run.states|
  {
    forall k :: i <= k <= j ==> |run.states[k].workers| == 1 && Unfinished(run.states[k], id)
  }

  predicate PicksIt(run: Run, k: nat, id: nat)
    requires k < |run.states| && k < |run.steps|
  {
    run.steps[k].Pick? && run.states[k].queue != [] && run.states[k].queue[0].id == id
  }

  // How often steps `i` to `j - 1` picked the request.
  function TurnsTaken(run: Run, i: nat, j: nat, id: nat): nat
    requires i <= j < |run.states| && j <= |run.steps|
    decreases j
  {
    if i == j then 0 else TurnsTaken(run, i, j - 1, id) + if PicksIt(run, j - 1, id) then 1 else 0
  }

  // One step of a window.
  lemma PickStep(options: ServerOptions, run: Run, k: nat, id: nat)
    requires run.FromInit(options) && k < |run.steps| && |run.states[0].workers| == 1 && !options.scheduler.Sjf?
    requires UnfinishedFrom(run, k, k + 1, id)
    ensures RequestOf(run.states[k + 1], id).rounds
            == RequestOf(run.states[k], id).rounds + if PicksIt(run, k, id) then 1 else 0
  {
    EachAt(options, run, k);
    EachAt(options, run, k + 1);
    TurnAt(options, run, k);
    TurnPosition(run.states[k], run.steps[k], run.states[k + 1], id);
  }

  lemma LeadStep(options: ServerOptions, run: Run, k: nat, a: nat, b: nat)
    requires run.FromInit(options) && k < |run.steps| && |run.states[0].workers| == 1 && !options.scheduler.Sjf?
    requires a != b && UnfinishedFrom(run, k, k + 1, a) && UnfinishedFrom(run, k, k + 1, b)
    ensures (if PicksIt(run, k, a) then 1 else 0) - (if PicksIt(run, k, b) then 1 else 0)
            == Lead(run.states[k + 1], a, b) - Lead(run.states[k], a, b)
  {
    PickStep(options, run, k, a);
    PickStep(options, run, k, b);
    EachAt(options, run, k);
    EachAt(options, run, k + 1);
    TurnAt(options, run, k);
    TurnKeepsLead(run.states[k], run.steps[k], run.states[k + 1], a, b);
  }

  lemma {:induction false} TurnsAreRounds(options: ServerOptions, run: Run, i: nat, j: nat, id: nat)
    requires run.FromInit(options) && i <= j < |run.states| && |run.states[0].workers| == 1 && !options.scheduler.Sjf?
    requires UnfinishedFrom(run, i, j, id)
    ensures TurnsTaken(run, i, j, id) == RequestOf(run.states[j], id).rounds - RequestOf(run.states[i], id).rounds
  {
    if i < j {
      TurnsAreRounds(options, run, i, j - 1, id);
      PickStep(options, run, j - 1, id);
    }
  }

  lemma {:induction false} LeadOverWindow(options: ServerOptions, run: Run, i: nat, j: nat, a: nat, b: nat)
    requires run.FromInit(options) && i <= j < |run.states| && |run.states[0].workers| == 1 && !options.scheduler.Sjf?
    requires a != b && UnfinishedFrom(run, i, j, a) && UnfinishedFrom(run, i, j, b)
    ensures TurnsTaken(run, i, j, a) - TurnsTaken(run, i, j, b) == Lead(run.states[j], a, b) - Lead(run.states[i], a, b)
  {
    hide Lead, PicksIt;
    if i < j {
      LeadOverWindow(options, run, i, j - 1, a, b);
      LeadStep(options, run, j - 1, a, b);
    }
  }

  /** Over any window in which two requests both stay unfinished, whatever else arrives, one is
      picked at most once more often than the other. */
  lemma PicksAreFair(options: ServerOptions, run: Run, i: nat, j: nat, a: nat, b: nat)
    requires run.FromInit(options) && i <= j < |run.states| && |run.states[0].workers| == 1 && !options.scheduler.Sjf?
    requires a != b && UnfinishedFrom(run, i, j, a) && UnfinishedFrom(run, i, j, b)
    ensures -1 <= TurnsTaken(run, i, j, a) - TurnsTaken(run, i, j, b) <= 1
  {
    LeadOverWindow(options, run, i, j, a, b);
  }

  // The rounds that have ended.
  function RoundsEnded(s: State, id: nat): int
    requires |s.workers| == 1 && Unfinished(s, id)
  {
    RequestOf(s, id).rounds - if InFlight(s, id) then 1 else 0
  }

  // Lines of at most `line` bytes in the file of a download.
  ghost predicate LinesWithin(s: State, id: nat, line: nat) {
    id in s.admitted && (s.admitted[id].request.kind.Get? ==> LinesAtMost(s.admitted[id].found, line))
  }

  /** What an unfinished request has been served under deficit round robin: one quantum for each
      round, less a deficit that is shorter than a line, and none for an upload. */
  lemma BytesServed(options: ServerOptions, run: Run, j: nat, id: nat, line: nat)
    requires run.FromInit(options) && j < |run.states| && options.scheduler.Drr?
    requires |run.states[j].workers| == 1 && Unfinished(run.states[j], id)
    requires line >= 1 && LinesWithin(run.states[j], id, line)
    ensures var (r, k) := (RequestOf(run.states[j], id), RoundsEnded(run.states[j], id));
            k >= 0 && r.transferred + r.deficit == k * options.quantum && r.deficit <= line - 1
  {
    var s := run.states[j];
    PlaceBytesAt(options, run, j, UnfinishedPlace(s, id), line);
  }

  ghost function UnfinishedPlace(s: State, id: nat): (p: Place)
    requires |s.workers| == 1 && Unfinished(s, id)
    ensures p in Places(s) && p.IsLive() && p.r == RequestOf(s, id) && (p.InRound? <==> InFlight(s, id))
  {
    var p := if InFlight(s, id) then InRound(RequestOf(s, id)) else Waiting(RequestOf(s, id));
    PlacesAreReal(s, p);
    p
  }

  lemma PlaceBytesAt(options: ServerOptions, run: Run, j: nat, p: Place, line: nat)
    requires run.FromInit(options) && j < |run.states| && p in Places(run.states[j]) && p.IsLive()
    requires options.scheduler.Drr?
    requires line >= 1 && LinesWithin(run.states[j], p.Id(), line)
    ensures var k := p.r.rounds - if p.InRound? then 1 else 0;
            k >= 0 && p.r.transferred + p.r.deficit == k * options.quantum && p.r.deficit <= line - 1
  {
    PlaceAt(options, run, j, p);
    PlaceBytes(options, run.states[j], p, line);
  }

  lemma PlaceBytes(options: ServerOptions, s: State, p: Place, line: nat)
    requires PlaceOk(options, s, p) && p.IsLive() && options.scheduler.Drr?
    requires line >= 1 && (p.r.op.Get? ==> LinesAtMost(s.admitted[p.r.id].found, line))
    ensures var k := p.r.rounds - if p.InRound? then 1 else 0;
            k >= 0 && p.r.transferred + p.r.deficit == k * options.quantum && p.r.deficit <= line - 1
  {
    hide Live, Understood, Completed, Failed;
    var r, k := p.r, p.r.rounds - if p.InRound? then 1 else 0;
    assert LiveIn(options, s, r, k);
    var (a, sk, stored) := (s.admitted[r.id], s.socks[r.id], Stored(s.disk, r.fileName));
    LiveBytes(options, r, k, sk, a.bodyStart, a.headerRead, stored, line);
  }

  lemma LiveBytes(options: ServerOptions, r: Admitted, k: nat, sk: Sock, h: nat, headerRead: nat, stored: string,
                  line: nat)
    requires Live(options, r, k, sk, h, headerRead, stored) && options.scheduler.Drr?
    requires line >= 1 && (r.op.Get? ==> LinesAtMost(stored, line))
    ensures r.transferred + r.deficit == k * options.quantum && r.deficit <= line - 1
  {
    hide OkLine;
    if r.op.Get? {
      assert DeficitLive(stored, options.quantum, r, k, sk);
      DeficitBelowLine(stored, k * options.quantum, line);
    } else {
      assert PreemptibleUploadLive(options.quantum, stored, r, k, sk, h, headerRead);
    }
  }

  lemma DeficitBelowLine(f: string, x: nat, line: nat)
    requires LinesAtMost(f, line) && line >= 1 && (x > 0 ==> x < |f|)
    ensures x - Floor(f, x) <= line - 1
  {
    if x > 0 {
      DeficitBelowNextLine(f, x);
    }
  }

  lemma QuantaApart(a: int, a': int, b: int, b': int, q: int)
    requires q >= 0 && -1 <= (a' - a) - (b' - b) <= 1
    ensures -q <= (a' * q - a * q) - (b' * q - b * q) <= q
  {
    assert (a' * q - a * q) - (b' * q - b * q) == ((a' - a) - (b' - b)) * q;
  }

  /** Deficit round robin is fair in bytes: over any window in which two requests both stay
      unfinished, downloads or uploads, the bytes they were served differ by at most one quantum
      and twice the longest line less one. */
  lemma BytesAreFair(options: ServerOptions, run: Run, i: nat, j: nat, a: nat, b: nat, line: nat)
    requires run.FromInit(options) && i <= j < |run.states| && |run.states[0].workers| == 1 && options.scheduler.Drr?
    requires a != b && UnfinishedFrom(run, i, j, a) && UnfinishedFrom(run, i, j, b)
    requires line >= 1 && LinesWithin(run.states[i], a, line) && LinesWithin(run.states[i], b, line)
    ensures var servedA := RequestOf(run.states[j], a).transferred - RequestOf(run.states[i], a).transferred;
            var servedB := RequestOf(run.states[j], b).transferred - RequestOf(run.states[i], b).transferred;
            -(options.quantum + 2 * (line - 1)) <= servedA - servedB <= options.quantum + 2 * (line - 1)
  {
    var (s, s') := (run.states[i], run.states[j]);
    OneWorkerThroughout(options, run, i);
    OneWorkerThroughout(options, run, j);
    LeadOverWindow(options, run, i, j, a, b);
    TurnsAreRounds(options, run, i, j, a);
    TurnsAreRounds(options, run, i, j, b);
    Tracking.AdmissionsPersist(options, run, i, j, a);
    Tracking.AdmissionsPersist(options, run, i, j, b);
    BytesServed(options, run, i, a, line);
    BytesServed(options, run, i, b, line);
    BytesServed(options, run, j, a, line);
    BytesServed(options, run, j, b, line);
    QuantaApart(RoundsEnded(s, a), RoundsEnded(s', a), RoundsEnded(s, b), RoundsEnded(s', b), options.quantum);
  }

  predicate WaitsFrom(run: Run, i: nat, j: nat, id: nat)
    requires j < |run.states|
  {
    forall k :: i <= k <= j ==> Position(run.states[k].queue, id) < |run.states[k].queue|
  }

  lemma QueueStep(options: ServerOptions, s: State, step: Step, s': State)
    requires Next(options, s, step, s') && !options.scheduler.Sjf?
    ensures if step.Pick? then s.queue != [] && s'.queue == s.queue[1..] else s.queue <= s'.queue
  {
    if step.Finish? {
      assert s' == AfterRound(s, step);
    }
  }

  lemma PrefixPosition(queue: seq<Admitted>, queue': seq<Admitted>, id: nat)
    requires queue <= queue' && Position(queue, id) < |queue|
    ensures Position(queue', id) == Position(queue, id)
  {
    PositionIs(queue', id, Position(queue, id));
  }

  lemma QueueIdsDifferAt(options: ServerOptions, run: Run, k: nat, i: nat, j: nat)
    requires run.FromInit(options) && k < |run.states| && i < j < |run.states[k].queue|
    ensures run.states[k].queue[i].id != run.states[k].queue[j].id
  {
    RunKeeps(options, run, k);
    QueueIdsDiffer(options, run.states[k], i, j);
  }

  lemma NextAt(options: ServerOptions, run: Run, k: nat)
    requires run.FromInit(options) && k < |run.steps| && !options.scheduler.Sjf?
    ensures var (s, s') := (run.states[k], run.states[k + 1]);
            if run.steps[k].Pick? then s.queue != [] && s'.queue == s.queue[1..] else s.queue <= s'.queue
  {
    assert run.StepAt(options, k);
    QueueStep(options, run.states[k], run.steps[k], run.states[k + 1]);
  }

  lemma WaitStep(options: ServerOptions, run: Run, k: nat, id: nat)
    requires run.FromInit(options) && k < |run.steps| && !options.scheduler.Sjf? && WaitsFrom(run, k, k + 1, id)
    ensures Position(run.states[k + 1].queue, id)
            == Position(run.states[k].queue, id) - if run.steps[k].Pick? then 1 else 0
  {
    var (s, s') := (run.states[k], run.states[k + 1]);
    NextAt(options, run, k);
    if !run.steps[k].Pick? {
      PrefixPosition(s.queue, s'.queue, id);
    } else if s.queue[0].id == id {
      QueueIdsDifferAt(options, run, k, 0, Position(s'.queue, id) + 1);
      assert false;
    } else {
      PositionAfterPick(s.queue, id);
    }
  }

  /** Bounded wait under the policies that pick the front, with any number of workers and
      whatever arrives later: a request waiting at position `p` is picked after exactly `p` other
      picks. */
  lemma {:induction false} WaitIsBounded(options: ServerOptions, run: Run, i: nat, j: nat, id: nat)
    requires run.FromInit(options) && i <= j < |run.states| && !options.scheduler.Sjf? && WaitsFrom(run, i, j, id)
    ensures PicksIn(run, i, j) == Position(run.states[i].queue, id) - Position(run.states[j].queue, id)
    ensures j < |run.steps| && run.steps[j].Pick? ==>
              (PicksIn(run, i, j) == Position(run.states[i].queue, id) <==> run.states[j].queue[0].id == id)
  {
    if i < j {
      WaitIsBounded(options, run, i, j - 1, id);
      WaitStep(options, run, j - 1, id);
    }
  }
}
