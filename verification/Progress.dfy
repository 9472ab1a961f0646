/** The server does not get stuck: what a round needs to succeed, and that without I/O errors every
    run comes to an end with all requests answered. */
module Progress {
  import opened Wire
  import opened Lines
  import opened Storage
  import opened Requests
  import opened GetRounds
  import opened PutRounds
  import opened PutTheory
  import opened Scheduler
  import opened Service
  import opened Server
  import opened Lifecycle
  import opened Census
  import opened ServerInvariant
  import opened Tracking
  import opened Drain
  import opened Shutdown

  // The socket once a reply `text` with these packets is on it.
  function After(sk: Sock, text: string, packets: seq<string>, done: bool): Sock {
    sk.(sent := sk.sent + text, packets := sk.packets + packets, open := sk.open && !done,
        closes := if done then sk.closes + 1 else sk.closes)
  }

  lemma GoodDownload(options: ServerOptions, r: Admitted, sk: Sock, f: string) returns (r': Admitted, sk': Sock)
    requires r.op.Get? && CanServe(options, r, f) && Servable(options, r, sk)
    requires options.scheduler.RunsToCompletion() ==> r.transferred == 0
    ensures RoundPost(options, r, sk, f, r', sk', f, true, true)
    ensures options.scheduler.RunsToCompletion() ==> r'.transferred == r'.total
  {
    if options.scheduler.RunsToCompletion() {
      r' := r.(transferred := |f|);
      assert f[..|f|] == f && Boundary(f, |f|);
      sk' := After(sk, OkLine(|f|) + f[..|f|], Packets(LinesBetween(f, 0, |f|), options.PacketLimit()), true);
    } else {
      var o := r.transferred;
      var next := if options.scheduler.Drr? then DrrNext(f, o, r.deficit + options.quantum)
                  else RrNext(f, o, options.quantum);
      sk' := After(sk, Opening(r) + f[o..next], Packets(LinesBetween(f, o, next), options.PacketLimit()),
                   next == r.total);
      if options.scheduler.Drr? {
        r' := r.(responseStarted := true, transferred := next,
                 deficit := if next == r.total then 0 else o + (r.deficit + options.quantum) - next);
      } else {
        r' := r.(responseStarted := true, transferred := next,
                 forfeited := r.forfeited + RrForfeit(f, o, options.quantum));
      }
    }
  }

  lemma GoodUpload(options: ServerOptions, r: Admitted, sk: Sock, stored: string)
    returns (r': Admitted, sk': Sock, stored': string)
    requires r.op.Put? && CanServe(options, r, stored) && Servable(options, r, sk)
    ensures RoundPost(options, r, sk, stored, r', sk', stored', true, true)
    ensures options.scheduler.RunsToCompletion() ==> r'.transferred == r'.total
  {
    if options.scheduler.RunsToCompletion() {
      var m := FromSocket(options, r);
      r', stored' := r.(transferred := r.total), OneGoBody(r, sk);
      sk' := sk.(sent := sk.sent + OneGoPart().text, read := sk.read + m, open := false, closes := sk.closes + 1);
    } else {
      var allowance := (if options.scheduler.Drr? then r.deficit else 0) + options.quantum;
      var result := PutResult(allowance, r, sk, stored);
      sk', stored' := result.1.(misuses := sk.misuses), result.2;
      var left := if options.scheduler.Drr? then allowance - Moved(r, allowance) else r.deficit;
      r' := result.0.(deficit := if result.0.transferred == r.total then 0 else left);
    }
  }

  /** The round of a live request can succeed if and only if it is servable. */
  lemma CanSucceed(options: ServerOptions, s: State, r: Admitted)
    requires PlaceOk(options, s, InRound(r))
    ensures Servable(options, r, s.socks[r.id]) <==>
            exists r': Admitted, sk': Sock, stored': string, written: bool ::
              RoundPost(options, r, s.socks[r.id], Stored(s.disk, r.fileName), r', sk', stored', true, written)
  {
    var (sk, stored) := (s.socks[r.id], Stored(s.disk, r.fileName));
    if Servable(options, r, sk) {
      if r.op.Get? {
        var r', sk' := GoodDownload(options, r, sk, stored);
      } else {
        var r', sk', stored' := GoodUpload(options, r, sk, stored);
      }
    } else if r', sk', stored', written :| RoundPost(options, r, sk, stored, r', sk', stored', true, written) {
      OnlyServableSucceeds(options, r, sk, stored, r', sk', stored', written);
    }
  }

  /** No I/O error stands in the way of a live request: its download was not cut short, or the client
      has sent all it declared. */
  ghost predicate Healthy(options: ServerOptions, s: State, p: Place)
    requires Known(s, p.Id())
  {
    var (r, a) := (p.Request(), s.admitted[p.Id()]);
    if r.op.Get? then options.scheduler.RunsToCompletion() ==> RoundsBehind(p) == 0
    else a.bodyStart + r.total <= |s.socks[r.id].stream|
  }

  ghost predicate AllHealthy(options: ServerOptions, s: State) {
    forall p :: p in Places(s) && p.IsLive() ==> Known(s, p.Id()) && Healthy(options, s, p)
  }

  lemma HealthyIsServable(options: ServerOptions, s: State, r: Admitted)
    requires PlaceOk(options, s, InRound(r)) && Healthy(options, s, InRound(r))
    ensures Servable(options, r, s.socks[r.id])
  {
  }

  /** The round of a healthy request none of whose calls fails is a good step. */
  lemma FaultFreeRoundIsGood(options: ServerOptions, s: State, step: Step, counts: FaultCounts)
    requires step.Finish? && step.w < |s.workers| && s.workers[step.w].Serving?
    requires PlaceOk(options, s, InRound(s.workers[step.w].r)) && Healthy(options, s, InRound(s.workers[step.w].r))
    requires var r := s.workers[step.w].r;
             Accounted(options, r, s.socks[r.id], step.r', step.s', step.ok, step.written, counts, counts)
    ensures Good(options, step) && step.written
  {
    HealthyIsServable(options, s, s.workers[step.w].r);
  }

  lemma GoodFinish(options: ServerOptions, s: State, w: nat) returns (step: Step, s': State)
    requires w < |s.workers| && s.workers[w].Serving? && PlaceOk(options, s, InRound(s.workers[w].r))
    requires Healthy(options, s, InRound(s.workers[w].r))
    ensures step.Finish? && Good(options, step) && Finishes(options, s, step, s')
  {
    var r := s.workers[w].r;
    var (sk, stored) := (s.socks[r.id], Stored(s.disk, r.fileName));
    HealthyIsServable(options, s, r);
    var r', sk', stored' := r, sk, stored;
    if r.op.Get? {
      r', sk' := GoodDownload(options, r, sk, stored);
    } else {
      r', sk', stored' := GoodUpload(options, r, sk, stored);
    }
    hide RoundPost, CanServe, Live;
    step := Finish(w, r', sk', stored', true, true, true, s.clock);
    s' := AfterRound(s, step);
  }

  /** While a healthy request is live and a worker has not exited, a good step is enabled. */
  lemma NeverStuck(options: ServerOptions, run: Run, j: nat, p: Place) returns (step: Step, s': State)
    requires run.FromInit(options) && j < |run.states| && p in Places(run.states[j]) && p.IsLive()
    requires AllHealthy(options, run.states[j]) && !AllExited(run.states[j])
    ensures Good(options, step) && Next(options, run.states[j], step, s')
  {
    var s := run.states[j];
    PlacesAreReal(s, p);
    if w: nat :| w < |s.workers| && s.workers[w].Serving? {
      var r := s.workers[w].r;
      PlacesAreReal(s, InRound(r));
      PlaceAt(options, run, j, InRound(r));
      step, s' := GoodFinish(options, s, w);
    } else {
      var w: nat :| w < |s.workers| && !s.workers[w].Exited?;
      var i := Selected(options.scheduler, s.queue);
      step := Pick(w, s.clock);
      s' := s.(queue := Without(s.queue, i), workers := s.workers[w := Serving(Picked(s.queue[i], s.clock))]);
    }
  }

  // What the client sends, and what the parser knew of it, never changes.
  ghost predicate SameStream(s: State, s': State, id: nat) {
    && id in s.socks && id in s.admitted && id in s'.socks && id in s'.admitted
    && s'.socks[id].stream == s.socks[id].stream && s'.admitted[id] == s.admitted[id]
  }

  lemma StreamKept(options: ServerOptions, s: State, step: Step, s': State, id: nat)
    requires LateQueue(s) && Next(options, s, step, s') && id < s.nextId && Known(s, id)
    ensures SameStream(s, s', id)
  {
    if step.Finish? && s.workers[step.w].r.id == id {
      ServedKeeps(options, s, step);
      FinishFrame(s, step, s');
    } else {
      StepFrame(options, s, step, s', id);
    }
  }

  lemma HealthyMoves(options: ServerOptions, s: State, s': State, p: Place, q: Place)
    requires Known(s, p.Id()) && Healthy(options, s, p) && SameStream(s, s', p.Id())
    requires q.Id() == p.Id() && q.Request().op == p.Request().op && q.Request().total == p.Request().total
    requires options.scheduler.RunsToCompletion() && q.Request().op.Get? ==> RoundsBehind(q) == RoundsBehind(p)
    ensures Known(s', q.Id()) && Healthy(options, s', q)
  {
  }

  lemma HealthKeptAt(options: ServerOptions, s: State, step: Step, s': State, x: Place)
    requires Inv(options, s) && Next(options, s, step, s') && !step.Admit? && (step.Finish? ==> Good(options, step))
    requires AllHealthy(options, s) && x in Places(s') && x.IsLive()
    ensures Known(s', x.Id()) && Healthy(options, s', x)
  {
    var p := x;
    if step.Pick? || step.Finish? {
      StepMoves(options, s, step, s');
      MoveCounts(options, s, step, x.Id());
      p := BeforeMove(s, Source(options, s, step), Target(options, s, step), x);
    } else {
      StepPlaces(options, s, step, s');
    }
    hide Places, Inv, PlaceOk, Healthy;
    assert p in Places(s) && p.IsLive();
    assert p.Id() < s.nextId by { IdBelow(options, s, p); }
    StreamKept(options, s, step, s', p.Id());
    HealthyMoves(options, s, s', p, x);
  }

  lemma IdBelow(options: ServerOptions, s: State, p: Place)
    requires Inv(options, s) && p in Places(s)
    ensures p.Id() < s.nextId && LateQueue(s)
  {
  }

  // Nothing arrives and nothing goes wrong in the steps from `i` to `j - 1`.
  predicate ErrorFree(options: ServerOptions, run: Run, i: nat, j: nat)
    requires j <= |run.steps|
  {
    Quiet(run, i, j) && forall k :: i <= k < j ==> run.steps[k].Finish? ==> Good(options, run.steps[k])
  }

  lemma HealthStep(options: ServerOptions, run: Run, k: nat)
    requires run.FromInit(options) && k < |run.steps| && !run.steps[k].Admit?
    requires run.steps[k].Finish? ==> Good(options, run.steps[k])
    requires AllHealthy(options, run.states[k])
    ensures AllHealthy(options, run.states[k + 1])
  {
    RunKeeps(options, run, k);
    assert run.StepAt(options, k);
    hide Places, Next, Inv, Healthy;
    forall x | x in Places(run.states[k + 1]) && x.IsLive()
      ensures Known(run.states[k + 1], x.Id()) && Healthy(options, run.states[k + 1], x)
    {
      HealthKeptAt(options, run.states[k], run.steps[k], run.states[k + 1], x);
    }
  }

  lemma {:induction false} HealthKept(options: ServerOptions, run: Run, i: nat, j: nat)
    requires run.FromInit(options) && i <= j < |run.states| && ErrorFree(options, run, i, j)
    requires AllHealthy(options, run.states[i])
    ensures AllHealthy(options, run.states[j])
  {
    hide AllHealthy, Good;
    if i < j {
      HealthKept(options, run, i, j - 1);
      HealthStep(options, run, j - 1);
    }
  }

  lemma SomeoneIsLive(s: State) returns (p: Place)
    requires !Drained(s)
    ensures p in Places(s) && p.IsLive()
  {
    if s.queue != [] {
      p := Waiting(s.queue[0]);
    } else {
      var w :| 0 <= w < |s.workers| && s.workers[w].Serving?;
      p := InRound(s.workers[w].r);
    }
    PlacesAreReal(s, p);
  }

  /** Without arrivals and I/O errors every run drains: one that has no good step left has answered
      all its requests. `Drain.WorkIsBounded` says that there are only so many steps to take. */
  lemma ErrorFreeRunsDrain(options: ServerOptions, run: Run, i: nat, j: nat)
    requires run.FromInit(options) && i <= j < |run.states| && ErrorFree(options, run, i, j)
    requires AllHealthy(options, run.states[i]) && !AllExited(run.states[j])
    requires forall step: Step, s': State :: Next(options, run.states[j], step, s') ==> !Good(options, step)
    ensures Drained(run.states[j])
  {
    HealthKept(options, run, i, j);
    if !Drained(run.states[j]) {
      var p := SomeoneIsLive(run.states[j]);
      var step, s' := NeverStuck(options, run, j, p);
    }
  }

  // A good step leaves a worker at work, fails no request and admits none.
  lemma GoodStepKeeps(options: ServerOptions, s: State, step: Step, s': State)
    requires Next(options, s, step, s') && Good(options, step)
    ensures !AllExited(s') && s'.failed == s.failed && s'.nextId == s.nextId
  {
    if step.Finish? {
      assert s' == AfterRound(s, step) && s'.workers[step.w] == Idle;
    } else {
      assert s'.workers[step.w].Serving?;
    }
  }

  lemma RankStep(options: ServerOptions, run: Run, k: nat)
    requires run.FromInit(options) && k < |run.steps| && (run.steps[k].Pick? || run.steps[k].Finish?)
    ensures 0 <= Rank(options, run.states[k + 1]) < Rank(options, run.states[k])
  {
    DrainStep(options, run, k);
    PicksLeftNonNegative(options, run, k + 1);
  }

  lemma OneGoodStep(options: ServerOptions, run: Run) returns (next: Run)
    requires run.FromInit(options) && !Drained(run.states[|run.steps|])
    requires AllHealthy(options, run.states[|run.steps|]) && !AllExited(run.states[|run.steps|])
    ensures next.FromInit(options) && |next.steps| == |run.steps| + 1
    ensures run.states == next.states[..|run.states|] && run.steps == next.steps[..|run.steps|]
    ensures Good(options, next.steps[|run.steps|])
    ensures var (s, s') := (run.states[|run.steps|], next.states[|next.steps|]);
            && AllHealthy(options, s') && !AllExited(s') && s'.failed == s.failed && s'.nextId == s.nextId
            && 0 <= Rank(options, s') < Rank(options, s)
  {
    var n := |run.steps|;
    var p := SomeoneIsLive(run.states[n]);
    var step, s' := NeverStuck(options, run, n, p);
    GoodStepKeeps(options, run.states[n], step, s');
    next := Extended(options, run, step, s');
    hide Places, Next, AllHealthy, Rank, Init, AllExited;
    assert next.states[n] == run.states[n];
    RankStep(options, next, n);
    HealthStep(options, next, n);
  }

  /** And such a run exists: any run of healthy requests can be continued, without arrivals and I/O
      errors, until it is drained. */
  lemma {:induction false} CanDrain(options: ServerOptions, run: Run) returns (run': Run)
    requires run.FromInit(options)
    requires AllHealthy(options, run.states[|run.steps|]) && !AllExited(run.states[|run.steps|])
    ensures run'.FromInit(options) && |run.steps| <= |run'.steps|
    ensures run.states == run'.states[..|run.states|] && run.steps == run'.steps[..|run.steps|]
    ensures ErrorFree(options, run', |run.steps|, |run'.steps|)
    ensures var (s, last) := (run.states[|run.steps|], run'.states[|run'.steps|]);
            Drained(last) && last.failed == s.failed && last.nextId == s.nextId
    decreases Rank(options, run.states[|run.steps|])
  {
    run' := run;
    hide Places, Next, AllHealthy, Rank, Init, AllExited, Drained;
    if !Drained(run.states[|run.steps|]) {
      var next := OneGoodStep(options, run);
      run' := CanDrain(options, next);
      assert run.steps == next.steps[..|run.steps|] == run'.steps[..|next.steps|][..|run.steps|];
      assert run'.steps[|run.steps|] == next.steps[|run.steps|];
    }
  }

  lemma NobodyInFlight(s: State)
    requires Drained(s)
    ensures InFlightCount(s) == 0
  {
    forall p ensures p !in Bag(s.workers, OfWorker) {
      WorkerMember(s.workers, p);
    }
    assert Bag(s.workers, OfWorker) == multiset{};
  }

  /** Such a continuation completes every request that was waiting or in flight. */
  lemma CanCompleteAll(options: ServerOptions, run: Run) returns (run': Run)
    requires run.FromInit(options)
    requires AllHealthy(options, run.states[|run.steps|]) && !AllExited(run.states[|run.steps|])
    ensures run'.FromInit(options) && |run.states| <= |run'.states| && run.states == run'.states[..|run.states|]
    ensures var (s, last) := (run.states[|run.steps|], run'.states[|run'.steps|]);
            && Drained(last) && last.failed == s.failed
            && |last.completed| == |s.completed| + |s.queue| + InFlightCount(s)
  {
    run' := CanDrain(options, run);
    Conservation(options, run, |run.steps|);
    Conservation(options, run', |run'.steps|);
    NobodyInFlight(run'.states[|run'.steps|]);
  }
}
