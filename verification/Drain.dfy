/** How long requests wait, and how many picks empty the server. */
module Drain {
  import opened Requests
  import opened Lines
  import opened Wire
  import opened GetRounds
  import opened PutRounds
  import opened RrTheory
  import opened DrrTheory
  import opened PutTheory
  import opened Scheduler
  import opened Service
  import opened Server
  import opened Lifecycle
  import opened Census
  import opened ServerInvariant

  function Sum<T>(s: seq<T>, f: T -> int): int {
    if s == [] then 0 else f(s[0]) + Sum(s[1..], f)
  }

  lemma {:induction false} SumConcat<T>(s: seq<T>, t: seq<T>, f: T -> int)
    ensures Sum(s + t, f) == Sum(s, f) + Sum(t, f)
  {
    if s == [] {
      assert s + t == t;
    } else {
      assert (s + t)[1..] == s[1..] + t;
      SumConcat(s[1..], t, f);
    }
  }

  lemma SumAppend<T>(s: seq<T>, x: T, f: T -> int)
    ensures Sum(s + [x], f) == Sum(s, f) + f(x)
  {
    SumConcat(s, [x], f);
    assert [x][1..] == [];
  }

  lemma SumSplit<T>(s: seq<T>, i: nat, f: T -> int)
    requires i < |s|
    ensures Sum(s, f) == Sum(s[..i], f) + f(s[i]) + Sum(s[i + 1..], f)
  {
    assert s == s[..i] + s[i..];
    SumConcat(s[..i], s[i..], f);
    assert s[i..][1..] == s[i + 1..];
  }

  lemma SumWithout<T>(s: seq<T>, i: nat, f: T -> int)
    requires i < |s|
    ensures Sum(Without(s, i), f) == Sum(s, f) - f(s[i])
  {
    SumSplit(s, i, f);
    SumConcat(s[..i], s[i + 1..], f);
  }

  lemma SumUpdate<T>(s: seq<T>, i: nat, x: T, f: T -> int)
    requires i < |s|
    ensures Sum(s[i := x], f) == Sum(s, f) - f(s[i]) + f(x)
  {
    SumSplit(s, i, f);
    SumSplit(s[i := x], i, f);
    assert s[i := x][..i] == s[..i] && s[i := x][i + 1..] == s[i + 1..];
  }

  lemma {:induction false} SumNonNegative<T>(s: seq<T>, f: T -> int)
    requires forall i :: 0 <= i < |s| ==> f(s[i]) >= 0
    ensures Sum(s, f) >= 0
  {
    if s != [] {
      assert f(s[0]) >= 0;
      forall i | 0 <= i < |s[1..]| ensures f(s[1..][i]) >= 0 {
        assert s[1..][i] == s[i + 1];
      }
      SumNonNegative(s[1..], f);
    }
  }

  lemma {:induction false} SumAgree<T>(s: seq<T>, f: T -> int, g: T -> int)
    requires forall i :: 0 <= i < |s| ==> f(s[i]) == g(s[i])
    ensures Sum(s, f) == Sum(s, g)
  {
    if s != [] {
      assert f(s[0]) == g(s[0]);
      forall i | 0 <= i < |s[1..]| ensures f(s[1..][i]) == g(s[1..][i]) {
        assert s[1..][i] == s[i + 1];
      }
      SumAgree(s[1..], f, g);
    }
  }

  /** The most rounds a request can take. Only a download served in one go may take fewer: its
      second round follows a short read. */
  function RoundsOf(options: ServerOptions, admitted: map<nat, Admission>, r: Admitted): nat {
    if options.scheduler.RunsToCompletion() then (if r.op.Get? then 2 else 1)
    else if r.op.Get? && options.scheduler.RoundRobin? && r.id in admitted
    then RrRounds(admitted[r.id].found, options.quantum)
    else TotalRounds(r.total, options.quantum)
  }

  function RoundsLeft(options: ServerOptions, admitted: map<nat, Admission>): Admitted -> int {
    (r: Admitted) => RoundsOf(options, admitted, r) - r.rounds
  }

  function RoundsLeftInFlight(options: ServerOptions, admitted: map<nat, Admission>): Worker -> int {
    (w: Worker) => if w.Serving? then RoundsOf(options, admitted, w.r) - w.r.rounds else 0
  }

  // The picks still to come if nothing more arrives.
  function PicksLeft(options: ServerOptions, s: State): int {
    Sum(s.queue, RoundsLeft(options, s.admitted)) + Sum(s.workers, RoundsLeftInFlight(options, s.admitted))
  }

  // A live request has not had all its rounds.
  lemma LiveHasRoundsLeft(options: ServerOptions, s: State, r: Admitted, k: nat)
    requires LiveIn(options, s, r, k)
    ensures k < RoundsOf(options, s.admitted, r)
  {
    var q := options.quantum;
    if !options.scheduler.RunsToCompletion() && k > 0 {
      if r.op.Get? && options.scheduler.RoundRobin? {
        RrRoundsLeft(s.admitted[r.id].found, q, k);
      } else {
        TotalRoundsIsFirst(r.total, q, k - 1);
      }
    }
  }

  lemma PickLeft(options: ServerOptions, s: State, step: Step, s': State)
    requires step.Pick? && Picks(options, s, step, s')
    ensures PicksLeft(options, s') == PicksLeft(options, s) - 1
    ensures InFlightCount(s') == InFlightCount(s) + 1
  {
    var i := Selected(options.scheduler, s.queue);
    var x := Serving(Picked(s.queue[i], step.now));
    SumWithout(s.queue, i, RoundsLeft(options, s.admitted));
    SumUpdate(s.workers, step.w, x, RoundsLeftInFlight(options, s.admitted));
    WorkerTakes(s.workers, step.w, x.r);
  }

  // The request the round leaves in the queue, if any, has as many rounds left as before.
  lemma RequeueLeft(options: ServerOptions, s: State, step: Step, r: Admitted)
    requires Serves(s, step) && r == s.workers[step.w].r
    requires step.ok ==> SameRequest(r, step.r')
    ensures var s' := AfterRound(s, step);
            PicksLeft(options, s') == PicksLeft(options, s)
              - if step.ok && step.r'.transferred < step.r'.total then 0
                else RoundsOf(options, s.admitted, r) - r.rounds
  {
    SumUpdate(s.workers, step.w, Idle, RoundsLeftInFlight(options, s.admitted));
    if step.ok {
      SumAppend(s.queue, step.r', RoundsLeft(options, s.admitted));
    }
  }

  lemma FinishLeft(options: ServerOptions, s: State, step: Step, s': State)
    requires step.Finish? && Finishes(options, s, step, s') && PlaceOk(options, s, InRound(s.workers[step.w].r))
    ensures PicksLeft(options, s') <= PicksLeft(options, s)
    ensures step.ok && !options.scheduler.RunsToCompletion() ==> PicksLeft(options, s') == PicksLeft(options, s)
  {
    hide Live, Completed, Failed, PicksLeft;
    var r := s.workers[step.w].r;
    FinishedRound(options, s, step, s');
    RequeueLeft(options, s, step, r);
    LiveHasRoundsLeft(options, s, r, r.rounds - 1);
    if step.ok && step.r'.transferred >= step.r'.total && !options.scheduler.RunsToCompletion() {
      CompletedRounds(options, s, r, step.r', step.s', step.stored', step.written);
    }
  }

  lemma FinishFrees(s: State, step: Step)
    requires Serves(s, step)
    ensures InFlightCount(AfterRound(s, step)) == InFlightCount(s) - 1
  {
    WorkerReleases(s.workers, step.w);
  }

  lemma CompletedRounds(options: ServerOptions, s: State, r: Admitted, r': Admitted, sk': Sock, stored': string,
                        written: bool)
    requires r.rounds >= 1 && LiveIn(options, s, r, r.rounds - 1) && SameRequest(r, r')
    requires !options.scheduler.RunsToCompletion()
    requires Completed(options, r', sk', s.admitted[r.id].bodyStart, s.admitted[r.id].headerRead, stored', written)
    requires r.op.Get? ==> stored' == s.admitted[r.id].found
    ensures r.rounds == RoundsOf(options, s.admitted, r)
  {
  }

  lemma OtherLeft(options: ServerOptions, s: State, step: Step, s': State)
    requires !step.Admit? && !step.Pick? && !step.Finish? && Next(options, s, step, s')
    ensures PicksLeft(options, s') == PicksLeft(options, s) && InFlightCount(s') == InFlightCount(s)
  {
    if step.WorkerExit? {
      SumUpdate(s.workers, step.w, Exited, RoundsLeftInFlight(options, s.admitted));
      FreeWorkerPlaces(s.workers, step.w, Exited);
    }
  }

  // No request arrives in the steps from `i` to `j - 1`.
  predicate Quiet(run: Run, i: nat, j: nat)
    requires j <= |run.steps|
  {
    forall k :: i <= k < j ==> !run.steps[k].Admit?
  }

  // No round fails in these steps.
  predicate NoFailure(run: Run, i: nat, j: nat)
    requires j <= |run.steps|
  {
    forall k :: i <= k < j ==> run.steps[k].Finish? ==> run.steps[k].ok
  }

  function PicksIn(run: Run, i: nat, j: nat): nat
    requires i <= j <= |run.steps|
    decreases j
  {
    if i == j then 0 else PicksIn(run, i, j - 1) + if run.steps[j - 1].Pick? then 1 else 0
  }

  function FinishesIn(run: Run, i: nat, j: nat): nat
    requires i <= j <= |run.steps|
    decreases j
  {
    if i == j then 0 else FinishesIn(run, i, j - 1) + if run.steps[j - 1].Finish? then 1 else 0
  }

  lemma DrainStep(options: ServerOptions, run: Run, k: nat)
    requires run.FromInit(options) && k < |run.steps| && !run.steps[k].Admit?
    ensures var (s, step, s') := (run.states[k], run.steps[k], run.states[k + 1]);
            && InFlightCount(s') == InFlightCount(s) + (if step.Pick? then 1 else if step.Finish? then -1 else 0)
            && (step.Pick? ==> PicksLeft(options, s') == PicksLeft(options, s) - 1)
            && (step.Finish? ==> PicksLeft(options, s') <= PicksLeft(options, s))
            && (step.Finish? && step.ok && !options.scheduler.RunsToCompletion() ==>
                  PicksLeft(options, s') == PicksLeft(options, s))
            && (!step.Pick? && !step.Finish? ==> PicksLeft(options, s') == PicksLeft(options, s))
  {
    var (s, step, s') := (run.states[k], run.steps[k], run.states[k + 1]);
    assert run.StepAt(options, k);
    if step.Pick? {
      PickLeft(options, s, step, s');
    } else if step.Finish? {
      PlacesAreReal(s, InRound(s.workers[step.w].r));
      PlaceAt(options, run, k, InRound(s.workers[step.w].r));
      FinishLeft(options, s, step, s');
      FinishFrees(s, step);
    } else {
      OtherLeft(options, s, step, s');
    }
  }

  lemma PicksLeftNonNegative(options: ServerOptions, run: Run, j: nat)
    requires run.FromInit(options) && j < |run.states|
    ensures PicksLeft(options, run.states[j]) >= 0
  {
    var s := run.states[j];
    forall i | 0 <= i < |s.queue| ensures RoundsLeft(options, s.admitted)(s.queue[i]) >= 0 {
      PlacesAreReal(s, Waiting(s.queue[i]));
      PlaceAt(options, run, j, Waiting(s.queue[i]));
      LiveHasRoundsLeft(options, s, s.queue[i], s.queue[i].rounds);
    }
    forall w | 0 <= w < |s.workers| ensures RoundsLeftInFlight(options, s.admitted)(s.workers[w]) >= 0 {
      if s.workers[w].Serving? {
        var r := s.workers[w].r;
        PlacesAreReal(s, InRound(r));
        PlaceAt(options, run, j, InRound(r));
        LiveHasRoundsLeft(options, s, r, r.rounds - 1);
      }
    }
    SumNonNegative(s.queue, RoundsLeft(options, s.admitted));
    SumNonNegative(s.workers, RoundsLeftInFlight(options, s.admitted));
  }

  // Every pick and every end of a round lowers it, whatever the policy and the outcome.
  function Rank(options: ServerOptions, s: State): int {
    2 * PicksLeft(options, s) + InFlightCount(s)
  }

  lemma {:induction false} RankFalls(options: ServerOptions, run: Run, i: nat, j: nat)
    requires run.FromInit(options) && i <= j < |run.states| && Quiet(run, i, j)
    ensures PicksIn(run, i, j) + FinishesIn(run, i, j) <= Rank(options, run.states[i]) - Rank(options, run.states[j])
  {
    if i < j {
      RankFalls(options, run, i, j - 1);
      DrainStep(options, run, j - 1);
    }
  }

  /** With no arrivals every run drains: under any policy, with any failures and any number of
      workers, only so many rounds can begin and end. */
  lemma WorkIsBounded(options: ServerOptions, run: Run, i: nat, j: nat)
    requires run.FromInit(options) && i <= j < |run.states| && Quiet(run, i, j)
    ensures PicksIn(run, i, j) + FinishesIn(run, i, j) <= Rank(options, run.states[i])
  {
    RankFalls(options, run, i, j);
    PicksLeftNonNegative(options, run, j);
  }

  /** Under round robin and deficit round robin, with no arrivals and no failures, the picks made
      and the picks left add up. */
  lemma {:induction false} PicksAddUp(options: ServerOptions, run: Run, i: nat, j: nat)
    requires run.FromInit(options) && i <= j < |run.states| && !options.scheduler.RunsToCompletion()
    requires Quiet(run, i, j) && NoFailure(run, i, j)
    ensures PicksIn(run, i, j) == PicksLeft(options, run.states[i]) - PicksLeft(options, run.states[j])
  {
    if i < j {
      PicksAddUp(options, run, i, j - 1);
      DrainStep(options, run, j - 1);
    }
  }

  predicate Drained(s: State) {
    s.queue == [] && forall w :: 0 <= w < |s.workers| ==> !s.workers[w].Serving?
  }

  lemma {:induction false} FreeWorkersLeft(options: ServerOptions, admitted: map<nat, Admission>, workers: seq<Worker>)
    requires forall w :: 0 <= w < |workers| ==> !workers[w].Serving?
    ensures Sum(workers, RoundsLeftInFlight(options, admitted)) == 0
  {
    if workers != [] {
      FreeWorkersLeft(options, admitted, workers[1..]);
    }
  }

  /** A drain under deficit round robin takes exactly the sum of max(1, ceil(total / quantum))
      picks over the requests that were waiting, unserved, when arrivals stopped. */
  lemma DrainTakes(options: ServerOptions, run: Run, i: nat, j: nat)
    requires run.FromInit(options) && i <= j < |run.states| && options.scheduler.Drr?
    requires Quiet(run, i, j) && NoFailure(run, i, j) && Drained(run.states[j])
    requires forall w :: 0 <= w < |run.states[i].workers| ==> !run.states[i].workers[w].Serving?
    requires forall n :: 0 <= n < |run.states[i].queue| ==> run.states[i].queue[n].rounds == 0
    ensures PicksIn(run, i, j) == Sum(run.states[i].queue, (r: Admitted) => TotalRounds(r.total, options.quantum))
  {
    var (s, s') := (run.states[i], run.states[j]);
    PicksAddUp(options, run, i, j);
    FreeWorkersLeft(options, s.admitted, s.workers);
    FreeWorkersLeft(options, s'.admitted, s'.workers);
    SumAgree(s.queue, RoundsLeft(options, s.admitted), (r: Admitted) => TotalRounds(r.total, options.quantum));
  }
}
