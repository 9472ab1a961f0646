/** A drain under shortest job first with one worker serves the queue in the order of
    `SjfTheory.SjfOrder`: a stable sort by size, and the best order for the mean completion time. */
module SjfDrain {
  import opened Requests
  import opened Scheduler
  import opened SjfTheory
  import opened Server
  import opened Census
  import opened ServerInvariant
  import opened Drain

  function Ids(s: seq<Admitted>): seq<nat> {
    if s == [] then [] else [s[0].id] + Ids(s[1..])
  }

  function DepartedIds(s: seq<Departed>): seq<nat> {
    if s == [] then [] else [s[0].r.id] + DepartedIds(s[1..])
  }

  lemma {:induction false} DepartedIdsAppend(s: seq<Departed>, d: Departed)
    ensures DepartedIds(s + [d]) == DepartedIds(s) + [d.r.id]
  {
    if s == [] {
      assert [d][1..] == [];
    } else {
      assert (s + [d])[1..] == s[1..] + [d];
      DepartedIdsAppend(s[1..], d);
    }
  }

  lemma PickedFirst(queue: seq<Admitted>)
    requires queue != []
    ensures var i := FirstShortest(queue);
            Ids(SjfOrder(queue)) == [queue[i].id] + Ids(SjfOrder(Without(queue, i)))
  {
    var i := FirstShortest(queue);
    assert SjfOrder(queue)[1..] == SjfOrder(Without(queue, i));
  }

  // No round puts its request back, as only a short read does in one go.
  predicate NoRequeue(run: Run, i: nat, j: nat)
    requires j <= |run.steps|
  {
    forall k :: i <= k < j ==> run.steps[k].Finish? && run.steps[k].ok ==>
                                 run.steps[k].r'.transferred >= run.steps[k].r'.total
  }

  // The request a step picks.
  function PickedBy(s: State, step: Step): seq<nat> {
    if step.Pick? && s.queue != [] then [s.queue[FirstShortest(s.queue)].id] else []
  }

  // The requests picked in the steps from `i` to `j - 1`, in that order.
  function PickedIds(run: Run, i: nat, j: nat): seq<nat>
    requires i <= j < |run.states| && j <= |run.steps|
    decreases j
  {
    if i == j then []
    else PickedIds(run, i, j - 1) +
         PickedBy(run.states[j - 1], run.steps[j - 1])
  }

  // The requests whose rounds ended, and whether only those that did not fail are listed.
  function FinishedIds(run: Run, i: nat, j: nat, completedOnly: bool): seq<nat>
    requires i <= j < |run.states| && j <= |run.steps|
    decreases j
  {
    if i == j then []
    else FinishedIds(run, i, j - 1, completedOnly) +
         if Serves(run.states[j - 1], run.steps[j - 1]) && (completedOnly ==> run.steps[j - 1].ok)
         then [run.states[j - 1].workers[run.steps[j - 1].w].r.id] else []
  }

  lemma PickOrderStep(options: ServerOptions, run: Run, k: nat)
    requires run.FromInit(options) && k < |run.steps| && options.scheduler.Sjf?
    requires !run.steps[k].Admit? && NoRequeue(run, k, k + 1)
    ensures Ids(SjfOrder(run.states[k].queue))
            == PickedBy(run.states[k], run.steps[k]) + Ids(SjfOrder(run.states[k + 1].queue))
  {
    assert run.StepAt(options, k);
    PickOrderState(options, run.states[k], run.steps[k], run.states[k + 1]);
  }

  lemma Moved(picked: seq<nat>, x: seq<nat>, waiting: seq<nat>, waiting': seq<nat>, all: seq<nat>)
    requires waiting == x + waiting' && picked + waiting == all
    ensures (picked + x) + waiting' == all
  {
    assert (picked + x) + waiting' == picked + (x + waiting');
  }

  lemma PickOrderState(options: ServerOptions, s: State, step: Step, s': State)
    requires Next(options, s, step, s') && options.scheduler.Sjf? && !step.Admit?
    requires step.Finish? && step.ok ==> step.r'.transferred >= step.r'.total
    ensures Ids(SjfOrder(s.queue)) == PickedBy(s, step) + Ids(SjfOrder(s'.queue))
  {
    SjfQueueStep(options, s, step, s');
    hide Next, SjfOrder, Ids;
    if step.Pick? {
      PickedFirst(s.queue);
    }
  }

  lemma SjfQueueStep(options: ServerOptions, s: State, step: Step, s': State)
    requires Next(options, s, step, s') && options.scheduler.Sjf? && !step.Admit?
    requires step.Finish? && step.ok ==> step.r'.transferred >= step.r'.total
    ensures if step.Pick? then s.queue != [] && s'.queue == Without(s.queue, FirstShortest(s.queue))
            else s'.queue == s.queue
  {
    if step.Finish? {
      assert s' == AfterRound(s, step);
    }
  }

  /** With any number of workers and whatever fails: as long as nothing arrives and nothing is put back,
      the requests picked and those still waiting, in the order of `SjfOrder`, are the waiting requests
      of the start in that order. */
  lemma {:induction false} PicksInOrder(options: ServerOptions, run: Run, i: nat, j: nat)
    requires run.FromInit(options) && i <= j < |run.states| && options.scheduler.Sjf?
    requires Quiet(run, i, j) && NoRequeue(run, i, j)
    ensures PickedIds(run, i, j) + Ids(SjfOrder(run.states[j].queue)) == Ids(SjfOrder(run.states[i].queue))
  {
    hide SjfOrder, Ids, PickedBy, Next, Init;
    if i < j {
      PicksInOrder(options, run, i, j - 1);
      PickOrderStep(options, run, j - 1);
      Moved(PickedIds(run, i, j - 1), PickedBy(run.states[j - 1], run.steps[j - 1]),
            Ids(SjfOrder(run.states[j - 1].queue)), Ids(SjfOrder(run.states[j].queue)),
            Ids(SjfOrder(run.states[i].queue)));
    }
  }

  function InFlightIds(workers: seq<Worker>): seq<nat>
    requires |workers| == 1
  {
    if workers[0].Serving? then [workers[0].r.id] else []
  }

  // One worker finishes what it picked before it picks again.
  lemma OneWorkerStep(options: ServerOptions, run: Run, i: nat, k: nat)
    requires run.FromInit(options) && i <= k < |run.steps| && options.scheduler.Sjf? && |run.states[k].workers| == 1
    ensures |run.states[k + 1].workers| == 1
    ensures PickedIds(run, i, k) == FinishedIds(run, i, k, false) + InFlightIds(run.states[k].workers) ==>
              PickedIds(run, i, k + 1) == FinishedIds(run, i, k + 1, false) + InFlightIds(run.states[k + 1].workers)
  {
    assert run.StepAt(options, k);
    var (s, step, s') := (run.states[k], run.steps[k], run.states[k + 1]);
    OneWorkerQueues(options, s, step, s');
    hide Next, SjfOrder, FirstShortest;
    assert Serves(s, step) ==> step.Finish?;
  }

  // What a step does to the one worker.
  lemma OneWorkerQueues(options: ServerOptions, s: State, step: Step, s': State)
    requires Next(options, s, step, s') && options.scheduler.Sjf? && |s.workers| == 1
    ensures |s'.workers| == 1
    ensures if step.Pick? then
              s.queue != [] && !s.workers[0].Serving? && InFlightIds(s'.workers) == [s.queue[FirstShortest(s.queue)].id]
            else if step.Finish? then
              Serves(s, step) && InFlightIds(s.workers) == [s.workers[step.w].r.id] && InFlightIds(s'.workers) == []
            else InFlightIds(s'.workers) == InFlightIds(s.workers)
  {
    if step.Finish? {
      assert s' == AfterRound(s, step);
    }
  }

  lemma {:induction false} OneWorkerFinishes(options: ServerOptions, run: Run, i: nat, j: nat)
    requires run.FromInit(options) && i <= j < |run.states| && options.scheduler.Sjf?
    requires |run.states[i].workers| == 1 && !run.states[i].workers[0].Serving?
    ensures |run.states[j].workers| == 1
    ensures PickedIds(run, i, j) == FinishedIds(run, i, j, false) + InFlightIds(run.states[j].workers)
  {
    if i < j {
      OneWorkerFinishes(options, run, i, j - 1);
      OneWorkerStep(options, run, i, j - 1);
    }
  }

  lemma CompletedStep(options: ServerOptions, run: Run, i: nat, k: nat)
    requires run.FromInit(options) && i <= k < |run.steps| && NoRequeue(run, k, k + 1)
    ensures DepartedIds(run.states[k + 1].completed) == DepartedIds(run.states[k].completed) +
              if Serves(run.states[k], run.steps[k]) && run.steps[k].ok
              then [run.states[k].workers[run.steps[k].w].r.id] else []
  {
    var (s, step) := (run.states[k], run.steps[k]);
    assert run.StepAt(options, k);
    if step.Finish? {
      assert run.states[k + 1] == AfterRound(s, step);
      if step.ok {
        RoundKeepsId(options, run, k);
        DepartedIdsAppend(s.completed, Departed(step.r', step.now, step.stored', step.written));
      }
    } else {
      assert run.states[k + 1].completed == s.completed;
    }
  }

  // Completions are recorded in the order in which their rounds end.
  lemma {:induction false} CompletedInOrder(options: ServerOptions, run: Run, i: nat, j: nat)
    requires run.FromInit(options) && i <= j < |run.states| && NoRequeue(run, i, j)
    ensures DepartedIds(run.states[j].completed) == DepartedIds(run.states[i].completed) + FinishedIds(run, i, j, true)
  {
    hide DepartedIds, Serves, Next, Init;
    if i < j {
      CompletedInOrder(options, run, i, j - 1);
      CompletedStep(options, run, i, j - 1);
    }
  }

  lemma RoundKeepsId(options: ServerOptions, run: Run, k: nat)
    requires run.FromInit(options) && k < |run.steps| && run.steps[k].Finish? && run.steps[k].ok
    ensures Serves(run.states[k], run.steps[k]) && run.steps[k].r'.id == run.states[k].workers[run.steps[k].w].r.id
  {
    var s := run.states[k];
    assert run.StepAt(options, k);
    PlacesAreReal(s, InRound(s.workers[run.steps[k].w].r));
    PlaceAt(options, run, k, InRound(s.workers[run.steps[k].w].r));
    FinishedRound(options, s, run.steps[k], run.states[k + 1]);
  }

  // Without failures every round that ends completes its request.
  lemma {:induction false} AllFinishedComplete(run: Run, i: nat, j: nat)
    requires i <= j < |run.states| && j <= |run.steps| && NoFailure(run, i, j)
    ensures FinishedIds(run, i, j, true) == FinishedIds(run, i, j, false)
  {
    if i < j {
      AllFinishedComplete(run, i, j - 1);
    }
  }

  /** With one worker the waiting requests are served in the order of `SjfOrder`, and completed in it,
      too, but for those that fail. */
  lemma DrainsInOrder(options: ServerOptions, run: Run, i: nat, j: nat)
    requires run.FromInit(options) && i <= j < |run.states| && options.scheduler.Sjf?
    requires |run.states[i].workers| == 1 && !run.states[i].workers[0].Serving?
    requires Quiet(run, i, j) && NoRequeue(run, i, j) && Drained(run.states[j])
    ensures FinishedIds(run, i, j, false) == Ids(SjfOrder(run.states[i].queue))
    ensures DepartedIds(run.states[j].completed) == DepartedIds(run.states[i].completed) + FinishedIds(run, i, j, true)
    ensures NoFailure(run, i, j) ==>
              DepartedIds(run.states[j].completed)
              == DepartedIds(run.states[i].completed) + Ids(SjfOrder(run.states[i].queue))
  {
    PicksInOrder(options, run, i, j);
    OneWorkerFinishes(options, run, i, j);
    CompletedInOrder(options, run, i, j);
    if NoFailure(run, i, j) {
      AllFinishedComplete(run, i, j);
    }
  }
}
