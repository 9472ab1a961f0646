/** Following one request through a run. */
module Tracking {
  import opened Requests
  import opened Server
  import opened Scheduler
  import opened Census
  import opened ServerInvariant

  lemma StepPlaces(options: ServerOptions, s: State, step: Step, s': State)
    requires Inv(options, s) && Next(options, s, step, s')
    ensures step.Pick? || step.Finish? ==>
              && Moves(s, step) && Source(options, s, step) in Places(s)
              && Places(s') == Places(s) - multiset{Source(options, s, step)} + multiset{Target(options, s, step)}
    ensures !(step.Pick? || step.Finish? || step.Admit?) ==> Places(s') == Places(s)
    ensures step.Admit? ==>
              && Understood(step.stream, step.a)
              && Places(s') == Places(s) + multiset{Waiting(NewRequest(s.nextId, step.a, step.stream, step.now))}
  {
    match step
    case Admit(_, _, _) => AdmitPlaces(options, s, step, s');
    case Pick(_, _) => PickPlaces(options, s, step, s');
    case Finish(_, _, _, _, _, _, _, _) => FinishPlaces(options, s, step, s');
    case _ => ExitPlaces(options, s, step, s');
  }

  lemma TargetIsSame(options: ServerOptions, s: State, step: Step, s': State)
    requires Moves(s, step) && PlaceOk(options, s, Source(options, s, step))
    requires step.Finish? ==> Finishes(options, s, step, s')
    ensures var (p, q) := (Source(options, s, step), Target(options, s, step));
            && p.IsLive() && q.Id() == p.Id() && q.Request().fileName == p.Request().fileName
            && q.Request().op == p.Request().op
            && q.Request().rounds == p.Request().rounds + (if step.Pick? then 1 else 0)
            && q.Request().total == p.Request().total
  {
    if step.Finish? {
      FinishedRound(options, s, step, s');
    }
  }

  lemma SourceOk(options: ServerOptions, s: State, step: Step, s': State)
    requires Inv(options, s) && Next(options, s, step, s') && (step.Pick? || step.Finish?)
    ensures Moves(s, step) && PlaceOk(options, s, Source(options, s, step))
  {
    StepPlaces(options, s, step, s');
  }

  /** Picking or finishing moves one live request, which keeps its name and is picked once more
      or not. */
  lemma StepMoves(options: ServerOptions, s: State, step: Step, s': State)
    requires Inv(options, s) && Next(options, s, step, s') && (step.Pick? || step.Finish?)
    ensures Moves(s, step)
    ensures MovesPlace(s, s', Source(options, s, step), Target(options, s, step), if step.Pick? then 1 else 0)
  {
    StepPlaces(options, s, step, s');
    SourceOk(options, s, step, s');
    TargetIsSame(options, s, step, s');
  }

  ghost predicate MovesPlace(s: State, s': State, p: Place, q: Place, picks: nat) {
    && p in Places(s) && p.IsLive() && q.Id() == p.Id()
    && q.Request().fileName == p.Request().fileName && q.Request().op == p.Request().op
    && q.Request().rounds == p.Request().rounds + picks && q.Request().total == p.Request().total
    && Places(s') == Places(s) - multiset{p} + multiset{q}
  }

  // What the parser recorded about a request stays as recorded.
  lemma StepKeepsAdmission(options: ServerOptions, s: State, step: Step, s': State, id: nat)
    requires Inv(options, s) && Next(options, s, step, s') && id in s.admitted
    ensures id in s'.admitted && s'.admitted[id] == s.admitted[id]
  {
    if step.Finish? {
      FinishFrame(s, step, s');
    } else if step.Pick? {
      PickFrame(options, s, step, s');
    } else if step.Admit? {
      AdmitFrame(options, s, step, s');
    }
  }

  lemma {:induction false} AdmissionsPersist(options: ServerOptions, run: Run, i: nat, j: nat, id: nat)
    requires run.FromInit(options) && i <= j < |run.states| && id in run.states[i].admitted
    ensures id in run.states[j].admitted && run.states[j].admitted[id] == run.states[i].admitted[id]
  {
    if i < j {
      AdmissionsPersist(options, run, i, j - 1, id);
      RunKeeps(options, run, j - 1);
      assert run.StepAt(options, j - 1);
      StepKeepsAdmission(options, run.states[j - 1], run.steps[j - 1], run.states[j], id);
    }
  }

  // A step leaves the record and the socket of every request alone but the one whose round ends.
  lemma StepFrame(options: ServerOptions, s: State, step: Step, s': State, id: nat)
    requires LateQueue(s) && Next(options, s, step, s') && id < s.nextId
    requires step.Finish? ==> s.workers[step.w].r.id != id
    ensures SameFor(s, s', id)
  {
    if step.Finish? {
      FinishFrame(s, step, s');
    } else if step.Pick? {
      PickFrame(options, s, step, s');
    } else if step.Admit? {
      AdmitFrame(options, s, step, s');
    }
  }

  lemma StaysPut(all: multiset<Place>, n: nat, p: Place, q: Place, x: Place)
    requires OncePerId(all, n) && p in all && x in all && p.IsLive() && !x.IsLive()
    ensures x in all - multiset{p} + multiset{q} && x.Id() != p.Id()
  {
  }

  lemma DepartedPlace(options: ServerOptions, s: State, step: Step, s': State, p: Place)
    requires Inv(options, s) && Next(options, s, step, s') && p in Places(s) && !p.IsLive()
    ensures p in Places(s') && (step.Finish? ==> s.workers[step.w].r.id != p.Id())
  {
    if step.Pick? || step.Finish? {
      StepMoves(options, s, step, s');
      StaysPut(Places(s), s.nextId, Source(options, s, step), Target(options, s, step), p);
    } else {
      StepPlaces(options, s, step, s');
    }
  }

  ghost predicate DepartedAt(run: Run, i: nat, p: Place)
    requires i < |run.states|
  {
    p in Places(run.states[i]) && !p.IsLive()
  }

  lemma DepartedStep(options: ServerOptions, run: Run, k: nat, p: Place)
    requires run.FromInit(options) && k < |run.steps| && DepartedAt(run, k, p)
    ensures DepartedAt(run, k + 1, p)
  {
    RunKeeps(options, run, k);
    assert run.StepAt(options, k);
    DepartedPlace(options, run.states[k], run.steps[k], run.states[k + 1], p);
  }

  lemma DepartedSocketStep(options: ServerOptions, run: Run, k: nat, p: Place)
    requires run.FromInit(options) && k < |run.steps| && DepartedAt(run, k, p)
    ensures SameFor(run.states[k], run.states[k + 1], p.Id())
  {
    RunKeeps(options, run, k);
    assert run.StepAt(options, k);
    DepartedPlace(options, run.states[k], run.steps[k], run.states[k + 1], p);
    StepFrame(options, run.states[k], run.steps[k], run.states[k + 1], p.Id());
  }

  lemma SameForTransitive(s: State, t: State, u: State, id: nat)
    requires SameFor(s, t, id) && SameFor(t, u, id)
    ensures SameFor(s, u, id)
  {
  }

  /** A request that was completed or failed is never served again, and its socket is never
      touched again. */
  lemma {:induction false} DepartedForever(options: ServerOptions, run: Run, i: nat, j: nat, p: Place)
    requires run.FromInit(options) && i <= j < |run.states| && DepartedAt(run, i, p)
    ensures DepartedAt(run, j, p) && SameFor(run.states[i], run.states[j], p.Id())
    decreases j - i
  {
    hide Places;
    if i < j {
      DepartedStep(options, run, i, p);
      DepartedSocketStep(options, run, i, p);
      DepartedForever(options, run, i + 1, j, p);
      SameForTransitive(run.states[i], run.states[i + 1], run.states[j], p.Id());
    }
  }

  // The step ends a round by putting the request back into the queue.
  predicate Requeues(step: Step, id: nat) {
    step.Finish? && step.ok && step.r'.transferred < step.r'.total && step.r'.id == id
  }

  // How many of the first `j` steps did so.
  function RequeuesIn(run: Run, j: nat, id: nat): nat
    requires j <= |run.steps|
  {
    if j == 0 then 0 else RequeuesIn(run, j - 1, id) + if Requeues(run.steps[j - 1], id) then 1 else 0
  }

  // The rounds a request has behind it that did not end its life.
  function RoundsBehind(p: Place): int {
    p.Request().rounds - if p.Waiting? then 0 else 1
  }

  lemma NewIsNotRequeued(options: ServerOptions, s: State, step: Step, s': State, id: nat)
    requires Inv(options, s) && Next(options, s, step, s') && id >= s'.nextId
    ensures !Requeues(step, id) && id >= s.nextId
  {
    if step.Finish? {
      StepMoves(options, s, step, s');
      FinishFrame(s, step, s');
      assert Source(options, s, step).Id() < s.nextId;
    } else if step.Pick? {
      PickFrame(options, s, step, s');
    }
  }

  lemma {:induction false} NeverRequeuedBefore(options: ServerOptions, run: Run, j: nat, id: nat)
    requires run.FromInit(options) && j < |run.states| && id >= run.states[j].nextId
    ensures RequeuesIn(run, j, id) == 0
  {
    if j > 0 {
      RunKeeps(options, run, j - 1);
      assert run.StepAt(options, j - 1);
      NewIsNotRequeued(options, run.states[j - 1], run.steps[j - 1], run.states[j], id);
      NeverRequeuedBefore(options, run, j - 1, id);
    }
  }

  lemma MoveCounts(options: ServerOptions, s: State, step: Step, id: nat)
    requires Moves(s, step)
    requires var (p, q) := (Source(options, s, step), Target(options, s, step));
             q.Id() == p.Id() && q.Request().rounds == p.Request().rounds + if step.Pick? then 1 else 0
    ensures var (p, q) := (Source(options, s, step), Target(options, s, step));
            && RoundsBehind(q) == RoundsBehind(p) + (if Requeues(step, p.Id()) then 1 else 0)
            && (id != p.Id() ==> !Requeues(step, id))
  {
  }

  // Where a request was one step before, unless the step admitted it.
  lemma PlaceBefore(options: ServerOptions, s: State, step: Step, s': State, p: Place) returns (p0: Place)
    requires Inv(options, s) && Next(options, s, step, s') && p in Places(s') && p.Id() < s.nextId
    ensures p0 in Places(s) && p0.Id() == p.Id()
    ensures RoundsBehind(p) == RoundsBehind(p0) + if Requeues(step, p.Id()) then 1 else 0
  {
    if step.Pick? || step.Finish? {
      StepMoves(options, s, step, s');
      hide Places, Next, Source, Target, PlaceOk;
      MoveCounts(options, s, step, p.Id());
      p0 := BeforeMove(s, Source(options, s, step), Target(options, s, step), p);
    } else {
      StepPlaces(options, s, step, s');
      p0 := p;
    }
  }

  lemma BeforeMove(s: State, p: Place, q: Place, x: Place) returns (x0: Place)
    requires OncePerId(Places(s), s.nextId) && p in Places(s) && q.Id() == p.Id()
    requires x in Places(s) - multiset{p} + multiset{q}
    ensures x0 in Places(s) && x0.Id() == x.Id()
    ensures x0 == if x == q then p else x
    ensures x != q ==> x.Id() != p.Id()
  {
    x0 := if x == q then p else x;
  }

  lemma PlaceBeforeAt(options: ServerOptions, run: Run, k: nat, p: Place) returns (p0: Place)
    requires run.FromInit(options) && k < |run.steps| && p in Places(run.states[k + 1]) && p.Id() < run.states[k].nextId
    ensures p0 in Places(run.states[k]) && p0.Id() == p.Id()
    ensures RoundsBehind(p) == RoundsBehind(p0) + if Requeues(run.steps[k], p.Id()) then 1 else 0
  {
    RunKeeps(options, run, k);
    assert run.StepAt(options, k);
    p0 := PlaceBefore(options, run.states[k], run.steps[k], run.states[k + 1], p);
  }

  lemma NewlyAdmittedAt(options: ServerOptions, run: Run, k: nat, p: Place)
    requires run.FromInit(options) && k < |run.steps| && p in Places(run.states[k + 1])
    requires p.Id() >= run.states[k].nextId
    ensures RoundsBehind(p) == 0 && !Requeues(run.steps[k], p.Id())
  {
    RunKeeps(options, run, k);
    assert run.StepAt(options, k);
    NewlyAdmitted(options, run.states[k], run.steps[k], run.states[k + 1], p);
  }

  lemma NewlyAdmitted(options: ServerOptions, s: State, step: Step, s': State, p: Place)
    requires Inv(options, s) && Next(options, s, step, s') && p in Places(s') && p.Id() >= s.nextId
    ensures step.Admit? && p.Waiting? && p.r.rounds == 0
  {
    StepPlaces(options, s, step, s');
    if step.Pick? || step.Finish? {
      StepMoves(options, s, step, s');
      var p0 := BeforeMove(s, Source(options, s, step), Target(options, s, step), p);
    }
  }

  /** The `rounds` of a request count the steps that put it back into the queue, and the round it is
      in or left with. */
  lemma {:induction false} RequeuesAreRounds(options: ServerOptions, run: Run, j: nat, p: Place)
    requires run.FromInit(options) && j < |run.states| && p in Places(run.states[j])
    ensures RequeuesIn(run, j, p.Id()) == RoundsBehind(p)
  {
    hide Places, RoundsBehind, Requeues, Next;
    if j == 0 {
      InitPlaces(run.states[0]);
    } else {
      if p.Id() < run.states[j - 1].nextId {
        var p0 := PlaceBeforeAt(options, run, j - 1, p);
        RequeuesAreRounds(options, run, j - 1, p0);
      } else {
        NewlyAdmittedAt(options, run, j - 1, p);
        NeverRequeuedBefore(options, run, j - 1, p.Id());
      }
    }
  }

  // A run and one more step.
  lemma Extended(options: ServerOptions, run: Run, step: Step, s': State) returns (run': Run)
    requires run.FromInit(options) && Next(options, run.states[|run.states| - 1], step, s')
    ensures run'.FromInit(options) && run'.states == run.states + [s'] && run'.steps == run.steps + [step]
  {
    run' := Run(run.states + [s'], run.steps + [step]);
    forall i | 0 <= i < |run'.steps| ensures run'.StepAt(options, i) {
      if i < |run.steps| {
        assert run.StepAt(options, i);
      }
    }
  }
}
