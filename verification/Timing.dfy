/** The times a request reports (src/server.cpp), over whole runs: when it was admitted, when a worker
    first took it, and when its last round ended. */
module Timing {
  import opened Requests
  import opened Scheduler
  import opened Server
  import opened Lifecycle
  import opened Census
  import opened ServerInvariant
  import opened Tracking

  // The step gave out this id.
  predicate AdmitsIt(run: Run, k: nat, id: nat)
    requires k < |run.steps| && k < |run.states|
  {
    run.steps[k].Admit? && run.states[k].nextId == id
  }

  // After the step, a worker that picked is at work on the request.
  predicate TakesIt(run: Run, k: nat, id: nat)
    requires k < |run.steps| && k + 1 < |run.states|
  {
    run.steps[k].Pick? && WorksOn(run.states[k + 1], run.steps[k].w, id)
  }

  // Before the step, the worker whose round ends was at work on the request.
  predicate EndsRoundOf(run: Run, k: nat, id: nat)
    requires k < |run.steps| && k < |run.states|
  {
    run.steps[k].Finish? && WorksOn(run.states[k], run.steps[k].w, id)
  }

  predicate WorksOn(s: State, w: nat, id: nat) {
    w < |s.workers| && s.workers[w].Serving? && s.workers[w].r.id == id
  }

  // How many of the first `j` steps took it.
  function TimesTaken(run: Run, j: nat, id: nat): nat
    requires j <= |run.steps| < |run.states|
  {
    if j == 0 then 0 else TimesTaken(run, j - 1, id) + if TakesIt(run, j - 1, id) then 1 else 0
  }

  // Step `k` was the first to take it.
  ghost predicate FirstTaken(run: Run, j: nat, id: nat, k: nat)
    requires j <= |run.steps| < |run.states|
  {
    k < j && TakesIt(run, k, id) && TimesTaken(run, k, id) == 0
  }

  // Of the first `j` steps, `k` was the last to end a round of it.
  ghost predicate LastEnded(run: Run, j: nat, id: nat, k: nat)
    requires j <= |run.steps| < |run.states|
  {
    k < j && EndsRoundOf(run, k, id) && forall m :: k < m < j ==> !EndsRoundOf(run, m, id)
  }

  /** The times of a place and the steps that set them. */
  ghost predicate Stamped(run: Run, j: nat, p: Place, a: nat, k: nat, m: nat)
    requires j <= |run.steps| < |run.states|
  {
    var (r, id) := (p.Request(), p.Id());
    && a < j && AdmitsIt(run, a, id) && r.arrival == run.steps[a].now
    && r.rounds == TimesTaken(run, j, id)
    && (r.rounds > 0 ==> FirstTaken(run, j, id, k) && r.start == run.steps[k].now)
    && (!p.IsLive() ==> LastEnded(run, j, id, m) && p.d.finish == run.steps[m].now)
  }

  // Where a request was one step before, and what the step did to its times.
  lemma TimesBefore(options: ServerOptions, s: State, step: Step, s': State, p: Place) returns (p0: Place)
    requires Inv(options, s) && Next(options, s, step, s') && p in Places(s') && p.Id() < s.nextId
    ensures p0 in Places(s) && p0.Id() == p.Id() && p.Request().arrival == p0.Request().arrival
    ensures if step.Pick? && WorksOn(s', step.w, p.Id())
            then p.Request() == Picked(p0.Request(), step.now) && p.IsLive()
            else p.Request().rounds == p0.Request().rounds && p.Request().start == p0.Request().start
    ensures if step.Finish? && WorksOn(s, step.w, p.Id()) then !p.IsLive() ==> p.d.finish == step.now
            else !p.IsLive() ==> p0 == p
  {
    if step.Pick? || step.Finish? {
      StepMoves(options, s, step, s');
      SourceOk(options, s, step, s');
      MoveStamps(options, s, step, s');
      hide Places, Next, PlaceOk;
      p0 := BeforeMove(s, Source(options, s, step), Target(options, s, step), p);
    } else {
      StepPlaces(options, s, step, s');
      p0 := p;
    }
  }

  lemma MoveStamps(options: ServerOptions, s: State, step: Step, s': State)
    requires Next(options, s, step, s') && Moves(s, step) && PlaceOk(options, s, Source(options, s, step))
    ensures var (p, q) := (Source(options, s, step), Target(options, s, step));
            && q.Request().arrival == p.Request().arrival
            && (step.Pick? ==> q.InRound? && q.r == Picked(p.Request(), step.now) && s'.workers[step.w] == Serving(q.r))
            && (step.Finish? ==> q.Request().rounds == p.Request().rounds && q.Request().start == p.Request().start)
            && (step.Finish? && !q.IsLive() ==> q.d.finish == step.now)
  {
    if step.Finish? {
      FinishedRound(options, s, step, s');
    }
  }

  lemma TimesBeforeAt(options: ServerOptions, run: Run, j: nat, p: Place) returns (p0: Place)
    requires run.FromInit(options) && j < |run.steps| && p in Places(run.states[j + 1])
    requires p.Id() < run.states[j].nextId
    ensures p0 in Places(run.states[j]) && p0.Id() == p.Id() && p.Request().arrival == p0.Request().arrival
    ensures if TakesIt(run, j, p.Id()) then p.Request() == Picked(p0.Request(), run.steps[j].now) && p.IsLive()
            else p.Request().rounds == p0.Request().rounds && p.Request().start == p0.Request().start
    ensures if EndsRoundOf(run, j, p.Id()) then !p.IsLive() ==> p.d.finish == run.steps[j].now
            else !p.IsLive() ==> p0 == p
  {
    RunKeeps(options, run, j);
    assert run.StepAt(options, j);
    p0 := TimesBefore(options, run.states[j], run.steps[j], run.states[j + 1], p);
  }

  // An id is taken only once it is given out.
  lemma TakenIsKnown(options: ServerOptions, run: Run, k: nat, id: nat)
    requires run.FromInit(options) && k < |run.steps| && TakesIt(run, k, id)
    ensures id < run.states[k + 1].nextId
  {
    var w := run.steps[k].w;
    var p := InRound(run.states[k + 1].workers[w].r);
    RunKeeps(options, run, k + 1);
    PlacesAreReal(run.states[k + 1], p);
  }

  lemma IdsGrow(options: ServerOptions, run: Run, k: nat)
    requires run.FromInit(options) && k < |run.steps|
    ensures run.states[k].nextId <= run.states[k + 1].nextId
  {
    assert run.StepAt(options, k);
    NextIdGrows(options, run.states[k], run.steps[k], run.states[k + 1]);
  }

  lemma NextIdGrows(options: ServerOptions, s: State, step: Step, s': State)
    requires Next(options, s, step, s')
    ensures s.nextId <= s'.nextId
  {
    if step.Finish? {
      assert s' == AfterRound(s, step);
    }
  }

  lemma {:induction false} NotTakenBefore(options: ServerOptions, run: Run, j: nat, id: nat)
    requires run.FromInit(options) && j < |run.states| && id >= run.states[j].nextId
    ensures TimesTaken(run, j, id) == 0
  {
    hide TakesIt;
    if j > 0 {
      IdsGrow(options, run, j - 1);
      NotTakenBefore(options, run, j - 1, id);
      if TakesIt(run, j - 1, id) {
        TakenIsKnown(options, run, j - 1, id);
      }
    }
  }

  lemma AdmittedNow(options: ServerOptions, run: Run, j: nat, p: Place)
    requires run.FromInit(options) && j < |run.steps| && p in Places(run.states[j + 1])
    requires p.Id() >= run.states[j].nextId
    ensures AdmitsIt(run, j, p.Id()) && p.IsLive() && p.Request().rounds == 0
    ensures p.Request().arrival == run.steps[j].now && TimesTaken(run, j + 1, p.Id()) == 0
  {
    RunKeeps(options, run, j);
    assert run.StepAt(options, j);
    NotTakenBefore(options, run, j, p.Id());
    NewlyAdmitted(options, run.states[j], run.steps[j], run.states[j + 1], p);
    AdmittedPlace(options, run.states[j], run.steps[j], run.states[j + 1], p);
  }

  lemma AdmittedPlace(options: ServerOptions, s: State, step: Step, s': State, p: Place)
    requires Inv(options, s) && step.Admit? && Next(options, s, step, s') && p in Places(s') && p.Id() >= s.nextId
    ensures p.Id() == s.nextId && p.Request().arrival == step.now
  {
    StepPlaces(options, s, step, s');
    assert p !in Places(s);
  }

  /** For any number of workers and any policy: the arrival of a request is the time of the step that
      admitted it, its rounds are the picks that took it, its start is the time of the first of them,
      and its finish, once it is completed or failed, that of the step that ended its last round. */
  lemma {:induction false} TimesAreStamped(options: ServerOptions, run: Run, j: nat, p: Place)
    returns (a: nat, k: nat, m: nat)
    requires run.FromInit(options) && j < |run.states| && p in Places(run.states[j])
    ensures Stamped(run, j, p, a, k, m)
  {
    hide Places, TakesIt, EndsRoundOf, Next, Inv, AdmitsIt;
    a, k, m := 0, 0, 0;
    if j == 0 {
      InitPlaces(run.states[0]);
    } else if p.Id() >= run.states[j - 1].nextId {
      AdmittedNow(options, run, j - 1, p);
      a := j - 1;
    } else {
      var p0 := TimesBeforeAt(options, run, j - 1, p);
      a, k, m := TimesAreStamped(options, run, j - 1, p0);
      if TakesIt(run, j - 1, p.Id()) && p0.Request().rounds == 0 {
        k := j - 1;
      }
      if EndsRoundOf(run, j - 1, p.Id()) {
        m := j - 1;
      }
    }
  }
}
