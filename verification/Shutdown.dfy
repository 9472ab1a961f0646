/** Conservation of requests, and what is left when the server has shut down. */
module Shutdown {
  import opened Requests
  import opened Server
  import opened Scheduler
  import opened Census
  import opened ServerInvariant

  lemma {:induction false} BagSize<T>(s: seq<T>, places: T -> multiset<Place>)
    requires forall x: T :: |places(x)| == 1
    ensures |Bag(s, places)| == |s|
  {
    if s != [] {
      BagSize(s[1..], places);
    }
  }

  // Distinct ids 1, ..., n - 1 are n - 1 places.
  lemma {:induction false} OncePerIdSize(all: multiset<Place>, n: nat)
    requires n >= 1 && OncePerId(all, n)
    ensures |all| == n - 1
  {
    if n == 1 {
      assert all == multiset{};
    } else {
      assert HasPlace(all, n - 1);
      var p :| p in all && p.Id() == n - 1;
      var rest := all - multiset{p};
      forall id | 1 <= id < n - 1 ensures HasPlace(rest, id) {
        assert HasPlace(all, id);
        var x :| x in all && x.Id() == id;
        assert x in rest;
      }
      OncePerIdSize(rest, n - 1);
    }
  }

  /** Conservation: at every reachable state each id handed out is in exactly one place, once, and
      queue, rounds in flight, completed and failed add up to the requests admitted. */
  lemma Conservation(options: ServerOptions, run: Run, j: nat)
    requires run.FromInit(options) && j < |run.states|
    ensures var s := run.states[j];
            && s.nextId >= 1 && OncePerId(Places(s), s.nextId)
            && |s.queue| + InFlightCount(s) + |s.completed| + |s.failed| == s.nextId - 1
  {
    var s := run.states[j];
    RunKeeps(options, run, j);
    OncePerIdSize(Places(s), s.nextId);
    BagSize(s.queue, OfQueue);
    BagSize(s.completed, OfCompleted);
    BagSize(s.failed, OfFailed);
  }

  // Some worker is still there at every admission before state `j`.
  ghost predicate AdmitsWhileServed(run: Run, j: nat) {
    forall i :: 0 <= i < j && i < |run.steps| && i < |run.states| && run.steps[i].Admit? ==> !AllExited(run.states[i])
  }

  lemma LateStep(options: ServerOptions, s: State, step: Step, s': State)
    requires Next(options, s, step, s')
    ensures s'.late == [] <==> s.late == [] && !(step.Admit? && AllExited(s))
  {
    if step.Finish? {
      assert s' == AfterRound(s, step);
    }
  }

  lemma {:induction false} LateMeansUnserved(options: ServerOptions, run: Run, j: nat)
    requires run.FromInit(options) && j < |run.states|
    ensures run.states[j].late == [] <==> AdmitsWhileServed(run, j)
  {
    if j > 0 {
      LateMeansUnserved(options, run, j - 1);
      assert run.StepAt(options, j - 1);
      LateStep(options, run.states[j - 1], run.steps[j - 1], run.states[j]);
      if AdmitsWhileServed(run, j) {
        assert AdmitsWhileServed(run, j - 1);
      } else {
        var i :| 0 <= i < j && run.steps[i].Admit? && AllExited(run.states[i]);
        assert i < j - 1 ==> !AdmitsWhileServed(run, j - 1);
      }
    }
  }

  predicate Final(s: State) {
    s.parserDone && AllExited(s)
  }

  // The request was answered or given up.
  ghost predicate Settled(s: State, id: nat) {
    exists d :: (d in s.completed || d in s.failed) && d.r.id == id
  }

  /** Shutdown drains the server just when every admission happened while some worker had not
      exited; then every request ever admitted has been completed or has failed. */
  lemma ShutdownDrains(options: ServerOptions, run: Run, j: nat)
    requires run.FromInit(options) && j < |run.states| && Final(run.states[j])
    ensures run.states[j].queue == [] <==> AdmitsWhileServed(run, j)
    ensures AdmitsWhileServed(run, j) <==> forall id :: 1 <= id < run.states[j].nextId ==> Settled(run.states[j], id)
  {
    var s := run.states[j];
    RunKeeps(options, run, j);
    LateMeansUnserved(options, run, j);
    if s.queue == [] {
      forall id | 1 <= id < s.nextId ensures Settled(s, id) {
        OnlyDeparted(options, s, id);
      }
    } else {
      StrandedIsUnsettled(options, s, s.queue[0]);
    }
  }

  lemma OnlyDeparted(options: ServerOptions, s: State, id: nat)
    requires Inv(options, s) && AllExited(s) && s.queue == [] && 1 <= id < s.nextId
    ensures Settled(s, id)
  {
    assert HasPlace(Places(s), id);
    var p :| p in Places(s) && p.Id() == id;
    PlacesAreReal(s, p);
  }

  lemma StrandedIsUnsettled(options: ServerOptions, s: State, r: Admitted)
    requires Inv(options, s) && r in s.queue
    ensures 1 <= r.id < s.nextId && !Settled(s, r.id)
  {
    PlacesAreReal(s, Waiting(r));
    if Settled(s, r.id) {
      var d :| (d in s.completed || d in s.failed) && d.r.id == r.id;
      PlacesAreReal(s, Done(d));
      PlacesAreReal(s, Lost(d));
      assert false;
    }
  }

  lemma StrandedStep(options: ServerOptions, s: State, step: Step, s': State)
    requires AllExited(s) && Next(options, s, step, s')
    ensures AllExited(s') && s.queue <= s'.queue && s'.completed == s.completed && s'.failed == s.failed
  {
  }

  lemma StrandedAt(options: ServerOptions, run: Run, j: nat, r: Admitted)
    requires run.FromInit(options) && j < |run.states| && r in run.states[j].queue
    ensures !Settled(run.states[j], r.id)
  {
    RunKeeps(options, run, j);
    StrandedIsUnsettled(options, run.states[j], r);
  }

  lemma {:induction false} StrandedStays(options: ServerOptions, run: Run, i: nat, j: nat)
    requires run.FromInit(options) && i <= j < |run.states| && AllExited(run.states[i])
    ensures AllExited(run.states[j]) && run.states[i].queue <= run.states[j].queue
  {
    if i < j {
      StrandedStays(options, run, i, j - 1);
      assert run.StepAt(options, j - 1);
      StrandedStep(options, run.states[j - 1], run.steps[j - 1], run.states[j]);
    }
  }

  /** Nothing serves a stranded request: once all workers have exited, what waits in the queue waits in
      it for the rest of the run, in its place, and is never completed or failed. */
  lemma StrandedForever(options: ServerOptions, run: Run, i: nat, j: nat, r: Admitted)
    requires run.FromInit(options) && i <= j < |run.states| && AllExited(run.states[i]) && r in run.states[i].queue
    ensures AllExited(run.states[j]) && run.states[i].queue <= run.states[j].queue
    ensures r in run.states[j].queue && !Settled(run.states[j], r.id)
  {
    StrandedStays(options, run, i, j);
    StrandedAt(options, run, j, r);
  }
}
