/** Where every admitted request is: waiting in the queue, in a round, completed or failed. */
module Census {
  import opened Requests
  import opened Scheduler
  import opened Server

  datatype Place = Waiting(r: Admitted) | InRound(r: Admitted) | Done(d: Departed) | Lost(d: Departed) {
    function Request(): Admitted {
      if Waiting? || InRound? then r else d.r
    }

    function Id(): nat {
      Request().id
    }

    predicate IsLive() {
      Waiting? || InRound?
    }
  }

  function Bag<T>(s: seq<T>, places: T -> multiset<Place>): multiset<Place> {
    if s == [] then multiset{} else places(s[0]) + Bag(s[1..], places)
  }

  function OfQueue(r: Admitted): multiset<Place> {
    multiset{Waiting(r)}
  }

  function OfWorker(w: Worker): multiset<Place> {
    if w.Serving? then multiset{InRound(w.r)} else multiset{}
  }

  function OfCompleted(d: Departed): multiset<Place> {
    multiset{Done(d)}
  }

  function OfFailed(d: Departed): multiset<Place> {
    multiset{Lost(d)}
  }

  // Every request the server has admitted, by place.
  function Places(s: State): multiset<Place> {
    Bag(s.queue, OfQueue) + Bag(s.workers, OfWorker) + Bag(s.completed, OfCompleted) + Bag(s.failed, OfFailed)
  }

  // The number of rounds in flight.
  function InFlightCount(s: State): nat {
    |Bag(s.workers, OfWorker)|
  }

  lemma {:induction false} BagConcat<T>(s: seq<T>, t: seq<T>, places: T -> multiset<Place>)
    ensures Bag(s + t, places) == Bag(s, places) + Bag(t, places)
  {
    if s == [] {
      assert s + t == t;
    } else {
      assert (s + t)[1..] == s[1..] + t;
      BagConcat(s[1..], t, places);
    }
  }

  lemma BagAppend<T>(s: seq<T>, x: T, places: T -> multiset<Place>)
    ensures Bag(s + [x], places) == Bag(s, places) + places(x)
  {
    BagConcat(s, [x], places);
    assert [x][1..] == [];
  }

  lemma BagSplit<T>(s: seq<T>, i: nat, places: T -> multiset<Place>)
    requires i < |s|
    ensures Bag(s, places) == Bag(s[..i], places) + places(s[i]) + Bag(s[i + 1..], places)
  {
    assert s == s[..i] + s[i..];
    BagConcat(s[..i], s[i..], places);
    assert s[i..][1..] == s[i + 1..];
  }

  lemma BagWithout<T>(s: seq<T>, i: nat, places: T -> multiset<Place>)
    requires i < |s|
    ensures Bag(s, places) == Bag(Without(s, i), places) + places(s[i])
  {
    BagSplit(s, i, places);
    BagConcat(s[..i], s[i + 1..], places);
  }

  lemma BagUpdate<T>(s: seq<T>, i: nat, x: T, places: T -> multiset<Place>)
    requires i < |s|
    ensures Bag(s[i := x], places) + places(s[i]) == Bag(s, places) + places(x)
  {
    BagSplit(s, i, places);
    BagSplit(s[i := x], i, places);
    assert s[i := x][..i] == s[..i] && s[i := x][i + 1..] == s[i + 1..];
  }

  lemma {:induction false} BagMember<T>(s: seq<T>, places: T -> multiset<Place>, p: Place)
    ensures p in Bag(s, places) <==> exists i :: 0 <= i < |s| && p in places(s[i])
  {
    if s != [] {
      BagMember(s[1..], places, p);
      if i :| 0 <= i < |s| && p in places(s[i]) {
        assert i > 0 ==> s[1..][i - 1] == s[i];
      }
    }
  }

  // Two positions count twice.
  lemma BagTwice(queue: seq<Admitted>, i: nat, j: nat)
    requires i < j < |queue| && queue[i] == queue[j]
    ensures Bag(queue, OfQueue)[Waiting(queue[i])] >= 2
  {
    BagWithout(queue, j, OfQueue);
    BagMember(Without(queue, j), OfQueue, Waiting(queue[i]));
    assert Without(queue, j)[i] == queue[i];
  }

  lemma QueueMember(queue: seq<Admitted>, p: Place)
    ensures p in Bag(queue, OfQueue) <==> p.Waiting? && p.r in queue
  {
    BagMember(queue, OfQueue, p);
  }

  lemma WorkerMember(workers: seq<Worker>, p: Place)
    ensures p in Bag(workers, OfWorker) <==> p.InRound? && Serving(p.r) in workers
  {
    BagMember(workers, OfWorker, p);
  }

  lemma CompletedMember(completed: seq<Departed>, p: Place)
    ensures p in Bag(completed, OfCompleted) <==> p.Done? && p.d in completed
  {
    BagMember(completed, OfCompleted, p);
  }

  lemma FailedMember(failed: seq<Departed>, p: Place)
    ensures p in Bag(failed, OfFailed) <==> p.Lost? && p.d in failed
  {
    BagMember(failed, OfFailed, p);
  }

  // A place is counted just when the server's own lists have it.
  lemma PlacesAreReal(s: State, p: Place)
    ensures p in Places(s) <==>
            match p
            case Waiting(r) => r in s.queue
            case InRound(r) => Serving(r) in s.workers
            case Done(d) => d in s.completed
            case Lost(d) => d in s.failed
  {
    QueueMember(s.queue, p);
    WorkerMember(s.workers, p);
    CompletedMember(s.completed, p);
    FailedMember(s.failed, p);
  }

  lemma InitPlaces(s: State)
    requires Init(s)
    ensures Places(s) == multiset{}
  {
    forall p ensures p !in Places(s) {
      PlacesAreReal(s, p);
    }
  }

  // The steps that take an admitted request from one place to another.
  predicate Moves(s: State, step: Step) {
    (step.Pick? && s.queue != []) || (step.Finish? && step.w < |s.workers| && s.workers[step.w].Serving?)
  }

  // The place a step takes a request from and the one it puts it in.
  function Source(options: ServerOptions, s: State, step: Step): Place
    requires Moves(s, step)
  {
    if step.Pick? then Waiting(s.queue[Selected(options.scheduler, s.queue)]) else InRound(s.workers[step.w].r)
  }

  function AfterRoundPlace(r: Admitted, step: Step): Place
    requires step.Finish?
  {
    if !step.ok then Lost(Departed(r, step.now, step.stored', step.written))
    else if step.r'.transferred < step.r'.total then Waiting(step.r')
    else Done(Departed(step.r', step.now, step.stored', step.written))
  }

  function Target(options: ServerOptions, s: State, step: Step): Place
    requires Moves(s, step)
  {
    if step.Pick? then InRound(Picked(s.queue[Selected(options.scheduler, s.queue)], step.now))
    else AfterRoundPlace(s.workers[step.w].r, step)
  }

  lemma AdmitPlaces(options: ServerOptions, s: State, step: Step, s': State)
    requires step.Admit? && Admits(options, s, step, s')
    ensures Places(s') == Places(s) + multiset{Waiting(NewRequest(s.nextId, step.a, step.stream, step.now))}
  {
    BagAppend(s.queue, NewRequest(s.nextId, step.a, step.stream, step.now), OfQueue);
  }

  lemma WorkerPlaces(workers: seq<Worker>, w: nat, x: Worker)
    requires w < |workers|
    ensures Bag(workers[w := x], OfWorker) + OfWorker(workers[w]) == Bag(workers, OfWorker) + OfWorker(x)
  {
    BagUpdate(workers, w, x, OfWorker);
  }

  lemma FreeWorkerPlaces(workers: seq<Worker>, w: nat, x: Worker)
    requires w < |workers| && !workers[w].Serving? && !x.Serving?
    ensures Bag(workers[w := x], OfWorker) == Bag(workers, OfWorker)
  {
    WorkerPlaces(workers, w, x);
    assert OfWorker(workers[w]) == multiset{} == OfWorker(x);
    assert Bag(workers[w := x], OfWorker) + multiset{} == Bag(workers[w := x], OfWorker);
    assert Bag(workers, OfWorker) + multiset{} == Bag(workers, OfWorker);
  }

  lemma WorkerTakes(workers: seq<Worker>, w: nat, r: Admitted)
    requires w < |workers| && !workers[w].Serving?
    ensures Bag(workers[w := Serving(r)], OfWorker) == Bag(workers, OfWorker) + multiset{InRound(r)}
  {
    WorkerPlaces(workers, w, Serving(r));
    assert OfWorker(workers[w]) == multiset{};
    assert Bag(workers[w := Serving(r)], OfWorker) + multiset{} == Bag(workers[w := Serving(r)], OfWorker);
  }

  lemma WorkerReleases(workers: seq<Worker>, w: nat)
    requires w < |workers| && workers[w].Serving?
    ensures Bag(workers, OfWorker) == Bag(workers[w := Idle], OfWorker) + multiset{InRound(workers[w].r)}
  {
    WorkerTakes(workers[w := Idle], w, workers[w].r);
    assert workers[w := Idle][w := workers[w]] == workers;
  }

  // A step that takes one place out of one list and puts one into another.
  lemma Exchange(a: multiset<Place>, a': multiset<Place>, b: multiset<Place>, b': multiset<Place>,
                 rest: multiset<Place>, p: Place, q: Place)
    requires a == a' + multiset{p} && b' == b + multiset{q}
    ensures p in a + b + rest && a' + b' + rest == a + b + rest - multiset{p} + multiset{q}
  {
  }

  lemma PickPlaces(options: ServerOptions, s: State, step: Step, s': State)
    requires step.Pick? && Picks(options, s, step, s')
    ensures Source(options, s, step) in Places(s)
    ensures Places(s') == Places(s) - multiset{Source(options, s, step)} + multiset{Target(options, s, step)}
  {
    var i := Selected(options.scheduler, s.queue);
    BagWithout(s.queue, i, OfQueue);
    WorkerTakes(s.workers, step.w, Picked(s.queue[i], step.now));
    Exchange(Bag(s.queue, OfQueue), Bag(s'.queue, OfQueue), Bag(s.workers, OfWorker), Bag(s'.workers, OfWorker),
             Bag(s.completed, OfCompleted) + Bag(s.failed, OfFailed),
             Source(options, s, step), Target(options, s, step));
  }

  lemma RequeuePlaces(s: State, w: nat, r: Admitted, s': State)
    requires w < |s.workers| && s.workers[w].Serving? && s'.workers == s.workers[w := Idle]
    requires s'.queue == s.queue + [r] && s'.completed == s.completed && s'.failed == s.failed
    ensures InRound(s.workers[w].r) in Places(s)
    ensures Places(s') == Places(s) - multiset{InRound(s.workers[w].r)} + multiset{Waiting(r)}
  {
    WorkerReleases(s.workers, w);
    BagAppend(s.queue, r, OfQueue);
    Exchange(Bag(s.workers, OfWorker), Bag(s'.workers, OfWorker), Bag(s.queue, OfQueue), Bag(s'.queue, OfQueue),
             Bag(s.completed, OfCompleted) + Bag(s.failed, OfFailed), InRound(s.workers[w].r), Waiting(r));
  }

  lemma CompletePlaces(s: State, w: nat, d: Departed, s': State)
    requires w < |s.workers| && s.workers[w].Serving? && s'.workers == s.workers[w := Idle]
    requires s'.queue == s.queue && s'.completed == s.completed + [d] && s'.failed == s.failed
    ensures InRound(s.workers[w].r) in Places(s)
    ensures Places(s') == Places(s) - multiset{InRound(s.workers[w].r)} + multiset{Done(d)}
  {
    WorkerReleases(s.workers, w);
    BagAppend(s.completed, d, OfCompleted);
    Exchange(Bag(s.workers, OfWorker), Bag(s'.workers, OfWorker), Bag(s.completed, OfCompleted),
             Bag(s'.completed, OfCompleted),
             Bag(s.queue, OfQueue) + Bag(s.failed, OfFailed), InRound(s.workers[w].r), Done(d));
  }

  lemma FailPlaces(s: State, w: nat, d: Departed, s': State)
    requires w < |s.workers| && s.workers[w].Serving? && s'.workers == s.workers[w := Idle]
    requires s'.queue == s.queue && s'.completed == s.completed && s'.failed == s.failed + [d]
    ensures InRound(s.workers[w].r) in Places(s)
    ensures Places(s') == Places(s) - multiset{InRound(s.workers[w].r)} + multiset{Lost(d)}
  {
    WorkerReleases(s.workers, w);
    BagAppend(s.failed, d, OfFailed);
    Exchange(Bag(s.workers, OfWorker), Bag(s'.workers, OfWorker), Bag(s.failed, OfFailed), Bag(s'.failed, OfFailed),
             Bag(s.queue, OfQueue) + Bag(s.completed, OfCompleted), InRound(s.workers[w].r), Lost(d));
  }

  lemma FinishPlaces(options: ServerOptions, s: State, step: Step, s': State)
    requires step.Finish? && Finishes(options, s, step, s')
    ensures Source(options, s, step) in Places(s)
    ensures Places(s') == Places(s) - multiset{Source(options, s, step)} + multiset{Target(options, s, step)}
  {
    match Target(options, s, step) {
      case Waiting(r) => RequeuePlaces(s, step.w, r, s');
      case Done(d) => CompletePlaces(s, step.w, d, s');
      case Lost(d) => FailPlaces(s, step.w, d, s');
    }
  }

  lemma ExitPlaces(options: ServerOptions, s: State, step: Step, s': State)
    requires !step.Admit? && !step.Pick? && !step.Finish? && Next(options, s, step, s')
    ensures Places(s') == Places(s)
  {
    if step.WorkerExit? {
      FreeWorkerPlaces(s.workers, step.w, Exited);
    } else {
      assert s'.workers == s.workers;
    }
  }
}
