/** What every reachable state of the server satisfies, for any number of workers, any policy
    and any interleaving of steps. */
module ServerInvariant {
  import opened Wire
  import opened Requests
  import opened Lines
  import opened GetRounds
  import opened Scheduler
  import opened Service
  import opened Server
  import opened Lifecycle
  import opened Census
  import opened RrTheory

  ghost predicate HasPlace(all: multiset<Place>, id: nat) {
    exists p :: p in all && p.Id() == id
  }

  /** Conservation: the ids handed out so far are 1, 2, ..., n - 1, and each is in one place, once. */
  ghost predicate OncePerId(all: multiset<Place>, n: nat) {
    && (forall p :: p in all ==> all[p] == 1 && 1 <= p.Id() < n)
    && (forall p, q :: p in all && q in all && p.Id() == q.Id() ==> p == q)
    && (forall id :: 1 <= id < n ==> HasPlace(all, id))
  }

  ghost predicate Known(s: State, id: nat) {
    id in s.socks && id in s.admitted && Understood(s.socks[id].stream, s.admitted[id])
  }

  // The request is still the one that was admitted, and so is a file it reads.
  ghost predicate AsAdmitted(s: State, r: Admitted, body: string)
    requires Known(s, r.id)
  {
    var a := s.admitted[r.id];
    && r.op.Get? == a.request.kind.Get? && r.fileName == a.request.fileName
    && r.total == (if r.op.Get? then |a.found| else a.request.bytes)
    && (r.op.Get? ==> body == a.found)
  }

  // A live request with `k` rounds behind it.
  ghost predicate LiveIn(options: ServerOptions, s: State, r: Admitted, k: nat) {
    && Known(s, r.id)
    && var (a, stored) := (s.admitted[r.id], Stored(s.disk, r.fileName));
    && AsAdmitted(s, r, stored)
    && Live(options, r, k, s.socks[r.id], a.bodyStart, a.headerRead, stored)
  }

  ghost predicate CompletedIn(options: ServerOptions, s: State, d: Departed) {
    && Known(s, d.r.id)
    && AsAdmitted(s, d.r, d.body)
    && var a := s.admitted[d.r.id];
    Completed(options, d.r, s.socks[d.r.id], a.bodyStart, a.headerRead, d.body, d.written)
  }

  ghost predicate FailedIn(options: ServerOptions, s: State, d: Departed) {
    && Known(s, d.r.id)
    && AsAdmitted(s, d.r, d.body)
    && Failed(options, d.r, s.socks[d.r.id], d.body)
  }

  ghost predicate PlaceOk(options: ServerOptions, s: State, p: Place) {
    match p
    case Waiting(r) =>
      LiveIn(options, s, r, r.rounds) && r.arrival <= s.clock && (r.rounds > 0 ==> r.arrival <= r.start <= s.clock)
    case InRound(r) => r.rounds >= 1 && LiveIn(options, s, r, r.rounds - 1) && r.arrival <= r.start <= s.clock
    case Done(d) => CompletedIn(options, s, d) && d.r.rounds >= 1 && d.r.arrival <= d.r.start <= d.finish <= s.clock
    case Lost(d) => FailedIn(options, s, d) && d.r.rounds >= 1 && d.r.arrival <= d.r.start <= d.finish <= s.clock
  }

  // Live requests on one file all read it.
  ghost predicate NamesApart(all: multiset<Place>) {
    forall p, q :: p in all && q in all && p.IsLive() && q.IsLive() && p != q
                   && p.Request().fileName == q.Request().fileName ==>
                     p.Request().op.Get? && q.Request().op.Get?
  }

  // The queue left behind by the workers is exactly what was admitted after the last one exited.
  ghost predicate LateQueue(s: State) {
    if AllExited(s) then |s.late| == |s.queue| && forall i :: 0 <= i < |s.queue| ==> s.queue[i].id == s.late[i]
    else s.late == []
  }

  ghost predicate IdsBelow(s: State) {
    forall id :: id in s.admitted ==> id < s.nextId
  }

  ghost predicate Inv(options: ServerOptions, s: State) {
    && s.nextId >= 1 && IdsBelow(s)
    && OncePerId(Places(s), s.nextId)
    && NamesApart(Places(s))
    && (forall p :: p in Places(s) ==> PlaceOk(options, s, p))
    && LateQueue(s)
  }

  // Nothing that `PlaceOk` says about `id` changes.
  ghost predicate SameFor(s: State, s': State, id: nat) {
    && (id in s.socks ==> id in s'.socks && s'.socks[id] == s.socks[id])
    && (id in s.admitted ==> id in s'.admitted && s'.admitted[id] == s.admitted[id])
    && s.clock <= s'.clock
  }

  lemma PlaceStays(options: ServerOptions, s: State, s': State, p: Place)
    requires PlaceOk(options, s, p) && SameFor(s, s', p.Id())
    requires p.IsLive() ==> Stored(s'.disk, p.Request().fileName) == Stored(s.disk, p.Request().fileName)
    ensures PlaceOk(options, s', p)
  {
  }

  lemma OncePerIdMoves(all: multiset<Place>, n: nat, p: Place, q: Place)
    requires OncePerId(all, n) && p in all && q.Id() == p.Id()
    ensures OncePerId(all - multiset{p} + multiset{q}, n)
  {
    var all' := all - multiset{p} + multiset{q};
    forall id | 1 <= id < n ensures HasPlace(all', id) {
      assert HasPlace(all, id);
      var x :| x in all && x.Id() == id;
      assert (if x == p then q else x) in all';
    }
    forall x | x in all' ensures all'[x] == 1 && 1 <= x.Id() < n {
      assert x == q || x in all;
    }
  }

  lemma OncePerIdGrows(all: multiset<Place>, n: nat, q: Place)
    requires OncePerId(all, n) && q.Id() == n >= 1
    ensures OncePerId(all + multiset{q}, n + 1)
  {
    var all' := all + multiset{q};
    forall id | 1 <= id < n + 1 ensures HasPlace(all', id) {
      if id < n {
        assert HasPlace(all, id);
        var x :| x in all && x.Id() == id;
        assert x in all';
      } else {
        assert q in all';
      }
    }
  }

  lemma NamesApartMoves(all: multiset<Place>, p: Place, q: Place)
    requires NamesApart(all) && p in all && all[p] == 1 && p.IsLive()
    requires q.IsLive() ==> q.Request().fileName == p.Request().fileName && q.Request().op == p.Request().op
    ensures NamesApart(all - multiset{p} + multiset{q})
  {
    var all' := all - multiset{p} + multiset{q};
    forall x | x in all' && x != q ensures x in all && x != p {
    }
  }

  // The file of `name` changes only if `r` is an upload to it.
  ghost predicate WritesOnly(s: State, s': State, r: Admitted) {
    forall name :: Stored(s'.disk, name) != Stored(s.disk, name) ==> r.op.Put? && name == r.fileName
  }

  // The places a step does not move are as they were.
  lemma OthersStay(options: ServerOptions, s: State, s': State, p: Place, x: Place)
    requires Inv(options, s) && p in Places(s) && p.IsLive() && x in Places(s) && x != p
    requires SameFor(s, s', x.Id()) && WritesOnly(s, s', p.Request())
    ensures PlaceOk(options, s', x)
  {
    assert PlaceOk(options, s, x);
    PlaceStays(options, s, s', x);
  }

  lemma OthersAreElsewhere(all: multiset<Place>, n: nat, p: Place, q: Place, x: Place)
    requires OncePerId(all, n) && p in all && x in all - multiset{p} + multiset{q} && x != q
    ensures x in all && x != p && x.Id() != p.Id()
  {
  }

  /** A request moved from one place to another by a step that touches only its socket, and its
      file only if it is the upload to it. */
  lemma MoveKeeps(options: ServerOptions, s: State, s': State, p: Place, q: Place)
    requires Inv(options, s) && p in Places(s) && p.IsLive() && q.Id() == p.Id()
    requires Places(s') == Places(s) - multiset{p} + multiset{q} && s'.nextId == s.nextId && s'.admitted == s.admitted
    requires q.IsLive() ==> q.Request().fileName == p.Request().fileName && q.Request().op == p.Request().op
    requires forall id :: id != p.Id() ==> SameFor(s, s', id)
    requires WritesOnly(s, s', p.Request()) && PlaceOk(options, s', q) && LateQueue(s')
    ensures Inv(options, s')
  {
    OncePerIdMoves(Places(s), s.nextId, p, q);
    NamesApartMoves(Places(s), p, q);
    forall x | x in Places(s') ensures PlaceOk(options, s', x) {
      if x != q {
        OthersAreElsewhere(Places(s), s.nextId, p, q, x);
        OthersStay(options, s, s', p, x);
      }
    }
  }

  lemma InitKeeps(options: ServerOptions, s: State)
    requires Init(s)
    ensures Inv(options, s)
  {
    InitPlaces(s);
  }

  // A request is born live.
  lemma NewRequestIsLive(options: ServerOptions, s: State, step: Step, s': State)
    requires step.Admit? && Admits(options, s, step, s')
    ensures PlaceOk(options, s', Waiting(NewRequest(s.nextId, step.a, step.stream, step.now)))
  {
    var r := NewRequest(s.nextId, step.a, step.stream, step.now);
    assert s'.socks[r.id] == Sock(true, 0, 0, "", [], step.stream, step.a.headerRead);
    if r.op.Get? {
      NewDownload(options, s.disk[r.fileName], r, s'.socks[r.id]);
    }
  }

  lemma NewDownload(options: ServerOptions, f: string, r: Admitted, sk: Sock)
    requires r.total == |f| && r.transferred == r.deficit == r.forfeited == 0 && !r.responseStarted
    requires Untouched(sk) && sk.sent == ""
    requires options.scheduler.RoundRobin? ==> LinesAtMost(f, 0x7fff_ffff)
    ensures GetLive(options, f, r, 0, sk)
  {
    assert Floor(f, 0) == 0;
  }

  lemma NamesApartGrows(all: multiset<Place>, q: Place)
    requires NamesApart(all) && q.IsLive()
    requires forall p :: p in all && p.IsLive() && p.Request().fileName == q.Request().fileName ==>
                           p.Request().op.Get? && q.Request().op.Get?
    ensures NamesApart(all + multiset{q})
  {
  }

  lemma FreeNameIsApart(s: State, r: Admitted, p: Place)
    requires NameFree(s, r.op, r.fileName) && p in Places(s) && p.IsLive() && p.Request().fileName == r.fileName
    ensures p.Request().op.Get? && r.op.Get?
  {
    PlacesAreReal(s, p);
    assert IsLive(s, p.r);
  }

  lemma NewNameIsApart(options: ServerOptions, s: State, step: Step, s': State)
    requires NamesApart(Places(s)) && step.Admit? && Admits(options, s, step, s')
    ensures NamesApart(Places(s) + multiset{Waiting(NewRequest(s.nextId, step.a, step.stream, step.now))})
  {
    var r := NewRequest(s.nextId, step.a, step.stream, step.now);
    forall p | p in Places(s) && p.IsLive() && p.Request().fileName == r.fileName
      ensures p.Request().op.Get? && r.op.Get?
    {
      FreeNameIsApart(s, r, p);
    }
    NamesApartGrows(Places(s), Waiting(r));
  }

  lemma AdmitFrame(options: ServerOptions, s: State, step: Step, s': State)
    requires LateQueue(s) && step.Admit? && Admits(options, s, step, s')
    ensures LateQueue(s') && s'.disk == s.disk && s'.nextId == s.nextId + 1
    ensures s'.admitted == s.admitted[s.nextId := step.a]
    ensures forall id :: id != s.nextId ==> SameFor(s, s', id)
  {
  }

  lemma AdmitKeeps(options: ServerOptions, s: State, step: Step, s': State)
    requires Inv(options, s) && step.Admit? && Admits(options, s, step, s')
    ensures Inv(options, s')
  {
    hide Places, PlaceOk, OncePerId, NamesApart;
    var q := Waiting(NewRequest(s.nextId, step.a, step.stream, step.now));
    AdmitPlaces(options, s, step, s');
    OncePerIdGrows(Places(s), s.nextId, q);
    NewNameIsApart(options, s, step, s');
    NewRequestIsLive(options, s, step, s');
    AdmitFrame(options, s, step, s');
    GrowKeeps(options, s, s', q, step.a);
  }

  lemma GrowKeeps(options: ServerOptions, s: State, s': State, q: Place, a: Admission)
    requires Inv(options, s) && q.Id() == s.nextId && s'.nextId == s.nextId + 1
    requires s'.admitted == s.admitted[s.nextId := a]
    requires Places(s') == Places(s) + multiset{q} && s'.disk == s.disk
    requires OncePerId(Places(s'), s'.nextId) && NamesApart(Places(s')) && LateQueue(s')
    requires forall id :: id != s.nextId ==> SameFor(s, s', id)
    requires PlaceOk(options, s', q)
    ensures Inv(options, s')
  {
    hide Places, PlaceOk;
    forall x | x in Places(s') ensures PlaceOk(options, s', x) {
      if x != q {
        OldStays(options, s, s', x);
      }
    }
  }

  lemma OldStays(options: ServerOptions, s: State, s': State, x: Place)
    requires Inv(options, s) && x in Places(s) && s'.disk == s.disk
    requires forall id :: id != s.nextId ==> SameFor(s, s', id)
    ensures PlaceOk(options, s', x)
  {
    assert x.Id() < s.nextId;
    PlaceStays(options, s, s', x);
  }

  // Being picked changes nothing that `Live` speaks about.
  lemma PickedIsLive(options: ServerOptions, s: State, s': State, r: Admitted, now: nat)
    requires PlaceOk(options, s, Waiting(r)) && SameFor(s, s', r.id) && s'.disk == s.disk && s.clock <= now == s'.clock
    ensures PlaceOk(options, s', InRound(Picked(r, now)))
  {
  }

  lemma PickFrame(options: ServerOptions, s: State, step: Step, s': State)
    requires LateQueue(s) && step.Pick? && Picks(options, s, step, s')
    ensures LateQueue(s') && s'.disk == s.disk && s'.nextId == s.nextId && s'.admitted == s.admitted
    ensures s.clock <= step.now == s'.clock
    ensures forall id :: SameFor(s, s', id)
  {
    assert s.workers[step.w] == Idle && s'.workers[step.w].Serving?;
  }

  lemma PickKeeps(options: ServerOptions, s: State, step: Step, s': State)
    requires Inv(options, s) && step.Pick? && Picks(options, s, step, s')
    ensures Inv(options, s')
  {
    PickPlaces(options, s, step, s');
    PickFrame(options, s, step, s');
    PickedKeeps(options, s, s', s.queue[Selected(options.scheduler, s.queue)], step.now);
  }

  lemma PickedKeeps(options: ServerOptions, s: State, s': State, r: Admitted, now: nat)
    requires Inv(options, s) && Waiting(r) in Places(s) && LateQueue(s')
    requires Places(s') == Places(s) - multiset{Waiting(r)} + multiset{InRound(Picked(r, now))}
    requires s'.disk == s.disk && s'.nextId == s.nextId && s'.admitted == s.admitted && s.clock <= now == s'.clock
    requires forall id :: SameFor(s, s', id)
    ensures Inv(options, s')
  {
    assert PlaceOk(options, s, Waiting(r));
    PickedIsLive(options, s, s', r, now);
    MoveKeeps(options, s, s', Waiting(r), InRound(Picked(r, now)));
  }

  lemma ExitKeeps(options: ServerOptions, s: State, step: Step, s': State)
    requires Inv(options, s) && !step.Admit? && !step.Pick? && !step.Finish? && Next(options, s, step, s')
    ensures Inv(options, s')
  {
    ExitPlaces(options, s, step, s');
    forall x | x in Places(s') ensures PlaceOk(options, s', x) {
      PlaceStays(options, s, s', x);
    }
  }

  // The round that ends is the round of a live request.
  lemma FinishedRound(options: ServerOptions, s: State, step: Step, s': State)
    requires step.Finish? && Finishes(options, s, step, s') && PlaceOk(options, s, InRound(s.workers[step.w].r))
    ensures var r := s.workers[step.w].r;
            && Known(s, r.id)
            && RoundOutcome(options, r, r.rounds - 1, s.admitted[r.id].bodyStart, s.admitted[r.id].headerRead,
                            step.r', step.s', step.stored', step.ok, step.written)
  {
    var r := s.workers[step.w].r;
    var sk := s.socks[r.id];
    RoundKeeps(options, r, r.rounds - 1, sk, s.admitted[r.id].bodyStart, s.admitted[r.id].headerRead,
               Stored(s.disk, r.fileName), step.r', step.s', step.stored', step.ok, step.written);
  }

  lemma FinishFrame(s: State, step: Step, s': State)
    requires LateQueue(s) && Serves(s, step) && s.clock <= step.now && s' == AfterRound(s, step)
    ensures LateQueue(s') && s'.nextId == s.nextId && s'.admitted == s.admitted && s.clock <= step.now == s'.clock
    ensures s'.socks == s.socks[s.workers[step.w].r.id := step.s']
  {
    assert s.workers[step.w].Serving? && s'.workers[step.w] == Idle;
  }

  lemma ServedKeeps(options: ServerOptions, s: State, step: Step)
    requires Serves(s, step) && Served(options, s, step)
    ensures var r := s.workers[step.w].r;
            && step.s'.stream == s.socks[r.id].stream
            && (r.op.Get? || !step.created ==> step.stored' == Stored(s.disk, r.fileName))
  {
    var r := s.workers[step.w].r;
    RoundKeepsStream(options, r, s.socks[r.id], Stored(s.disk, r.fileName), step.r', step.s', step.stored', step.ok,
                     step.written);
  }

  lemma FinishFiles(s: State, step: Step, s': State, r: Admitted)
    requires Serves(s, step) && r == s.workers[step.w].r && s' == AfterRound(s, step)
    requires r.op.Get? || !step.created ==> step.stored' == Stored(s.disk, r.fileName)
    ensures WritesOnly(s, s', r) && Stored(s'.disk, r.fileName) == step.stored'
  {
    assert s'.disk == if r.op.Put? && step.created then s.disk[r.fileName := step.stored'] else s.disk;
  }

  // Moving on to `sk` keeps what the parser knew.
  lemma StillKnown(s: State, r: Admitted, sk: Sock, s': State, stored: string, r': Admitted, stored': string)
    requires Known(s, r.id) && s'.socks == s.socks[r.id := sk] && sk.stream == s.socks[r.id].stream
    requires s'.admitted == s.admitted && AsAdmitted(s, r, stored)
    requires (r' == r || SameRequest(r, r')) && (r.op.Get? ==> stored' == stored)
    ensures Known(s', r'.id) && AsAdmitted(s', r', stored')
  {
  }

  // The three outcomes of a round, as places.
  lemma OutcomeIsPlace(options: ServerOptions, s: State, r: Admitted, step: Step, s': State)
    requires step.Finish? && PlaceOk(options, s, InRound(r))
    requires s'.socks == s.socks[r.id := step.s'] && step.s'.stream == s.socks[r.id].stream
    requires s'.admitted == s.admitted && s.clock <= step.now == s'.clock
    requires Stored(s'.disk, r.fileName) == step.stored' && (r.op.Get? ==> step.stored' == Stored(s.disk, r.fileName))
    requires RoundOutcome(options, r, r.rounds - 1, s.admitted[r.id].bodyStart, s.admitted[r.id].headerRead,
                          step.r', step.s', step.stored', step.ok, step.written)
    ensures step.ok ==> SameRequest(r, step.r')
    ensures PlaceOk(options, s', AfterRoundPlace(r, step))
  {
    StillKnown(s, r, step.s', s', Stored(s.disk, r.fileName), if step.ok then step.r' else r, step.stored');
    var a := s.admitted[r.id];
    if !step.ok {
      assert FailedIn(options, s', Departed(r, step.now, step.stored', step.written));
    } else if step.r'.transferred < step.r'.total {
      assert LiveIn(options, s', step.r', step.r'.rounds);
    } else {
      assert CompletedIn(options, s', Departed(step.r', step.now, step.stored', step.written));
    }
  }

  lemma OthersSame(s: State, s': State, id: nat, sk: Sock)
    requires s'.socks == s.socks[id := sk] && s'.admitted == s.admitted && s.clock <= s'.clock
    ensures forall x :: x != id ==> SameFor(s, s', x)
  {
  }

  lemma FinishKeeps(options: ServerOptions, s: State, step: Step, s': State)
    requires Inv(options, s) && step.Finish? && Finishes(options, s, step, s')
    ensures Inv(options, s')
  {
    hide Places, OncePerId, NamesApart;
    var r := s.workers[step.w].r;
    FinishPlaces(options, s, step, s');
    assert PlaceOk(options, s, InRound(r));
    FinishFrame(s, step, s');
    ServedKeeps(options, s, step);
    FinishFiles(s, step, s', r);
    FinishedRound(options, s, step, s');
    OutcomeIsPlace(options, s, r, step, s');
    OthersSame(s, s', r.id, step.s');
    MoveKeeps(options, s, s', InRound(r), AfterRoundPlace(r, step));
  }

  /** Every step of the server keeps the invariant. */
  lemma NextKeeps(options: ServerOptions, s: State, step: Step, s': State)
    requires Inv(options, s) && Next(options, s, step, s')
    ensures Inv(options, s')
  {
    hide Inv;
    match step
    case Admit(_, _, _) => AdmitKeeps(options, s, step, s');
    case Pick(_, _) => PickKeeps(options, s, step, s');
    case Finish(_, _, _, _, _, _, _, _) => FinishKeeps(options, s, step, s');
    case _ => ExitKeeps(options, s, step, s');
  }

  /** Every state of every run satisfies the invariant. */
  lemma {:induction false} RunKeeps(options: ServerOptions, run: Run, i: nat)
    requires run.FromInit(options) && i < |run.states|
    ensures Inv(options, run.states[i])
  {
    hide Inv, Next;
    if i == 0 {
      InitKeeps(options, run.states[0]);
    } else {
      RunKeeps(options, run, i - 1);
      assert run.StepAt(options, i - 1);
      NextKeeps(options, run.states[i - 1], run.steps[i - 1], run.states[i]);
    }
  }

  lemma PlaceAt(options: ServerOptions, run: Run, i: nat, p: Place)
    requires run.FromInit(options) && i < |run.states| && p in Places(run.states[i])
    ensures PlaceOk(options, run.states[i], p)
  {
    RunKeeps(options, run, i);
  }
}
