/** What was uploaded is what a later download delivers. */
module Persistence {
  import opened Wire
  import opened Requests
  import opened Server
  import opened Census
  import opened ServerInvariant
  import opened Tracking
  import opened Guarantees

  ghost predicate NoUploads(all: multiset<Place>, name: string) {
    forall p :: p in all && p.IsLive() && p.Request().fileName == name ==> p.Request().op.Get?
  }

  // The step does not admit an upload to `name`.
  predicate AdmitsNoUpload(step: Step, name: string) {
    step.Admit? && step.a.request.fileName == name ==> step.a.request.kind.Get?
  }

  lemma NoUploadsMoves(all: multiset<Place>, p: Place, q: Place, name: string)
    requires NoUploads(all, name) && p in all && p.IsLive()
    requires q.Request().fileName == p.Request().fileName && q.Request().op == p.Request().op
    ensures NoUploads(all - multiset{p} + multiset{q}, name)
  {
    forall x | x in all - multiset{p} + multiset{q} && x != q ensures x in all {
    }
  }

  lemma StillNoUploads(options: ServerOptions, s: State, step: Step, s': State, name: string)
    requires Inv(options, s) && Next(options, s, step, s') && NoUploads(Places(s), name) && AdmitsNoUpload(step, name)
    ensures NoUploads(Places(s'), name)
  {
    StepPlaces(options, s, step, s');
    if step.Pick? || step.Finish? {
      StepMoves(options, s, step, s');
      NoUploadsMoves(Places(s), Source(options, s, step), Target(options, s, step), name);
    }
  }

  lemma FileStays(options: ServerOptions, s: State, step: Step, s': State, name: string)
    requires Next(options, s, step, s') && NoUploads(Places(s), name)
    ensures Stored(s'.disk, name) == Stored(s.disk, name)
  {
    if step.Finish? {
      PlacesAreReal(s, InRound(s.workers[step.w].r));
      ServedKeeps(options, s, step);
      FinishFiles(s, step, s', s.workers[step.w].r);
    } else {
      assert s'.disk == s.disk;
    }
  }

  lemma KeptStep(options: ServerOptions, run: Run, k: nat, name: string)
    requires run.FromInit(options) && k < |run.steps| && NoUploads(Places(run.states[k]), name)
    requires AdmitsNoUpload(run.steps[k], name)
    ensures NoUploads(Places(run.states[k + 1]), name)
    ensures Stored(run.states[k + 1].disk, name) == Stored(run.states[k].disk, name)
  {
    RunKeeps(options, run, k);
    assert run.StepAt(options, k);
    StillNoUploads(options, run.states[k], run.steps[k], run.states[k + 1], name);
    FileStays(options, run.states[k], run.steps[k], run.states[k + 1], name);
  }

  lemma {:induction false} FileKept(options: ServerOptions, run: Run, i: nat, j: nat, name: string)
    requires run.FromInit(options) && i <= j < |run.states| && NoUploads(Places(run.states[i]), name)
    requires forall k :: i <= k < j ==> AdmitsNoUpload(run.steps[k], name)
    ensures Stored(run.states[j].disk, name) == Stored(run.states[i].disk, name)
    decreases j - i
  {
    hide Places;
    if i < j {
      KeptStep(options, run, i, name);
      FileKept(options, run, i + 1, j, name);
    }
  }

  // A step that ends an upload for good.
  ghost predicate EndsUpload(step: Step, d: Departed) {
    && step.Finish? && step.ok && step.r'.transferred >= step.r'.total && d.r.op.Put?
    && d == Departed(step.r', step.now, step.stored', step.written)
  }

  lemma NothingElseOnIt(all: multiset<Place>, n: nat, p: Place, q: Place, name: string)
    requires OncePerId(all, n) && NamesApart(all) && p in all && p.IsLive() && p.Request().op.Put?
    requires p.Request().fileName == name
    requires !q.IsLive()
    ensures NoUploads(all - multiset{p} + multiset{q}, name)
  {
    forall x | x in all - multiset{p} + multiset{q} && x.IsLive() ensures x in all && x != p {
    }
  }

  lemma UploadIsStored(options: ServerOptions, s: State, step: Step, s': State, d: Departed)
    requires Inv(options, s) && Next(options, s, step, s') && EndsUpload(step, d)
    ensures Stored(s'.disk, d.r.fileName) == d.body && NoUploads(Places(s'), d.r.fileName)
  {
    StepMoves(options, s, step, s');
    NothingElseOnIt(Places(s), s.nextId, Source(options, s, step), Target(options, s, step), d.r.fileName);
    assert s' == AfterRound(s, step);
  }

  lemma UploadIsStoredAt(options: ServerOptions, run: Run, u: nat, d: Departed)
    requires run.FromInit(options) && u < |run.steps| && EndsUpload(run.steps[u], d)
    ensures Stored(run.states[u + 1].disk, d.r.fileName) == d.body && NoUploads(Places(run.states[u + 1]), d.r.fileName)
  {
    RunKeeps(options, run, u);
    assert run.StepAt(options, u);
    UploadIsStored(options, run.states[u], run.steps[u], run.states[u + 1], d);
  }

  /** A download admitted after the upload `up` ended, with no other upload to that name admitted
      in between, delivers exactly what `up` stored. */
  lemma UploadThenDownload(options: ServerOptions, run: Run, u: nat, i: nat, j: nat, up: Departed, down: Departed)
    requires run.FromInit(options) && u < i < j < |run.states| && i < |run.steps|
    requires EndsUpload(run.steps[u], up) && run.steps[i].Admit?
    requires forall k :: u < k < i ==> AdmitsNoUpload(run.steps[k], up.r.fileName)
    requires down in run.states[j].completed && down.r.id == run.states[i].nextId
    requires down.r.op.Get? && down.r.fileName == up.r.fileName
    ensures down.r.id in run.states[j].socks
    ensures run.states[j].socks[down.r.id].sent == OkLine(|up.body|) + up.body
  {
    UploadIsStoredAt(options, run, u, up);
    FileKept(options, run, u + 1, i, up.r.fileName);
    CompletedDownload(options, run, i, j, down);
  }
}
