/** The server touches nothing but the entries of its file directory, over whole runs. */
module Confinement {
  import opened Requests
  import opened RequestParser
  import opened Server
  import opened Lifecycle
  import opened Census
  import opened ServerInvariant
  import opened Tracking

  lemma UnderstoodIsEntry(stream: string, a: Admission, dir: string)
    requires Understood(stream, a)
    ensures DirectEntry(dir, a.request.fileName)
  {
    ParsedExactly(dir, Tokens(stream[..a.bodyStart]), a.request);
  }

  // A name the parser had not recorded before the step is the one it has just understood.
  lemma AdmissionStep(options: ServerOptions, s: State, step: Step, s': State, id: nat)
    requires Next(options, s, step, s') && id in s'.admitted
    ensures || (id in s.admitted && s'.admitted[id] == s.admitted[id])
            || (step.Admit? && s'.admitted[id] == step.a && Understood(step.stream, step.a))
  {
    if step.Finish? {
      assert s' == AfterRound(s, step);
    }
  }

  /** Whatever was admitted names an entry of the directory itself. */
  lemma {:induction false} AdmittedNamesAreEntries(options: ServerOptions, run: Run, j: nat, id: nat, dir: string)
    requires run.FromInit(options) && j < |run.states| && id in run.states[j].admitted
    ensures DirectEntry(dir, run.states[j].admitted[id].request.fileName)
  {
    hide Next, DirectEntry, Understood;
    if j > 0 {
      assert run.StepAt(options, j - 1);
      AdmissionStep(options, run.states[j - 1], run.steps[j - 1], run.states[j], id);
      if id in run.states[j - 1].admitted && run.states[j].admitted[id] == run.states[j - 1].admitted[id] {
        AdmittedNamesAreEntries(options, run, j - 1, id, dir);
      } else {
        UnderstoodIsEntry(run.steps[j - 1].stream, run.steps[j - 1].a, dir);
      }
    }
  }

  // The file, or its absence, is as it was.
  predicate SameFile(s: State, t: State, name: string) {
    (name in s.disk <==> name in t.disk) && Stored(s.disk, name) == Stored(t.disk, name)
  }

  lemma ChangedIsServed(options: ServerOptions, s: State, step: Step, s': State, name: string)
    requires Next(options, s, step, s') && !SameFile(s, s', name)
    ensures Serves(s, step) && s.workers[step.w].r.op.Put? && s.workers[step.w].r.fileName == name
  {
    hide Served, MayAdmit;
    if step.Finish? {
      assert s' == AfterRound(s, step);
    }
  }

  lemma ServedIsAdmitted(options: ServerOptions, s: State, step: Step)
    requires Inv(options, s) && Serves(s, step)
    ensures var r := s.workers[step.w].r;
            r.id in s.admitted && r.fileName == s.admitted[r.id].request.fileName
            && Understood(s.socks[r.id].stream, s.admitted[r.id])
            && (r.op.Put? ==> s.admitted[r.id].request.kind.Put?)
  {
    PlacesAreReal(s, InRound(s.workers[step.w].r));
    assert PlaceOk(options, s, InRound(s.workers[step.w].r));
  }

  lemma ChangeStep(options: ServerOptions, run: Run, k: nat, name: string)
    requires run.FromInit(options) && k < |run.steps| && !SameFile(run.states[k], run.states[k + 1], name)
    ensures UploadOf(run.states[k], name)
  {
    RunKeeps(options, run, k);
    assert run.StepAt(options, k);
    ChangedIsServed(options, run.states[k], run.steps[k], run.states[k + 1], name);
    ServedIsAdmitted(options, run.states[k], run.steps[k]);
  }

  // An upload to the name was admitted.
  ghost predicate UploadOf(s: State, name: string) {
    exists id: nat :: id in s.admitted && s.admitted[id].request.kind.Put? && s.admitted[id].request.fileName == name
  }

  /** A file changes, or comes into being, only if an upload to it was admitted, and its name is
      that of an entry of the directory. */
  lemma {:induction false} ChangedFilesAreEntries(options: ServerOptions, run: Run, i: nat, j: nat, name: string,
                                                  dir: string) returns (k: nat)
    requires run.FromInit(options) && i <= j < |run.states| && !SameFile(run.states[i], run.states[j], name)
    ensures i <= k < j && UploadOf(run.states[k], name) && DirectEntry(dir, name)
  {
    hide SameFile, DirectEntry;
    if i == j {
      SameIsSame(run.states[i], name);
    } else if !SameFile(run.states[j - 1], run.states[j], name) {
      k := j - 1;
      ChangeStep(options, run, k, name);
      var id: nat :| id in run.states[k].admitted && run.states[k].admitted[id].request.fileName == name;
      AdmittedNamesAreEntries(options, run, k, id, dir);
    } else {
      SameTransitive(run.states[i], run.states[j - 1], run.states[j], name);
      k := ChangedFilesAreEntries(options, run, i, j - 1, name, dir);
    }
  }

  lemma SameIsSame(s: State, name: string)
    ensures SameFile(s, s, name)
  {
  }

  lemma SameTransitive(s: State, t: State, u: State, name: string)
    requires SameFile(t, u, name)
    ensures SameFile(s, t, name) <==> SameFile(s, u, name)
  {
  }
}
