/** Server and client together: what the client concludes from the bytes of a run. */
module EndToEnd {
  import opened Wire
  import opened Decimal
  import opened Requests
  import opened PutRounds
  import opened PutTheory
  import opened Server
  import opened Lifecycle
  import opened Census
  import opened ServerInvariant
  import opened Guarantees
  import Tracking
  import opened Transfers
  import Client
  import Framing
  import RequestParser

  // The upload was completed and sent its closing line.
  ghost predicate ClosedByServer(options: ServerOptions, s: State, p: Place)
    requires Known(s, p.Id())
  {
    p.Done? && !Overshot(options, s, p)
  }

  lemma SentByPlace(options: ServerOptions, s: State, p: Place)
    requires PlaceOk(options, s, p) && p.Request().op.Put?
    ensures var sent := s.socks[p.Id()].sent;
            if ClosedByServer(options, s, p) then sent == OkLine(0) + OkLine(0)
            else sent == "" || sent == OkLine(0) || CutOff("", sent, OneGoPart())
  {
    hide OkLine, CutOff;
  }

  lemma AcknowledgedPlace(options: ServerOptions, s: State, p: Place)
    requires PlaceOk(options, s, p) && p.Request().op.Put?
    ensures Acknowledged(s.socks[p.Id()].sent) <==> ClosedByServer(options, s, p)
  {
    var sent := s.socks[p.Id()].sent;
    SentByPlace(options, s, p);
    BothLinesAreNeeded();
    hide Acknowledged, PlaceOk, ClosedByServer, CutOff;
    if CutOff("", sent, OneGoPart()) {
      CutOffIsNotAcknowledged(sent);
    }
  }

  /** At every reachable state the bytes an upload was sent satisfy the client if and only if the
      upload was completed with its closing line. It has then stored its declared body, unless it was
      served in one go and a write failed. */
  lemma AcknowledgedExactly(options: ServerOptions, run: Run, j: nat, p: Place)
    requires run.FromInit(options) && j < |run.states| && p in Places(run.states[j]) && p.Request().op.Put?
    ensures Known(run.states[j], p.Id())
    ensures var (s, a, sk) := (run.states[j], run.states[j].admitted[p.Id()], run.states[j].socks[p.Id()]);
            && (Acknowledged(sk.sent) <==> ClosedByServer(options, s, p))
            && (Acknowledged(sk.sent) ==>
                  && a.bodyStart + p.d.r.total <= |sk.stream|
                  && (p.d.body == DeclaredBody(a, sk.stream, p.d.r.total) <==> p.d.written)
                  && (!options.scheduler.RunsToCompletion() ==> p.d.written))
  {
    PlaceAt(options, run, j, p);
    hide Places, Acknowledged;
    AcknowledgedPlace(options, run.states[j], p);
    if ClosedByServer(options, run.states[j], p) {
      WholeBody(options, run.states[j], p.d);
    }
  }

  lemma DownloadIsUnderstood(stream: string, a: Admission, filePath: string, name: string)
    requires Client.IsPathTo(filePath, name) && RequestParser.IsWord(name) && RequestParser.ValidFileName(name)
    requires Understood(stream, a) && stream == Client.BuildGetRequest(filePath)
    ensures a.request == RequestParser.Request(RequestParser.Get, name, 0)
  {
    Client.GetRequestRoundTrip(filePath, name);
    Client.GetRequestIsOneLine(filePath, name);
    assert stream[..a.bodyStart] == stream;
  }

  /** End to end: a client that sends a request for a one-word, valid name, and whose download is
      completed, reads from the server's bytes exactly the file of that name as it was at admission. */
  lemma DownloadEndToEnd(options: ServerOptions, run: Run, i: nat, j: nat, d: Departed, filePath: string, name: string)
    requires run.FromInit(options) && i < |run.steps| && i < j < |run.states| && run.steps[i].Admit?
    requires d in run.states[j].completed && d.r.id == run.states[i].nextId
    requires Client.IsPathTo(filePath, name) && RequestParser.IsWord(name) && RequestParser.ValidFileName(name)
    requires run.steps[i].stream == Client.BuildGetRequest(filePath)
    requires |Stored(run.states[i].disk, name)| < SIZE_LIMIT
    ensures d.r.op.Get? && d.r.fileName == name && d.r.id in run.states[j].socks
    ensures ReadReply(run.states[j].socks[d.r.id].sent) == Client.Some(Stored(run.states[i].disk, name))
  {
    AdmittedAs(options, run, i, j, d, filePath, name);
    CompletedDownload(options, run, i, j, d);
    var f := Stored(run.states[i].disk, name);
    ReadsWhatFollows(|f|, f);
    assert f[..|f|] == f;
  }

  lemma AdmittedAs(options: ServerOptions, run: Run, i: nat, j: nat, d: Departed, filePath: string, name: string)
    requires run.FromInit(options) && i < |run.steps| && i < j < |run.states| && run.steps[i].Admit?
    requires d in run.states[j].completed && d.r.id == run.states[i].nextId
    requires Client.IsPathTo(filePath, name) && RequestParser.IsWord(name) && RequestParser.ValidFileName(name)
    requires run.steps[i].stream == Client.BuildGetRequest(filePath)
    ensures d.r.op.Get? && d.r.fileName == name
  {
    assert run.StepAt(options, i);
    DownloadIsUnderstood(run.steps[i].stream, run.steps[i].a, filePath, name);
    Tracking.AdmissionsPersist(options, run, i + 1, j, d.r.id);
    CompletedOk(options, run, j, d);
  }
}
