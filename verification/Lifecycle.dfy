/** The life of one request: what holds of it, its socket and its file before its first round,
    between rounds, and once it has left the server. */
module Lifecycle {
  import opened Wire
  import opened Requests
  import opened Lines
  import opened GetRounds
  import opened PutRounds
  import opened RrTheory
  import opened DrrTheory
  import opened PutTheory
  import opened Service
  import opened Server

  ghost predicate Untouched(sk: Sock) {
    sk.open && sk.closes == 0 && sk.misuses == 0
  }

  ghost predicate ClosedOnce(sk: Sock) {
    !sk.open && sk.closes == 1 && sk.misuses == 0
  }

  /** A download of `f` after `k` rounds, by policy. */
  ghost predicate GetLive(options: ServerOptions, f: string, r: Admitted, k: nat, sk: Sock) {
    && r.total == |f|
    && match options.scheduler
       case RoundRobin => RoundRobinLive(f, options.quantum, r, k, sk)
       case Drr => DeficitLive(f, options.quantum, r, k, sk)
       case _ => OneGoLive(f, r, k, sk)
  }

  ghost predicate RoundRobinLive(f: string, q: nat, r: Admitted, k: nat, sk: Sock)
    requires q >= 1
  {
    && Untouched(sk) && LinesAtMost(f, 0x7fff_ffff)
    && r.responseStarted == (k > 0) && r.deficit == 0
    && r.transferred == RrOffset(f, q, k) && r.forfeited == RrForfeited(f, q, k)
    && (k > 0 ==> r.transferred < |f|)
    && sk.sent == (if k > 0 then OkLine(|f|) + f[..r.transferred] else "")
  }

  ghost predicate DeficitLive(f: string, q: nat, r: Admitted, k: nat, sk: Sock) {
    && Untouched(sk)
    && r.responseStarted == (k > 0) && r.forfeited == 0
    && r.transferred == Floor(f, k * q) && r.transferred + r.deficit == k * q
    && (k > 0 ==> k * q < |f|)
    && sk.sent == (if k > 0 then OkLine(|f|) + f[..r.transferred] else "")
  }

  // A second round happens only after a short read, with the socket already closed.
  ghost predicate OneGoLive(f: string, r: Admitted, k: nat, sk: Sock) {
    && k <= 1 && !r.responseStarted && r.deficit == 0 && r.forfeited == 0
    && Boundary(f, r.transferred)
    && if k == 0 then Untouched(sk) && r.transferred == 0 && sk.sent == ""
       else ClosedOnce(sk) && r.transferred < |f| && sk.sent == OkLine(|f|) + f[..r.transferred]
  }

  /** An upload after `k` rounds; `headerRead` bytes of the stream came with the header. */
  ghost predicate UploadLive(options: ServerOptions, stored: string, r: Admitted, k: nat, sk: Sock, h: nat,
                             headerRead: nat)
    requires h <= headerRead <= |sk.stream|
  {
    && Untouched(sk) && r.deficit == 0 && r.forfeited == 0
    && if options.scheduler.RunsToCompletion() then OneGoUploadLive(r, k, sk, h, headerRead)
       else PreemptibleUploadLive(options.quantum, stored, r, k, sk, h, headerRead)
  }

  ghost predicate OneGoUploadLive(r: Admitted, k: nat, sk: Sock, h: nat, headerRead: nat)
    requires h <= headerRead <= |sk.stream|
  {
    && k == 0 && !r.responseStarted && r.transferred == 0 && sk.sent == ""
    && sk.read == headerRead && r.extra == sk.stream[h..headerRead]
  }

  ghost predicate PreemptibleUploadLive(q: nat, stored: string, r: Admitted, k: nat, sk: Sock, h: nat, headerRead: nat)
    requires h <= headerRead
  {
    && r.responseStarted == (k > 0) && sk.sent == (if k > 0 then OkLine(0) else "")
    && PutLive(r, sk, h, headerRead - h, q, k, stored)
  }

  ghost predicate Live(options: ServerOptions, r: Admitted, k: nat, sk: Sock, h: nat, headerRead: nat, stored: string) {
    && h <= headerRead <= |sk.stream| && sk.read <= |sk.stream|
    && if r.op.Get? then GetLive(options, stored, r, k, sk) else UploadLive(options, stored, r, k, sk, h, headerRead)
  }

  // The number of rounds and the forfeited bytes a completed download reports.
  ghost predicate DownloadMetrics(options: ServerOptions, f: string, r: Admitted) {
    match options.scheduler
    case RoundRobin =>
      r.rounds == RrRounds(f, options.quantum) && r.forfeited == RrForfeited(f, options.quantum, r.rounds)
    case Drr => r.rounds == TotalRounds(|f|, options.quantum) && r.forfeited == 0
    case _ => r.rounds == 1 && r.forfeited == 0
  }

  ghost predicate DownloadDone(options: ServerOptions, f: string, r: Admitted, sk: Sock) {
    && r.transferred == r.total == |f| && DownloadMetrics(options, f, r)
    && ClosedOnce(sk) && sk.sent == OkLine(|f|) + f
  }

  ghost predicate UploadDone(options: ServerOptions, body: string, r: Admitted, sk: Sock, h: nat, headerRead: nat,
                             written: bool)
    requires h <= headerRead <= |sk.stream|
  {
    && r.forfeited == 0 && r.total <= r.transferred && h + r.transferred <= |sk.stream|
    && if options.scheduler.RunsToCompletion() then OneGoUploadDone(body, r, sk, h, written)
       else written && PreemptibleUploadDone(options.quantum, body, r, sk, h, headerRead)
  }

  // Failed writes go unnoticed: the file is whole just when there were none.
  ghost predicate OneGoUploadDone(body: string, r: Admitted, sk: Sock, h: nat, written: bool)
    requires h + r.transferred <= |sk.stream|
  {
    && r.rounds == 1 && r.transferred == r.total && body <= sk.stream[h..h + r.transferred]
    && (written <==> body == sk.stream[h..h + r.transferred])
    && ClosedOnce(sk) && sk.sent == OkLine(0) + OkLine(0)
  }

  /** A preemptible upload hits its declared total just when `EndsExactly` says so; otherwise it
      stored more, sent no closing line and left the socket open. */
  ghost predicate PreemptibleUploadDone(q: nat, body: string, r: Admitted, sk: Sock, h: nat, headerRead: nat)
    requires q >= 1 && h <= headerRead && h + r.transferred <= |sk.stream|
  {
    && r.rounds == TotalRounds(r.total, q)
    && body == sk.stream[h..h + r.transferred]
    && (r.transferred == r.total <==> EndsExactly(headerRead - h, r.total, q))
    && if r.transferred == r.total then ClosedOnce(sk) && sk.sent == OkLine(0) + OkLine(0)
       else Untouched(sk) && sk.sent == OkLine(0)
  }

  ghost predicate Completed(options: ServerOptions, r: Admitted, sk: Sock, h: nat, headerRead: nat, body: string,
                            written: bool)
  {
    && h <= headerRead <= |sk.stream|
    && if r.op.Get? then DownloadDone(options, body, r, sk)
       else UploadDone(options, body, r, sk, h, headerRead, written)
  }

  // The whole reply a request is owed. A download of nothing is owed no more than its opening line,
  // which is sent before its file is opened.
  function FullReply(r: Admitted, body: string): Part {
    if r.op.Get? then Part(OkLine(|body|) + body, body == "") else OneGoPart()
  }

  // A download that a short read sent back to the queue with its socket closed.
  predicate ShortRead(options: ServerOptions, r: Admitted) {
    options.scheduler.RunsToCompletion() && r.op.Get? && r.rounds >= 2
  }

  /** A failed request: its reply was cut off, perhaps with part of an error line after it, and the
      socket was closed once; after a short read it was used and closed once more. */
  ghost predicate Failed(options: ServerOptions, r: Admitted, sk: Sock, body: string) {
    && !sk.open && CutOff("", sk.sent, FullReply(r, body))
    && (if ShortRead(options, r) then sk.closes == 2 && sk.misuses == 2 else sk.closes == 1 && sk.misuses == 0)
  }

  // What no round changes.
  ghost predicate SameRequest(r: Admitted, r': Admitted) {
    && r'.id == r.id && r'.op == r.op && r'.fileName == r.fileName && r'.total == r.total
    && r'.arrival == r.arrival && r'.start == r.start && r'.rounds == r.rounds
  }

  // What a round that began as `r` with `k` rounds behind it must establish.
  ghost predicate RoundOutcome(options: ServerOptions, r: Admitted, k: nat, h: nat, headerRead: nat,
                               r': Admitted, sk': Sock, stored': string, ok: bool, written: bool)
  {
    if !ok then Failed(options, r, sk', stored')
    else
      && SameRequest(r, r')
      && if r'.transferred < r'.total then Live(options, r', k + 1, sk', h, headerRead, stored')
         else Completed(options, r', sk', h, headerRead, stored', written)
  }

  // A reply cut off in a later round is a cut-off reply.
  lemma CutOffLater(before: string, after: string, part: Part, full: Part)
    requires CutOff(before, after, part) && before + part.text <= full.text
    requires before + part.text == full.text && part.more ==> full.more
    ensures CutOff("", after, full)
  {
    var body, err :| CutAt(before, after, part, body, err);
    assert after == "" + (before + body) + err;
    assert before + body <= before + part.text;
    assert before + body == before + part.text ==> body == part.text by {
      assert (before + body)[|before|..] == body && (before + part.text)[|before|..] == part.text;
    }
    assert CutAt("", after, full, before + body, err);
  }

  // A preemptible download that fails after `k` rounds.
  lemma GetRoundFails(options: ServerOptions, f: string, r: Admitted, sk: Sock, next: nat, sk': Sock)
    requires r.op.Get? && !options.scheduler.RunsToCompletion() && r.total == |f| && r.transferred <= next <= |f|
    requires Untouched(sk) && sk.sent == (if r.responseStarted then OkLine(|f|) + f[..r.transferred] else "")
    requires if r.responseStarted then r.transferred < |f| else r.transferred == 0
    requires Aborted(sk, sk', GetPart(f, r, next))
    ensures Failed(options, r, sk', f)
  {
    hide OkLine;
    ReplyGrows(sk.sent, Opening(r), OkLine(|f|), f, r.transferred, next);
    CutOffLater(sk.sent, sk'.sent, GetPart(f, r, next), FullReply(r, f));
  }

  lemma GetRoundRobinRound(options: ServerOptions, f: string, r: Admitted, k: nat, sk: Sock, r': Admitted, sk': Sock,
                           ok: bool)
    requires options.scheduler.RoundRobin? && r.op.Get? && r.rounds == k + 1 && r.total == |f|
    requires RoundRobinLive(f, options.quantum, r, k, sk) && GetRoundRobinPost(f, options, r, sk, r', sk', ok)
    ensures if !ok then Failed(options, r, sk', f)
            else if r'.transferred < r'.total then RoundRobinLive(f, options.quantum, r', k + 1, sk')
            else DownloadDone(options, f, r', sk')
  {
    hide Floor, OkLine, CutOff;
    var q, o := options.quantum, r.transferred;
    var next := RrNext(f, o, q);
    if !ok {
      GetRoundFails(options, f, r, sk, next, sk');
      return;
    }
    ReplyGrows(sk.sent, Opening(r), OkLine(|f|), f, o, next);
    assert RrOffset(f, q, k + 1) == next;
    if next == |f| {
      RrLastRound(f, q, k);
      assert f[..|f|] == f;
    }
  }

  // The reply so far, the opening still owed and the next lines are the reply up to there.
  lemma ReplyGrows(sent: string, opening: string, line: string, f: string, o: nat, next: nat)
    requires o <= next <= |f|
    requires (opening == "" && sent == line + f[..o]) || (opening == line && sent == "" && o == 0)
    ensures sent + (opening + f[o..next]) == line + f[..next] <= line + f
    ensures line + f[..next] == line + f ==> next == |f|
  {
    assert f[..next] == f[..o] + f[o..next];
    assert f == f[..next] + f[next..];
    assert |line + f[..next]| == |line| + next;
  }

  lemma GetDeficitRound(options: ServerOptions, f: string, r: Admitted, k: nat, sk: Sock, r': Admitted, sk': Sock,
                        ok: bool)
    requires options.scheduler.Drr? && r.op.Get? && r.rounds == k + 1 && r.total == |f|
    requires DeficitLive(f, options.quantum, r, k, sk) && GetDeficitRoundRobinPost(f, options, r, sk, r', sk', ok)
    ensures if !ok then Failed(options, r, sk', f)
            else if r'.transferred < r'.total then DeficitLive(f, options.quantum, r', k + 1, sk')
            else DownloadDone(options, f, r', sk')
  {
    hide Floor, OkLine;
    var q, o := options.quantum, r.transferred;
    var next := DrrNext(f, o, r.deficit + q);
    if !ok {
      GetRoundFails(options, f, r, sk, next, sk');
      return;
    }
    ReplyGrows(sk.sent, Opening(r), OkLine(|f|), f, o, next);
    DeficitRoundNumbers(f, q, k, o, r.deficit);
    if next == |f| {
      assert f[..|f|] == f;
    }
  }

  lemma DeficitRoundNumbers(f: string, q: nat, k: nat, o: nat, d: nat)
    requires q >= 1 && o == Floor(f, k * q) && o + d == k * q && (k > 0 ==> k * q < |f|)
    ensures DrrNext(f, o, d + q) == Floor(f, (k + 1) * q) && o + d + q == (k + 1) * q
    ensures DrrNext(f, o, d + q) == |f| <==> (k + 1) * q >= |f|
    ensures DrrNext(f, o, d + q) == |f| ==> k + 1 == TotalRounds(|f|, q)
  {
    DrrStep(f, q, k, o, d);
    FloorIsEnd(f, (k + 1) * q);
    if (k + 1) * q >= |f| {
      LastRound(|f|, q, k);
    }
  }

  lemma GetToCompletionRound(options: ServerOptions, f: string, r: Admitted, k: nat, sk: Sock, r': Admitted, sk': Sock,
                             ok: bool)
    requires options.scheduler.RunsToCompletion() && r.op.Get? && r.rounds == k + 1 && r.total == |f|
    requires OneGoLive(f, r, k, sk) && GetToCompletionPost(f, options, r, sk, r', sk', ok)
    ensures if !ok then Failed(options, r, sk', f)
            else if r'.transferred < r'.total then OneGoLive(f, r', k + 1, sk')
            else DownloadDone(options, f, r', sk')
  {
    var full := FullReply(r, f);
    if ok {
      assert k == 0;
      var p := r'.transferred;
      assert sk.sent + (OkLine(|f|) + f[..p]) == OkLine(|f|) + f[..p];
      assert f[..|f|] == f;
    } else if k == 0 {
      CutOffLater(sk.sent, sk'.sent, full, full);
    } else {
      assert f == f[..r.transferred] + f[r.transferred..];
      assert full.text == (OkLine(|f|) + f[..r.transferred]) + f[r.transferred..];
      assert sk'.sent == sk.sent;
      CutOffPlain("", sk'.sent, full);
    }
  }

  // The socket after a successful round.
  lemma PutRoundSocket(q: nat, stored: string, r: Admitted, k: nat, sk: Sock, h: nat, headerRead: nat,
                       r': Admitted, sk': Sock, stored': string)
    requires q >= 1 && r.op.Put? && Untouched(sk) && h <= headerRead
    requires PreemptibleUploadLive(q, stored, r, k, sk, h, headerRead)
    requires PutRoundPost(q, r, sk, stored, r', sk', stored', true)
    ensures if r'.transferred == r'.total then ClosedOnce(sk') && sk'.sent == OkLine(0) + OkLine(0)
            else Untouched(sk') && sk'.sent == OkLine(0)
  {
    assert r'.transferred == r.transferred + Moved(r, q);
    UploadReply(sk.sent, r, q, OkLine(0));
  }

  lemma PutUnfinishedRound(q: nat, stored: string, r: Admitted, k: nat, sk: Sock, h: nat, headerRead: nat,
                           r': Admitted, sk': Sock, stored': string)
    requires q >= 1 && r.op.Put? && h <= headerRead
    requires PreemptibleUploadLive(q, stored, r, k, sk, h, headerRead)
    requires PutRoundPost(q, r, sk, stored, r', sk', stored', true) && r'.transferred < r'.total
    ensures r'.responseStarted && sk'.stream == sk.stream
    ensures PutLive(r', sk', h, headerRead - h, q, k + 1, stored')
  {
    hide PutAt, OkLine, Aborted;
    assert r'.transferred == r.transferred + Moved(r, q);
    PutProgress(r, sk, h, headerRead - h, q, k, stored);
    Arithmetic.TimesStep(k, q);
    PutStaysLive(r, sk, h, headerRead - h, k * q, q, stored, r', sk', stored', (k + 1) * q);
  }

  lemma PutFinishingRound(q: nat, stored: string, r: Admitted, k: nat, sk: Sock, h: nat, headerRead: nat,
                          r': Admitted, sk': Sock, stored': string)
    requires q >= 1 && r.op.Put? && r.rounds == k + 1 && h <= headerRead
    requires PreemptibleUploadLive(q, stored, r, k, sk, h, headerRead)
    requires PutRoundPost(q, r, sk, stored, r', sk', stored', true) && r'.transferred >= r'.total
    ensures sk'.stream == sk.stream && h + r'.transferred <= |sk.stream|
    ensures stored' == sk.stream[h..h + r'.transferred]
  {
    var result := PutResult(q, r, sk, stored);
    assert r'.transferred == result.0.transferred == r.transferred + Moved(r, q);
    PutExtendsPrefix(r, sk, h, headerRead - h, k * q, q, stored);
    assert stored' == result.2 && sk'.stream == result.1.stream;
  }

  lemma PutFinishingCount(q: nat, stored: string, r: Admitted, k: nat, sk: Sock, h: nat, headerRead: nat, r': Admitted)
    requires q >= 1 && r.op.Put? && r.rounds == k + 1 && h <= headerRead
    requires PreemptibleUploadLive(q, stored, r, k, sk, h, headerRead)
    requires r'.total == r.total && r'.transferred == r.transferred + Moved(r, q) >= r.total
    ensures r.rounds == TotalRounds(r.total, q)
    ensures r'.transferred == r.total <==> EndsExactly(headerRead - h, r.total, q)
  {
    PutEndsExactly(r, sk, h, headerRead - h, q, k, stored);
  }

  lemma PutFailingRound(options: ServerOptions, q: nat, stored: string, r: Admitted, k: nat, sk: Sock, h: nat,
                        headerRead: nat, r': Admitted, sk': Sock, stored': string)
    requires r.op.Put? && Untouched(sk) && h <= headerRead
    requires PreemptibleUploadLive(q, stored, r, k, sk, h, headerRead)
    requires PutRoundPost(q, r, sk, stored, r', sk', stored', false)
    ensures Failed(options, r, sk', stored')
  {
    UploadReply(sk.sent, r, q, OkLine(0));
    CutOffLater(sk.sent, sk'.sent, PutPart(r, q), OneGoPart());
  }

  lemma PutPreemptibleRound(options: ServerOptions, stored: string, r: Admitted, k: nat, sk: Sock, h: nat,
                            headerRead: nat, r': Admitted, sk': Sock, stored': string, ok: bool, q: nat, written: bool)
    requires !options.scheduler.RunsToCompletion() && r.op.Put? && r.rounds == k + 1
    requires Live(options, r, k, sk, h, headerRead, stored)
    requires q == options.quantum && PutRoundPost(q, r, sk, stored, r', sk', stored', ok)
    requires (ok && r'.transferred < r'.total ==> r'.deficit == 0) && (ok ==> written)
    ensures RoundOutcome(options, r, k, h, headerRead, r', sk', stored', ok, written)
  {
    if !ok {
      PutFailingRound(options, q, stored, r, k, sk, h, headerRead, r', sk', stored');
      return;
    }
    PutRoundSocket(q, stored, r, k, sk, h, headerRead, r', sk', stored');
    if r'.transferred < r'.total {
      PutUnfinishedRound(q, stored, r, k, sk, h, headerRead, r', sk', stored');
    } else {
      PutFinishingRound(q, stored, r, k, sk, h, headerRead, r', sk', stored');
      PutFinishingCount(q, stored, r, k, sk, h, headerRead, r');
    }
  }

  // The replies of an upload's rounds: `line` opens it, and closes it if the total is hit.
  lemma UploadReply(sent: string, r: Admitted, q: nat, line: string)
    requires r.op.Put? && line == OkLine(0) && sent == if r.responseStarted then line else ""
    ensures r.transferred + Moved(r, q) != r.total ==> sent + PutReply(r, q) == line
    ensures r.transferred + Moved(r, q) == r.total ==> sent + PutReply(r, q) == line + line
    ensures sent + PutReply(r, q) <= line + line
  {
    assert Opening(r) == if r.responseStarted then "" else line;
    assert sent + Opening(r) == line;
    assert line + "" == line;
    if r.transferred + Moved(r, q) == r.total {
      assert sent + (Opening(r) + line) == (sent + Opening(r)) + line;
    } else {
      assert Opening(r) + "" == Opening(r);
    }
  }

  // The share of an upload that came with the header and the share still to come.
  lemma OneGoSlices(stream: string, h: nat, headerRead: nat, total: nat)
    requires h <= headerRead <= |stream|
    ensures var e := Min(headerRead - h, total);
            headerRead + (total - e) <= |stream| ==>
              stream[h..headerRead][..e] + stream[headerRead..headerRead + (total - e)] == stream[h..h + total]
  {
  }

  lemma PutToCompletionRound(options: ServerOptions, stored: string, r: Admitted, k: nat, sk: Sock, h: nat,
                             headerRead: nat, r': Admitted, sk': Sock, stored': string, ok: bool, written: bool)
    requires options.scheduler.RunsToCompletion() && r.op.Put? && r.rounds == k + 1
    requires Live(options, r, k, sk, h, headerRead, stored)
    requires PutToCompletionPost(r, sk, stored, r', sk', stored', ok, written)
    ensures RoundOutcome(options, r, k, h, headerRead, r', sk', stored', ok, written)
  {
    if ok {
      OneGoSlices(sk.stream, h, headerRead, r.total);
      assert "" + (OkLine(0) + OkLine(0)) == OkLine(0) + OkLine(0);
    } else {
      CutOffLater(sk.sent, sk'.sent, OneGoPart(), OneGoPart());
    }
  }

  // An unfinished upload round spends its whole allowance.
  lemma PutLeftover(options: ServerOptions, stored: string, r: Admitted, k: nat, sk: Sock, h: nat, headerRead: nat)
    requires !options.scheduler.RunsToCompletion() && r.op.Put? && Live(options, r, k, sk, h, headerRead, stored)
    ensures r.transferred + Moved(r, options.quantum) < r.total ==> Moved(r, options.quantum) == options.quantum
  {
    PutProgress(r, sk, h, headerRead - h, options.quantum, k, stored);
    Arithmetic.TimesStep(k, options.quantum);
  }

  lemma GetRoundKeeps(options: ServerOptions, r: Admitted, k: nat, sk: Sock, h: nat, headerRead: nat, stored: string,
                      r': Admitted, sk': Sock, stored': string, ok: bool, written: bool)
    requires r.op.Get? && Live(options, r, k, sk, h, headerRead, stored) && r.rounds == k + 1
    requires CanServe(options, r, stored) && RoundPost(options, r, sk, stored, r', sk', stored', ok, written)
    ensures RoundOutcome(options, r, k, h, headerRead, r', sk', stored', ok, written)
  {
    if options.scheduler.RoundRobin? {
      GetRoundRobinRound(options, stored, r, k, sk, r', sk', ok);
    } else if options.scheduler.Drr? {
      GetDeficitRound(options, stored, r, k, sk, r', sk', ok);
    } else {
      GetToCompletionRound(options, stored, r, k, sk, r', sk', ok);
    }
  }

  lemma PutRoundRobinKeeps(options: ServerOptions, r: Admitted, k: nat, sk: Sock, h: nat, headerRead: nat,
                           stored: string, r': Admitted, sk': Sock, stored': string, ok: bool, written: bool)
    requires options.scheduler.RoundRobin? && r.op.Put? && r.rounds == k + 1
    requires Live(options, r, k, sk, h, headerRead, stored)
    requires PutRoundRobinPost(options, r, sk, stored, r', sk', stored', ok) && (ok ==> written)
    ensures RoundOutcome(options, r, k, h, headerRead, r', sk', stored', ok, written)
  {
    PutPreemptibleRound(options, stored, r, k, sk, h, headerRead, r', sk', stored', ok, options.quantum, written);
  }

  // With nothing saved up, a deficit round is a round-robin round.
  lemma DeficitRoundIsPlain(options: ServerOptions, r: Admitted, sk: Sock, stored: string,
                            r': Admitted, sk': Sock, stored': string, ok: bool)
    requires r.deficit == 0 && PutDeficitRoundRobinPost(options, r, sk, stored, r', sk', stored', ok)
    ensures PutRoundPost(options.quantum, r, sk, stored, r', sk', stored', ok)
    ensures ok && r'.transferred != r.total ==> r'.deficit == options.quantum - Moved(r, options.quantum)
  {
    assert r.deficit + options.quantum == options.quantum;
  }

  lemma SameOutcome(r1: Admitted, sk1: Sock, stored1: string, r2: Admitted, sk2: Sock, stored2: string)
    requires (r1.(deficit := 0), sk1.(misuses := 0), stored1) == (r2.(deficit := 0), sk2.(misuses := 0), stored2)
    requires r1.deficit == r2.deficit && sk1.misuses == sk2.misuses
    ensures r1 == r2 && sk1 == sk2 && stored1 == stored2
  {
    assert r1 == r1.(deficit := 0).(deficit := r1.deficit) && r2 == r2.(deficit := 0).(deficit := r2.deficit);
    assert sk1 == sk1.(misuses := 0).(misuses := sk1.misuses) && sk2 == sk2.(misuses := 0).(misuses := sk2.misuses);
  }

  lemma RoundMoves(q: nat, r: Admitted, sk: Sock, stored: string, r': Admitted, sk': Sock, stored': string)
    requires PutRoundPost(q, r, sk, stored, r', sk', stored', true)
    ensures r'.transferred == r.transferred + Moved(r, q) && r'.total == r.total
  {
  }

  lemma UploadMoves(q: nat, stored: string, r: Admitted, k: nat, sk: Sock, h: nat, headerRead: nat)
    requires q >= 1 && h <= headerRead && PreemptibleUploadLive(q, stored, r, k, sk, h, headerRead)
    requires headerRead - h <= r.total
    ensures r.transferred <= r.total && Moved(r, q) == Min(q, r.total - r.transferred)
  {
    PutProgress(r, sk, h, headerRead - h, q, k, stored);
    Arithmetic.TimesStep(k, q);
  }

  /** Round robin and deficit round robin serve an upload alike, round for round: the same bytes
      moved, min(quantum, remaining) of them, the same replies and file, and nothing saved up. */
  lemma UploadRoundsAgree(rr: ServerOptions, drr: ServerOptions, r: Admitted, k: nat, sk: Sock, h: nat, headerRead: nat,
                          stored: string,
                          r1: Admitted, sk1: Sock, stored1: string, r2: Admitted, sk2: Sock, stored2: string)
    requires rr.scheduler.RoundRobin? && drr.scheduler.Drr? && rr.quantum == drr.quantum && r.op.Put?
    requires Live(rr, r, k, sk, h, headerRead, stored) && headerRead - h <= r.total
    requires PutRoundRobinPost(rr, r, sk, stored, r1, sk1, stored1, true)
    requires PutDeficitRoundRobinPost(drr, r, sk, stored, r2, sk2, stored2, true)
    ensures Live(drr, r, k, sk, h, headerRead, stored)
    ensures r1 == r2 && sk1 == sk2 && stored1 == stored2 && r1.deficit == 0
    ensures r1.transferred == r.transferred + Min(rr.quantum, r.total - r.transferred)
  {
    hide PreemptibleUploadLive, PutResult, Moved, OkLine, CutOff;
    DeficitRoundIsPlain(drr, r, sk, stored, r2, sk2, stored2, true);
    UploadMoves(rr.quantum, stored, r, k, sk, h, headerRead);
    RoundMoves(rr.quantum, r, sk, stored, r1, sk1, stored1);
    RoundMoves(rr.quantum, r, sk, stored, r2, sk2, stored2);
    SameOutcome(r1, sk1, stored1, r2, sk2, stored2);
  }

  lemma PutDeficitKeeps(options: ServerOptions, r: Admitted, k: nat, sk: Sock, h: nat, headerRead: nat, stored: string,
                        r': Admitted, sk': Sock, stored': string, ok: bool, written: bool)
    requires options.scheduler.Drr? && r.op.Put? && r.rounds == k + 1
    requires Live(options, r, k, sk, h, headerRead, stored)
    requires PutDeficitRoundRobinPost(options, r, sk, stored, r', sk', stored', ok) && (ok ==> written)
    ensures RoundOutcome(options, r, k, h, headerRead, r', sk', stored', ok, written)
  {
    DeficitRoundIsPlain(options, r, sk, stored, r', sk', stored', ok);
    PutLeftover(options, stored, r, k, sk, h, headerRead);
    assert ok ==> r'.transferred == r.transferred + Moved(r, options.quantum) && r'.total == r.total;
    PutPreemptibleRound(options, stored, r, k, sk, h, headerRead, r', sk', stored', ok, options.quantum, written);
  }

  lemma PutRoundKeeps(options: ServerOptions, r: Admitted, k: nat, sk: Sock, h: nat, headerRead: nat, stored: string,
                      r': Admitted, sk': Sock, stored': string, ok: bool, written: bool)
    requires r.op.Put? && Live(options, r, k, sk, h, headerRead, stored) && r.rounds == k + 1
    requires CanServe(options, r, stored) && RoundPost(options, r, sk, stored, r', sk', stored', ok, written)
    ensures RoundOutcome(options, r, k, h, headerRead, r', sk', stored', ok, written)
  {
    if options.scheduler.RunsToCompletion() {
      PutToCompletionRound(options, stored, r, k, sk, h, headerRead, r', sk', stored', ok, written);
    } else if options.scheduler.RoundRobin? {
      PutRoundRobinKeeps(options, r, k, sk, h, headerRead, stored, r', sk', stored', ok, written);
    } else {
      PutDeficitKeeps(options, r, k, sk, h, headerRead, stored, r', sk', stored', ok, written);
    }
  }

  /** Any round of a live request leaves it live one round later, completed, or failed. */
  lemma RoundKeeps(options: ServerOptions, r: Admitted, k: nat, sk: Sock, h: nat, headerRead: nat, stored: string,
                   r': Admitted, sk': Sock, stored': string, ok: bool, written: bool)
    requires Live(options, r, k, sk, h, headerRead, stored) && r.rounds == k + 1
    requires CanServe(options, r, stored) && RoundPost(options, r, sk, stored, r', sk', stored', ok, written)
    ensures RoundOutcome(options, r, k, h, headerRead, r', sk', stored', ok, written)
  {
    if r.op.Get? {
      GetRoundKeeps(options, r, k, sk, h, headerRead, stored, r', sk', stored', ok, written);
    } else {
      PutRoundKeeps(options, r, k, sk, h, headerRead, stored, r', sk', stored', ok, written);
    }
  }

  lemma RoundKeepsStream(options: ServerOptions, r: Admitted, sk: Sock, stored: string,
                         r': Admitted, sk': Sock, stored': string, ok: bool, written: bool)
    requires CanServe(options, r, stored) && RoundPost(options, r, sk, stored, r', sk', stored', ok, written)
    ensures sk'.stream == sk.stream && (r.op.Get? ==> stored' == stored)
  {
  }
}
