# Verification model of the multithreaded file server

The server keeps files and serves `GET` and `PUT` requests over TCP. A parser thread reads one request
line from each connection and queues the request; worker threads pick requests by policy (FCFS, SJF,
round robin, deficit round robin), serve one round each, and complete, drop or requeue them at the tail
with their saved state. This project models that core in Dafny and proves what it guarantees.
`dafny verify dfyconfig.toml` checks everything.

## How it is built

- **One round.** The six round functions, the reply helpers, the file and socket calls and the client's
  buffered reader are methods over objects, with the loops and early exits of the source. `send`, `recv`,
  reads, writes and `open` are nondeterministic: a call takes or gives any positive part, or fails. Each
  round method is proved against a predicate (`GetRounds.GetRoundRobinPost`, `PutRounds.PutRoundPost`, ...)
  stated in terms of line boundaries and byte positions, not of the loop. Ghost counters of failed calls
  (`Storage.Counts`) tell when an operation may fail at all and what its peer is then told
  (`Service.Accounted`); the end of a stream is no failed call.
- **Many rounds.** `RrTheory`, `DrrTheory`, `PutTheory` and `SjfTheory` say what repeated rounds and picks
  amount to: closed forms, ledgers, optimality, orders.
- **The server.** `Server` is a step machine for any number of workers: admit, pick, finish a round,
  signal, parser exit, worker exit. A finished round is any outcome the round predicates allow. `Threads`
  holds the thread loops as methods of a class and proves that each turn takes a step of the machine.
- **Whole runs.** `ServerInvariant.Inv` holds in every state of every run. `Guarantees`, `Persistence`,
  `Timing`, `Confinement`, `Fairness`, `Drain`, `Progress`, `SjfDrain`, `Shutdown` and `EndToEnd` state the
  consequences, and `Witnesses` has a run for each way in which the code falls short.

A round is one step because it works on a private copy of the request, on a socket no other thread uses,
and on a file covered by the first assumption below. Picking and enqueueing are atomic because the source
does them under the queue mutex.

## Assumptions

- Nobody writes a file while a live request uses it, and no two live uploads share a name
  (`Server.NameFree`, required at admission). The load-test client keeps to the second half by
  construction (`Transfers.LoadNamesDiffer`).
- The quantum is a positive `int` (`src/util.cpp:39`); a packet limit below one counts as one
  (`src/request_handler.cpp:146`).
- Under round robin no line has 2^31 bytes or more, because of the cast at `src/request_handler.cpp:161`.
- The clock is monotonic and every connection has its own socket.

## What the code does not do

- A round-robin or deficit-round-robin upload takes early bytes beyond the declared size
  (`src/request_handler.cpp:294`, `src/request_handler.cpp:458`). It then misses the `==` test, sends no
  closing line and leaves its socket open. `PutTheory.EndsExactly` is the exact condition:
  `early <= total || (total > 0 && total % quantum == 0)`. `Witnesses.OvershootRun` is an instance.
- A download served in one go (FCFS, SJF) that hits a failing read is put back into the queue with its
  socket already closed, and its second round closes it again (`src/request_handler.cpp:89-117`,
  `src/server.cpp:322`). `Guarantees.SocketAfterwards` says exactly when; `Witnesses.ShortReadRun` is an
  instance.
- An upload served in one go ignores failed writes of received bytes (`src/request_handler.cpp:252`) and
  still reports success; the file is then a proper prefix of the body. `Guarantees.CompletedUploadIsWhole`
  says exactly when the file is whole; `Witnesses.UnwrittenRun` is an instance.
- A request admitted after the last worker has exited stays in the queue for ever
  (`Witnesses.StrandingRun`), although `README.md` of the repository says that active requests are drained.
  `Shutdown.ShutdownDrains` says exactly when the queue is empty at the end.
- A byte count of 2^64 or more makes `std::stoull` throw inside the parser thread, where nothing catches it
  (`src/request.cpp:64`). The model has this as the parse result `Uncaught`; `RequestParser.UncaughtExactly`
  says for which lines, and `Client.UncaughtExample` is one.
- The client cannot tell an error line in the middle of a download from contents
  (`Transfers.CutReplyIsMisread`, `Witnesses.MisreadRun`).

## Model

| member | source | states |
|---|---|---|
| Wire.ClientSocket.SendResponse | src/response.cpp:4-23 | Whatever parts `send` takes, all of the data arrives once and in order, or a `send` failed and a proper prefix did. |
| Wire.ClientSocket.SendOkResponse | src/response.cpp:25-28 | Success puts exactly one `OK <value>` line on an open socket. |
| Wire.ClientSocket.SendErrorResponse | src/response.cpp:30-33 | At most one error line is added: the whole of it unless a `send` fails. |
| Wire.ClientSocket.SendAllBytes | src/response.cpp:35-49 | A batch is written whole and logged as one write, or a `send` failed and a proper prefix went out. |
| Framing.ReadRequestHeader | src/framing.cpp:5-30 | For any chunking the header is the stream up to its first newline and header plus extra is all that was received; unless a receive fails it is found just when the stream has a newline. |
| RequestParser.ParseRequest | src/request.cpp:6-98 | The word-by-word parser computes the meaning of the line's words, with every error message and the uncaught overflow. |
| RequestParser.ParsedExactly | src/request.cpp:6-99 | Which lines are understood, and as what: GET, PUT or HEALTH in any letter case, with exactly the right number of words, a name that leads to an entry of the directory, and a decimal count below 2^64. |
| RequestParser.RejectedExactly | src/request.cpp:21-89 | Which lines are turned down with which of the six messages. |
| RequestParser.DirectEntryExactly | src/request.cpp:97-99 | A name is accepted if and only if, below any directory, it adds exactly one path component that is not empty, `.` or `..`. |
| RequestParser.UncaughtExactly | src/request.cpp:56-64 | The overflow happens for exactly the lines `PUT` in any case, a name of a directory entry, and a number of 2^64 or more, whatever follows. |
| Decimal.BaseTen | src/response.cpp:25-28 | Numerals are written in base ten, most significant digit first. |
| Decimal.StoullExactly | src/client.cpp:211-216 | `stoull` takes a whole text for a number exactly when it is white space, perhaps a sign and digits below 2^64; a minus sign negates in 64 bits. |
| Client.OversizedPutIsUncaught | src/request.cpp:64 | The client's own request line for 2^64 bytes or more is one. |
| Client.UncaughtExample | src/request.cpp:64 | A concrete such line. |
| Client.BufferedSocket.ReadHeader | src/client.cpp:149-170 | Yields exactly the first line of what is unread and leaves exactly the rest; unless a receive fails it succeeds just when there is a line. |
| Client.BufferedSocket.ReadBodyData | src/client.cpp:172-198 | Fills the array with exactly the next bytes, none lost or repeated, whatever is buffered; unless a receive fails it succeeds just when there are that many. |
| Client.OkExactly | src/client.cpp:200-224 | Which lines the client takes for an acknowledgement, and of which number. |
| Client.ErrExactly | src/client.cpp:226-238 | Which lines the client takes for an error line, and with which reason. |
| Client.OkRoundTrip | src/client.cpp:200-224 | The client reads back every 64-bit number the server announces, and no error. |
| Client.ErrRoundTrip | src/client.cpp:226-238 | The client reads back every non-empty reason, and no number. |
| Client.FileNameExactly | src/client.cpp:245-251 | The name taken from a path is what follows its last slash or backslash, and the whole path if there is none. |
| Client.PutRequestRoundTrip | src/client.cpp:253-256 | The server recovers operation, size and name, the last part of the path or the given destination, from an upload request if and only if that name is one valid word. |
| Client.GetRequestRoundTrip | src/client.cpp:357-359 | The same for a download request and the last part of its path. |
| Transfers.GetFile | src/client.cpp:361-423 | A download yields exactly what `ReadReply` reads from the server's bytes and saves that if asked to; unless a call fails it sends its request and yields just that. The socket is closed either way. |
| Transfers.PutFile | src/client.cpp:258-355 | An upload succeeds only after its request line and the whole file were sent and acknowledged twice; unless a call fails it succeeds just when it is acknowledged twice, and sends the file just when the first acknowledgement comes. The socket is closed either way. |
| Transfers.ReadsWhatFollows | src/client.cpp:384-401 | After an announced size the client takes the next bytes, whatever they are, and fails if they are too few. |
| Transfers.CutReplyIsMisread | src/client.cpp:398-401 | A complete reply yields the file; one cut off and followed by an error line is taken for a file exactly when the error line fills the gap. |
| Transfers.LoadUploadIsUnderstood | src/client.cpp:490-491 | The upload of a load test is understood as one of the path's file under the name made of its ticket and the file's. |
| Transfers.LoadNamesDiffer | src/client.cpp:475-490 | Different tickets give different file names. |
| Lines.PacketizationIsTransparent | src/request_handler.cpp:84-114 | Batching by any limit n changes no byte; every write is the next group of at most n whole lines, and there are ceil(m / n) of them. |
| Batching.LineBatch.Add | src/request_handler.cpp:175-188 | A line joins the pending batch, and the batch is written once it holds the limit; lines taken are always lines written plus lines pending. |
| GetRounds.ServeGetRoundRobin | src/request_handler.cpp:120-209 | One round sends the owed opening line and the lines up to the round-robin stop, in batches, counts the forfeit, closes at the end of the file. It fails if and only if a call failed, closes once with only part of that sent, and unless a send failed ends with the error line for the open or the read. |
| GetRounds.ServeGetDeficitRoundRobin | src/request_handler.cpp:353-429 | One round sends every whole line that saved deficit plus quantum pays for and saves the rest; it fails if and only if a call failed, as above. |
| GetRounds.ServeGetToCompletion | src/request_handler.cpp:68-118 | One go sends the opening line and whole lines from the start of the file, all of them unless a read fails, and closes; it fails only if a send or the open failed. |
| GetRounds.RrStops | src/request_handler.cpp:148-193 | The loop's three exits are one place: the last line boundary within the quantum. |
| PutRounds.ServePutRoundRobin | src/request_handler.cpp:267-351 | One round appends the next early bytes and then the next received bytes up to the quantum, truncating only at the start; the closing line comes exactly when the total is hit. It succeeds only without a failed call, and fails without one only if the stream has too few bytes; unless a send failed the last line names the reason. |
| PutRounds.ServePutDeficitRoundRobin | src/request_handler.cpp:431-510 | The same with the saved deficit added to the quantum. |
| PutRounds.ServePutToCompletion | src/request_handler.cpp:211-265 | On success the file holds the first declared bytes after the header if and only if no write failed, and a prefix of them otherwise; the closing line is sent either way. A failed write of received bytes is never the reason for a failure. |
| Service.ServeRequest | src/request_handler.cpp:36-65 | The dispatch serves one round under the configured policy, for either operation. A round without a failed call succeeds if and only if it is servable, then does all it set out to, and a failed one told its peer which call it was unless that was a send. |
| Lifecycle.UploadRoundsAgree | src/request_handler.cpp:292-510 | Round robin and deficit round robin serve an upload alike, round for round: min(quantum, remaining) bytes, the same replies and file, no deficit kept. |
| Lifecycle.RoundKeeps | src/request_handler.cpp:36-65 | Any round of a live request leaves it live with exactly one more round behind it, completed, or failed with its reply cut off. |
| DrrTheory.DrrClosedForm | src/request_handler.cpp:375-426 | After k unfinished rounds the offset is the largest line boundary not above k quanta and the deficit the rest, less than the next line; finished in exactly max(1, ceil(total / quantum)) rounds. |
| RrTheory.RrLedger | src/request_handler.cpp:142-193 | Sent, forfeited and unused bytes are k quanta plus the overruns; nothing is unused before the last round. |
| RrTheory.RrForfeitRange | src/request_handler.cpp:170-173 | A forfeit is between 1 and quantum - 1, and comes only before a line that does not fit. |
| RrTheory.RrForfeitedBelowSize | src/request_handler.cpp:170-173 | A download forfeits less than the size of a non-empty file. |
| RrTheory.RrTwoRounds | src/request_handler.cpp:148-193 | Two rounds in a row send more than one quantum. |
| RrTheory.RrRoundBound | src/request_handler.cpp:148-193 | R >= 2 rounds give floor(R / 2) * (quantum + 1) <= total. |
| RrTheory.RrIsOptimal | src/request_handler.cpp:142-193 | No cut of the file into whole-line chunks of at most a quantum, or one line, has fewer chunks than there are rounds. |
| RrTheory.RrRoundsAreACut | src/request_handler.cpp:142-193 | The rounds themselves are such a cut. |
| RrTheory.DrrDominatesRr | src/request_handler.cpp:380-411 | With no line above the quantum, deficit round robin is never behind after any number of rounds and needs no more of them. |
| RrTheory.LongLinesReverseTheOrder | src/request_handler.cpp:163-168 | Without that hypothesis round robin can need 1 round where the other needs 10. |
| PutTheory.PutEndsExactly | src/request_handler.cpp:341-348 | An upload's last round hits the declared total if and only if `EndsExactly` holds, and is number max(1, ceil(total / quantum)). |
| PutTheory.PutExtendsPrefix | src/request_handler.cpp:280-337 | After a round the file is the longer prefix of the bytes that follow the request line. |
| Scheduler.FirstShortest | src/scheduler.cpp:16-27 | The position of the first request with the fewest bytes. |
| Scheduler.SchedulerQueue.SelectNextRequestToProcess | src/scheduler.cpp:9-29 | Removes and returns the front, or the first shortest under SJF, and keeps the others in order. |
| Scheduler.SchedulerQueue.EnqueueAdmittedRequest | src/server.cpp:376-383 | A request joins at the tail. |
| SjfTheory.SjfOrderSorts | src/scheduler.cpp:16-27 | Repeated selection sorts by size. |
| SjfTheory.SjfOrderIsStable | src/scheduler.cpp:16-27 | Requests of equal size keep their order. |
| SjfTheory.StableSortIsUnique | src/scheduler.cpp:16-27 | Sorted and stable determine the order. |
| SjfTheory.SjfOrderIsOptimal | src/scheduler.cpp:16-27 | No order of the same requests has a smaller sum of completion times. |
| SjfDrain.PicksInOrder | src/scheduler.cpp:16-27 | With any number of workers and whatever fails, while nothing arrives or is put back the requests are picked in that order. |
| SjfDrain.DrainsInOrder | src/server.cpp:308-334 | With one worker they are also served in it, and completed in it but for those that fail. |
| Threads.FileServer.ParseConnection | src/server.cpp:224-287 | A connection whose first line arrives is queued by a machine step, refused, answered or ends the thread exactly as the line says, and unless a receive fails it arrives whenever the stream has it. A refused one is sent the error line for a named reason, an answered one the queue length, whole unless a send fails; both are closed once. The overflow leaves the socket as it is. |
| Threads.FileServer.ServeHealthRequestImmediately | src/request_handler.cpp:25-34 | The queue length, or a part of that line if a send fails, then the close. |
| Threads.DecideOn | src/server.cpp:243-277 | What a header line leads to: queued with its size, answered at once, refused with exactly this message, or the uncaught overflow. |
| Threads.FileServer.TakeRequest | src/server.cpp:296-314 | After the wait a worker exits exactly on an empty queue at shutdown, and otherwise picks, stamps the first start and counts the round. |
| Threads.FileServer.ServeRound | src/server.cpp:321-334 | Serving and settling a request is one finish step of the machine: requeued, recorded as completed, or dropped, with its file as it then is on disk. The failed calls account for the outcome, as in `Service.ServeRequest`. |
| ServerInvariant.NextKeeps | src/server.cpp:292-334 | Every step keeps the server invariant. |
| ServerInvariant.RunKeeps | src/server.cpp:292-334 | Every state of every run satisfies it. |
| Census.PlacesAreReal | src/server.cpp:321-334 | The places counted by the invariant are exactly queue, rounds in flight, completed and failed. |
| Shutdown.Conservation | src/server.cpp:279-334 | Each id handed out is in exactly one of queue, flight, completed and failed, once, and the four add up to the admissions. |
| Tracking.DepartedForever | src/server.cpp:321-334 | A completed or failed request is never served again and its socket is never touched again. |
| Tracking.RequeuesAreRounds | src/server.cpp:308-325 | The rounds behind a request are the steps that put it back into the queue. |
| Timing.TimesAreStamped | src/server.cpp:286-328 | For any run: the reported arrival is the time of the admission, rounds is the number of picks, start the time of the first pick, and finish that of the step that ended the last round. |
| Confinement.AdmittedNamesAreEntries | src/server.cpp:243-287 | Whatever a run admits names an entry of the file directory itself. |
| Confinement.ChangedFilesAreEntries | src/request_handler.cpp:211-290 | A file changes or appears in a run only if an upload to that name was admitted, and the name is that of an entry of the directory. |
| Guarantees.CompletedDownload | src/request_handler.cpp:68-209 | A completed download put exactly `OK <size>` and the bytes its file held at admission on its socket, closed once, with arrival <= start <= finish and the policy's number of rounds. |
| Guarantees.LiveDownload | src/request_handler.cpp:120-209 | At every reachable state an unfinished preemptible download has sent exactly the prefix of its reply that ends at its saved offset, a line boundary. |
| Guarantees.CompletedLedger | src/request_handler.cpp:142-193 | The reported rounds and forfeited bytes of a completed round-robin download balance its bytes, and the rounds are the fewest possible. |
| Guarantees.CompletedUpload | src/request_handler.cpp:267-351 | A preemptible upload stores exactly its first transferred bytes in max(1, ceil(total / quantum)) rounds; it hits the declared size, closes and acknowledges if and only if `EndsExactly` holds; arrival <= start <= finish. |
| Guarantees.LiveUpload | src/request_handler.cpp:267-351 | At every reachable state an unfinished preemptible upload has stored exactly one quantum of its body for each round behind it, and keeps the rest of the early bytes. |
| Guarantees.CompletedUploadIsWhole | src/request_handler.cpp:211-510 | A completed upload stored exactly its declared body if and only if no write failed and, unless it was served in one go, `EndsExactly` holds. |
| Guarantees.UploadEndToEnd | src/client.cpp:258-355 | The completed upload of a client that sends the announced bytes goes under the name it gave, is acknowledged twice, and stores exactly these bytes if and only if no write failed, which is certain unless it is served in one go; else a prefix. |
| Guarantees.PoliciesStoreTheSame | src/request_handler.cpp:211-510 | When one completed upload of some bytes ended whole, another completed upload of the same bytes, under any policy, worker count and chunking, left the same file if and only if it ended whole, too: no write failed and, unless in one go, `EndsExactly` held. |
| Guarantees.SocketWhileLive | src/server.cpp:321-325 | The socket of a live request is open and unharmed if and only if no short read has put a download served in one go back into the queue; else it is closed, once. |
| Guarantees.SocketAfterwards | src/request_handler.cpp:89-117 | Afterwards it was closed exactly once and never misused if and only if there was no such short read and no overshoot: after a short read it was used once and closed twice, after an overshoot it is still open. |
| Guarantees.FailedRequest | src/request_handler.cpp:120-138 | A failed request was sent a proper prefix of its reply and perhaps part of an error line; only a download of nothing may have been sent its whole reply. Its times are in order. |
| Guarantees.RoundIsEnabled | src/server.cpp:308-321 | Whatever a round relies on holds for every request in flight. |
| EndToEnd.AcknowledgedExactly | src/client.cpp:290-349 | At every reachable state the bytes an upload was sent satisfy the client if and only if it was completed with its closing line; its declared body is then stored, unless it was served in one go and a write failed. |
| EndToEnd.DownloadEndToEnd | src/client.cpp:361-423 | From the bytes of a completed download the client reads exactly the file as it was when its request was admitted. |
| Persistence.UploadThenDownload | src/request_handler.cpp:36-65 | A download admitted after an upload ended, with no other upload to that name in between, delivers exactly what was stored. |
| Fairness.PicksAreFair | src/scheduler.cpp:12-14 | With one worker, over any window in which two requests stay unfinished, their pick counts differ by at most 1, whatever else arrives. |
| Fairness.BytesAreFair | src/request_handler.cpp:375-411 | Over the same windows deficit round robin serves two requests bytes that differ by at most quantum + 2 * (longest line - 1), for downloads and uploads alike. |
| Fairness.TurnsAreRounds | src/server.cpp:308-312 | The `rounds` field counts the picks. |
| Fairness.WaitIsBounded | src/scheduler.cpp:12-14 | With any number of workers, a request waiting at position p is picked after exactly p other picks. |
| Drain.WorkIsBounded | src/server.cpp:308-325 | With no arrivals, under any policy and with any failures, only a bounded number of rounds can begin or end. |
| Drain.PicksAddUp | src/server.cpp:308-325 | Without failures the picks made and the picks left add up, under both preemptive policies. |
| Drain.DrainTakes | src/server.cpp:308-325 | A deficit-round-robin drain takes exactly the sum of max(1, ceil(total / quantum)) picks. |
| Progress.CanSucceed | src/request_handler.cpp:36-65 | The round of a live request can succeed if and only if its client has sent the bytes of the round, for an upload, or its socket is open, for a download in one go; a preemptible download's always can. |
| Progress.FaultFreeRoundIsGood | src/server.cpp:321-325 | The round of a request that no I/O error stands in the way of, if none of its calls fails, succeeds, writes all it should and in one go reads its file to the end. |
| Progress.NeverStuck | src/server.cpp:296-321 | While a request is live that no I/O error stands in the way of, and a worker has not exited, a request can be picked or a round can succeed. |
| Progress.ErrorFreeRunsDrain | src/server.cpp:308-325 | Without arrivals and I/O errors, a run that has no such step left has answered all its requests. |
| Progress.CanCompleteAll | src/server.cpp:308-334 | And it can be continued, without I/O errors, until everything that waited or was in flight is completed. |
| Shutdown.ShutdownDrains | src/server.cpp:190-197 | At the end the queue is empty, and every admitted request completed or failed, if and only if each was admitted while some worker had not exited. |
| Witnesses.OvershootRun | src/request_handler.cpp:293-305 | A run that admits an upload of three bytes with five early ones at quantum 2 and completes it with four stored, its socket open and no acknowledgement. |
| Witnesses.UnwrittenRun | src/request_handler.cpp:252-263 | A run that completes and acknowledges an upload of which nothing was stored. |
| Witnesses.ShortReadRun | src/request_handler.cpp:89-117 | A run that closes the socket of a download in one go, uses it once more and closes it again. |
| Witnesses.MisreadRun | src/request_handler.cpp:151-155 | A run whose read error the client takes for the rest of the file. |
| Witnesses.StrandingRun | src/server.cpp:299-306 | A run, under any options, that ends with a request in the queue. |
| Witnesses.DrainingRun | src/server.cpp:293-337 | A run, under any options, that admits, serves and completes a request and then shuts down with an empty queue. |
| Shutdown.StrandedForever | src/server.cpp:299-306 | Once all workers have exited, what waits in the queue stays there for the rest of the run and is never completed or failed. |

## Left out

- Creating, binding and accepting sockets, receive timeouts and `stat`: foreign calls; a connection is the
  stream of bytes its peer sends, and a file lookup is a parameter.
- The connection queue in front of the parser: first in, first out, with no effect on what is proved.
- Condition variables, signals and wakeups (`src/server.cpp:190-193`, `src/server.cpp:299-301`): waiting is
  a step that is not enabled, so lost wakeups are not covered.
- Logging, `metrics.csv`, the shutdown summary, `src/cli.cpp` and `src/config.cpp`.
- Reuse of file descriptor numbers after a close: a second close counts as misuse of the same socket.
- Buffering inside `std::ofstream`: a write stores all of its data or a proper prefix, and fails for good then.
- Wrap-around of 64-bit counters: byte counts, deficits, rounds and ids are unbounded. The deficit stays
  below the next line (`DrrTheory.DrrClosedForm`), so its subtraction cannot wrap.
- Files written during a download, concurrent writers of one file, and files that are removed.
- The random choice of files and operations in the load test.
- PutRounds.ServePutToCompletion: which prefix is stored after a failed write is left open, because it
  depends on the file system.
