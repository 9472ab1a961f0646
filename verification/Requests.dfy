/** Requests, server options and the state a request carries between rounds (include/request.hpp). */
module Requests {
  import opened Wire

  datatype Policy = Fcfs | Sjf | RoundRobin | Drr {
    // The policies that serve a request in one go.
    predicate RunsToCompletion() {
      Fcfs? || Sjf?
    }
  }

  datatype Op = Get | Put

  // The quantum is a positive `int`.
  type Quantum = q: int | 1 <= q < 0x8000_0000 witness 1

  // The signed arithmetic of the round-robin loops.
  newtype Int32 = x: int | -0x8000_0000 <= x < 0x8000_0000

  datatype ServerOptions = ServerOptions(scheduler: Policy, quantum: Quantum, packetization: int) {
    function PacketLimit(): (n: nat)
      ensures n >= 1 && n >= packetization && (n == 1 || n == packetization)
    {
      if packetization < 1 then 1 else packetization
    }
  }

  /** A request as the scheduler queue holds it; queueing and picking copy it. */
  datatype Admitted = Admitted(
    id: nat,
    op: Op,
    fileName: string,
    extra: string,
    total: nat,
    transferred: nat,
    deficit: nat,
    responseStarted: bool,
    arrival: nat,
    start: nat,
    rounds: nat,
    forfeited: nat)

  /** A worker's own copy of a request during one round. */
  class AdmittedRequest {
    const id: nat
    const clientSocket: ClientSocket
    const op: Op
    const fileName: string
    const totalBytesToTransfer: nat
    const arrivalTime: nat
    var extra: string
    var bytesTransferred: nat
    var deficit: nat
    var responseStarted: bool
    var startTime: nat
    var rounds: nat
    var forfeitedBytes: nat

    constructor (r: Admitted, socket: ClientSocket)
      ensures Snapshot() == r && clientSocket == socket
    {
      id, clientSocket, op, fileName := r.id, socket, r.op, r.fileName;
      totalBytesToTransfer, arrivalTime := r.total, r.arrival;
      extra, bytesTransferred, deficit := r.extra, r.transferred, r.deficit;
      responseStarted, startTime, rounds, forfeitedBytes := r.responseStarted, r.start, r.rounds, r.forfeited;
    }

    function Snapshot(): (r: Admitted)
      reads this
    {
      Admitted(id, op, fileName, extra, totalBytesToTransfer, bytesTransferred, deficit,
               responseStarted, arrivalTime, startTime, rounds, forfeitedBytes)
    }
  }

  // The line that opens the reply, still owed by a request that has not started.
  function Opening(r: Admitted): (s: string) {
    if r.responseStarted then "" else OkLine(if r.op.Get? then r.total else 0)
  }
}
