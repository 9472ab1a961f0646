/** What every GET loop does with the lines it takes: batch up to a limit of them per write. */
module Batching {
  import opened Arithmetic
  import opened Lines
  import opened Wire

  /** The `batchBuffer` and `linesInBatch` of a GET loop that found the socket at `base` and has
      taken the lines `taken`, the first `flushed` of which are written. */
  class LineBatch {
    const socket: ClientSocket
    const packetLimit: nat
    var batchBuffer: string
    var linesInBatch: nat
    ghost const base: Sock
    ghost var taken: seq<string>
    ghost var flushed: nat

    // Up to a full batch is waiting.
    ghost predicate Pending()
      reads this, socket
    {
      && socket.Valid() && 1 <= packetLimit && flushed <= |taken| <= flushed + packetLimit && flushed % packetLimit == 0
      && batchBuffer == Concat(taken[flushed..]) && (batchBuffer == "" <==> flushed == |taken|)
      && socket.State() == Written(taken[..flushed])
    }

    ghost predicate Valid()
      reads this, socket
    {
      Pending() && |taken| == flushed + linesInBatch < flushed + packetLimit
    }

    // The socket once the lines `ls` are on it.
    ghost function Written(ls: seq<string>): (s: Sock)
      requires packetLimit >= 1
    {
      base.(sent := base.sent + Concat(ls), packets := base.packets + Packets(ls, packetLimit))
    }

    constructor (socket: ClientSocket, packetLimit: nat)
      requires socket.Valid() && packetLimit >= 1
      ensures Valid() && taken == [] && base == socket.State()
      ensures this.socket == socket && this.packetLimit == packetLimit
    {
      this.socket, this.packetLimit := socket, packetLimit;
      batchBuffer, linesInBatch := "", 0;
      base, taken, flushed := socket.State(), [], 0;
      new;
      assert base.sent + "" == base.sent && base.packets + [] == base.packets;
    }

    // The overrun path: the line waits for the flush at the end of the round.
    method Append(line: string)
      requires Valid() && line != ""
      modifies this`batchBuffer, this`taken
      ensures Pending() && taken == old(taken) + [line]
    {
      ConcatAppend(taken[flushed..], [line]);
      assert Concat([line]) == line + "";
      batchBuffer := batchBuffer + line;
      taken := taken + [line];
      assert taken[flushed..] == old(taken[flushed..]) + [line] && taken[..flushed] == old(taken[..flushed]);
    }

    // Takes a line and writes the batch out once it is full.
    method Add(line: string) returns (ok: bool)
      requires Valid() && line != ""
      modifies this`batchBuffer, this`linesInBatch, this`taken, this`flushed, socket
      ensures taken == old(taken) + [line]
      ensures ok ==> Valid()
      ensures !ok ==> Aborted(base, socket.State(), Part(Concat(taken), false))
      ensures old(socket.sendFaults) <= socket.sendFaults && socket.recvFaults == old(socket.recvFaults)
      ensures ok <==> socket.sendFaults == old(socket.sendFaults)
    {
      Append(line);
      linesInBatch := linesInBatch + 1;
      ok := true;
      if linesInBatch >= packetLimit {
        ok := Write();
        ModStep(|taken|, packetLimit);
        batchBuffer := "";
        linesInBatch := 0;
        flushed := |taken|;
        assert taken[..flushed] == taken;
      }
    }

    // Writes the waiting lines; on failure the socket is closed.
    method Write() returns (ok: bool)
      requires Pending() && flushed < |taken|
      modifies socket
      ensures ok ==> socket.State() == Written(taken)
      ensures !ok ==> Aborted(base, socket.State(), Part(Concat(taken), false))
      ensures old(socket.sendFaults) <= socket.sendFaults && socket.recvFaults == old(socket.recvFaults)
      ensures ok <==> socket.sendFaults == old(socket.sendFaults)
    {
      assert taken == taken[..flushed] + taken[flushed..];
      ConcatAppend(taken[..flushed], taken[flushed..]);
      PacketsAppend(taken[..flushed], taken[flushed..], packetLimit);
      assert base.sent + Concat(taken) == socket.sent + batchBuffer;
      assert base.packets + Packets(taken, packetLimit) == socket.packets + [batchBuffer];
      assert base.sent <= socket.sent;
      ok := socket.SendAllBytes(batchBuffer);
      if !ok {
        socket.Close();
        CutOffPlain(base.sent, socket.sent, Part(Concat(taken), false));
      }
    }

    // The flush after the loop.
    method Flush() returns (ok: bool)
      requires Pending()
      modifies socket
      ensures ok ==> socket.State() == Written(taken)
      ensures !ok ==> Aborted(base, socket.State(), Part(Concat(taken), false))
      ensures old(socket.sendFaults) <= socket.sendFaults && socket.recvFaults == old(socket.recvFaults)
      ensures ok <==> socket.sendFaults == old(socket.sendFaults)
    {
      ok := true;
      if batchBuffer != "" {
        ok := Write();
      } else {
        assert taken[..flushed] == taken;
      }
    }

    // The error exits of a loop: whole batches are out, then an error line, then the close.
    method CloseWithError(message: string)
      requires Valid()
      modifies socket
      requires IsRoundError(message)
      ensures Aborted(base, socket.State(), Part(Concat(taken), true))
      ensures socket.sendFaults == old(socket.sendFaults) ==> ToldWhy(base.sent, socket.sent, message)
      ensures old(socket.sendFaults) <= socket.sendFaults && socket.recvFaults == old(socket.recvFaults)
    {
      assert taken == taken[..flushed] + taken[flushed..];
      ConcatAppend(taken[..flushed], taken[flushed..]);
      ghost var middle := socket.sent;
      assert base.sent + Concat(taken) == middle + Concat(taken[flushed..]);
      socket.SendErrorResponse(message);
      socket.Close();
      CutOffWithError(base.sent, middle, socket.sent, Part(Concat(taken), true), message);
      assert middle == base.sent + Concat(taken[..flushed]);
    }
  }
}
