/** Files as the round functions use them: `ifstream` line by line, `ofstream` in binary mode. */
module Storage {
  import opened Lines
  import opened Wire

  class FileReader {
    const file: StoredFile
    const data: string
    var pos: nat
    var eof: bool

    ghost predicate Valid()
      reads this
    {
      pos <= |data| && (eof ==> pos == |data|)
    }

    constructor (file: StoredFile)
      ensures Valid() && this.file == file && data == file.contents && pos == 0 && !eof
    {
      this.file, data := file, file.contents;
      pos, eof := 0, false;
    }

    method Seek(offset: nat)
      requires Valid() && offset <= |data|
      modifies this
      ensures Valid() && pos == offset && !eof
    {
      pos, eof := offset, false;
    }

    /** `std::getline`: the newline is consumed but not returned, and `eof` is raised only when
        the data ran out before a newline. Reading may fail at any time. */
    method GetLine() returns (ok: bool, line: string)
      requires Valid()
      modifies this, file`ioFaults
      ensures Valid()
      ensures ok ==> !old(eof) && old(pos) < |data| && pos == LineEnd(data, old(pos))
      ensures ok ==> line + (if eof then "" else "\n") == data[old(pos)..pos]
      ensures file.ioFaults == old(file.ioFaults) + if !ok && old(pos) < |data| then 1 else 0
    {
      line := "";
      if eof || pos == |data| {
        eof := true;
        return false, "";
      }
      if * {
        file.ioFaults := file.ioFaults + 1;
        return false, "";
      }
      ghost var start := pos;
      while pos < |data| && data[pos] != '\n'
        invariant start <= pos <= |data|
        invariant line == data[start..pos] && !eof && file.ioFaults == old(file.ioFaults)
        invariant forall k :: start <= k < pos ==> data[k] != '\n'
      {
        line := line + [data[pos]];
        pos := pos + 1;
      }
      ghost var stop := pos;
      if pos == |data| {
        eof := true;
      } else {
        pos := pos + 1;
      }
      assert pos == LineEnd(data, start) by {
        LineEndReached(data, start, pos);
      }
      ok := true;
    }
  }

  // `getline` plus the newline it swallowed, as every GET loop uses it.
  method TakeLine(reader: FileReader) returns (ok: bool, line: string)
    requires reader.Valid()
    modifies reader, reader.file`ioFaults
    ensures reader.Valid()
    ensures ok ==> old(reader.pos) < |reader.data| && reader.pos == LineEnd(reader.data, old(reader.pos))
    ensures ok ==> line == reader.data[old(reader.pos)..reader.pos]
    ensures reader.file.ioFaults == old(reader.file.ioFaults) + if !ok && old(reader.pos) < |reader.data| then 1 else 0
  {
    ok, line := reader.GetLine();
    if ok && !reader.eof {
      line := line + ['\n'];
    }
  }

  lemma LineEndReached(f: string, i: nat, e: nat)
    requires i < |f| && i < e && Boundary(f, e)
    requires forall k :: i <= k < e - 1 ==> f[k] != '\n'
    ensures e == LineEnd(f, i)
  {
    LineEndIsNext(f, i, e);
  }

  // A name in the file directory; `contents` is empty while there is no such file. `openFaults`
  // counts the opens that have failed, and `ioFaults` the reads and writes.
  class StoredFile {
    var present: bool
    var contents: string
    ghost var openFaults: nat
    ghost var ioFaults: nat

    constructor (present: bool, contents: string)
      ensures this.present == present && this.contents == contents
    {
      this.present, this.contents := present, contents;
      openFaults, ioFaults := 0, 0;
    }
  }

  /** How many calls on a socket and a file have failed so far. */
  datatype FaultCounts = FaultCounts(sends: nat, receives: nat, opens: nat, transfers: nat) {
    predicate Since(before: FaultCounts) {
      && before.sends <= sends && before.receives <= receives
      && before.opens <= opens && before.transfers <= transfers
    }
  }

  ghost function Counts(socket: ClientSocket, file: StoredFile): FaultCounts
    reads socket, file
  {
    FaultCounts(socket.sendFaults, socket.recvFaults, file.openFaults, file.ioFaults)
  }

  class FileWriter {
    const file: StoredFile
    var good: bool

    constructor (file: StoredFile)
      ensures this.file == file && good
    {
      this.file := file;
      good := true;
    }

    // A failed write stores a proper prefix and makes every later write do nothing.
    method Write(data: string)
      modifies this, file`contents, file`ioFaults
      ensures good ==> old(good) && file.contents == old(file.contents) + data
      ensures !old(good) ==> file.contents == old(file.contents)
      ensures old(good) && !good ==> old(file.contents) <= file.contents < old(file.contents) + data
      ensures file.ioFaults == old(file.ioFaults) + if old(good) && !good then 1 else 0
    {
      if !good {
        return;
      }
      var n: nat :| n <= |data|;
      file.contents := file.contents + data[..n];
      if n < |data| {
        good, file.ioFaults := false, file.ioFaults + 1;
      }
    }
  }

  // Opening for reading may fail.
  method OpenForReading(file: StoredFile) returns (reader: FileReader?)
    modifies file`openFaults
    ensures file.openFaults == old(file.openFaults) + if reader == null then 1 else 0
    ensures reader != null ==> fresh(reader) && reader.Valid() && reader.file == file && reader.data == file.contents
    ensures reader != null ==> reader.pos == 0 && !reader.eof
  {
    if * {
      file.openFaults := file.openFaults + 1;
      return null;
    }
    reader := new FileReader(file);
  }

  // Opening for writing creates the file if need be and truncates or appends; a failed open
  // leaves it alone.
  method OpenForWriting(file: StoredFile, truncate: bool) returns (writer: FileWriter?)
    modifies file
    ensures file.openFaults == old(file.openFaults) + if writer == null then 1 else 0
    ensures file.ioFaults == old(file.ioFaults)
    ensures writer == null ==> file.contents == old(file.contents) && file.present == old(file.present)
    ensures writer != null ==> file.present && fresh(writer) && writer.file == file && writer.good
    ensures writer != null ==> file.contents == if truncate then "" else old(file.contents)
  {
    if * {
      file.openFaults := file.openFaults + 1;
      return null;
    }
    writer := new FileWriter(file);
    file.present := true;
    if truncate {
      file.contents := "";
    }
  }
}
