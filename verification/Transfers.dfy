/** Whole client transfers (src/client.cpp): what the client concludes from the server's bytes. */
module Transfers {
  import opened Decimal
  import opened Storage
  import opened Wire
  import opened Framing
  import opened Client
  import RequestParser

  const READ_SIZE: nat := 4096

  function FirstLine(all: string): (line: Option<string>)
    ensures line.Some? ==> line.value <= all
  {
    var n := FindNewline(all);
    if n < |all| then Some(all[..n + 1]) else None
  }

  /** The file a download yields if the server sends `all` and nothing more. */
  function ReadReply(all: string): Option<string> {
    match FirstLine(all)
    case None => None
    case Some(line) =>
      if ParseErrorResponse(line).Some? then None
      else
        match ParseOkResponse(line)
        case None => None
        case Some(size) => if |line| + size <= |all| then Some(all[|line|..|line| + size]) else None
  }

  // The server begins with an acknowledgement.
  predicate Accepted(all: string) {
    FirstLine(all).Some? && ParseOkResponse(FirstLine(all).value) == Some(0)
  }

  // Two acknowledgements: one before the body is sent, one after it was stored.
  predicate Acknowledged(all: string) {
    Accepted(all) && Accepted(all[|FirstLine(all).value|..])
  }

  /** The reply as far as it arrives: whenever all of it did, the result is what it means. */
  method ReceiveFile(connection: BufferedSocket) returns (data: Option<string>)
    requires connection.Valid()
    modifies connection`buffer, connection.socket`read, connection.socket`misuses
    modifies connection.socket`recvFaults
    ensures data.Some? || connection.socket.read == |connection.socket.stream| ==>
              data == ReadReply(old(connection.Unread()))
    ensures old(connection.socket.recvFaults) <= connection.socket.recvFaults
    ensures connection.socket.recvFaults == old(connection.socket.recvFaults) ==>
              data == ReadReply(old(connection.Unread()))
  {
    hide ParseOkResponse, ParseErrorResponse;
    ghost var all := connection.Unread();
    var ok, line := connection.ReadHeader();
    if !ok {
      assert connection.socket.read == |connection.socket.stream| ==> all == connection.buffer;
      return None;
    }
    assert FirstLine(all) == Some(line);
    if ParseErrorResponse(line).Some? {
      return None;
    }
    var size := ParseOkResponse(line);
    if size.None? {
      return None;
    }
    var fileData := new char[size.value];
    var totalRead;
    ok, totalRead := connection.ReadBodyData(fileData, size.value);
    if !ok {
      assert |all[|line|..]| == totalRead + |connection.socket.stream| - connection.socket.read;
      return None;
    }
    assert fileData[..totalRead] == fileData[..];
    data := Some(fileData[..]);
    assert all[|line|..] == data.value + connection.Unread();
    assert all[|line|..|line| + size.value] == data.value;
  }

  // Asks for the file and receives the reply.
  method FetchFile(connection: BufferedSocket, request: string) returns (data: Option<string>)
    requires connection.Valid()
    modifies connection`buffer, connection.socket`read, connection.socket`misuses
    modifies connection.socket`sent, connection.socket`packets
    modifies connection.socket`recvFaults, connection.socket`sendFaults
    ensures data.Some? ==> connection.socket.sent == old(connection.socket.sent) + request
    ensures var answered := connection.socket.sent == old(connection.socket.sent) + request
                            && connection.socket.read == |connection.socket.stream|;
            data.Some? || answered ==> data == ReadReply(old(connection.Unread()))
    ensures old(connection.socket.Faults()) <= connection.socket.Faults()
    ensures connection.socket.Faults() == old(connection.socket.Faults()) ==>
              && data == ReadReply(old(connection.Unread()))
              && connection.socket.sent == old(connection.socket.sent) + request
  {
    var sent := connection.socket.SendAllBytes(request);
    if !sent {
      return None;
    }
    data := ReceiveFile(connection);
  }

  /** A download yields exactly what `ReadReply` says the server's bytes mean, and fails only if that
      is nothing, or the request was not sent, or the reply not received, or the file not saved: unless
      a call fails the result is `ReadReply`, saved if asked for. */
  method GetFile(connection: BufferedSocket, filePath: string, saveToDisk: bool, output: StoredFile)
    returns (data: Option<string>)
    requires connection.Valid()
    modifies connection`buffer, connection.socket, output
    ensures !connection.socket.open && connection.socket.closes == old(connection.socket.closes) + 1
    ensures data.Some? ==> connection.socket.sent == old(connection.socket.sent) + BuildGetRequest(filePath)
    ensures data.Some? ==> data == ReadReply(old(connection.Unread()))
    ensures var answered := connection.socket.sent == old(connection.socket.sent) + BuildGetRequest(filePath)
                            && connection.socket.read == |connection.socket.stream|;
            data.None? && answered && !saveToDisk ==> ReadReply(old(connection.Unread())) == None
    ensures if saveToDisk then data.Some? ==> output.contents == data.value else output.contents == old(output.contents)
    ensures Counts(connection.socket, output) == old(Counts(connection.socket, output)) ==>
              && data == ReadReply(old(connection.Unread()))
              && connection.socket.sent == old(connection.socket.sent) + BuildGetRequest(filePath)
              && (data.None? ==> output.present == old(output.present) && output.contents == old(output.contents))
  {
    FileNameExactly(ExtractFileName(filePath), ExtractFileName(filePath));
    var fileName := ExtractFileName(filePath);
    data := FetchFile(connection, BuildGetRequest(fileName));
    if data.Some? && saveToDisk {
      var outputFile := OpenForWriting(output, true);
      if outputFile == null {
        data := None;
      } else {
        outputFile.Write(data.value);
        if !outputFile.good {
          data := None;
        } else {
          assert "" + data.value == data.value;
        }
      }
    }
    connection.socket.Close();
  }

  method SendContent(socket: ClientSocket, content: string) returns (ok: bool)
    modifies socket`sent, socket`misuses, socket`packets, socket`sendFaults
    ensures ok <==> socket.sent == old(socket.sent) + content
    ensures old(socket.sendFaults) <= socket.sendFaults && (ok <==> socket.sendFaults == old(socket.sendFaults))
  {
    var pos := 0;
    while pos < |content|
      invariant 0 <= pos <= |content|
      invariant socket.sent == old(socket.sent) + content[..pos] && socket.sendFaults == old(socket.sendFaults)
    {
      var next := if |content| - pos < READ_SIZE then |content| else pos + READ_SIZE;
      ok := socket.SendAllBytes(content[pos..next]);
      if !ok {
        return;
      }
      assert content[..pos] + content[pos..next] == content[..next];
      pos := next;
    }
    assert content[..pos] == content;
    ok := true;
  }

  // The request line, the acknowledgement, the file and the second acknowledgement.
  method StoreFile(connection: BufferedSocket, request: string, content: string) returns (ok: bool)
    requires connection.Valid()
    modifies connection`buffer, connection.socket`read, connection.socket`misuses
    modifies connection.socket`sent, connection.socket`packets
    modifies connection.socket`recvFaults, connection.socket`sendFaults
    ensures ok ==> connection.socket.sent == old(connection.socket.sent) + request + content
    ensures ok ==> Acknowledged(old(connection.Unread()))
    ensures var exchanged := connection.socket.sent == old(connection.socket.sent) + request + content
                             && connection.socket.read == |connection.socket.stream|;
            !ok && exchanged ==> !Acknowledged(old(connection.Unread()))
    ensures old(connection.socket.Faults()) <= connection.socket.Faults()
    ensures connection.socket.Faults() == old(connection.socket.Faults()) ==>
              && (ok <==> Acknowledged(old(connection.Unread())))
              && (connection.socket.sent == old(connection.socket.sent) + request
                                            + if Accepted(old(connection.Unread())) then content else "")
    ensures Accepted(old(connection.Unread())) || connection.socket.sent <= old(connection.socket.sent) + request
  {
    ok := connection.socket.SendAllBytes(request);
    if !ok {
      return;
    }
    ok := ExpectOkZero(connection);
    if !ok {
      return;
    }
    ok := SendContent(connection.socket, content);
    if !ok {
      return;
    }
    ok := ExpectOkZero(connection);
  }

  /** An upload succeeds only if its request line and the whole file were sent and acknowledged
      twice, and fails only if it was not acknowledged twice, or not all was sent or received: unless
      a call fails it succeeds just when it is acknowledged twice. */
  method PutFile(connection: BufferedSocket, filePath: string, destinationName: string, content: string)
    returns (ok: bool)
    requires connection.Valid()
    modifies connection`buffer, connection.socket
    ensures !connection.socket.open && connection.socket.closes == old(connection.socket.closes) + 1
    ensures ok ==> connection.socket.sent
                   == old(connection.socket.sent) + BuildPutRequest(filePath, |content|, destinationName) + content
    ensures ok ==> Acknowledged(old(connection.Unread()))
    ensures var request := BuildPutRequest(filePath, |content|, destinationName);
            var exchanged := connection.socket.sent == old(connection.socket.sent) + request + content
                             && connection.socket.read == |connection.socket.stream|;
            !ok && exchanged ==> !Acknowledged(old(connection.Unread()))
    ensures old(connection.socket.Faults()) <= connection.socket.Faults()
    ensures var request := BuildPutRequest(filePath, |content|, destinationName);
            && (connection.socket.Faults() == old(connection.socket.Faults()) ==>
                  && (ok <==> Acknowledged(old(connection.Unread())))
                  && (connection.socket.sent == old(connection.socket.sent) + request
                                                + if Accepted(old(connection.Unread())) then content else ""))
            && (Accepted(old(connection.Unread())) || connection.socket.sent <= old(connection.socket.sent) + request)
  {
    ok := StoreFile(connection, BuildPutRequest(filePath, |content|, destinationName), content);
    connection.socket.Close();
  }

  method ExpectOkZero(connection: BufferedSocket) returns (ok: bool)
    requires connection.Valid()
    modifies connection`buffer, connection.socket`read, connection.socket`misuses
    modifies connection.socket`recvFaults
    ensures ok || connection.socket.read == |connection.socket.stream| ==>
              (ok <==> Accepted(old(connection.Unread())))
    ensures ok ==> connection.Valid()
    ensures ok ==> connection.Unread() == old(connection.Unread())[|FirstLine(old(connection.Unread())).value|..]
    ensures old(connection.socket.recvFaults) <= connection.socket.recvFaults
    ensures ok ==> connection.socket.recvFaults == old(connection.socket.recvFaults)
    ensures connection.socket.recvFaults == old(connection.socket.recvFaults) ==>
              (ok <==> Accepted(old(connection.Unread())))
  {
    ghost var all := connection.Unread();
    var line;
    ok, line := connection.ReadHeader();
    if ok {
      ok := ParseOkResponse(line) == Some(0);
    } else {
      assert connection.socket.read == |connection.socket.stream| ==> all == connection.buffer;
    }
  }

  lemma OkLineIsFirst(value: nat, rest: string)
    ensures FirstLine(OkLine(value) + rest) == Some(OkLine(value))
  {
    var line := OkLine(value);
    ToStringDigits(value);
    assert line[|line| - 1] == '\n';
    forall k | 0 <= k < |line| - 1 ensures line[k] != '\n' {
      assert k >= 3 ==> line[k] == ToString(value)[k - 3] && IsDigit(ToString(value)[k - 3]);
    }
    assert FindNewline(line) == |line| - 1;
    NewlineInPrefix(line, line + rest);
  }

  /** After the announced size the client takes the next bytes for the file, whatever they are. */
  lemma ReadsWhatFollows(size: nat, rest: string)
    requires size < SIZE_LIMIT
    ensures ReadReply(OkLine(size) + rest) == if size <= |rest| then Some(rest[..size]) else None
  {
    OkLineIsFirst(size, rest);
    OkRoundTrip(size);
    assert size <= |rest| ==> (OkLine(size) + rest)[|OkLine(size)|..|OkLine(size)| + size] == rest[..size];
  }

  /** A complete reply yields the file; a reply cut off after `p` bytes and followed by `err` is
      taken for a file just when `err` is long enough to fill the gap. */
  lemma CutReplyIsMisread(f: string, p: nat, err: string)
    requires |f| < SIZE_LIMIT && p <= |f|
    ensures ReadReply(OkLine(|f|) + f) == Some(f)
    ensures ReadReply(OkLine(|f|) + (f[..p] + err))
            == if |f| - p <= |err| then Some(f[..p] + err[..|f| - p]) else None
  {
    ReadsWhatFollows(|f|, f);
    ReadsWhatFollows(|f|, f[..p] + err);
    assert f[..|f|] == f;
    if |f| - p <= |err| {
      assert (f[..p] + err)[..|f|] == f[..p] + err[..|f| - p];
    }
  }

  // So an error message in the middle of a download can end up as its contents.
  lemma MisreadExample(f: string, err: string)
    requires |f| == 4 && err == ErrLine("Failed to read file")
    ensures ReadReply(OkLine(|f|) + (f[..2] + err)) == Some(f[..2] + "ER")
  {
    CutReplyIsMisread(f, 2, err);
    assert err[..2] == "ER";
  }

  // One acknowledgement is not enough.
  lemma BothLinesAreNeeded()
    ensures Acknowledged(OkLine(0) + OkLine(0)) && !Acknowledged(OkLine(0)) && !Acknowledged("")
  {
    OkRoundTrip(0);
    OkLineIsFirst(0, OkLine(0));
    OkLineIsFirst(0, "");
    assert OkLine(0) + "" == OkLine(0);
    assert (OkLine(0) + OkLine(0))[|OkLine(0)|..] == OkLine(0);
    assert OkLine(0)[|OkLine(0)|..] == "";
  }

  // An error line that starts inside an `OK 0` line spoils it.
  lemma SpoiledLine(n: nat, err: string)
    requires n < |OkLine(0)| && IsErrPart(err)
    ensures !Accepted(OkLine(0)[..n] + err)
  {
    var all := OkLine(0)[..n] + err;
    assert OkLine(0) == "OK 0\n";
    ErrPartStarts(err);
    var first := FirstLine(all);
    if first.Some? {
      assert first.value[|first.value| - 1] == '\n' && |first.value| > n + 1 && first.value[n] == 'E';
      if ParseOkResponse(first.value) == Some(0) {
        NumbersHaveNoLetter(first.value, n);
      }
    }
  }

  // A letter is no part of a number.
  lemma NumbersHaveNoLetter(line: string, n: nat)
    requires n < |line| && line[|line| - 1] == '\n' && ParseOkResponse(line) == Some(0)
    ensures line[n] != 'E'
  {
    hide ParseOkResponse, NumberValue, Magnitude;
    OkExactly(line, 0);
    var number, i, d :| line == "OK " + number + "\n" && IsNumber(number, i, d);
    if 3 <= n < |line| - 1 {
      assert line[n] == number[n - 3];
      assert !IsSpace('E') && !IsDigit('E');
    }
  }

  lemma ErrPartStarts(err: string)
    requires IsErrPart(err)
    ensures err != "" ==> err[0] == 'E'
  {
  }

  lemma CutInSecondLine(n: nat, err: string)
    requires n < |OkLine(0)| && IsErrPart(err)
    ensures !Acknowledged(OkLine(0) + (OkLine(0)[..n] + err))
  {
    hide IsErrPart, OkLine, ParseOkResponse;
    var rest := OkLine(0)[..n] + err;
    OkLineIsFirst(0, rest);
    assert (OkLine(0) + rest)[|OkLine(0)|..] == rest;
    SpoiledLine(n, err);
  }

  lemma CutInFirstLine(n: nat, err: string)
    requires n < |OkLine(0)| && IsErrPart(err)
    ensures !Acknowledged(OkLine(0)[..n] + err)
  {
    hide IsErrPart, OkLine, ParseOkResponse;
    SpoiledLine(n, err);
  }

  /** A reply to an upload that was cut off is not taken for an acknowledgement, whatever error line
      follows it. */
  lemma CutOffIsNotAcknowledged(sent: string)
    requires CutOff("", sent, Part(OkLine(0) + OkLine(0), false))
    ensures !Acknowledged(sent)
  {
    hide IsErrPart, OkLine, Acknowledged;
    var line := OkLine(0);
    var body, err :| CutAt("", sent, Part(line + line, false), body, err);
    assert sent == body + err && body == (line + line)[..|body|] && |body| < 2 * |line|;
    if |body| < |line| {
      assert body == line[..|body|];
      CutInFirstLine(|body|, err);
    } else {
      assert body == line + line[..|body| - |line|];
      assert sent == line + (line[..|body| - |line|] + err);
      CutInSecondLine(|body| - |line|, err);
    }
  }

  // The name a load-test upload is stored under.
  function LoadName(ticket: nat, filePath: string): string {
    "load_put_" + (ToString(ticket) + ("_" + ExtractFileName(filePath)))
  }

  lemma LoadNameIsWord(ticket: nat, name: string)
    requires RequestParser.IsWord(name) && '/' !in name
    ensures RequestParser.IsWord("load_put_" + ToString(ticket) + "_" + name)
    ensures RequestParser.ValidFileName("load_put_" + ToString(ticket) + "_" + name)
  {
    hide ToString;
    var digits, load := ToString(ticket), "load_put_" + ToString(ticket) + "_" + name;
    ToStringDigits(ticket);
    forall k | 0 <= k < |load| ensures RequestParser.NotSpace(load[k]) && load[k] != '/' {
      if 9 <= k < 9 + |digits| {
        assert load[k] == digits[k - 9] && IsDigit(digits[k - 9]);
      } else if k >= 10 + |digits| {
        assert load[k] == name[k - 10 - |digits|];
      }
    }
  }

  /** The upload of a load test asks for the file of the path under the name of its ticket. */
  lemma LoadUploadIsUnderstood(ticket: nat, filePath: string, fileSize: nat, name: string)
    requires fileSize < SIZE_LIMIT && IsPathTo(filePath, name) && RequestParser.IsWord(name)
    ensures RequestParser.Meaning(RequestParser.Tokens(BuildPutRequest(filePath, fileSize, LoadName(ticket, filePath))))
            == RequestParser.Parsed(RequestParser.Request(RequestParser.Put,
                                                          "load_put_" + ToString(ticket) + "_" + name, fileSize))
  {
    FileNameExactly(filePath, name);
    var (digits, load) := (ToString(ticket), LoadName(ticket, filePath));
    assert load == "load_put_" + digits + "_" + name;
    LoadNameIsWord(ticket, name);
    PutRequestRoundTrip(filePath, fileSize, load, load);
  }

  /** Different tickets give different names, so no two load-test uploads share a file. */
  lemma LoadNamesDiffer(m: nat, n: nat, a: string, b: string)
    requires LoadName(m, a) == LoadName(n, b)
    ensures m == n
  {
    var (x, y) := (ToString(m), ToString(n));
    var (s, t) := (x + ("_" + ExtractFileName(a)), y + ("_" + ExtractFileName(b)));
    assert s == LoadName(m, a)[9..] && t == LoadName(n, b)[9..];
    ToStringRoundTrip(m);
    ToStringRoundTrip(n);
    assert s[|x|] == '_' && t[|y|] == '_' && !IsDigit('_');
    assert s[..|x|] == x && t[..|y|] == y;
  }
}
