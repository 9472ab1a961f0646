/** The client side: buffered reading, replies and request lines (src/client.cpp). */
module Client {
  import opened Lines
  import opened Decimal
  import opened Wire
  import opened Framing
  import opened RequestParser

  class BufferedSocket {
    const socket: ClientSocket
    var buffer: string

    ghost predicate Valid()
      reads this, socket
    {
      socket.Valid() && socket.open
    }

    // What was received but not consumed, and all that is still to come.
    ghost function Unread(): string
      reads this, socket
      requires Valid()
    {
      buffer + socket.stream[socket.read..]
    }

    constructor (socket: ClientSocket)
      requires socket.Valid() && socket.open
      ensures Valid() && this.socket == socket && Unread() == socket.stream[socket.read..]
    {
      this.socket := socket;
      buffer := "";
    }

    // More bytes into the buffer: none is lost or repeated.
    method Fill() returns (ok: bool)
      requires Valid()
      modifies this`buffer, socket`read, socket`misuses, socket`recvFaults
      ensures Valid() && Unread() == old(Unread()) && old(buffer) <= buffer
      ensures ok ==> socket.read > old(socket.read)
      ensures old(socket.recvFaults) <= socket.recvFaults && (ok ==> socket.recvFaults == old(socket.recvFaults))
      ensures !ok ==> buffer == old(buffer)
      ensures !ok && socket.recvFaults == old(socket.recvFaults) ==> buffer == Unread()
    {
      var temp := socket.Recv(4096);
      assert socket.stream[old(socket.read)..] == temp + socket.stream[socket.read..];
      assert buffer + (temp + socket.stream[socket.read..]) == (buffer + temp) + socket.stream[socket.read..];
      buffer := buffer + temp;
      ok := |temp| > 0;
    }

    /** Yields exactly the first line and leaves exactly the rest; a failure consumes nothing, and
        unless a receive fails it means that there is no line. */
    method ReadHeader() returns (ok: bool, line: string)
      requires Valid()
      modifies this`buffer, socket`read, socket`misuses, socket`recvFaults
      ensures Valid()
      ensures ok ==> FindNewline(old(Unread())) < |old(Unread())|
      ensures ok ==> line == old(Unread())[..FindNewline(old(Unread())) + 1]
      ensures ok ==> Unread() == old(Unread())[FindNewline(old(Unread())) + 1..]
      ensures !ok ==> Unread() == old(Unread()) && FindNewline(buffer) == |buffer|
      ensures old(socket.recvFaults) <= socket.recvFaults && (ok ==> socket.recvFaults == old(socket.recvFaults))
      ensures !ok && socket.recvFaults == old(socket.recvFaults) ==> FindNewline(old(Unread())) == |old(Unread())|
    {
      while FindNewline(buffer) == |buffer|
        invariant Valid() && Unread() == old(Unread()) && socket.recvFaults == old(socket.recvFaults)
        decreases |socket.stream| - socket.read
      {
        var filled := Fill();
        if !filled {
          return false, "";
        }
      }
      ghost var all := Unread();
      var newlinePosition := FindNewline(buffer);
      NewlineInPrefix(buffer, all);
      line := buffer[..newlinePosition + 1];
      buffer := buffer[newlinePosition + 1..];
      assert line == all[..newlinePosition + 1];
      assert Unread() == all[newlinePosition + 1..];
      ok := true;
    }

    // Buffered bytes first, then the socket.
    method NextChunk(limit: nat) returns (chunk: string)
      requires Valid() && limit > 0
      modifies this`buffer, socket`read, socket`misuses, socket`recvFaults
      ensures Valid() && |chunk| <= limit && old(Unread()) == chunk + Unread()
      ensures chunk == "" ==> buffer == ""
      ensures old(socket.recvFaults) <= socket.recvFaults
      ensures chunk != "" ==> socket.recvFaults == old(socket.recvFaults)
      ensures chunk == "" && socket.recvFaults == old(socket.recvFaults) ==> Unread() == ""
    {
      ghost var rest := Unread();
      if buffer != "" {
        var bytesToCopy := if |buffer| < limit then |buffer| else limit;
        chunk := buffer[..bytesToCopy];
        buffer := buffer[bytesToCopy..];
      } else {
        chunk := socket.Recv(limit);
      }
      assert rest == chunk + Unread();
    }

    /** Fills the first `totalBodySize` cells with exactly the next bytes and leaves exactly the
        rest; a failure leaves what it did read at the front, and unless a receive fails it means
        that there are fewer bytes. */
    method ReadBodyData(bodyData: array<char>, totalBodySize: nat) returns (ok: bool, totalRead: nat)
      requires Valid() && totalBodySize <= bodyData.Length
      modifies bodyData, this`buffer, socket`read, socket`misuses, socket`recvFaults
      ensures Valid() && totalRead <= totalBodySize && (ok <==> totalRead == totalBodySize)
      ensures old(Unread()) == bodyData[..totalRead] + Unread()
      ensures bodyData[totalRead..] == old(bodyData[..])[totalRead..]
      ensures !ok ==> buffer == ""
      ensures old(socket.recvFaults) <= socket.recvFaults && (ok ==> socket.recvFaults == old(socket.recvFaults))
      ensures !ok && socket.recvFaults == old(socket.recvFaults) ==> |old(Unread())| < totalBodySize
    {
      totalRead := 0;
      while totalRead < totalBodySize
        invariant Valid() && totalRead <= totalBodySize
        invariant old(Unread()) == bodyData[..totalRead] + Unread()
        invariant bodyData[totalRead..] == old(bodyData[..])[totalRead..]
        invariant socket.recvFaults == old(socket.recvFaults)
        decreases totalBodySize - totalRead
      {
        ghost var done := bodyData[..totalRead];
        var chunk := NextChunk(totalBodySize - totalRead);
        if |chunk| == 0 {
          return false, totalRead;
        }
        ghost var tail := bodyData[totalRead + |chunk|..];
        CopyInto(bodyData, totalRead, chunk);
        assert bodyData[totalRead + |chunk|..] == tail == old(bodyData[..])[totalRead + |chunk|..];
        assert bodyData[..totalRead + |chunk|] == done + chunk;
        assert done + (chunk + Unread()) == (done + chunk) + Unread();
        totalRead := totalRead + |chunk|;
      }
      ok := true;
    }
  }

  method CopyInto(a: array<char>, at: nat, data: string)
    requires at + |data| <= a.Length
    modifies a
    ensures a[..at] == old(a[..at]) && a[at..at + |data|] == data && a[at + |data|..] == old(a[at + |data|..])
  {
    for i := 0 to |data|
      invariant a[..at] == old(a[..at]) && a[at..at + i] == data[..i] && a[at + i..] == old(a[at + i..])
    {
      a[at + i] := data[i];
      assert data[..i + 1] == data[..i] + [data[i]];
    }
  }

  datatype Option<T> = None | Some(value: T)

  // `line.rfind(prefix, 0) == 0`, then the rest without one trailing newline.
  function Payload(line: string, prefix: string): Option<string> {
    if !(prefix <= line) then None
    else
      var rest := line[|prefix|..];
      Some(if rest != "" && rest[|rest| - 1] == '\n' then rest[..|rest| - 1] else rest)
  }

  function ParseOkResponse(line: string): Option<nat> {
    match Payload(line, "OK ")
    case None => None
    case Some(number) =>
      var parsed := Stoull(number);
      if parsed.Value? && parsed.consumed == |number| then Some(parsed.value) else None
  }

  function ParseErrorResponse(line: string): Option<string> {
    match Payload(line, "ERR ")
    case None => None
    case Some(reason) => if reason == "" then None else Some(reason)
  }

  lemma PayloadOf(prefix: string, body: string)
    ensures Payload(prefix + body + "\n", prefix) == Some(body)
  {
    var line := prefix + body + "\n";
    assert prefix <= line && line[|prefix|..] == body + "\n";
    assert (body + "\n")[..|body|] == body;
  }

  /** What the client takes for an acknowledgement: `OK`, a blank, and a number and nothing else. */
  lemma OkExactly(line: string, value: nat)
    requires line != "" && line[|line| - 1] == '\n'
    ensures ParseOkResponse(line) == Some(value) <==>
            exists number: string, i: nat, d: nat ::
              && line == "OK " + number + "\n" && IsNumber(number, i, d)
              && Magnitude(number, i, d) < SIZE_LIMIT && value == NumberValue(number, i, d)
  {
    hide IsNumber, Stoull, Magnitude, NumberValue;
    if number: string, i: nat, d: nat :|
       && line == "OK " + number + "\n" && IsNumber(number, i, d)
       && Magnitude(number, i, d) < SIZE_LIMIT && value == NumberValue(number, i, d) {
      PayloadOf("OK ", number);
      StoullOfNumber(number, i, d);
    }
    if ParseOkResponse(line) == Some(value) {
      var number := line[3..|line| - 1];
      assert line == "OK " + number + "\n";
      PayloadOf("OK ", number);
      StoullExactly(number, value);
    }
  }

  /** The client reads back the number the server announced, and no error. */
  lemma OkRoundTrip(value: nat)
    requires value < SIZE_LIMIT
    ensures ParseOkResponse(OkLine(value)) == Some(value)
    ensures ParseErrorResponse(OkLine(value)) == None
  {
    ToStringRoundTrip(value);
    PayloadOf("OK ", ToString(value));
    StoullOfDigits(ToString(value));
    assert OkLine(value)[0] == 'O';
  }

  /** The client reads back a non-empty reason, and no number. */
  lemma ErrRoundTrip(message: string)
    requires message != ""
    ensures ParseErrorResponse(ErrLine(message)) == Some(message)
    ensures ParseOkResponse(ErrLine(message)) == None
  {
    PayloadOf("ERR ", message);
    assert ErrLine(message)[0] == 'E';
  }

  /** What the client takes for an error line, and with which reason. */
  lemma ErrExactly(line: string, reason: string)
    requires line != "" && line[|line| - 1] == '\n'
    ensures ParseErrorResponse(line) == Some(reason) <==> reason != "" && line == ErrLine(reason)
  {
    PayloadOf("ERR ", reason);
    if "ERR " <= line {
      assert line == "ERR " + line[4..|line| - 1] + "\n";
      PayloadOf("ERR ", line[4..|line| - 1]);
    }
  }

  // What follows the last slash or backslash.
  function ExtractFileName(filePath: string): (name: string)
    ensures '/' !in name && '\\' !in name
  {
    if filePath == "" then ""
    else
      var last := |filePath| - 1;
      if filePath[last] == '/' || filePath[last] == '\\' then ""
      else ExtractFileName(filePath[..last]) + [filePath[last]]
  }

  // The path ends in the name, after a separator if anything comes before it.
  ghost predicate IsPathTo(path: string, name: string) {
    && '/' !in name && '\\' !in name
    && (path == name || exists dir: string :: path == dir + "/" + name || path == dir + "\\" + name)
  }

  lemma {:induction false} NameOfPath(dir: string, separator: char, name: string)
    requires '/' !in name && '\\' !in name && (separator == '/' || separator == '\\')
    ensures ExtractFileName(name) == name && ExtractFileName(dir + [separator] + name) == name
  {
    var path := dir + [separator] + name;
    if name != "" {
      NameOfPath(dir, separator, name[..|name| - 1]);
      assert path[..|path| - 1] == dir + [separator] + name[..|name| - 1];
    }
  }

  lemma {:induction false} PathOfName(path: string) returns (k: nat)
    ensures k <= |path| && path[k..] == ExtractFileName(path)
    ensures k > 0 ==> path[k - 1] == '/' || path[k - 1] == '\\'
  {
    k := |path|;
    if path != "" && path[|path| - 1] != '/' && path[|path| - 1] != '\\' {
      k := PathOfName(path[..|path| - 1]);
      assert path[k..] == path[..|path| - 1][k..] + [path[|path| - 1]];
    }
  }

  /** The file a path leads to is what follows its last separator, and the whole of it if there is
      none. */
  lemma FileNameExactly(path: string, name: string)
    ensures ExtractFileName(path) == name <==> IsPathTo(path, name)
  {
    if IsPathTo(path, name) {
      NameOfPath("", '/', name);
      if path != name {
        var dir :| path == dir + "/" + name || path == dir + "\\" + name;
        NameOfPath(dir, '/', name);
        NameOfPath(dir, '\\', name);
      }
    } else {
      var k := PathOfName(path);
      if k > 0 {
        assert path == path[..k - 1] + [path[k - 1]] + path[k..];
      }
    }
  }

  // The name an upload is sent under.
  ghost predicate SentAs(filePath: string, destinationName: string, name: string) {
    if destinationName == "" then IsPathTo(filePath, name) else name == destinationName
  }

  function BuildPutRequest(filePath: string, fileSize: nat, destinationName: string): string {
    var fileName := if destinationName == "" then ExtractFileName(filePath) else destinationName;
    "PUT" + (" " + (fileName + (" " + (ToString(fileSize) + "\n"))))
  }

  function BuildGetRequest(fileName: string): string {
    "GET" + (" " + (ExtractFileName(fileName) + "\n"))
  }

  lemma DigitsAreAWord(n: nat)
    ensures IsWord(ToString(n))
  {
    ToStringDigits(n);
    forall k | 0 <= k < |ToString(n)| ensures NotSpace(ToString(n)[k]) {
      assert IsDigit(ToString(n)[k]);
    }
  }

  lemma PutTokens(name: string, size: nat)
    requires IsWord(name)
    ensures Tokens("PUT" + (" " + (name + (" " + (ToString(size) + "\n"))))) == ["PUT", name, ToString(size)]
  {
    var digits := ToString(size);
    var rest := digits + "\n";
    DigitsAreAWord(size);
    TokensOfWord(digits, '\n', "");
    assert "\n" == ['\n'] + "";
    assert Tokens(rest) == [digits];
    TokensOfWord(name, ' ', rest);
    TokensOfWord("PUT", ' ', name + (" " + rest));
  }

  lemma GetTokens(name: string)
    requires IsWord(name)
    ensures Tokens("GET" + (" " + (name + "\n"))) == ["GET", name]
  {
    TokensOfWord(name, '\n', "");
    assert "\n" == ['\n'] + "";
    TokensOfWord("GET", ' ', name + "\n");
  }

  lemma UpperWords()
    ensures ToUpper("GET") == "GET" && ToUpper("PUT") == "PUT"
  {
    var g, p := ToUpper("GET"), ToUpper("PUT");
    assert g[0] == 'G' && g[1] == 'E' && g[2] == 'T';
    assert p[0] == 'P' && p[1] == 'U' && p[2] == 'T';
  }

  // Only whole words become file names.
  lemma ParsedNameIsWord(ts: seq<string>)
    requires forall t :: t in ts ==> IsWord(t)
    requires Meaning(ts).Parsed? && !Meaning(ts).request.kind.Health?
    ensures IsWord(Meaning(ts).request.fileName) && ValidFileName(Meaning(ts).request.fileName)
  {
    assert ts[1] in ts;
  }

  lemma PutRequestLine(filePath: string, fileSize: nat, destinationName: string, name: string)
    requires SentAs(filePath, destinationName, name)
    ensures BuildPutRequest(filePath, fileSize, destinationName)
            == "PUT" + (" " + (name + (" " + (ToString(fileSize) + "\n"))))
  {
    FileNameExactly(filePath, name);
  }

  /** The server recovers the name and the size the client put into an upload request, the name
      being the last part of the path or the given destination, for just the names that are a single
      word and valid. */
  lemma PutRequestRoundTrip(filePath: string, fileSize: nat, destinationName: string, name: string)
    requires fileSize < SIZE_LIMIT && SentAs(filePath, destinationName, name)
    ensures Meaning(Tokens(BuildPutRequest(filePath, fileSize, destinationName)))
            == Parsed(Request(Put, name, fileSize))
            <==> IsWord(name) && ValidFileName(name)
  {
    PutRequestLine(filePath, fileSize, destinationName, name);
    var ts := Tokens(BuildPutRequest(filePath, fileSize, destinationName));
    if IsWord(name) {
      PutTokens(name, fileSize);
      UpperWords();
      ToStringRoundTrip(fileSize);
    }
    if Meaning(ts) == Parsed(Request(Put, name, fileSize)) {
      ParsedNameIsWord(ts);
    }
  }

  /** A request line for 2^64 bytes or more ends the parser thread instead. */
  lemma OversizedPutIsUncaught(filePath: string, fileSize: nat, destinationName: string, name: string)
    requires fileSize >= SIZE_LIMIT && SentAs(filePath, destinationName, name)
    requires IsWord(name) && ValidFileName(name)
    ensures Meaning(Tokens(BuildPutRequest(filePath, fileSize, destinationName))) == Uncaught
  {
    PutRequestLine(filePath, fileSize, destinationName, name);
    PutTokens(name, fileSize);
    UpperWords();
    ToStringRoundTrip(fileSize);
  }

  // The smallest such line for a file `a`.
  lemma UncaughtExample()
    ensures Meaning(Tokens("PUT" + (" " + ("a" + (" " + (ToString(SIZE_LIMIT) + "\n")))))) == Uncaught
  {
    assert IsWord("a") && ValidFileName("a");
    OversizedPutIsUncaught("a", SIZE_LIMIT, "a", "a");
  }

  // Neither the name nor the digits hold a newline.
  lemma PutRequestIsOneLine(filePath: string, fileSize: nat, destinationName: string, name: string)
    requires SentAs(filePath, destinationName, name) && IsWord(name)
    ensures var line := BuildPutRequest(filePath, fileSize, destinationName);
            FindNewline(line) == |line| - 1
  {
    var line := BuildPutRequest(filePath, fileSize, destinationName);
    var digits := ToString(fileSize);
    PutRequestLine(filePath, fileSize, destinationName, name);
    DigitsAreAWord(fileSize);
    assert line == "PUT " + name + " " + digits + "\n";
    assert line[|line| - 1] == '\n';
    forall k | 0 <= k < |line| - 1 ensures line[k] != '\n' {
      if 4 <= k < 4 + |name| {
        assert line[k] == name[k - 4] && NotSpace(name[k - 4]);
      } else if k >= 5 + |name| {
        assert line[k] == digits[k - 5 - |name|] && NotSpace(digits[k - 5 - |name|]);
      }
    }
    assert FindNewline(line) < |line|;
  }

  lemma GetRequestIsOneLine(filePath: string, name: string)
    requires IsPathTo(filePath, name) && IsWord(name)
    ensures var line := BuildGetRequest(filePath);
            FindNewline(line) == |line| - 1
  {
    FileNameExactly(filePath, name);
    var line := BuildGetRequest(filePath);
    assert line == "GET " + name + "\n" && line[|line| - 1] == '\n';
    forall k | 0 <= k < |line| - 1 ensures line[k] != '\n' {
      assert k >= 4 ==> line[k] == name[k - 4] && NotSpace(name[k - 4]);
    }
    assert FindNewline(line) < |line|;
  }

  // The same for a download request.
  lemma GetRequestRoundTrip(filePath: string, name: string)
    requires IsPathTo(filePath, name)
    ensures Meaning(Tokens(BuildGetRequest(filePath))) == Parsed(Request(Get, name, 0))
            <==> IsWord(name) && ValidFileName(name)
  {
    FileNameExactly(filePath, name);
    var ts := Tokens(BuildGetRequest(filePath));
    if IsWord(name) {
      GetTokens(name);
      UpperWords();
    }
    if Meaning(ts) == Parsed(Request(Get, name, 0)) {
      ParsedNameIsWord(ts);
    }
  }
}
