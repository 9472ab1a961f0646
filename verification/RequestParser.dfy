/** Parsing the request line (src/request.cpp). */
module RequestParser {
  import opened Decimal

  datatype Kind = Get | Put | Health

  datatype Request = Request(kind: Kind, fileName: string, bytes: nat)

  // `Uncaught` is the exception `std::stoull` throws for a count of 64 bits or more.
  datatype ParseResult = Parsed(request: Request) | Rejected(errorMessage: string) | Uncaught

  function UpperChar(c: char): char {
    if 'a' <= c <= 'z' then (c as int - 32) as char else c
  }

  function ToUpper(s: string): (u: string)
    ensures |u| == |s| && forall k :: 0 <= k < |s| ==> u[k] == UpperChar(s[k])
  {
    if s == "" then "" else [UpperChar(s[0])] + ToUpper(s[1..])
  }

  predicate NotSpace(c: char) {
    !IsSpace(c)
  }

  // A word that `>>` can deliver.
  predicate IsWord(s: string) {
    s != "" && forall k :: 0 <= k < |s| ==> NotSpace(s[k])
  }

  // The words of `s`, separated by any white space.
  function Tokens(s: string): (ts: seq<string>)
    ensures forall t :: t in ts ==> IsWord(t)
    decreases |s|
  {
    if s == "" then []
    else if IsSpace(s[0]) then Tokens(s[1..])
    else
      var e := Span(s, 0, NotSpace);
      assert e > 0 && IsWord(s[..e]);
      [s[..e]] + Tokens(s[e..])
  }

  predicate ValidFileName(name: string) {
    '/' !in name && name != "." && name != ".."
  }

  function WordAt(ts: seq<string>, i: nat): string {
    if i < |ts| then ts[i] else ""
  }

  function WordsFrom(ts: seq<string>, i: nat): seq<string> {
    if i <= |ts| then ts[i..] else []
  }

  datatype MaybeKind = Known(kind: Kind) | Unknown

  // The request type, whatever the case it is written in.
  function KindOf(word: string): MaybeKind {
    var upper := ToUpper(word);
    if upper == "GET" then Known(Get)
    else if upper == "PUT" then Known(Put)
    else if upper == "HEALTH" then Known(Health)
    else Unknown
  }

  /** What a request line means, in terms of its words. */
  function Meaning(ts: seq<string>): ParseResult {
    if ts == [] then Rejected("Malformed request")
    else
      match KindOf(ts[0])
      case Unknown => Rejected("Unknown request type")
      case Known(Health) => if |ts| > 1 then Rejected("Malformed request") else Parsed(Request(Health, "", 0))
      case Known(Get) =>
        if |ts| < 2 then Rejected("Missing filename")
        else if !ValidFileName(ts[1]) then Rejected("Invalid filename")
        else if |ts| > 2 then Rejected("Malformed request")
        else Parsed(Request(Get, ts[1], 0))
      case Known(Put) =>
        if |ts| < 2 then Rejected("Missing filename")
        else if !ValidFileName(ts[1]) then Rejected("Invalid filename")
        else if |ts| < 3 then Rejected("Missing byte count")
        else if !AllDigits(ts[2]) then Rejected("Invalid byte count")
        else if NumeralValue(ts[2]) >= SIZE_LIMIT then Uncaught
        else if |ts| > 3 then Rejected("Malformed request")
        else Parsed(Request(Put, ts[1], NumeralValue(ts[2])))
  }

  // What lies between the slashes of a path.
  function Components(path: string): (cs: seq<string>)
    ensures cs != []
    decreases |path|
  {
    var i := Span(path, 0, NotSlash);
    if i == |path| then [path] else [path[..i]] + Components(path[i + 1..])
  }

  predicate NotSlash(c: char) {
    c != '/'
  }

  /** The path `dir/name` leads one step below the directory, to neither itself nor its parent. */
  predicate DirectEntry(dir: string, name: string) {
    Components(dir + "/" + name) == Components(dir) + [name] && name != "" && name != "." && name != ".."
  }

  lemma {:induction false} ComponentsAppend(dir: string, name: string)
    ensures Components(dir + "/" + name) == Components(dir) + Components(name)
    decreases |dir|
  {
    var path, i := dir + "/" + name, Span(dir, 0, NotSlash);
    SpanReaches(path, 0, i, NotSlash);
    assert path[..i] == dir[..i];
    if i == |dir| {
      assert path[i + 1..] == name && dir[..i] == dir;
    } else {
      assert path[i + 1..] == dir[i + 1..] + "/" + name;
      ComponentsAppend(dir[i + 1..], name);
    }
  }

  /** The check on names accepts exactly the names that lead, below whatever directory, to an entry
      of that directory. */
  lemma DirectEntryExactly(dir: string, name: string)
    ensures DirectEntry(dir, name) <==> name != "" && ValidFileName(name)
  {
    ComponentsAppend(dir, name);
    var i := Span(name, 0, NotSlash);
    assert (i == |name| <==> '/' !in name) && (i == |name| ==> Components(name) == [name]);
    assert i < |name| ==> |Components(name)| > 1;
    if Components(dir) + Components(name) == Components(dir) + [name] {
      assert |Components(name)| == 1;
    }
  }

  // The same letter, small or capital.
  predicate SameLetter(c: char, d: char) {
    c == d || ('a' <= c <= 'z' && d == 'A' + (c - 'a')) || ('a' <= d <= 'z' && c == 'A' + (d - 'a'))
  }

  // The same word, whatever the case of its letters.
  predicate SameLetters(s: string, t: string) {
    |s| == |t| && forall k :: 0 <= k < |s| ==> SameLetter(s[k], t[k])
  }

  lemma KindIsItsWord(word: string)
    ensures KindOf(word) == Known(Get) <==> SameLetters(word, "GET")
    ensures KindOf(word) == Known(Put) <==> SameLetters(word, "PUT")
    ensures KindOf(word) == Known(Health) <==> SameLetters(word, "HEALTH")
  {
    UpperIsSameLetters(word, "GET");
    UpperIsSameLetters(word, "PUT");
    UpperIsSameLetters(word, "HEALTH");
    assert |"HEALTH"| != |"GET"| == |"PUT"| && "GET"[0] != "PUT"[0];
  }

  lemma UpperIsSameLetters(word: string, upper: string)
    requires forall k :: 0 <= k < |upper| ==> 'A' <= upper[k] <= 'Z'
    ensures ToUpper(word) == upper <==> SameLetters(word, upper)
  {
    var u := ToUpper(word);
    if SameLetters(word, upper) {
      forall k | 0 <= k < |word| ensures u[k] == upper[k] {
        assert SameLetter(word[k], upper[k]);
      }
    }
    if u == upper {
      forall k | 0 <= k < |word| ensures SameLetter(word[k], upper[k]) {
        assert u[k] == UpperChar(word[k]);
      }
    }
  }

  // `GET name` or `PUT name ...`, with a name that leads to an entry of the directory.
  predicate Names(dir: string, ts: seq<string>, word: string) {
    |ts| >= 2 && SameLetters(ts[0], word) && DirectEntry(dir, ts[1])
  }

  // A byte count that 64 bits can hold.
  predicate Countable(s: string) {
    AllDigits(s) && NumeralValue(s) < SIZE_LIMIT
  }

  /** The lines that are understood, and as what. */
  lemma ParsedExactly(dir: string, ts: seq<string>, request: Request)
    requires forall t :: t in ts ==> IsWord(t)
    ensures Meaning(ts) == Parsed(request) <==>
            match request
            case Request(Get, name, n) => Names(dir, ts, "GET") && |ts| == 2 && name == ts[1] && n == 0
            case Request(Put, name, n) =>
              Names(dir, ts, "PUT") && |ts| == 3 && name == ts[1] && Countable(ts[2]) && n == NumeralValue(ts[2])
            case Request(Health, name, n) => |ts| == 1 && SameLetters(ts[0], "HEALTH") && name == "" && n == 0
  {
    WordsDecide(dir, ts);
  }

  /** The lines that are turned down, and with which message. */
  lemma RejectedExactly(dir: string, ts: seq<string>, message: string)
    requires forall t :: t in ts ==> IsWord(t)
    ensures Meaning(ts) == Rejected(message) <==>
            || (message == "Malformed request" &&
                (ts == [] || (SameLetters(ts[0], "HEALTH") && |ts| > 1) || (Names(dir, ts, "GET") && |ts| > 2)
                 || (Names(dir, ts, "PUT") && |ts| > 3 && Countable(ts[2]))))
            || (message == "Unknown request type" && ts != [] && !SameLetters(ts[0], "GET")
                && !SameLetters(ts[0], "PUT") && !SameLetters(ts[0], "HEALTH"))
            || (message == "Missing filename" && |ts| == 1
                && (SameLetters(ts[0], "GET") || SameLetters(ts[0], "PUT")))
            || (message == "Invalid filename" && |ts| > 1 && !DirectEntry(dir, ts[1])
                && (SameLetters(ts[0], "GET") || SameLetters(ts[0], "PUT")))
            || (message == "Missing byte count" && |ts| == 2 && Names(dir, ts, "PUT"))
            || (message == "Invalid byte count" && |ts| > 2 && Names(dir, ts, "PUT") && !AllDigits(ts[2]))
  {
    WordsDecide(dir, ts);
  }

  /** The lines whose byte count the parser does not survive: uploads to a valid name with a number of
      2^64 or more, whatever follows it. */
  lemma UncaughtExactly(dir: string, ts: seq<string>)
    requires forall t :: t in ts ==> IsWord(t)
    ensures Meaning(ts) == Uncaught <==> |ts| >= 3 && Names(dir, ts, "PUT") && AllDigits(ts[2]) && !Countable(ts[2])
  {
    WordsDecide(dir, ts);
  }

  lemma WordsDecide(dir: string, ts: seq<string>)
    requires forall t :: t in ts ==> IsWord(t)
    ensures |ts| > 0 ==> (KindOf(ts[0]) == Known(Get) <==> SameLetters(ts[0], "GET"))
    ensures |ts| > 0 ==> (KindOf(ts[0]) == Known(Put) <==> SameLetters(ts[0], "PUT"))
    ensures |ts| > 0 ==> (KindOf(ts[0]) == Known(Health) <==> SameLetters(ts[0], "HEALTH"))
    ensures |ts| > 1 ==> (ValidFileName(ts[1]) <==> DirectEntry(dir, ts[1]))
  {
    if |ts| > 0 {
      KindIsItsWord(ts[0]);
    }
    if |ts| > 1 {
      assert ts[1] in ts;
      DirectEntryExactly(dir, ts[1]);
    }
  }

  // A `std::stringstream` read word by word.
  class TokenStream {
    const text: string
    var pos: nat

    ghost predicate Valid()
      reads this
    {
      pos <= |text|
    }

    ghost function Rest(): seq<string>
      reads this
      requires Valid()
    {
      Tokens(text[pos..])
    }

    constructor (text: string)
      ensures Valid() && Rest() == Tokens(text)
    {
      this.text := text;
      pos := 0;
      new;
      assert text[0..] == text;
    }

    // The next word, or `""` when there is none.
    method Next() returns (word: string)
      requires Valid()
      modifies this
      ensures Valid()
      ensures word == WordAt(old(Rest()), 0)
      ensures Rest() == if old(Rest()) == [] then [] else old(Rest())[1..]
    {
      ghost var s, start := text[pos..], pos;
      SkipSpace();
      ghost var i := pos - start;
      ghost var t := text[pos..];
      assert t == s[i..];
      word := TakeWord();
      assert text[pos..] == t[|word|..] && word == t[..|word|];
      TokensStep(s, i, |word|);
    }

    method SkipSpace()
      requires Valid()
      modifies this
      ensures Valid() && pos == old(pos) + Span(text[old(pos)..], 0, IsSpace)
    {
      ghost var s, start := text[pos..], pos;
      while pos < |text| && IsSpace(text[pos])
        invariant start <= pos <= |text|
        invariant Span(s, 0, IsSpace) == Span(s, pos - start, IsSpace)
      {
        assert s[pos - start] == text[pos];
        pos := pos + 1;
      }
      assert pos < |text| ==> s[pos - start] == text[pos];
    }

    method TakeWord() returns (word: string)
      requires Valid()
      modifies this
      ensures Valid() && pos == old(pos) + Span(text[old(pos)..], 0, NotSpace)
      ensures word == text[old(pos)..pos]
    {
      ghost var s, start := text[pos..], pos;
      word := "";
      while pos < |text| && !IsSpace(text[pos])
        invariant start <= pos <= |text| && word == text[start..pos]
        invariant Span(s, 0, NotSpace) == Span(s, pos - start, NotSpace)
      {
        assert s[pos - start] == text[pos];
        word := word + [text[pos]];
        pos := pos + 1;
      }
      assert pos < |text| ==> s[pos - start] == text[pos];
    }
  }

  // One step of splitting into words: `i` white characters, then `n` of the next word.
  lemma TokensStep(s: string, i: nat, n: nat)
    requires i == Span(s, 0, IsSpace) && n == Span(s[i..], 0, NotSpace)
    ensures s[i..][..n] == WordAt(Tokens(s), 0)
    ensures Tokens(s[i..][n..]) == if Tokens(s) == [] then [] else Tokens(s)[1..]
  {
    TokensSkip(s, i);
    if i == |s| {
      assert s[i..] == "" && s[i..][n..] == "";
    }
  }

  lemma {:induction false} TokensSkip(s: string, i: nat)
    requires i <= |s| && forall k :: 0 <= k < i ==> IsSpace(s[k])
    ensures Tokens(s) == Tokens(s[i..])
    decreases i
  {
    if i == 0 {
      assert s[0..] == s;
    } else {
      TokensSkip(s[1..], i - 1);
      assert s[1..][i - 1..] == s[i..];
    }
  }

  // The digit loop.
  method OnlyDigits(s: string) returns (only: bool)
    ensures only == AllDigits(s)
  {
    var k := 0;
    while k < |s|
      invariant 0 <= k <= |s| && AllDigits(s[..k])
    {
      if !IsDigit(s[k]) {
        return false;
      }
      k := k + 1;
    }
    assert s[..k] == s;
    only := true;
  }

  method ParseRequest(requestString: string) returns (result: ParseResult)
    ensures result == Meaning(Tokens(requestString))
  {
    ghost var ts := Tokens(requestString);
    var requestStream := new TokenStream(requestString);
    var typeWord := requestStream.Next();
    assert requestStream.Rest() == WordsFrom(ts, 1);
    var fileName := requestStream.Next();
    assert requestStream.Rest() == WordsFrom(ts, 2);
    var byteCountString := requestStream.Next();
    assert requestStream.Rest() == WordsFrom(ts, 3);
    assert typeWord == WordAt(ts, 0) && fileName == WordAt(ts, 1) && byteCountString == WordAt(ts, 2);
    result := Interpret(requestStream, typeWord, fileName, byteCountString, ts);
  }

  // The checks on the first three words, which read a fourth only when all is well so far.
  method Interpret(requestStream: TokenStream, typeWord: string, fileName: string, byteCountString: string,
                   ghost ts: seq<string>)
    returns (result: ParseResult)
    requires forall t :: t in ts ==> IsWord(t)
    requires typeWord == WordAt(ts, 0) && fileName == WordAt(ts, 1) && byteCountString == WordAt(ts, 2)
    requires requestStream.Valid() && requestStream.Rest() == WordsFrom(ts, 3)
    modifies requestStream
    ensures result == Meaning(ts)
  {
    assert forall i :: 0 <= i < |ts| ==> ts[i] in ts;
    assert typeWord == "" <==> |ts| == 0;
    assert fileName == "" <==> |ts| <= 1;
    assert byteCountString == "" <==> |ts| <= 2;
    if typeWord == "" {
      return Rejected("Malformed request");
    }
    var kind := KindOf(typeWord);
    if kind.Unknown? {
      return Rejected("Unknown request type");
    }
    if kind.kind.Health? {
      if fileName != "" || byteCountString != "" {
        return Rejected("Malformed request");
      }
    } else {
      if fileName == "" {
        return Rejected("Missing filename");
      }
      if !ValidFileName(fileName) {
        return Rejected("Invalid filename");
      }
    }
    if kind.kind.Get? && byteCountString != "" {
      return Rejected("Malformed request");
    }
    var bytes := 0;
    if kind.kind.Put? {
      if byteCountString == "" {
        return Rejected("Missing byte count");
      }
      var only := OnlyDigits(byteCountString);
      if !only {
        return Rejected("Invalid byte count");
      }
      StoullOfDigits(byteCountString);
      var count := Stoull(byteCountString);
      if !count.Value? {
        return Uncaught;
      }
      bytes := count.value;
    }
    var extra := requestStream.Next();
    assert extra == WordAt(ts, 3);
    assert extra == "" <==> |ts| <= 3;
    if extra != "" {
      return Rejected("Malformed request");
    }
    result := Parsed(Request(kind.kind, if kind.kind.Health? then "" else fileName, bytes));
  }

  // A word, a separator and the rest are read in that order.
  lemma TokensOfWord(word: string, separator: char, rest: string)
    requires IsWord(word) && IsSpace(separator)
    ensures Tokens(word + ([separator] + rest)) == [word] + Tokens(rest)
  {
    var s := word + ([separator] + rest);
    assert NotSpace(s[0]);
    SpanReaches(s, 0, |word|, NotSpace);
    var t := s[|word|..];
    assert s[..|word|] == word && t == [separator] + rest;
    assert t[1..] == rest;
  }

  lemma {:induction false} SpanReaches(s: string, i: nat, j: nat, p: char -> bool)
    requires i <= j < |s| && !p(s[j]) && forall k :: i <= k < j ==> p(s[k])
    ensures Span(s, i, p) == j
    decreases j - i
  {
    if i < j {
      SpanReaches(s, i + 1, j, p);
    }
  }
}
