/**
 The mock MOSS server in its "protocol" script: command lines, and file headers each followed by
 a counted body, read incrementally from chunks of any size.
 */
module MockServing {
  import opened Text
  import opened LineParsing

  const YES := "yes\n"

  function Origin(): string { "https://mock.local/" }

  function Url(): string { Origin() + "results/synthetic-1" }

  /** What the server takes off its input: a command, a file header announcing `size`, a body. */
  datatype Item = Command(text: string) | Header(text: string, size: nat) | Body(bytes: string)

  /** `log` and `replies` are history: the items taken so far and every byte written back. */
  datatype Server = Server(buf: string, bodyLeft: nat, log: seq<Item>, replies: string)

  // ---- The patterns the server matches lines against ----

  predicate NonSpace(c: char) { !IsSpace(c) }

  /** What follows a non-empty leading run of characters satisfying `p`. */
  function Skip(s: Option<string>, p: char -> bool): Option<string> {
    if s.None? || Span(s.value, p) == 0 then None else Some(s.value[Span(s.value, p)..])
  }

  /**
   The size in a file header: the word file in any case, white space, digits, white space, a word,
   white space, digits, white space. Neighbouring classes are disjoint, so scanning greedily is exact.
   */
  function FileMatch(line: string): Option<nat> {
    if |line| < 4 || LowerAll(line[..4]) != "file" then None
    else
      var id := Skip(Some(line[4..]), IsSpace);
      var word := Skip(Skip(id, IsDigit), IsSpace);
      var size := Skip(Skip(word, NonSpace), IsSpace);
      if size.None? then None else SizeField(size.value)
  }

  function SizeField(f: string): Option<nat> {
    var n := Span(f, IsDigit);
    if 0 < n < |f| && IsSpace(f[n]) then Some(DecVal(f[..n])) else None
  }

  ghost predicate All(s: string, p: char -> bool) { s != "" && forall k :: 0 <= k < |s| ==> p(s[k]) }

  /** The regular expression itself: a way to cut the line into the parts it asks for. */
  ghost predicate HasParts(line: string, kw: string, s1: string, id: string, s2: string, word: string,
                           s3: string, size: string, rest: string)
  {
    && line == kw + (s1 + (id + (s2 + (word + (s3 + (size + rest))))))
    && |kw| == 4 && LowerAll(kw) == "file"
    && All(s1, IsSpace) && All(id, IsDigit) && All(s2, IsSpace) && All(word, NonSpace)
    && All(s3, IsSpace) && All(size, IsDigit) && rest != "" && IsSpace(rest[0])
  }

  lemma SkipIs(a: string, b: string, p: char -> bool)
    requires All(a, p) && (b == "" || !p(b[0]))
    ensures Skip(Some(a + b), p) == Some(b)
  {
    SpanIs(a, b, p);
  }

  /** Whenever the line can be cut that way, the scan finds the same size. */
  lemma FileMatchComplete(line: string, kw: string, s1: string, id: string, s2: string, word: string,
                          s3: string, size: string, rest: string)
    requires HasParts(line, kw, s1, id, s2, word, s3, size, rest)
    ensures FileMatch(line) == Some(DecVal(size))
  {
    hide Skip;
    var f := size + rest;
    var e := s3 + f;
    var d := word + e;
    var c := s2 + d;
    var b := id + c;
    SkipIs(s1, b, IsSpace);
    SkipIs(id, c, IsDigit);
    SkipIs(s2, d, IsSpace);
    SkipIs(word, e, NonSpace);
    SkipIs(s3, f, IsSpace);
    SpanIs(size, rest, IsDigit);
    assert line[..4] == kw && line[4..] == s1 + b;
  }

  lemma Skipped(o: Option<string>, p: char -> bool) returns (run: string)
    requires Skip(o, p).Some?
    ensures o.Some? && All(run, p) && o.value == run + Skip(o, p).value
  {
    run := o.value[..Span(o.value, p)];
  }

  /** And only then: a size that was found comes from such a cut. */
  lemma FileMatchSound(line: string) returns (kw: string, s1: string, id: string, s2: string, word: string,
                                              s3: string, size: string, rest: string)
    requires FileMatch(line).Some?
    ensures HasParts(line, kw, s1, id, s2, word, s3, size, rest)
    ensures DecVal(size) == FileMatch(line).value
  {
    hide Skip, Span, All;
    kw := line[..4];
    assert line == kw + line[4..];
    var b := Skip(Some(line[4..]), IsSpace);
    var c := Skip(b, IsDigit);
    var d := Skip(c, IsSpace);
    var e := Skip(d, NonSpace);
    var f := Skip(e, IsSpace);
    s3 := Skipped(e, IsSpace);
    word := Skipped(d, NonSpace);
    s2 := Skipped(c, IsSpace);
    id := Skipped(b, IsDigit);
    s1 := Skipped(Some(line[4..]), IsSpace);
    size, rest := SizeParts(f.value);
  }

  lemma SizeParts(f: string) returns (size: string, rest: string)
    requires SizeField(f).Some?
    ensures f == size + rest && All(size, IsDigit) && DecVal(size) == SizeField(f).value
    ensures rest != "" && IsSpace(rest[0])
  {
    var n := Span(f, IsDigit);
    size, rest := f[..n], f[n..];
  }

  predicate StartsWithWord(line: string, word: string) {
    |line| > |word| && LowerAll(line[..|word|]) == word && IsSpace(line[|word|])
  }

  /** The "protocol" script: only the language and query commands are answered. */
  function Reply(line: string): string {
    if StartsWithWord(line, "language") then YES
    else if StartsWithWord(line, "query") then Url() + [LF]
    else ""
  }

  // ---- Taking one item, and as many as there are ----

  function ServeOne(s: Server): Option<Server> {
    if s.bodyLeft > 0 then
      if |s.buf| < s.bodyLeft then None
      else Some(Server(s.buf[s.bodyLeft..], 0, s.log + [Body(s.buf[..s.bodyLeft])], s.replies))
    else
      var lf := IndexOf(s.buf, LF);
      if lf == |s.buf| then None
      else
        var line, rest := StripCR(s.buf[..lf]), s.buf[lf + 1..];
        match FileMatch(line)
        case Some(size) => Some(Server(rest, size, s.log + [Header(line, size)], s.replies))
        case None => Some(Server(rest, 0, s.log + [Command(line)], s.replies + Reply(line)))
  }

  function ServeAll(s: Server): (t: Server)
    ensures ServeOne(t).None?
    decreases |s.buf|
  {
    match ServeOne(s)
    case None => s
    case Some(t) => ServeAll(t)
  }

  function Feed(s: Server, chunk: string): Server {
    ServeAll(s.(buf := s.buf + chunk))
  }

  lemma IndexOfExtends(s: string, c: char, more: string)
    requires IndexOf(s, c) < |s|
    ensures IndexOf(s + more, c) == IndexOf(s, c)
  {
    var i := IndexOf(s, c);
    IndexOfPrefix(s[..i], c, s[i + 1..] + more);
    assert s + more == s[..i] + [c] + (s[i + 1..] + more);
  }

  lemma ServeOneExtends(s: Server, more: string)
    requires ServeOne(s).Some?
    ensures ServeOne(s.(buf := s.buf + more)) ==
            Some(ServeOne(s).value.(buf := ServeOne(s).value.buf + more))
  {
    hide FileMatch, Reply, IndexOf;
    var b := s.buf + more;
    if s.bodyLeft > 0 {
      assert b[s.bodyLeft..] == s.buf[s.bodyLeft..] + more && b[..s.bodyLeft] == s.buf[..s.bodyLeft];
    } else {
      var lf := IndexOf(s.buf, LF);
      IndexOfExtends(s.buf, LF, more);
      assert b[lf + 1..] == s.buf[lf + 1..] + more && b[..lf] == s.buf[..lf];
    }
  }

  lemma {:induction false} ServeAllExtends(s: Server, more: string)
    ensures ServeAll(ServeAll(s).(buf := ServeAll(s).buf + more)) == ServeAll(s.(buf := s.buf + more))
    decreases |s.buf|
  {
    if ServeOne(s).Some? {
      ServeOneExtends(s, more);
      ServeAllExtends(ServeOne(s).value, more);
    }
  }

  /** Cutting the input differently changes nothing: items, replies and pending input are the same. */
  lemma FeedingInTwo(s: Server, a: string, b: string)
    ensures Feed(Feed(s, a), b) == Feed(s, a + b)
  {
    ServeAllExtends(s.(buf := s.buf + a), b);
    assert s.buf + a + b == s.buf + (a + b);
  }

  function Join(chunks: seq<string>): string {
    if chunks == [] then "" else chunks[0] + Join(chunks[1..])
  }

  function FeedAll(s: Server, chunks: seq<string>): Server
    decreases |chunks|
  {
    if chunks == [] then s else FeedAll(Feed(s, chunks[0]), chunks[1..])
  }

  lemma {:induction false} ChunkingIsInvisible(s: Server, chunks: seq<string>)
    requires ServeOne(s).None?
    ensures FeedAll(s, chunks) == Feed(s, Join(chunks))
    decreases |chunks|
  {
    if chunks == [] {
      assert s.(buf := s.buf + "") == s;
    } else {
      ChunkingIsInvisible(Feed(s, chunks[0]), chunks[1..]);
      FeedingInTwo(s, chunks[0], Join(chunks[1..]));
    }
  }

  // ---- What the server takes next ----

  /** The line announces a file: it can be cut as the pattern asks, and the size is the numeral in its place. */
  ghost predicate Announces(line: string, size: nat) {
    exists kw, s1, id, s2, word, s3, digits, rest ::
      HasParts(line, kw, s1, id, s2, word, s3, digits, rest) && DecVal(digits) == size
  }

  lemma AnnouncesIff(line: string)
    ensures forall size: nat :: FileMatch(line) == Some(size) <==> Announces(line, size)
  {
    hide FileMatch;
    forall size: nat | Announces(line, size) ensures FileMatch(line) == Some(size) {
      var kw, s1, id, s2, word, s3, digits, rest :|
        HasParts(line, kw, s1, id, s2, word, s3, digits, rest) && DecVal(digits) == size;
      FileMatchComplete(line, kw, s1, id, s2, word, s3, digits, rest);
    }
    if FileMatch(line).Some? {
      var kw, s1, id, s2, word, s3, digits, rest := FileMatchSound(line);
      assert Announces(line, FileMatch(line).value);
    }
  }

  /** The line begins with the word, in any case, and white space after it. */
  predicate Commands(line: string, word: string) {
    && |line| > |word| && IsSpace(line[|word|])
    && forall k :: 0 <= k < |word| ==> Lower(line[k]) == word[k]
  }

  lemma CommandsIff(line: string, word: string)
    ensures StartsWithWord(line, word) <==> Commands(line, word)
  {
    if |line| > |word| && forall k :: 0 <= k < |word| ==> Lower(line[k]) == word[k] {
      assert LowerAll(line[..|word|]) == word;
    }
    if StartsWithWord(line, word) {
      forall k | 0 <= k < |word| ensures Lower(line[k]) == word[k] { assert LowerAll(line[..|word|])[k] == word[k]; }
    }
  }

  /** An expected body is taken as soon as all of it is there, and answered by nothing. */
  lemma BodyTaken(s: Server)
    requires s.bodyLeft > 0
    ensures ServeOne(s).Some? <==> |s.buf| >= s.bodyLeft
    ensures ServeOne(s).Some? ==>
              exists bytes :: |bytes| == s.bodyLeft && s.buf == bytes + ServeOne(s).value.buf &&
                ServeOne(s).value == Server(ServeOne(s).value.buf, 0, s.log + [Body(bytes)], s.replies)
  {
    if |s.buf| >= s.bodyLeft { assert s.buf == s.buf[..s.bodyLeft] + s.buf[s.bodyLeft..]; }
  }

  /**
   Otherwise a line is taken as soon as it is whole, less one carriage return at its end: a line that announces a
   file has its bytes expected next, a language command is answered yes and a query with the address, and every
   other line is passed over in silence.
   */
  lemma LineTaken(s: Server)
    requires s.bodyLeft == 0
    ensures ServeOne(s).Some? <==> LF in s.buf
    ensures ServeOne(s).Some? ==>
              exists raw, line :: LF !in raw && LessCR(raw, line) && s.buf == raw + [LF] + ServeOne(s).value.buf &&
                (var t := ServeOne(s).value;
                 if exists size: nat :: Announces(line, size)
                 then exists size: nat :: Announces(line, size) && t == Server(t.buf, size, s.log + [Header(line, size)], s.replies)
                 else t == Server(t.buf, 0, s.log + [Command(line)],
                                  s.replies + if Commands(line, "language") then "yes\n"
                                              else if Commands(line, "query") then "https://mock.local/results/synthetic-1\n" else ""))
  {
    hide FileMatch, StartsWithWord, Announces, Commands, StripCR, LessCR;
    var lf := IndexOf(s.buf, LF);
    if lf < |s.buf| {
      var raw, rest := s.buf[..lf], s.buf[lf + 1..];
      var line := StripCR(raw);
      assert s.buf == raw + [LF] + rest;
      LessCRIs(raw);
      AnnouncesIff(line);
      CommandsIff(line, "language");
      CommandsIff(line, "query");
      assert Url() + [LF] == "https://mock.local/results/synthetic-1\n";
      assert LF !in raw && LessCR(raw, line) && s.buf == raw + [LF] + ServeOne(s).value.buf;
    }
  }

  // ---- The server in place ----

  class MockServer {
    var buf: string
    var expectBytes: nat
    var replies: string
    ghost var log: seq<Item>

    ghost function State(): Server
      reads this
    {
      Server(buf, expectBytes, log, replies)
    }

    constructor ()
      ensures State() == Server("", 0, [], "")
    {
      buf, expectBytes, replies, log := "", 0, "", [];
    }

    method OnData(chunk: string)
      modifies this
      ensures State() == Feed(old(State()), chunk)
    {
      buf := buf + chunk;
      HandleBuffer();
    }

    method HandleBuffer()
      modifies this
      ensures State() == ServeAll(old(State()))
    {
      while true
        invariant ServeAll(State()) == ServeAll(old(State()))
        decreases |buf|
      {
        if expectBytes > 0 {
          if |buf| < expectBytes {
            return;
          }
          log := log + [Body(buf[..expectBytes])];
          buf := buf[expectBytes..];
          expectBytes := 0;
          continue;
        }
        var idx := IndexOf(buf, LF);
        if idx == |buf| {
          return;
        }
        var line := StripCR(buf[..idx]);
        buf := buf[idx + 1..];
        var fileMatch := FileMatch(line);
        if fileMatch.Some? {
          log := log + [Header(line, fileMatch.value)];
          expectBytes := fileMatch.value;
          continue;
        }
        log := log + [Command(line)];
        replies := replies + Reply(line);
      }
    }
  }

  /** Writing a reply in pieces of `chunkSize` (zero: in one piece) writes exactly the reply. */
  method WriteChunked(text: string, chunkSize: nat) returns (writes: seq<string>)
    ensures Join(writes) == text
    ensures chunkSize > 0 ==> forall k :: 0 <= k < |writes| ==> 0 < |writes[k]| <= chunkSize
  {
    if chunkSize == 0 {
      assert Join([text]) == text + Join([]);
      return [text];
    }
    writes := [];
    var offset := 0;
    while offset < |text|
      invariant 0 <= offset <= |text|
      invariant Join(writes) == text[..offset]
      invariant forall k :: 0 <= k < |writes| ==> 0 < |writes[k]| <= chunkSize
    {
      var end := if offset + chunkSize < |text| then offset + chunkSize else |text|;
      JoinAppend(writes, text[offset..end]);
      assert text[..offset] + text[offset..end] == text[..end];
      writes := writes + [text[offset..end]];
      offset := end;
    }
    assert text[..offset] == text;
  }

  lemma {:induction false} JoinAppend(chunks: seq<string>, c: string)
    ensures Join(chunks + [c]) == Join(chunks) + c
  {
    if chunks == [] {
      assert Join([c]) == c + Join([]);
    } else {
      assert (chunks + [c])[1..] == chunks[1..] + [c];
      JoinAppend(chunks[1..], c);
    }
  }
}
