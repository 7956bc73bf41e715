/** The client side of a submission: the sequence of lines, file bodies and reads it performs. */
module LiveSubmit {
  import opened Text
  import opened LineParsing
  import opened MockServing

  /** A JavaScript number, up to rounding. */
  datatype Number = NaN | PosInfinity | NegInfinity | Finite(r: real) {
    predicate Positive() { PosInfinity? || (Finite? && r > 0.0) }
    predicate IsInteger() { Finite? && r == r.Floor as real }
  }

  datatype File = File(displayName: string, bytes: string, submissionId: Number)

  datatype Job = Job(
    mossUserId: string,
    language: string,
    files: seq<File>,
    batch: bool,
    directoryMode: bool,
    threshold: Option<Number>,
    resultCount: Option<Number>,
    comment: string)

  // ---- Sanitizing ----

  function Flat(s: string): (t: string)
    ensures |t| == |s|
    ensures forall k :: 0 <= k < |t| ==> t[k] == if s[k] in "\\/" then '_' else s[k]
  {
    seq(|s|, k requires 0 <= k < |s| => if s[k] in "\\/" then '_' else s[k])
  }

  predicate Suspicious(c: char) { c in ";`|$<>" }

  /** No line breaks or other control characters, no path separators, between 1 and 128 long. */
  function SanitizeFilename(name: string): (t: string)
    ensures 0 < |t| <= 128
    ensures forall c <- t :: !IsControl(c) && c !in "\\/"
  {
    OrElse(Take(Flat(Without(OrElse(name, "file"), IsControl)), 128), "file")
  }

  function Clean(value: string): (t: string)
    ensures forall c <- t :: !IsControl(c) && !Suspicious(c)
  {
    Without(Without(value, IsControl), Suspicious)
  }

  function SanitizeComment(value: string): (t: string)
    ensures 0 < |t| <= 80
    ensures forall c <- t :: !IsControl(c) && !Suspicious(c)
  {
    OrElse(Take(Trim(Clean(value)), 80), "untitled")
  }

  function Truncate(r: real): int { if r >= 0.0 then r.Floor else -(-r).Floor }

  function Clamp(n: Number, min: int, max: int): (v: int)
    requires min <= max
    ensures min <= v <= max
    ensures n.Finite? && min <= Truncate(n.r) <= max ==> v == Truncate(n.r)
    ensures n.Finite? && Truncate(n.r) > max ==> v == max
    ensures n.Finite? && Truncate(n.r) < min ==> v == min
    ensures !n.Finite? ==> v == min
  {
    if !n.Finite? then min
    else
      var v := Truncate(n.r);
      var low := if v < min then min else v;
      if low > max then max else low
  }

  function Setting(n: Option<Number>, default: int): Number {
    if n.Some? then n.value else Finite(default as real)
  }

  // ---- What is sent ----

  /** From here on a number is printed in exponent form. */
  const E21: nat := 1_000_000_000_000_000_000_000

  function DropZeros(s: string): string {
    if s != "" && s[|s| - 1] == '0' then DropZeros(s[..|s| - 1]) else s
  }

  function NumberText(n: nat): string {
    var d := Dec(n);
    if n < E21 then d
    else
      var frac := DropZeros(d[1..]);
      [d[0]] + ((if frac == "" then "" else "." + frac) + ("e+" + Dec(|d| - 1)))
  }

  function SubmissionId(f: File, i: nat): (n: nat)
    ensures n >= 1
  {
    if f.submissionId.IsInteger() && f.submissionId.r >= 1.0 then f.submissionId.r.Floor else i + 1
  }

  /** Directory mode is asked for, or implied by two files that share a positive submission id. */
  predicate DirectoryMode(job: Job) {
    job.directoryMode ||
    exists i, j :: 0 <= i < j < |job.files| && job.files[i].submissionId.Positive() &&
                   job.files[i].submissionId == job.files[j].submissionId
  }

  function HeaderText(job: Job, i: nat): string
    requires i < |job.files|
  {
    var f := job.files[i];
    var name := SanitizeFilename(OrElse(f.displayName, "file" + Dec(i + 1)));
    "file" + (" " + (NumberText(SubmissionId(f, i)) + (" " + (job.language + (" " + (Dec(|f.bytes|) + (" " + name)))))))
  }

  function Comment(job: Job): string {
    SanitizeComment(OrElse(job.comment, if job.batch then "batch-check" else "pair-check"))
  }

  datatype Action = Send(item: Item) | AwaitYes | AwaitUrl

  function Sends(items: seq<Item>): (acts: seq<Action>)
    ensures |acts| == |items|
    ensures forall k :: 0 <= k < |items| ==> acts[k] == Send(items[k])
  {
    seq(|items|, k requires 0 <= k < |items| => Send(items[k]))
  }

  function Prologue(job: Job): seq<Item> {
    [Command("moss " + job.mossUserId),
     Command("directory " + if DirectoryMode(job) then "1" else "0"),
     Command("X 0"),
     Command("maxmatches " + Dec(Clamp(Setting(job.threshold, 10), 1, 1000))),
     Command("show " + Dec(Clamp(Setting(job.resultCount, 250), 1, 1000))),
     Command("language " + job.language)]
  }

  /** Header and body of each of the first `k` files. */
  function FileItems(job: Job, k: nat): seq<Item>
    requires k <= |job.files|
  {
    if k == 0 then []
    else FileItems(job, k - 1) + [Header(HeaderText(job, k - 1), |job.files[k - 1].bytes|), Body(job.files[k - 1].bytes)]
  }

  function Program(job: Job): seq<Action> {
    Sends(Prologue(job)) + [AwaitYes] + Sends(FileItems(job, |job.files|)) +
    [Send(Command("query 0 " + Comment(job))), AwaitUrl, Send(Command("end"))]
  }

  /** The checks made before anything is sent. */
  function Refusal(job: Job): Option<string> {
    if |job.mossUserId| < 3 || exists c :: c in job.mossUserId && !IsDigit(c) then Some("credential")
    else if job.language == "" then Some("language")
    else if |job.files| < 2 || |job.files| > (if job.batch then 50 else 2) then Some("generic-failure")
    else None
  }

  /** A job is refused before anything is sent for the first of these that fails: its user id, its language, its number of files. */
  lemma RefusalIff(job: Job)
    ensures var numbered := |job.mossUserId| >= 3 && forall k :: 0 <= k < |job.mossUserId| ==> '0' <= job.mossUserId[k] <= '9';
            var counted := 2 <= |job.files| && (job.batch ==> |job.files| <= 50) && (!job.batch ==> |job.files| <= 2);
            && (Refusal(job) == Some("credential") <==> !numbered)
            && (Refusal(job) == Some("language") <==> numbered && job.language == "")
            && (Refusal(job) == Some("generic-failure") <==> numbered && job.language != "" && !counted)
            && (Refusal(job) == None <==> numbered && job.language != "" && counted)
  {
    forall k | 0 <= k < |job.mossUserId| && !IsDigit(job.mossUserId[k]) ensures exists c :: c in job.mossUserId && !IsDigit(c) {
      assert job.mossUserId[k] in job.mossUserId;
    }
  }

  lemma SendsConcat(a: seq<Item>, b: seq<Item>)
    ensures Sends(a + b) == Sends(a) + Sends(b)
  {
  }

  /** The session as the client performs it: one write or read after the other. */
  method PerformSession(job: Job) returns (acts: seq<Action>)
    requires Refusal(job).None?
    ensures acts == Program(job)
  {
    hide HeaderText, SanitizeComment, Clamp, Dec, DirectoryMode;
    var maxmatches := Clamp(Setting(job.threshold, 10), 1, 1000);
    var show := Clamp(Setting(job.resultCount, 250), 1, 1000);
    acts := [Send(Command("moss " + job.mossUserId))];
    acts := acts + [Send(Command("directory " + if DirectoryMode(job) then "1" else "0"))];
    acts := acts + [Send(Command("X 0"))];
    acts := acts + [Send(Command("maxmatches " + Dec(maxmatches)))];
    acts := acts + [Send(Command("show " + Dec(show)))];
    acts := acts + [Send(Command("language " + job.language))];
    assert acts == Sends(Prologue(job));
    acts := acts + [AwaitYes];
    ghost var opening := acts;
    for i := 0 to |job.files|
      invariant acts == opening + Sends(FileItems(job, i))
    {
      var file := job.files[i];
      SendsConcat(FileItems(job, i), [Header(HeaderText(job, i), |file.bytes|), Body(file.bytes)]);
      acts := acts + [Send(Header(HeaderText(job, i), |file.bytes|))];
      acts := acts + [Send(Body(file.bytes))];
      assert Sends([Header(HeaderText(job, i), |file.bytes|), Body(file.bytes)]) ==
             [Send(Header(HeaderText(job, i), |file.bytes|)), Send(Body(file.bytes))];
    }
    acts := acts + [Send(Command("query 0 " + Comment(job))), AwaitUrl, Send(Command("end"))];
  }

  // ---- The framing of what is sent ----

  predicate Token(s: string) { s != "" && forall c <- s :: !IsSpace(c) }

  /** The line survives the trip: one line feed ends it and no carriage return is cut off. */
  predicate Plain(text: string) { LF !in text && '\r' !in text }

  function OpenAfter(items: seq<Item>, open: nat): nat {
    if items == [] then open
    else OpenAfter(items[1..], if items[0].Header? then items[0].size else 0)
  }

  /**
   `items` is what a server that still waits for `open` body bytes makes of its own encoding. A body of
   length zero is never taken off the input, so it does not occur.
   */
  predicate Framed(items: seq<Item>, open: nat) {
    items == [] ||
    match items[0]
    case Body(bytes) => open > 0 && |bytes| == open && Framed(items[1..], 0)
    case Command(text) => open == 0 && Plain(text) && FileMatch(text).None? && Framed(items[1..], 0)
    case Header(text, size) => open == 0 && Plain(text) && FileMatch(text) == Some(size) && Framed(items[1..], size)
  }

  lemma {:induction false} FramedConcat(a: seq<Item>, b: seq<Item>, open: nat)
    ensures Framed(a + b, open) <==> Framed(a, open) && Framed(b, OpenAfter(a, open))
    ensures OpenAfter(a + b, open) == OpenAfter(b, OpenAfter(a, open))
    decreases |a|
  {
    if a == [] {
      assert a + b == b;
    } else {
      assert (a + b)[1..] == a[1..] + b;
      FramedConcat(a[1..], b, if a[0].Header? then a[0].size else 0);
    }
  }

  /** Printed in full, so that the server reads it as digits. */
  predicate Framable(job: Job) {
    forall i :: 0 <= i < |job.files| ==> SubmissionId(job.files[i], i) < E21
  }

  lemma HeaderPlain(job: Job, i: nat)
    requires i < |job.files| && Token(job.language)
    ensures Plain(HeaderText(job, i))
  {
    hide Dec, SanitizeFilename, NumberText;
    var f := job.files[i];
    NumberTextPlain(SubmissionId(f, i));
    assert Plain(Dec(|f.bytes|)) && Plain(job.language);
    assert Plain(SanitizeFilename(OrElse(f.displayName, "file" + Dec(i + 1))));
  }

  lemma NumberTextPlain(n: nat)
    ensures Plain(NumberText(n))
  {
    var d := Dec(n);
    assert Plain(d) && Plain(d[1..]) && Plain(Dec(|d| - 1));
    DropZerosPrefix(d[1..]);
    hide Dec, DropZeros;
    assert Plain(DropZeros(d[1..]));
  }

  lemma {:induction false} DropZerosPrefix(s: string)
    ensures DropZeros(s) <= s
  {
    if s != "" { DropZerosPrefix(s[..|s| - 1]); }
  }

  /** A file header is recognised as one, with the right size, exactly when its id is printed in full. */
  lemma HeaderRecognised(job: Job, i: nat)
    requires i < |job.files| && Token(job.language)
    ensures FileMatch(HeaderText(job, i)) == Some(|job.files[i].bytes|) <==> SubmissionId(job.files[i], i) < E21
    ensures SubmissionId(job.files[i], i) >= E21 ==> FileMatch(HeaderText(job, i)).None?
  {
    hide Dec, SanitizeFilename, FileMatch, NumberText;
    var f := job.files[i];
    var id, size := SubmissionId(f, i), Dec(|f.bytes|);
    var rest := " " + SanitizeFilename(OrElse(f.displayName, "file" + Dec(i + 1)));
    var text := HeaderText(job, i);
    var tail := " " + (job.language + (" " + (size + rest)));
    assert text == "file" + (" " + (NumberText(id) + tail));
    if id < E21 {
      SmallNumber(id);
      assert LowerAll("file") == "file";
      FileMatchComplete(text, "file", " ", Dec(id), " ", job.language, " ", size, rest);
      DecRoundTrip(|f.bytes|);
    } else {
      ExponentForm(id);
      NoDigitsThenSpace(NumberText(id), tail);
    }
  }

  lemma SmallNumber(n: nat)
    requires n < E21
    ensures NumberText(n) == Dec(n)
  {
  }

  /** One digit and then something that is neither a digit nor white space: not a submission id. */
  lemma NoDigitsThenSpace(exp: string, tail: string)
    requires |exp| > 1 && IsDigit(exp[0]) && !IsDigit(exp[1]) && !IsSpace(exp[1])
    ensures FileMatch("file" + (" " + (exp + tail))).None?
  {
    var line, after := "file" + (" " + (exp + tail)), exp[1..] + tail;
    assert line[4..] == " " + (exp + tail);
    SkipIs(" ", exp + tail, IsSpace);
    assert exp + tail == [exp[0]] + after;
    SkipIs([exp[0]], after, IsDigit);
    SpanIs("", after, IsSpace);
    assert "" + after == after;
    assert Skip(Some(after), IsSpace).None?;
  }

  lemma ExponentForm(n: nat)
    requires n >= E21
    ensures |NumberText(n)| > 1 && IsDigit(NumberText(n)[0])
    ensures !IsDigit(NumberText(n)[1]) && !IsSpace(NumberText(n)[1])
  {
  }

  lemma FirstLetter(line: string, word: string)
    requires line != "" && word != "" && Lower(line[0]) != word[0]
    ensures !StartsWithWord(line, word)
  {
    if |line| > |word| {
      assert LowerAll(line[..|word|])[0] == Lower(line[0]);
    }
  }

  lemma NotAFile(line: string)
    requires line != "" && Lower(line[0]) != 'f'
    ensures FileMatch(line).None?
  {
    if |line| >= 4 {
      assert LowerAll(line[..4])[0] == Lower(line[0]);
    }
  }

  function Replies(items: seq<Item>): string {
    if items == [] then ""
    else Replies(items[..|items| - 1]) +
         if items[|items| - 1].Command? then Reply(items[|items| - 1].text) else ""
  }

  lemma {:induction false} RepliesConcat(a: seq<Item>, b: seq<Item>)
    ensures Replies(a + b) == Replies(a) + Replies(b)
    decreases |b|
  {
    hide Reply;
    if b == [] {
      assert a + b == a;
    } else {
      assert (a + b)[..|a + b| - 1] == a + b[..|b| - 1];
      RepliesConcat(a, b[..|b| - 1]);
    }
  }

  lemma SilentCommand(text: string)
    requires text != "" && Plain(text) && Lower(text[0]) !in "flq"
    ensures Framed([Command(text)], 0) && Replies([Command(text)]) == ""
  {
    NotAFile(text);
    FirstLetter(text, "language");
    FirstLetter(text, "query");
    assert Replies([]) == "";
    assert [Command(text)][..0] == [];
  }

  lemma AnsweredCommand(text: string, word: string)
    requires Plain(text) && StartsWithWord(text, word) && word in {"language", "query"}
    ensures Framed([Command(text)], 0)
    ensures Replies([Command(text)]) == if word == "language" then YES else Url() + [LF]
  {
    assert LowerAll(text[..|word|])[0] == Lower(text[0]);
    NotAFile(text);
    if word == "query" { FirstLetter(text, "language"); }
    assert Replies([]) == "";
    assert [Command(text)][..0] == [];
  }

  lemma {:induction false} SilentCommands(items: seq<Item>)
    requires forall i <- items :: i.Command? && i.text != "" && Plain(i.text) && Lower(i.text[0]) !in "flq"
    ensures Framed(items, 0) && OpenAfter(items, 0) == 0 && Replies(items) == ""
  {
    if items != [] {
      var front, last := items[..|items| - 1], items[|items| - 1];
      SilentCommands(front);
      SilentCommand(last.text);
      assert items == front + [last];
      FramedConcat(front, [last], 0);
      RepliesConcat(front, [last]);
    }
  }

  lemma PrologueText(job: Job)
    requires Refusal(job).None?
    ensures |Prologue(job)| == 6
    ensures var p := Prologue(job);
            && p == p[..5] + [Command("language " + job.language)]
            && forall i <- p[..5] :: i.Command? && i.text != "" && Plain(i.text) && Lower(i.text[0]) !in "flq"
  {
    hide Dec, Clamp, DirectoryMode, Setting;
    PlainConcat("moss ", job.mossUserId);
    PlainConcat("maxmatches ", Dec(Clamp(Setting(job.threshold, 10), 1, 1000)));
    PlainConcat("show ", Dec(Clamp(Setting(job.resultCount, 250), 1, 1000)));
    hide Plain;
    var p := Prologue(job);
    PlainWords();
  }

  lemma PlainWords()
    ensures Plain("directory 0") && Plain("directory 1") && Plain("X 0")
    ensures "directory " + "0" == "directory 0" && "directory " + "1" == "directory 1"
  {
  }

  lemma PlainConcat(a: string, b: string)
    requires Plain(a) && Plain(b)
    ensures Plain(a + b)
  {
  }

  lemma PrologueFramed(job: Job)
    requires Refusal(job).None? && Token(job.language)
    ensures Framed(Prologue(job), 0) && OpenAfter(Prologue(job), 0) == 0
    ensures Replies(Prologue(job)) == YES
  {
    hide Prologue, FileMatch, Reply, Framed, OpenAfter, Replies, Refusal;
    PrologueText(job);
    var silent, language := Prologue(job)[..5], [Command("language " + job.language)];
    SilentCommands(silent);
    AnsweredLanguage(job.language);
    FramedConcat(silent, language, 0);
    RepliesConcat(silent, language);
  }

  lemma AnsweredLanguage(language: string)
    requires Token(language)
    ensures var items := [Command("language " + language)];
            Framed(items, 0) && OpenAfter(items, 0) == 0 && Replies(items) == YES
  {
    var text := "language " + language;
    assert text[..8] == "language" && LowerAll("language") == "language";
    AnsweredCommand(text, "language");
  }

  lemma AnsweredQuery(comment: string)
    requires Plain(comment)
    ensures var items := [Command("query 0 " + comment)];
            Framed(items, 0) && OpenAfter(items, 0) == 0 && Replies(items) == Url() + [LF]
  {
    var text := "query 0 " + comment;
    assert text[..5] == "query" && LowerAll("query") == "query";
    AnsweredCommand(text, "query");
  }

  /** The files as the server sees them: a body of length zero leaves no trace on the wire. */
  function SeenFiles(job: Job, k: nat): seq<Item>
    requires k <= |job.files|
  {
    if k == 0 then [] else SeenFiles(job, k - 1) + SeenFile(job, k - 1)
  }

  function SeenFile(job: Job, i: nat): seq<Item>
    requires i < |job.files|
  {
    var bytes := job.files[i].bytes;
    [Header(HeaderText(job, i), |bytes|)] + if bytes == "" then [] else [Body(bytes)]
  }

  lemma ItemFramed(i: Item, open: nat)
    requires match i
             case Header(text, size) => open == 0 && Plain(text) && FileMatch(text) == Some(size)
             case Body(bytes) => |bytes| == open > 0
             case Command(_) => false
    ensures Framed([i], open) && OpenAfter([i], open) == (if i.Header? then i.size else 0)
    ensures Replies([i]) == ""
  {
    assert [i][1..] == [] && [i][..0] == [];
  }

  lemma SeenFileFramed(job: Job, i: nat)
    requires i < |job.files| && Token(job.language) && Framable(job)
    ensures Framed(SeenFile(job, i), 0) && OpenAfter(SeenFile(job, i), 0) == 0
    ensures Replies(SeenFile(job, i)) == ""
  {
    hide HeaderText, FileMatch, Framed, OpenAfter, Replies;
    HeaderPlain(job, i);
    HeaderRecognised(job, i);
    var bytes := job.files[i].bytes;
    var header, body := Header(HeaderText(job, i), |bytes|), Body(bytes);
    ItemFramed(header, 0);
    if bytes == "" {
      assert SeenFile(job, i) == [header];
    } else {
      ItemFramed(body, |bytes|);
      FramedConcat([header], [body], 0);
      RepliesConcat([header], [body]);
    }
  }

  lemma {:induction false} SeenFilesFramed(job: Job, k: nat)
    requires k <= |job.files| && Token(job.language) && Framable(job)
    ensures Framed(SeenFiles(job, k), 0) && OpenAfter(SeenFiles(job, k), 0) == 0
    ensures Replies(SeenFiles(job, k)) == ""
  {
    hide Framed, OpenAfter, Replies, SeenFile, Framable, Token;
    if k > 0 {
      SeenFilesFramed(job, k - 1);
      SeenFileFramed(job, k - 1);
      FramedConcat(SeenFiles(job, k - 1), SeenFile(job, k - 1), 0);
      RepliesConcat(SeenFiles(job, k - 1), SeenFile(job, k - 1));
    } else {
      NothingFramed();
    }
  }

  lemma NothingFramed()
    ensures Framed([], 0) && OpenAfter([], 0) == 0 && Replies([]) == ""
  {
  }

  /** Everything the server is to take off the wire, in order. */
  function Seen(job: Job): seq<Item> {
    Prologue(job) + SeenFiles(job, |job.files|) + [Command("query 0 " + Comment(job)), Command("end")]
  }

  /** Reading the headers and bodies back gives each file's size line and contents, in order. */
  function FilesOf(items: seq<Item>): seq<(string, string)> {
    if items == [] then []
    else if items[0].Header? then
      if items[0].size == 0 then [(items[0].text, "")] + FilesOf(items[1..])
      else if |items| > 1 && items[1].Body? then [(items[0].text, items[1].bytes)] + FilesOf(items[2..])
      else FilesOf(items[1..])
    else FilesOf(items[1..])
  }
}
