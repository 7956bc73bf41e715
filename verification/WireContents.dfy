/**
 What a submission says to the server, read off the server's own log: the settings, the credential, the
 comment and the files, each told from the job and not from the client's program.
 */
module WireContents {
  import opened Text
  import opened MockServing
  import opened LiveSubmit
  import opened WireSession

  // ---- Reading the log ----

  /** What follows `word` in the command lines that begin with it, in order. */
  function Arguments(items: seq<Item>, word: string): seq<string> {
    if items == [] then []
    else (if items[0].Command? && StartsWith(items[0].text, word) then [items[0].text[|word|..]] else []) + Arguments(items[1..], word)
  }

  /** `v` is the setting asked for, truncated into 1..1000, or the default where none is asked for. */
  predicate IsSetting(asked: Option<Number>, default: int, v: nat) {
    match asked
    case None => v == default
    case Some(n) =>
      if !n.Finite? || n.r < 1.0 then v == 1
      else if n.r > 1000.0 then v == 1000
      else v as real <= n.r < v as real + 1.0
  }

  /** One command begins with `word`, and it ends in that setting as a numeral. */
  ghost predicate CarriesSetting(items: seq<Item>, word: string, asked: Option<Number>, default: int) {
    var a := Arguments(items, word);
    |a| == 1 && All(a[0], IsDigit) && IsSetting(asked, default, DecVal(a[0]))
  }

  /** `s` without the characters a command line must not hold, and nothing else missing. */
  function Harmless(s: string): string {
    if s == "" then ""
    else (if s[0] < ' ' || s[0] == 127 as char || s[0] in ";`|$<>" then "" else [s[0]]) + Harmless(s[1..])
  }

  /** The first eighty characters of what is left of `asked` once it is harmless and trimmed. */
  ghost predicate IsComment(asked: string, c: string) {
    if Spaces(Harmless(asked)) then c == "untitled" else IsTrimmedTo(Harmless(asked), 80, c)
  }

  /** The comment of the job, or its kind where it has none. */
  function AskedComment(job: Job): string {
    if job.comment != "" then job.comment else if job.batch then "batch-check" else "pair-check"
  }

  /** Directory mode is asked for, or two files have one positive submission id. */
  ghost predicate WantsDirectory(job: Job) {
    job.directoryMode ||
    exists i, j :: 0 <= i < j < |job.files| && SameId(job.files[i].submissionId, job.files[j].submissionId)
  }

  predicate SameId(m: Number, n: Number) {
    m == n && (m.PosInfinity? || (m.Finite? && m.r > 0.0))
  }

  // ---- Words that cannot be taken for one another ----

  predicate Apart(a: string, b: string) { exists k :: 0 <= k < |a| && k < |b| && a[k] != b[k] }

  lemma StartsOnce(word: string, rest: string, other: string)
    ensures StartsWith(word + rest, word) && (word + rest)[|word|..] == rest
    ensures Apart(word, other) ==> !StartsWith(word + rest, other)
  {
    if Apart(word, other) {
      var k :| 0 <= k < |word| && k < |other| && word[k] != other[k];
      assert (word + rest)[k] == word[k];
    }
  }

  function Words(): (w: seq<string>)
    ensures |w| == 8
  {
    ["moss ", "directory ", "X ", "maxmatches ", "show ", "language ", "query 0 ", "end"]
  }

  lemma WordsApart(i: nat, j: nat)
    requires i < j < |Words()|
    ensures Apart(Words()[i], Words()[j]) && Apart(Words()[j], Words()[i])
  {
    var a, b := Words()[i], Words()[j];
    assert if i == 0 && j == 3 then a[1] == 'o' && b[1] == 'a' else a[0] != b[0];
  }

  /** Command lines each made of one of the words and its argument. */
  function Spoken(parts: seq<(nat, string)>): seq<Item>
    requires forall p <- parts :: p.0 < |Words()|
  {
    if parts == [] then [] else [Command(Words()[parts[0].0] + parts[0].1)] + Spoken(parts[1..])
  }

  function Said(parts: seq<(nat, string)>, w: nat): seq<string> {
    if parts == [] then [] else (if parts[0].0 == w then [parts[0].1] else []) + Said(parts[1..], w)
  }

  lemma {:induction false} SpokenIsSaid(parts: seq<(nat, string)>, w: nat)
    requires w < |Words()| && forall p <- parts :: p.0 < |Words()|
    ensures Arguments(Spoken(parts), Words()[w]) == Said(parts, w)
  {
    if parts != [] {
      var v := parts[0].0;
      SpokenIsSaid(parts[1..], w);
      StartsOnce(Words()[v], parts[0].1, Words()[w]);
      if v < w { WordsApart(v, w); } else if w < v { WordsApart(w, v); }
      hide Words, StartsWith, Apart;
      assert Spoken(parts)[1..] == Spoken(parts[1..]);
    }
  }

  lemma {:induction false} ArgumentsConcat(a: seq<Item>, b: seq<Item>, word: string)
    ensures Arguments(a + b, word) == Arguments(a, word) + Arguments(b, word)
  {
    if a == [] {
      assert a + b == b;
    } else {
      assert (a + b)[1..] == a[1..] + b;
      ArgumentsConcat(a[1..], b, word);
    }
  }

  lemma {:induction false} NoCommands(items: seq<Item>, word: string)
    requires forall i <- items :: !i.Command?
    ensures Arguments(items, word) == []
  {
    if items != [] { NoCommands(items[1..], word); }
  }

  lemma {:induction false} FilesSayNothing(job: Job, k: nat, word: string)
    requires k <= |job.files|
    ensures Arguments(SeenFiles(job, k), word) == []
  {
    if k > 0 {
      FilesSayNothing(job, k - 1, word);
      NoCommands(SeenFile(job, k - 1), word);
      hide SeenFile;
      ArgumentsConcat(SeenFiles(job, k - 1), SeenFile(job, k - 1), word);
    }
  }

  // ---- What is said, as words and arguments ----

  function Opening(job: Job): seq<(nat, string)> {
    [(0, job.mossUserId), (1, if DirectoryMode(job) then "1" else "0"), (2, "0"),
     (3, Dec(Clamp(LiveSubmit.Setting(job.threshold, 10), 1, 1000))),
     (4, Dec(Clamp(LiveSubmit.Setting(job.resultCount, 250), 1, 1000))), (5, job.language)]
  }

  lemma PrologueSpoken(job: Job)
    ensures forall p <- Opening(job) :: p.0 < |Words()|
    ensures Spoken(Opening(job)) == Prologue(job)
  {
    hide DirectoryMode, Clamp, Setting, Dec, Words, Spoken;
    var o := Opening(job);
    WordsAre();
    SpokenTail(o, 5);
    SpokenTail(o, 4);
    SpokenTail(o, 3);
    SpokenTail(o, 2);
    SpokenTail(o, 1);
    SpokenTail(o, 0);
    SpokenNone();
    assert o[6..] == [] && o[0..] == o;
  }

  lemma SpokenNone()
    ensures Spoken([]) == []
  {
  }

  lemma WordsAre()
    ensures Words()[0] == "moss " && Words()[1] == "directory " && Words()[2] + "0" == "X 0" && Words()[3] == "maxmatches "
    ensures Words()[4] == "show " && Words()[5] == "language "
  {
  }

  lemma SpokenTail(o: seq<(nat, string)>, k: nat)
    requires k < |o| && forall p <- o :: p.0 < |Words()|
    ensures Spoken(o[k..]) == [Command(Words()[o[k].0] + o[k].1)] + Spoken(o[k + 1..])
  {
    hide Words;
    assert o[k..][0] == o[k] && o[k..][1..] == o[k + 1..];
  }

  lemma OpeningSaid(job: Job, w: nat)
    requires w < 6
    ensures Said(Opening(job), w) == [Opening(job)[w].1]
  {
    hide DirectoryMode, Clamp, Setting, Dec;
    var o := Opening(job);
    SaidTail(o, 0, w);
    SaidTail(o, 1, w);
    SaidTail(o, 2, w);
    SaidTail(o, 3, w);
    SaidTail(o, 4, w);
    SaidTail(o, 5, w);
    assert o[6..] == [] && o[0..] == o;
  }

  lemma OpeningSilent(job: Job, w: nat)
    requires w >= 6
    ensures Said(Opening(job), w) == []
  {
    hide DirectoryMode, Clamp, Setting, Dec;
    var o := Opening(job);
    SaidTail(o, 0, w);
    SaidTail(o, 1, w);
    SaidTail(o, 2, w);
    SaidTail(o, 3, w);
    SaidTail(o, 4, w);
    SaidTail(o, 5, w);
    assert o[6..] == [] && o[0..] == o;
  }

  lemma SaidTail(o: seq<(nat, string)>, k: nat, w: nat)
    requires k < |o|
    ensures Said(o[k..], w) == (if o[k].0 == w then [o[k].1] else []) + Said(o[k + 1..], w)
  {
    assert o[k..][0] == o[k] && o[k..][1..] == o[k + 1..];
  }

  /** The log once the client has read its second reply: everything up to the query, and perhaps the goodbye. */
  lemma LogIs(job: Job, log: seq<Item>)
    requires Sound(job) && log <= Seen(job) && Replies(log) == BothReplies()
    ensures exists e :: (e == [] || e == [Command("end")]) && log == Prologue(job) + SeenFiles(job, |job.files|) + [Query(job)] + e
  {
    hide Prologue, SeenFiles, Sound, Replies, Comment;
    var files := Prologue(job) + SeenFiles(job, |job.files|);
    var upToQuery := files + [Query(job)];
    assert Seen(job) == upToQuery + [Command("end")];
    FilesUnanswered(job);
    if |log| <= |files| { RepliesPrefix(log, files); }
    if |log| > |upToQuery| {
      assert log == upToQuery + [Command("end")];
    } else {
      assert log == upToQuery + [];
    }
  }

  lemma LogByThen(job: Job, t: System)
    requires Sound(job) && Kept(job, t) && t.pc > UrlAt(job)
    ensures exists e :: (e == [] || e == [Command("end")])
                        && t.server.log == Prologue(job) + SeenFiles(job, |job.files|) + [Query(job)] + e
  {
    RepliesSoFar(job, t.pc, t.server, t.up);
    assert |t.parser.delivered| >= 2;
    AllDelivered(t.parser);
    hide Program, SentBy, Sound;
    LogIs(job, t.server.log);
  }

  lemma LogSays(job: Job, log: seq<Item>, e: seq<Item>, w: nat)
    requires e == [] || e == [Command("end")]
    requires log == Prologue(job) + SeenFiles(job, |job.files|) + [Query(job)] + e && w < 7
    ensures Arguments(log, Words()[w]) == if w == 6 then [Comment(job)] else [Opening(job)[w].1]
  {
    hide Prologue, SeenFiles, Opening, Words, Comment, Said, Spoken;
    var word := Words()[w];
    var files := SeenFiles(job, |job.files|);
    PrologueSpoken(job);
    SpokenIsSaid(Opening(job), w);
    if w < 6 { OpeningSaid(job, w); } else { OpeningSilent(job, w); }
    FilesSayNothing(job, |job.files|, word);
    QuerySays(job, w);
    EndSays(e, w);
    ArgumentsConcat(Prologue(job), files, word);
    ArgumentsConcat(Prologue(job) + files, [Query(job)], word);
    ArgumentsConcat(Prologue(job) + files + [Query(job)], e, word);
  }

  lemma QuerySays(job: Job, w: nat)
    requires w < |Words()|
    ensures Arguments([Query(job)], Words()[w]) == if w == 6 then [Comment(job)] else []
  {
    hide Comment;
    StartsOnce("query 0 ", Comment(job), Words()[w]);
    if w < 6 { WordsApart(w, 6); } else if w == 7 { WordsApart(6, 7); }
    hide StartsWith, Apart;
    assert [Query(job)][1..] == [];
  }

  lemma EndSays(e: seq<Item>, w: nat)
    requires (e == [] || e == [Command("end")]) && w < 7
    ensures Arguments(e, Words()[w]) == []
  {
    WordsApart(w, 7);
    StartsOnce("end", "", Words()[w]);
    assert "end" + "" == "end";
    hide StartsWith, Apart, Words;
    if e != [] { assert e[1..] == []; }
  }

  // ---- What the arguments are worth ----

  lemma ClampIsSetting(asked: Option<Number>, default: int)
    requires 1 <= default <= 1000
    ensures var v := Clamp(LiveSubmit.Setting(asked, default), 1, 1000);
            IsSetting(asked, default, v) && All(Dec(v), IsDigit) && DecVal(Dec(v)) == v
  {
    DecRoundTrip(Clamp(LiveSubmit.Setting(asked, default), 1, 1000));
  }

  lemma {:induction false} WithoutBoth(s: string)
    ensures Without(Without(s, IsControl), Suspicious) == Harmless(s)
  {
    hide IsControl, Suspicious;
    if s != "" {
      WithoutBoth(s[1..]);
      DropsAre(s[0]);
      var rest := Without(s[1..], IsControl);
      assert ([s[0]] + rest)[1..] == rest && "" + rest == rest;
    }
  }

  lemma DropsAre(c: char)
    ensures (c < ' ' || c == 127 as char || c in ";`|$<>") <==> IsControl(c) || Suspicious(c)
  {
  }

  lemma SanitizedComment(asked: string)
    ensures IsComment(asked, SanitizeComment(asked))
  {
    hide Trim, Harmless;
    WithoutBoth(asked);
    TrimmedTo(Harmless(asked), 80);
    TakesSome(Harmless(asked), Take(Trim(Harmless(asked)), 80));
  }

  lemma TakesSome(s: string, c: string)
    requires IsTrimmedTo(s, 80, c)
    ensures c == "" <==> Spaces(s)
  {
    if !Spaces(s) {
      var a, d, b :| CutsTrimmed(s, 80, a, c, d, b);
      assert c + d != "";
    }
  }

  lemma SameDirectory(job: Job)
    ensures WantsDirectory(job) <==> DirectoryMode(job)
  {
  }

  /**
   Past the second reply of any run the server has been told exactly once each: the user id,
   the directory mode, no threshold of its own, the job's threshold and its result count, the language, and at
   the query the comment.
   */
  lemma ServerIsTold(job: Job, ms: seq<Move>)
    requires Sound(job) && Run(Program(job), Start(), ms)
    requires Exec(Program(job), Start(), ms).pc > UrlAt(job)
    ensures var log := Exec(Program(job), Start(), ms).server.log;
            && Arguments(log, "moss ") == [job.mossUserId]
            && Arguments(log, "directory ") == [if WantsDirectory(job) then "1" else "0"]
            && Arguments(log, "X ") == ["0"]
            && CarriesSetting(log, "maxmatches ", job.threshold, 10)
            && CarriesSetting(log, "show ", job.resultCount, 250)
            && Arguments(log, "language ") == [job.language]
            && (exists c :: Arguments(log, "query 0 ") == [c] && IsComment(AskedComment(job), c))
  {
    hide Prologue, SeenFiles, Comment, Sound, Exec, Run, DirectoryMode, Setting, Clamp, Program, Kept;
    StartKept(job);
    RunKept(job, Start(), ms);
    var t := Exec(Program(job), Start(), ms);
    LogByThen(job, t);
    var e :| (e == [] || e == [Command("end")])
             && t.server.log == Prologue(job) + SeenFiles(job, |job.files|) + [Query(job)] + e;
    forall w: nat | w < 7
      ensures Arguments(t.server.log, Words()[w]) == if w == 6 then [Comment(job)] else [Opening(job)[w].1]
    {
      LogSays(job, t.server.log, e, w);
    }
    TellsSettings(job, t.server.log);
    TellsComment(job, t.server.log);
  }

  /** The first six lines the server takes begin with these words, in this order; the files follow. */
  lemma ToldInOrder(job: Job, ms: seq<Move>, k: nat)
    requires Sound(job) && Run(Program(job), Start(), ms) && k < 6
    requires Exec(Program(job), Start(), ms).pc > UrlAt(job)
    ensures var log := Exec(Program(job), Start(), ms).server.log;
            && |log| > 6 && log[k].Command? && log[6].Header?
            && StartsWith(log[k].text, ["moss ", "directory ", "X ", "maxmatches ", "show ", "language "][k])
  {
    hide SeenFiles, Comment, Sound, Exec, Run, Kept, Program, Prologue, StartsWith;
    StartKept(job);
    RunKept(job, Start(), ms);
    var t := Exec(Program(job), Start(), ms);
    LogByThen(job, t);
    PrologueWord(job, k);
    SeenFilesFirst(job, |job.files|);
    var e :| (e == [] || e == [Command("end")])
             && t.server.log == Prologue(job) + SeenFiles(job, |job.files|) + [Query(job)] + e;
    SomeFiles(job);
    assert t.server.log[k] == Prologue(job)[k] && t.server.log[6] == SeenFiles(job, |job.files|)[0];
  }

  lemma SomeFiles(job: Job)
    requires Sound(job)
    ensures |job.files| >= 2 && |Prologue(job)| == 6
  {
  }

  lemma PrologueWord(job: Job, k: nat)
    requires k < 6
    ensures |Prologue(job)| == 6 && Prologue(job)[k].Command?
    ensures StartsWith(Prologue(job)[k].text, ["moss ", "directory ", "X ", "maxmatches ", "show ", "language "][k])
  {
    hide DirectoryMode, Clamp, Setting, Dec;
    StartsOnce("moss ", job.mossUserId, "");
    StartsOnce("directory ", if DirectoryMode(job) then "1" else "0", "");
    StartsOnce("X ", "0", "");
    assert "X " + "0" == "X 0";
    StartsOnce("maxmatches ", Dec(Clamp(LiveSubmit.Setting(job.threshold, 10), 1, 1000)), "");
    StartsOnce("show ", Dec(Clamp(LiveSubmit.Setting(job.resultCount, 250), 1, 1000)), "");
    StartsOnce("language ", job.language, "");
    hide StartsWith;
  }

  lemma {:induction false} SeenFilesFirst(job: Job, k: nat)
    requires k <= |job.files|
    ensures k > 0 ==> SeenFiles(job, k) != [] && SeenFiles(job, k)[0].Header?
  {
    hide HeaderText;
    if k > 0 { SeenFilesFirst(job, k - 1); }
  }

  lemma TellsSettings(job: Job, log: seq<Item>)
    requires forall w: nat :: w < 7 ==> Arguments(log, Words()[w]) == if w == 6 then [Comment(job)] else [Opening(job)[w].1]
    ensures Arguments(log, "moss ") == [job.mossUserId]
    ensures Arguments(log, "directory ") == [if WantsDirectory(job) then "1" else "0"]
    ensures Arguments(log, "X ") == ["0"]
    ensures CarriesSetting(log, "maxmatches ", job.threshold, 10) && CarriesSetting(log, "show ", job.resultCount, 250)
    ensures Arguments(log, "language ") == [job.language]
  {
    hide Arguments, Comment, DirectoryMode, Clamp, Setting, IsSetting, WantsDirectory;
    SameDirectory(job);
    ClampIsSetting(job.threshold, 10);
    ClampIsSetting(job.resultCount, 250);
    assert Words()[0] == "moss " && Words()[1] == "directory " && Words()[2] == "X ";
    assert Words()[3] == "maxmatches " && Words()[4] == "show " && Words()[5] == "language ";
  }

  lemma TellsComment(job: Job, log: seq<Item>)
    requires forall w: nat :: w < 7 ==> Arguments(log, Words()[w]) == if w == 6 then [Comment(job)] else [Opening(job)[w].1]
    ensures exists c :: Arguments(log, "query 0 ") == [c] && IsComment(AskedComment(job), c)
  {
    hide Arguments, IsComment, SanitizeComment, Opening;
    assert Words()[6] == "query 0 ";
    SanitizedComment(AskedComment(job));
    assert Comment(job) == SanitizeComment(AskedComment(job));
  }

  // ---- The files as the server reads them ----

  /** `s` with its control characters left out and its path separators flattened. */
  function Flattened(s: string): string {
    if s == "" then ""
    else (if s[0] < ' ' || s[0] == 127 as char then "" else if s[0] in "\\/" then "_" else [s[0]]) + Flattened(s[1..])
  }

  /** The first 128 characters of the flattened name, or "file" where nothing is left of it. */
  ghost predicate IsName(asked: string, name: string) {
    if Flattened(asked) == "" then name == "file"
    else name != "" && exists rest :: Flattened(asked) == name + rest && if rest == "" then |name| <= 128 else |name| == 128
  }

  /** The file's own id where it is a positive integer, else its place in the list. */
  predicate IsId(f: File, i: nat, id: nat) {
    if f.submissionId.Finite? && f.submissionId.r >= 1.0 && f.submissionId.r.Floor as real == f.submissionId.r
    then id as real == f.submissionId.r
    else id == i + 1
  }

  /** The header line names the id, the language, the size and the name of the file, in these places. */
  ghost predicate HeaderTells(job: Job, i: nat, header: string)
    requires i < |job.files|
  {
    var f := job.files[i];
    exists id, size, name ::
      && HasParts(header, "file", " ", id, " ", job.language, " ", size, " " + name)
      && IsId(f, i, DecVal(id)) && DecVal(size) == |f.bytes|
      && IsName(if f.displayName != "" then f.displayName else "file" + Dec(i + 1), name)
  }

  lemma {:induction false} FlatWithout(s: string)
    ensures Flat(Without(s, IsControl)) == Flattened(s)
  {
    if s != "" { FlatWithout(s[1..]); }
  }

  lemma SanitizedName(asked: string)
    requires asked != ""
    ensures IsName(asked, SanitizeFilename(asked))
  {
    FlatWithout(asked);
    var s := Flattened(asked);
    hide Flattened, Flat, Without;
    if s != "" {
      assert s == Take(s, 128) + if |s| <= 128 then "" else s[128..];
    }
  }

  lemma OwnId(f: File, i: nat)
    ensures IsId(f, i, SubmissionId(f, i))
  {
  }

  lemma HeaderTextTells(job: Job, i: nat)
    requires Sound(job) && i < |job.files|
    ensures HeaderTells(job, i, HeaderText(job, i))
  {
    var f := job.files[i];
    var asked := if f.displayName != "" then f.displayName else "file" + Dec(i + 1);
    var id, size, name := Dec(SubmissionId(f, i)), Dec(|f.bytes|), SanitizeFilename(asked);
    OwnId(f, i);
    SmallNumber(SubmissionId(f, i));
    DecRoundTrip(SubmissionId(f, i));
    DecRoundTrip(|f.bytes|);
    SanitizedName(asked);
    hide Dec, SanitizeFilename, NumberText, SubmissionId, IsName, Refusal, DecVal, IsId;
    var h := HeaderText(job, i);
    assert h == "file" + (" " + (id + (" " + (job.language + (" " + (size + (" " + name)))))));
    assert LowerAll("file") == "file";
    assert HasParts(h, "file", " ", id, " ", job.language, " ", size, " " + name);
  }

  lemma {:induction false} JobFilesAre(job: Job, k: nat, i: nat)
    requires i < k <= |job.files|
    ensures |JobFiles(job, k)| == k && JobFiles(job, k)[i] == (HeaderText(job, i), job.files[i].bytes)
  {
    hide HeaderText;
    JobFilesLength(job, k - 1);
    if i < k - 1 { JobFilesAre(job, k - 1, i); }
  }

  lemma {:induction false} JobFilesLength(job: Job, k: nat)
    requires k <= |job.files|
    ensures |JobFiles(job, k)| == k
  {
    hide HeaderText;
    if k > 0 { JobFilesLength(job, k - 1); }
  }

  /** Past the second reply the server has as many files as the job, each under its own header, byte for byte. */
  lemma ServerHasFiles(job: Job, ms: seq<Move>, i: nat)
    requires Sound(job) && Run(Program(job), Start(), ms) && i < |job.files|
    requires Exec(Program(job), Start(), ms).pc > UrlAt(job)
    ensures var files := FilesOf(Exec(Program(job), Start(), ms).server.log);
            |files| == |job.files| && files[i].1 == job.files[i].bytes && HeaderTells(job, i, files[i].0)
  {
    hide Exec, Run, Program, FilesOf, JobFiles, HeaderText, HeaderTells, Sound;
    SessionSucceeds(job, ms);
    JobFilesAre(job, |job.files|, i);
    HeaderTextTells(job, i);
  }

  // ---- What the client takes for an answer ----

  /** White space around it aside, and in any case, the answer is the word yes. */
  lemma YesIs(line: string)
    ensures Acceptable(AwaitYes, line) <==>
              exists a, w, b :: line == a + w + b && Spaces(a) && Spaces(b) && |w| == 3
                                && w[0] in "yY" && w[1] in "eE" && w[2] in "sS"
  {
    if Acceptable(AwaitYes, line) {
      var w := Trim(line);
      var a, b := TrimIs(line);
      assert LowerAll(w) == "yes" && |w| == 3;
      assert LowerAll(w)[0] == 'y' && LowerAll(w)[1] == 'e' && LowerAll(w)[2] == 's';
      assert line == a + w + b;
    }
    if a, w, b :| line == a + w + b && Spaces(a) && Spaces(b) && |w| == 3 && w[0] in "yY" && w[1] in "eE" && w[2] in "sS" {
      hide Trim;
      TrimWord(a, w, b);
      assert LowerAll(w) == "yes";
    }
  }

  /** White space around it aside, the answer begins with the origin, in any case, and goes on on the same line. */
  lemma AddressIs(line: string)
    ensures Acceptable(AwaitUrl, line) <==>
              exists a, w, b :: line == a + w + b && Spaces(a) && Spaces(b) && IsAddress(w)
  {
    if Acceptable(AwaitUrl, line) {
      var w := Trim(line);
      var a, b := TrimIs(line);
      forall k | 0 <= k < |Origin()| ensures Lower(w[k]) == Origin()[k] { assert LowerAll(w[..|Origin()|])[k] == Origin()[k]; }
      assert line == a + w + b && IsAddress(w);
    }
    if a, w, b :| line == a + w + b && Spaces(a) && Spaces(b) && IsAddress(w) {
      hide Trim;
      assert w[0] == 'h' || w[0] == 'H' by { assert Lower(w[0]) == Origin()[0]; }
      TrimWord(a, w, b);
      assert LowerAll(w[..|Origin()|]) == Origin();
    }
  }

  predicate IsAddress(w: string) {
    && |w| > |"https://mock.local/"| && w[|"https://mock.local/"|] !in "\r\n" && !IsSpace(w[|w| - 1])
    && forall k :: 0 <= k < |"https://mock.local/"| ==> Lower(w[k]) == "https://mock.local/"[k]
  }

  lemma TrimWord(a: string, w: string, b: string)
    requires Spaces(a) && Spaces(b) && w != "" && !IsSpace(w[0]) && !IsSpace(w[|w| - 1])
    ensures Trim(a + w + b) == w
  {
    LeftOff(a, w + b);
    assert a + (w + b) == a + w + b;
    RightOff(w, b);
  }

  lemma {:induction false} LeftOff(a: string, s: string)
    requires Spaces(a) && s != "" && !IsSpace(s[0])
    ensures TrimLeft(a + s) == s
  {
    if a == "" {
      assert a + s == s;
    } else {
      assert (a + s)[1..] == a[1..] + s;
      LeftOff(a[1..], s);
    }
  }

  lemma {:induction false} RightOff(s: string, b: string)
    requires Spaces(b) && s != "" && !IsSpace(s[|s| - 1])
    ensures TrimRight(s + b) == s
    decreases |b|
  {
    if b == "" {
      assert s + b == s;
    } else {
      assert (s + b)[..|s + b| - 1] == s + b[..|b| - 1];
      RightOff(s, b[..|b| - 1]);
    }
  }
}
