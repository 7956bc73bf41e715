/**
 The command transcript of a job: header lines, then each group's files between brackets. Reading the
 transcript back gives the groups that went in.
 */
module JobCommands {
  import opened Text
  import opened ProtocolNames

  /** A number given in the settings: absent, an integer, or anything else. */
  datatype Setting = Unset | Int(value: int) | Other

  datatype BaseFile = BaseFile(id: string, display: string, bytes: nat)

  datatype Job = Job(
    userId: string,
    language: string,
    experimental: bool,
    threshold: Setting,
    resultCount: Setting,
    title: string,
    baseFiles: seq<BaseFile>,
    groups: seq<Group>)

  datatype Failure = LanguageRejection | ExperimentalDisabled | InsufficientGroups | EmptyGroup | Unnamed(why: NameError) | ControlsInLine

  datatype Mapped = Commands(lines: seq<string>, manifest: Build) | Failed(why: Failure)

  function Lang(language: string): Option<string> {
    if language == "python" then Some("python")
    else if language == "java" then Some("java")
    else if language == "cpp" then Some("cc")
    else if language == "c" then Some("c")
    else if language == "javascript" then Some("javascript")
    else None
  }

  /** The integer nearest to the one given within the bounds. */
  function ClampInt(s: Setting, default_: int): (r: int)
    requires 1 <= default_ <= 1000
    ensures 1 <= r <= 1000
    ensures s.Int? && 1 <= s.value <= 1000 ==> r == s.value
    ensures s.Int? && s.value < 1 ==> r == 1
    ensures s.Int? && s.value > 1000 ==> r == 1000
    ensures s.Unset? ==> r == default_
    ensures s.Other? ==> r == 1
  {
    match s
    case Unset => default_
    case Other => 1
    case Int(v) => if v < 1 then 1 else if v > 1000 then 1000 else v
  }

  predicate IsForbidden(c: char) { c in ";`|$<>" || c < ' ' }

  function SanitizeTitle(title: string): string { OrElse(Take(Trim(Without(title, IsForbidden)), 80), "untitled") }

  // ---- The lines ----

  function BeginGroup(): string { "begin group " }

  function EndGroup(): string { "end group " }

  function FileWord(): string { "file " }

  function FileLine(name: string, bytes: nat): string { FileWord() + name + " " + Dec(bytes) }

  /** The entry a name is looked up under: the first that carries it. */
  function FindEntry(files: seq<Entry>, name: string): (i: nat)
    ensures i <= |files|
    ensures i < |files| ==> files[i].name == name
    ensures forall k :: 0 <= k < i ==> files[k].name != name
  {
    if files == [] || files[0].name == name then 0 else 1 + FindEntry(files[1..], name)
  }

  function BytesOf(files: seq<Entry>, name: string): nat {
    var i := FindEntry(files, name);
    if i < |files| then files[i].bytes else 0
  }

  function FileLines(files: seq<Entry>, names: seq<string>): (r: seq<string>)
    ensures |r| == |names| && forall k :: 0 <= k < |names| ==> r[k] == FileLine(names[k], BytesOf(files, names[k]))
  {
    seq(|names|, k requires 0 <= k < |names| => FileLine(names[k], BytesOf(files, names[k])))
  }

  function GroupLines(files: seq<Entry>, g: Listing): seq<string> {
    [BeginGroup() + g.id] + FileLines(files, g.names) + [EndGroup() + g.id]
  }

  function AllGroupLines(files: seq<Entry>, groups: seq<Listing>): seq<string> {
    if groups == [] then []
    else AllGroupLines(files, groups[..|groups| - 1]) + GroupLines(files, groups[|groups| - 1])
  }

  function FindShown(shown: seq<Shown>, id: string): (i: nat)
    ensures i <= |shown|
    ensures i < |shown| ==> shown[i].id == id
    ensures forall k :: 0 <= k < i ==> shown[k].id != id
  {
    if shown == [] || shown[0].id == id then 0 else 1 + FindShown(shown[1..], id)
  }

  function BaseFileName(shown: seq<Shown>, b: BaseFile): string {
    var i := FindShown(shown, b.id);
    if i < |shown| then shown[i].name else "base/" + b.display
  }

  function BaseLines(shown: seq<Shown>, bases: seq<BaseFile>): (r: seq<string>)
    ensures |r| == |bases|
    ensures forall k :: 0 <= k < |r| ==> |r[k]| > 0 && r[k][0] == 'a'
  {
    seq(|bases|, k requires 0 <= k < |bases| => "addbase file " + BaseFileName(shown, bases[k]) + " " + Dec(bases[k].bytes))
  }

  function Header(job: Job, language: string): seq<string> {
    ["userid " + job.userId,
     "language " + language,
     "maxmatches " + Dec(ClampInt(job.threshold, 10)),
     "show " + Dec(ClampInt(job.resultCount, 250)),
     "title " + SanitizeTitle(OrElse(job.title, "untitled")),
     "directory " + if exists k :: 0 <= k < |job.groups| && |job.groups[k].files| > 1 then "1" else "0"]
  }

  function Footer(): seq<string> { ["query", "end"] }

  function Lines(job: Job, language: string, b: Build): seq<string> {
    Header(job, language) + BaseLines(b.shown, job.baseFiles) + AllGroupLines(b.files, b.groups) + Footer()
  }

  predicate HasControl(s: string) { exists k :: 0 <= k < |s| && IsControl(s[k]) }

  function MapJob(job: Job, hash: string -> string, leaks: Build -> bool): Mapped {
    if Lang(job.language).None? then Failed(LanguageRejection)
    else if job.experimental then Failed(ExperimentalDisabled)
    else if |job.groups| < 2 then Failed(InsufficientGroups)
    else if exists k :: 0 <= k < |job.groups| && job.groups[k].files == [] then Failed(EmptyGroup)
    else match Manifest(job.groups, hash, leaks)
      case Error(e) => Failed(Unnamed(e))
      case Ok(b) =>
        var lines := Lines(job, Lang(job.language).value, b);
        if exists k :: 0 <= k < |lines| && HasControl(lines[k]) then Failed(ControlsInLine) else Commands(lines, b)
  }

  /** The transcript's text: its lines joined by line feeds. */
  function Transcript(lines: seq<string>): string { Join(lines, '\n') }

  // ---- Reading a transcript back ----

  datatype ReadFile = ReadFile(name: string, bytes: nat)

  datatype ReadGroup = ReadGroup(id: string, files: seq<ReadFile>)

  datatype Reader = Reader(done: seq<ReadGroup>, current: Option<ReadGroup>, ok: bool)

  predicate IsNumeral(s: string) { s != "" && forall k :: 0 <= k < |s| ==> IsDigit(s[k]) }

  /** A file line is cut at its last space. */
  function ParseFile(line: string): Option<ReadFile> {
    if !StartsWith(line, FileWord()) then None
    else
      var rest := line[|FileWord()|..];
      var i := LastIndexOf(rest, ' ');
      if i == |rest| || !IsNumeral(rest[i + 1..]) then None else Some(ReadFile(rest[..i], DecVal(rest[i + 1..])))
  }

  function ReadLine(r: Reader, line: string): Reader {
    if !r.ok then r
    else match r.current
      case None => if StartsWith(line, BeginGroup()) then r.(current := Some(ReadGroup(line[|BeginGroup()|..], []))) else r
      case Some(g) =>
        if line == EndGroup() + g.id then r.(done := r.done + [g], current := None)
        else match ParseFile(line)
          case Some(f) => r.(current := Some(g.(files := g.files + [f])))
          case None => r.(ok := false)
  }

  function ReadLines(r: Reader, lines: seq<string>): Reader
    decreases |lines|
  {
    if lines == [] then r else ReadLines(ReadLine(r, lines[0]), lines[1..])
  }

  function ReadBack(text: string): Reader { ReadLines(Reader([], None, true), Split(text, '\n')) }

  // ---- Lines and text ----

  predicate NoLineFeed(lines: seq<string>) { forall k :: 0 <= k < |lines| ==> '\n' !in lines[k] }

  lemma LastIndexIs(a: string, c: char, b: string)
    requires c !in b
    ensures LastIndexOf(a + [c] + b, c) == |a|
  {
    hide LastIndexOf;
    var s := a + [c] + b;
    var i := LastIndexOf(s, c);
    assert s[|a|] == c;
  }

  /** A file line gives back the name and the byte count, whatever the name. */
  lemma FileLineParses(name: string, bytes: nat)
    ensures ParseFile(FileLine(name, bytes)) == Some(ReadFile(name, bytes))
    ensures forall id :: FileLine(name, bytes) != EndGroup() + id
  {
    var line, rest := FileLine(name, bytes), name + [' '] + Dec(bytes);
    hide FileWord, EndGroup;
    assert line == FileWord() + rest;
    assert line[..|FileWord()|] == FileWord() && line[|FileWord()|..] == rest;
    assert ' ' !in Dec(bytes);
    LastIndexIs(name, ' ', Dec(bytes));
    assert rest[..|name|] == name && rest[|name| + 1..] == Dec(bytes);
    DecRoundTrip(bytes);
    WordsDiffer();
    forall id ensures line != EndGroup() + id {
      assert line[0] == FileWord()[0] && (EndGroup() + id)[0] == EndGroup()[0];
    }
  }

  lemma WordsDiffer()
    ensures FileWord() != "" && EndGroup() != "" && BeginGroup() != "" && FileWord()[0] != EndGroup()[0]
    ensures BeginGroup()[0] == 'b'
  {
  }

  // ---- Reading the pieces ----

  lemma {:induction false} ReadAppend(r: Reader, a: seq<string>, b: seq<string>)
    ensures ReadLines(r, a + b) == ReadLines(ReadLines(r, a), b)
    decreases |a|
  {
    if a == [] {
      assert a + b == b;
    } else {
      assert (a + b)[1..] == a[1..] + b;
      hide ReadLine;
      ReadAppend(ReadLine(r, a[0]), a[1..], b);
    }
  }

  lemma FirstDiffers(s: string, p: string)
    requires p != "" && (s == "" || s[0] != p[0])
    ensures !StartsWith(s, p)
  {
    assert |p| <= |s| ==> s[..|p|][0] == s[0];
  }

  /** Between groups, lines that do not begin with the letter of the opening bracket are passed over. */
  lemma {:induction false} ReadOutside(r: Reader, lines: seq<string>)
    requires r.ok && r.current.None? && forall k :: 0 <= k < |lines| ==> lines[k] == "" || lines[k][0] != 'b'
    ensures ReadLines(r, lines) == r
    decreases |lines|
  {
    hide BeginGroup, EndGroup, ParseFile;
    if lines != [] {
      WordsDiffer();
      FirstDiffers(lines[0], BeginGroup());
      ReadOutside(r, lines[1..]);
    }
  }

  function Listed(files: seq<Entry>, names: seq<string>): (r: seq<ReadFile>)
    ensures |r| == |names| && forall k :: 0 <= k < |names| ==> r[k] == ReadFile(names[k], BytesOf(files, names[k]))
  {
    seq(|names|, k requires 0 <= k < |names| => ReadFile(names[k], BytesOf(files, names[k])))
  }

  lemma {:induction false} ReadFiles(r: Reader, g: ReadGroup, files: seq<Entry>, names: seq<string>)
    requires r.ok && r.current == Some(g)
    ensures ReadLines(r, FileLines(files, names)) == r.(current := Some(g.(files := g.files + Listed(files, names))))
    decreases |names|
  {
    hide FileLine, ParseFile, EndGroup, BeginGroup, BytesOf, FileLines, Listed;
    var lines := FileLines(files, names);
    if names == [] {
      assert g.files + Listed(files, names) == g.files;
    } else {
      FileLineParses(names[0], BytesOf(files, names[0]));
      var f := ReadFile(names[0], BytesOf(files, names[0]));
      var g1 := g.(files := g.files + [f]);
      assert ReadLine(r, lines[0]) == r.(current := Some(g1));
      assert lines[1..] == FileLines(files, names[1..]);
      ReadFiles(r.(current := Some(g1)), g1, files, names[1..]);
      assert [f] + Listed(files, names[1..]) == Listed(files, names);
      assert g.files + [f] + Listed(files, names[1..]) == g.files + Listed(files, names);
    }
  }

  function ReadOf(files: seq<Entry>, g: Listing): ReadGroup { ReadGroup(g.id, Listed(files, g.names)) }

  lemma ReadOneGroup(r: Reader, files: seq<Entry>, g: Listing)
    requires r.ok && r.current.None?
    ensures ReadLines(r, GroupLines(files, g)) == r.(done := r.done + [ReadOf(files, g)])
  {
    hide EndGroup, BeginGroup, ParseFile, FileLines, Listed;
    var open := r.(current := Some(ReadGroup(g.id, [])));
    var first, last := BeginGroup() + g.id, EndGroup() + g.id;
    assert first[..|BeginGroup()|] == BeginGroup() && first[|BeginGroup()|..] == g.id;
    assert ReadLine(r, first) == open;
    OneLine(r, first);
    ReadAppend(r, [first], FileLines(files, g.names));
    ReadFiles(open, ReadGroup(g.id, []), files, g.names);
    assert [] + Listed(files, g.names) == Listed(files, g.names);
    ReadAppend(r, [first] + FileLines(files, g.names), [last]);
    OneLine(open.(current := Some(ReadOf(files, g))), last);
  }

  lemma OneLine(r: Reader, line: string)
    ensures ReadLines(r, [line]) == ReadLine(r, line)
  {
    hide ReadLine;
    assert [line][1..] == [];
    assert ReadLines(ReadLine(r, line), []) == ReadLine(r, line);
  }

  function AllRead(files: seq<Entry>, groups: seq<Listing>): (r: seq<ReadGroup>)
    ensures |r| == |groups| && forall k :: 0 <= k < |groups| ==> r[k] == ReadOf(files, groups[k])
  {
    seq(|groups|, k requires 0 <= k < |groups| => ReadOf(files, groups[k]))
  }

  lemma {:induction false} ReadGroups(r: Reader, files: seq<Entry>, groups: seq<Listing>)
    requires r.ok && r.current.None?
    ensures ReadLines(r, AllGroupLines(files, groups)) == r.(done := r.done + AllRead(files, groups))
    decreases |groups|
  {
    hide GroupLines, ReadOf;
    if groups == [] {
      assert r.done + AllRead(files, groups) == r.done;
    } else {
      var front, g := groups[..|groups| - 1], groups[|groups| - 1];
      ReadGroups(r, files, front);
      ReadAppend(r, AllGroupLines(files, front), GroupLines(files, g));
      var mid := r.(done := r.done + AllRead(files, front));
      ReadOneGroup(mid, files, g);
      assert AllRead(files, groups) == AllRead(files, front) + [ReadOf(files, g)];
      assert mid.done + [ReadOf(files, g)] == r.done + AllRead(files, groups);
    }
  }

  lemma HeaderOutside(job: Job, language: string)
    ensures forall k :: 0 <= k < |Header(job, language)| ==> Header(job, language)[k] != "" && Header(job, language)[k][0] != 'b'
    ensures forall k :: 0 <= k < |Footer()| ==> Footer()[k] != "" && Footer()[k][0] != 'b'
  {
    hide ClampInt, SanitizeTitle, Dec;
  }

  lemma ReadTranscript(job: Job, language: string, b: Build)
    ensures ReadLines(Reader([], None, true), Lines(job, language, b)) == Reader(AllRead(b.files, b.groups), None, true)
  {
    hide Header, Footer, AllGroupLines, AllRead, BaseLines, ReadLine;
    var r := Reader([], None, true);
    var head, bases, body := Header(job, language), BaseLines(b.shown, job.baseFiles), AllGroupLines(b.files, b.groups);
    HeaderOutside(job, language);
    ReadOutside(r, head);
    ReadOutside(r, bases);
    ReadAppend(r, head, bases);
    ReadGroups(r, b.files, b.groups);
    assert [] + AllRead(b.files, b.groups) == AllRead(b.files, b.groups);
    ReadAppend(r, head + bases, body);
    ReadOutside(Reader(AllRead(b.files, b.groups), None, true), Footer());
    ReadAppend(r, head + bases + body, Footer());
  }

  /** Under distinct names, a name is looked up to its own entry. */
  lemma OwnBytes(files: seq<Entry>, i: nat)
    requires i < |files|
    requires forall a, b :: 0 <= a < b < |files| ==> LowerAll(files[a].name) != LowerAll(files[b].name)
    ensures BytesOf(files, files[i].name) == files[i].bytes
  {
    var k := FindEntry(files, files[i].name);
    assert k <= i;
  }

  lemma ControlFree(lines: seq<string>)
    requires !exists k :: 0 <= k < |lines| && HasControl(lines[k])
    ensures NoLineFeed(lines)
  {
    forall k | 0 <= k < |lines| ensures '\n' !in lines[k] {
      assert !HasControl(lines[k]);
      assert forall i :: 0 <= i < |lines[k]| ==> !IsControl(lines[k][i]);
    }
  }

  /**
   Reading a transcript's text back gives the job's groups: the same identifiers in the same order, each
   with its own files in order under the manifest's names, and each file with its own byte count.
   */
  lemma TranscriptReadsBack(job: Job, hash: string -> string, leaks: Build -> bool)
    requires IsDigest(hash) && MapJob(job, hash, leaks).Commands?
    ensures var (c, r) := (MapJob(job, hash, leaks), ReadBack(Transcript(MapJob(job, hash, leaks).lines)));
            && r.ok && r.current.None? && |r.done| == |job.groups| == |c.manifest.groups|
            && forall k :: 0 <= k < |job.groups| ==>
                 && r.done[k].id == GroupId(job.groups[k], k)
                 && |r.done[k].files| == |job.groups[k].files| == |c.manifest.groups[k].names|
                 && forall j :: 0 <= j < |job.groups[k].files| ==>
                      r.done[k].files[j] == ReadFile(c.manifest.groups[k].names[j], job.groups[k].files[j].bytes)
  {
    hide Lines, Lang, Manifest, IsDigest, ReadLines, Join, Split, BytesOf, OnWire, ListsOne, NoLineFeed, GroupId, HasControl;
    var c, language := MapJob(job, hash, leaks), Lang(job.language).value;
    var b := c.manifest;
    ManifestLists(job.groups, hash, leaks);
    ControlFree(c.lines);
    LinesSome(job, language, b);
    SplitJoin(c.lines, '\n');
    ReadTranscript(job, language, b);
    assert ReadBack(Transcript(c.lines)) == Reader(AllRead(b.files, b.groups), None, true);
    forall k | 0 <= k < |job.groups|
      ensures ReadOf(b.files, b.groups[k]).id == GroupId(job.groups[k], k) && |b.groups[k].names| == |job.groups[k].files|
      ensures forall j :: 0 <= j < |job.groups[k].files| ==>
                Listed(b.files, b.groups[k].names)[j] == ReadFile(b.groups[k].names[j], job.groups[k].files[j].bytes)
    {
      ListedBytes(b, job.groups, k);
    }
  }

  lemma LinesSome(job: Job, language: string, b: Build)
    ensures Lines(job, language, b) != []
  {
    hide Header, BaseLines, AllGroupLines;
  }

  lemma ListedBytes(b: Build, groups: seq<Group>, k: nat)
    requires Lists(b, groups) && k < |groups|
    requires forall i, j :: 0 <= i < j < |b.files| ==> LowerAll(b.files[i].name) != LowerAll(b.files[j].name)
    ensures b.groups[k].id == GroupId(groups[k], k) && |b.groups[k].names| == |groups[k].files|
    ensures forall j :: 0 <= j < |groups[k].files| ==> BytesOf(b.files, b.groups[k].names[j]) == groups[k].files[j].bytes
  {
    hide BytesOf, OnWire, GroupId;
    assert ListsOne(b, groups, k);
    var n, g := Total(groups[..k]), b.groups[k];
    forall j | 0 <= j < |groups[k].files| ensures BytesOf(b.files, g.names[j]) == groups[k].files[j].bytes {
      assert EntryFor(b.files[n + j], groups[k].files[j], g.id, Root(k));
      OwnBytes(b.files, n + j);
    }
  }

  // ---- What the transcript says of the job ----

  function Words(): seq<(string, string)> {
    [("python", "python"), ("java", "java"), ("cpp", "cc"), ("c", "c"), ("javascript", "javascript")]
  }

  /** A line made of a word and a numeral for the setting: the integer nearest within 1..1000, or the default. */
  ghost predicate TellsSetting(line: string, word: string, s: Setting, default_: int) {
    exists v ::
      && 1 <= v <= 1000 && line == word + Dec(v)
      && match s
         case Unset => v == default_
         case Other => v == 1
         case Int(asked) => if asked < 1 then v == 1 else if asked > 1000 then v == 1000 else v == asked
  }

  /** `s` without the characters a title must not hold, and nothing else missing. */
  function Plain(s: string): string {
    if s == "" then "" else (if s[0] < ' ' || s[0] in ";`|$<>" then "" else [s[0]]) + Plain(s[1..])
  }

  ghost predicate IsTitle(asked: string, title: string) {
    var s := Plain(if asked == "" then "untitled" else asked);
    if Spaces(s) then title == "untitled" else IsTrimmedTo(s, 80, title)
  }

  /** A base file goes under the name of the first file shown with its id, or under its own in the base folder. */
  ghost predicate TellsBase(line: string, b: BaseFile, shown: seq<Shown>) {
    exists name ::
      && line == "addbase file " + name + " " + Dec(b.bytes)
      && if exists i :: 0 <= i < |shown| && shown[i].id == b.id
         then exists i :: 0 <= i < |shown| && shown[i].id == b.id && name == shown[i].name && forall k :: 0 <= k < i ==> shown[k].id != b.id
         else name == "base/" + b.display
  }

  lemma {:induction false} PlainIs(s: string)
    ensures Without(s, IsForbidden) == Plain(s)
  {
    if s != "" { PlainIs(s[1..]); }
  }

  lemma TitleIs(asked: string)
    ensures IsTitle(asked, SanitizeTitle(OrElse(asked, "untitled")))
  {
    hide Trim, Plain;
    var s := OrElse(asked, "untitled");
    PlainIs(s);
    TrimmedTo(Plain(s), 80);
    var c := Take(Trim(Plain(s)), 80);
    if !Spaces(Plain(s)) {
      var a, d, b :| CutsTrimmed(Plain(s), 80, a, c, d, b);
      assert c + d != "" && c != "";
    }
  }

  /** `told` are the opening lines of the job, its base files among them. */
  ghost predicate TellsJob(told: seq<string>, job: Job, shown: seq<Shown>) {
    && |told| == 6 + |job.baseFiles|
    && told[0] == "userid " + job.userId
    && (exists k :: 0 <= k < |Words()| && Words()[k].0 == job.language && told[1] == "language " + Words()[k].1)
    && TellsSetting(told[2], "maxmatches ", job.threshold, 10)
    && TellsSetting(told[3], "show ", job.resultCount, 250)
    && (exists title :: told[4] == "title " + title && IsTitle(job.title, title))
    && told[5] == (if exists k :: 0 <= k < |job.groups| && |job.groups[k].files| >= 2 then "directory 1" else "directory 0")
    && forall k :: 0 <= k < |job.baseFiles| ==> TellsBase(told[6 + k], job.baseFiles[k], shown)
  }

  /**
   Every transcript opens with the job's own user, language word, threshold, result count, title and directory mode,
   then its base files, then the groups, and closes with the query and the goodbye.
   */
  lemma TranscriptTells(job: Job, hash: string -> string, leaks: Build -> bool)
    requires MapJob(job, hash, leaks).Commands?
    ensures var c := MapJob(job, hash, leaks);
            exists told, body ::
              c.lines == told + body + ["query", "end"] && TellsJob(told, job, c.manifest.shown)
              && body == AllGroupLines(c.manifest.files, c.manifest.groups)
  {
    hide Manifest, HasControl, AllGroupLines, Header, BaseLines, TellsJob, Lang;
    var c, language := MapJob(job, hash, leaks), Lang(job.language).value;
    var told := Header(job, language) + BaseLines(c.manifest.shown, job.baseFiles);
    assert c.lines == told + AllGroupLines(c.manifest.files, c.manifest.groups) + ["query", "end"];
    OpeningTells(job, language, c.manifest.shown);
  }

  lemma OpeningTells(job: Job, language: string, shown: seq<Shown>)
    requires Lang(job.language) == Some(language)
    ensures TellsJob(Header(job, language) + BaseLines(shown, job.baseFiles), job, shown)
  {
    hide Header, BaseLines, Words, TellsSetting, IsTitle, TellsBase;
    HeaderTells(job, language);
    BasesTell(shown, job.baseFiles);
    var told := Header(job, language) + BaseLines(shown, job.baseFiles);
    assert forall k :: 0 <= k < |job.baseFiles| ==> told[6 + k] == BaseLines(shown, job.baseFiles)[k];
  }

  lemma HeaderTells(job: Job, language: string)
    requires Lang(job.language) == Some(language)
    ensures var head := Header(job, language);
            && |head| == 6 && head[0] == "userid " + job.userId
            && (exists k :: 0 <= k < |Words()| && Words()[k].0 == job.language && head[1] == "language " + Words()[k].1)
            && TellsSetting(head[2], "maxmatches ", job.threshold, 10)
            && TellsSetting(head[3], "show ", job.resultCount, 250)
            && (exists title :: head[4] == "title " + title && IsTitle(job.title, title))
            && head[5] == (if exists k :: 0 <= k < |job.groups| && |job.groups[k].files| >= 2 then "directory 1" else "directory 0")
  {
    hide SanitizeTitle, Dec, IsTitle;
    TitleIs(job.title);
    var head := Header(job, language);
    assert head[4] == "title " + SanitizeTitle(OrElse(job.title, "untitled"));
    assert head[2] == "maxmatches " + Dec(ClampInt(job.threshold, 10)) && head[3] == "show " + Dec(ClampInt(job.resultCount, 250));
    var k := if job.language == "python" then 0 else if job.language == "java" then 1 else if job.language == "cpp" then 2
             else if job.language == "c" then 3 else 4;
    assert Words()[k] == (job.language, language);
    assert "directory " + "1" == "directory 1" && "directory " + "0" == "directory 0";
  }

  lemma BasesTell(shown: seq<Shown>, bases: seq<BaseFile>)
    ensures forall k :: 0 <= k < |bases| ==> TellsBase(BaseLines(shown, bases)[k], bases[k], shown)
  {
    hide Dec;
    forall k | 0 <= k < |bases| ensures TellsBase(BaseLines(shown, bases)[k], bases[k], shown) {
      var i := FindShown(shown, bases[k].id);
      assert BaseLines(shown, bases)[k] == "addbase file " + BaseFileName(shown, bases[k]) + " " + Dec(bases[k].bytes);
    }
  }

  /** Which jobs are turned into commands, and why the others are not. */
  lemma MapJobIff(job: Job, hash: string -> string, leaks: Build -> bool)
    ensures var r := MapJob(job, hash, leaks);
            var known := exists k :: 0 <= k < |Words()| && Words()[k].0 == job.language;
            var grouped := |job.groups| >= 2 && forall k :: 0 <= k < |job.groups| ==> |job.groups[k].files| >= 1;
            && (r == Failed(LanguageRejection) <==> !known)
            && (r == Failed(ExperimentalDisabled) <==> known && job.experimental)
            && (r == Failed(InsufficientGroups) <==> known && !job.experimental && |job.groups| < 2)
            && (r == Failed(EmptyGroup) <==> known && !job.experimental && |job.groups| >= 2 && !grouped)
            && (r.Failed? && r.why.Unnamed? <==> known && !job.experimental && grouped && Manifest(job.groups, hash, leaks).Error?)
            && (r.Commands? ==> Manifest(job.groups, hash, leaks) == Ok(r.manifest)
                                && forall k, i :: 0 <= k < |r.lines| && 0 <= i < |r.lines[k]| ==> r.lines[k][i] >= ' ' && r.lines[k][i] != 127 as char)
            && (r == Failed(ControlsInLine) ==>
                  known && grouped && Manifest(job.groups, hash, leaks).Ok?
                  && exists k :: 0 <= k < |Lines(job, Lang(job.language).value, Manifest(job.groups, hash, leaks).value)|
                                 && HasControl(Lines(job, Lang(job.language).value, Manifest(job.groups, hash, leaks).value)[k]))
  {
    hide Manifest, Lines;
    LangKnown(job.language);
    hide Lang, Words;
    var r := MapJob(job, hash, leaks);
    if r.Commands? {
      forall k, i | 0 <= k < |r.lines| && 0 <= i < |r.lines[k]| ensures r.lines[k][i] >= ' ' && r.lines[k][i] != 127 as char {
        assert !HasControl(r.lines[k]);
        assert !IsControl(r.lines[k][i]);
      }
    }
  }

  lemma LangKnown(language: string)
    ensures Lang(language).Some? <==> exists k :: 0 <= k < |Words()| && Words()[k].0 == language
  {
    assert Words()[0].0 == "python" && Words()[1].0 == "java" && Words()[2].0 == "cpp" && Words()[3].0 == "c" && Words()[4].0 == "javascript";
  }

  // ---- The loops ----

  method MapJobToCommands(job: Job, hash: string -> string, leaks: Build -> bool) returns (r: Mapped)
    ensures r == MapJob(job, hash, leaks)
  {
    hide Lang, Header, BaseLines, AllGroupLines, Footer, HasControl, Manifest;
    var language := Lang(job.language);
    if language.None? {
      return Failed(LanguageRejection);
    }
    if job.experimental {
      return Failed(ExperimentalDisabled);
    }
    if |job.groups| < 2 {
      return Failed(InsufficientGroups);
    }
    for g := 0 to |job.groups|
      invariant forall k :: 0 <= k < g ==> job.groups[k].files != []
    {
      if job.groups[g].files == [] {
        return Failed(EmptyGroup);
      }
    }
    var built := BuildProtocolManifest(job.groups, hash, leaks);
    if built.Error? {
      return Failed(Unnamed(built.why));
    }
    var b := built.value;
    var commands := Header(job, language.value) + BaseLines(b.shown, job.baseFiles);
    var body := GroupCommands(b);
    commands := commands + body + Footer();
    for i := 0 to |commands|
      invariant forall k :: 0 <= k < i ==> !HasControl(commands[k])
    {
      if HasControl(commands[i]) {
        return Failed(ControlsInLine);
      }
    }
    return Commands(commands, b);
  }

  method GroupCommands(b: Build) returns (commands: seq<string>)
    ensures commands == AllGroupLines(b.files, b.groups)
  {
    commands := [];
    for g := 0 to |b.groups|
      invariant commands == AllGroupLines(b.files, b.groups[..g])
    {
      var group := b.groups[g];
      var lines: seq<string> := [];
      for f := 0 to |group.names|
        invariant lines == FileLines(b.files, group.names)[..f]
      {
        var name := group.names[f];
        var i := FindEntry(b.files, name);
        lines := lines + [FileLine(name, if i < |b.files| then b.files[i].bytes else 0)];
      }
      assert b.groups[..g + 1][..g] == b.groups[..g];
      commands := commands + ([BeginGroup() + group.id] + lines + [EndGroup() + group.id]);
    }
    assert b.groups[..|b.groups|] == b.groups;
  }
}
