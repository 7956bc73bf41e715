/**
 Client, two byte channels, server and line parser as one system whose parts take steps in any
 order. Channels carry any non-empty prefix at a time; no deadline, abort or close happens.
 */
module WireSession {
  import opened Text
  import opened LineParsing
  import opened MockServing
  import opened LiveSubmit

  function Wire(i: Item): string {
    match i
    case Command(text) => text + [LF]
    case Header(text, _) => text + [LF]
    case Body(bytes) => bytes
  }

  function WireAll(items: seq<Item>): string {
    if items == [] then "" else Wire(items[0]) + WireAll(items[1..])
  }

  /** `pc` is the client's next action; `got` are the lines its completed reads returned. */
  datatype System = System(
    pc: nat,
    reading: bool,
    got: seq<string>,
    rejected: bool,
    up: string,
    server: Server,
    down: string,
    parser: Parser)

  datatype Move = Write | BeginRead | EndRead | CarryUp(n: nat) | Serve | CarryDown(n: nat)

  function Start(): System {
    System(0, false, [], false, "", Server("", 0, [], ""), "", Init(8192, 65536))
  }

  predicate Acceptable(a: Action, line: string)
    requires !a.Send?
  {
    var t := Trim(line);
    if a.AwaitYes? then LowerAll(t) == "yes"
    else |t| > |Origin()| && LowerAll(t[..|Origin()|]) == Origin() && t[|Origin()|] !in "\r\n"
  }

  predicate Possible(acts: seq<Action>, s: System, m: Move) {
    match m
    case Write => !s.rejected && s.pc < |acts| && acts[s.pc].Send?
    case BeginRead => !s.rejected && s.pc < |acts| && !acts[s.pc].Send? && !s.reading && |s.got| !in s.parser.started
    case EndRead => s.reading && s.pc < |acts| && !acts[s.pc].Send? && |s.got| in s.parser.settled
    case CarryUp(n) => 0 < n <= |s.up|
    case Serve => ServeOne(s.server).Some?
    case CarryDown(n) => 0 < n <= |s.down|
  }

  function Written(before: string, after: string): string { if |before| <= |after| then after[|before|..] else "" }

  function Next(acts: seq<Action>, s: System, m: Move): System
    requires Possible(acts, s, m)
  {
    match m
    case Write => s.(pc := s.pc + 1, up := s.up + Wire(acts[s.pc].item))
    case BeginRead => s.(reading := true, parser := ReadLine(s.parser, |s.got|, NoSignal))
    case EndRead =>
      var o := s.parser.settled[|s.got|];
      if o.Line? && Acceptable(acts[s.pc], o.text)
      then s.(pc := s.pc + 1, reading := false, got := s.got + [o.text])
      else s.(rejected := true, reading := false)
    case CarryUp(n) => s.(up := s.up[n..], server := s.server.(buf := s.server.buf + s.up[..n]))
    case Serve =>
      var t := ServeOne(s.server).value;
      s.(server := t, down := s.down + Written(s.server.replies, t.replies))
    case CarryDown(n) => s.(down := s.down[n..], parser := PushChunk(s.parser, s.down[..n]))
  }

  ghost predicate Run(acts: seq<Action>, s: System, ms: seq<Move>)
    decreases |ms|
  {
    ms == [] || (Possible(acts, s, ms[0]) && Run(acts, Next(acts, s, ms[0]), ms[1..]))
  }

  function Exec(acts: seq<Action>, s: System, ms: seq<Move>): System
    requires Run(acts, s, ms)
    decreases |ms|
  {
    if ms == [] then s else Exec(acts, Next(acts, s, ms[0]), ms[1..])
  }

  // ---- What the client has sent, as the server will see it ----

  ghost predicate Sound(job: Job) {
    Refusal(job).None? && Token(job.language) && Framable(job)
  }

  function SentBy(acts: seq<Action>, pc: nat): seq<Item>
    requires pc <= |acts|
  {
    if pc == 0 then []
    else
      SentBy(acts, pc - 1) +
      if acts[pc - 1].Send? && Wire(acts[pc - 1].item) != "" then [acts[pc - 1].item] else []
  }

  lemma {:induction false} SentByPrefix(acts: seq<Action>, i: nat, j: nat)
    requires i <= j <= |acts|
    ensures SentBy(acts, i) <= SentBy(acts, j)
  {
    if i < j { SentByPrefix(acts, i, j - 1); }
  }

  lemma {:induction false} SentByConcat(a: seq<Action>, b: seq<Action>, pc: nat)
    requires pc <= |b|
    ensures SentBy(a + b, |a| + pc) == SentBy(a, |a|) + SentBy(b, pc)
    decreases pc
  {
    if pc == 0 {
      SentBySame(a + b, a, |a|);
    } else {
      SentByConcat(a, b, pc - 1);
      assert (a + b)[|a| + pc - 1] == b[pc - 1];
    }
  }

  lemma {:induction false} SentBySame(a: seq<Action>, b: seq<Action>, pc: nat)
    requires pc <= |b| && b <= a
    ensures SentBy(a, pc) == SentBy(b, pc)
  {
    if pc > 0 { SentBySame(a, b, pc - 1); }
  }

  lemma {:induction false} SentBySends(items: seq<Item>, k: nat)
    requires k <= |items| && forall i <- items :: i.Command?
    ensures SentBy(Sends(items), k) == items[..k]
  {
    if k > 0 {
      SentBySends(items, k - 1);
      assert items[..k] == items[..k - 1] + [items[k - 1]];
    }
  }

  lemma {:induction false} SentByFiles(job: Job, k: nat)
    requires k <= |job.files|
    ensures |FileItems(job, k)| == 2 * k
    ensures SentBy(Sends(FileItems(job, k)), 2 * k) == SeenFiles(job, k)
  {
    hide HeaderText, SentBy;
    if k > 0 {
      SentByFiles(job, k - 1);
      var pair := [Header(HeaderText(job, k - 1), |job.files[k - 1].bytes|), Body(job.files[k - 1].bytes)];
      assert FileItems(job, k) == FileItems(job, k - 1) + pair;
      SendsConcat(FileItems(job, k - 1), pair);
      SentByConcat(Sends(FileItems(job, k - 1)), Sends(pair), 2);
      SentByPair(pair[0].text, job.files[k - 1].bytes);
      assert SeenFiles(job, k) == SeenFiles(job, k - 1) + SeenFile(job, k - 1);
    } else {
      SentByNone(Sends(FileItems(job, 0)));
    }
  }

  lemma SentByNone(acts: seq<Action>)
    ensures SentBy(acts, 0) == []
  {
  }

  lemma SentByPair(text: string, bytes: string)
    ensures SentBy(Sends([Header(text, |bytes|), Body(bytes)]), 2) ==
            [Header(text, |bytes|)] + if bytes == "" then [] else [Body(bytes)]
  {
    var acts := Sends([Header(text, |bytes|), Body(bytes)]);
    assert SentBy(acts, 0) == [];
    assert SentBy(acts, 1) == [Header(text, |bytes|)];
  }

  // ---- The shape of the program ----

  function YesAt(): nat { 6 }

  function UrlAt(job: Job): nat { 8 + 2 * |job.files| }

  function Query(job: Job): Item { Command("query 0 " + Comment(job)) }

  /** Two reads, after the language line and after the query; everything else is a write. */
  lemma ProgramShape(job: Job)
    ensures var p := Program(job);
            && |p| == UrlAt(job) + 2
            && p[YesAt()].AwaitYes? && p[UrlAt(job)].AwaitUrl?
            && forall k :: 0 <= k < |p| && k != YesAt() && k != UrlAt(job) ==> p[k].Send?
  {
    SentByFiles(job, |job.files|);
    PrologueCommands(job);
    hide Prologue, FileItems, Comment;
    Shape(Sends(Prologue(job)), Sends(FileItems(job, |job.files|)), Send(Query(job)), Send(Command("end")));
  }

  lemma Shape(a: seq<Action>, b: seq<Action>, query: Action, end: Action)
    requires query.Send? && end.Send? && forall x :: x in a || x in b ==> x.Send?
    ensures var p := a + [AwaitYes] + b + [query, AwaitUrl, end];
            && p[|a|] == AwaitYes && p[|a| + |b| + 2] == AwaitUrl
            && forall k :: 0 <= k < |p| && k != |a| && k != |a| + |b| + 2 ==> p[k].Send?
  {
  }

  lemma SentOverall(job: Job)
    ensures |Program(job)| == UrlAt(job) + 2
    ensures SentBy(Program(job), YesAt()) == Prologue(job)
    ensures SentBy(Program(job), UrlAt(job)) == Prologue(job) + SeenFiles(job, |job.files|) + [Query(job)]
    ensures SentBy(Program(job), |Program(job)|) == Seen(job)
  {
    hide Prologue, Comment, FileItems, SeenFiles, SentBy, HeaderText;
    var n := |job.files|;
    assert |Prologue(job)| == YesAt() && forall i <- Prologue(job) :: i.Command? by { PrologueCommands(job); }
    SentByFiles(job, n);
    SentBySends(Prologue(job), YesAt());
    var a := Sends(Prologue(job));
    var b := a + [AwaitYes];
    var c := b + Sends(FileItems(job, n));
    var last := [Send(Query(job)), AwaitUrl, Send(Command("end"))];
    assert Prologue(job)[..YesAt()] == Prologue(job);
    SentByConcat(a, [AwaitYes], 1);
    SentByConcat(b, Sends(FileItems(job, n)), 2 * n);
    SentByConcat(c, last, 1);
    SentByConcat(c, last, 3);
    SentByTail(Query(job).text);
    assert Program(job) == c + last;
    SentBySame(c + last, a, YesAt());
  }

  lemma PrologueCommands(job: Job)
    ensures |Prologue(job)| == YesAt() && forall i <- Prologue(job) :: i.Command?
  {
  }

  lemma SentByTail(text: string)
    ensures var last := [Send(Command(text)), AwaitUrl, Send(Command("end"))];
            && SentBy(last, 1) == [Command(text)]
            && SentBy(last, 3) == [Command(text), Command("end")]
    ensures SentBy([AwaitYes], 1) == []
  {
    var last := [Send(Command(text)), AwaitUrl, Send(Command("end"))];
    assert SentBy(last, 0) == [];
    assert SentBy(last, 1) == [Command(text)];
    assert SentBy(last, 2) == [Command(text)];
    assert SentBy([AwaitYes], 0) == [];
  }

  function BothReplies(): string { YES + (Url() + [LF]) }

  lemma Answers(job: Job)
    requires Sound(job)
    ensures Framed(Seen(job), 0)
    ensures Replies(Prologue(job)) == YES
    ensures Replies(Prologue(job) + SeenFiles(job, |job.files|) + [Query(job)]) == BothReplies()
    ensures Replies(Seen(job)) == BothReplies()
  {
    hide Prologue, SeenFiles, Framed, OpenAfter, Replies, Refusal, Framable, Comment;
    var files, end := SeenFiles(job, |job.files|), [Command("end")];
    assert Plain(Comment(job)) by { CommentPlain(job); }
    PrologueFramed(job);
    SeenFilesFramed(job, |job.files|);
    AnsweredQuery(Comment(job));
    SilentCommand("end");
    var a := Prologue(job) + files;
    var b := a + [Query(job)];
    FramedConcat(Prologue(job), files, 0);
    RepliesConcat(Prologue(job), files);
    FramedConcat(a, [Query(job)], 0);
    RepliesConcat(a, [Query(job)]);
    FramedConcat(b, end, 0);
    RepliesConcat(b, end);
    assert Seen(job) == b + end;
  }

  lemma CommentPlain(job: Job)
    ensures Plain(Comment(job))
  {
  }

  // ---- The way up: the server takes exactly what the client sent ----

  ghost predicate UpKept(job: Job, pc: nat, server: Server, up: string) {
    && pc <= |Program(job)|
    && server.log <= SentBy(Program(job), pc)
    && server.buf + up == WireAll(SentBy(Program(job), pc)[|server.log|..])
    && server.bodyLeft == OpenAfter(server.log, 0)
    && server.replies == Replies(server.log)
  }

  lemma {:induction false} WireAllAppend(a: seq<Item>, b: seq<Item>)
    ensures WireAll(a + b) == WireAll(a) + WireAll(b)
  {
    if a == [] {
      assert a + b == b;
    } else {
      assert (a + b)[1..] == a[1..] + b;
      WireAllAppend(a[1..], b);
    }
  }

  lemma WireAllFirst(items: seq<Item>)
    requires items != []
    ensures WireAll(items) == Wire(items[0]) + WireAll(items[1..])
  {
  }

  /** With `rest` still to be taken, one item taken is the first of `rest`. */
  lemma ServesTheFirst(s: Server, up: string, rest: seq<Item>)
    requires Framed(rest, s.bodyLeft) && s.buf + up == WireAll(rest)
    ensures up == "" && rest != [] ==> ServeOne(s).Some?
    ensures ServeOne(s).Some? ==>
              var t := ServeOne(s).value;
              && rest != [] && t.log == s.log + [rest[0]]
              && t.buf + up == WireAll(rest[1..])
              && t.bodyLeft == (if rest[0].Header? then rest[0].size else 0)
              && t.replies == s.replies + if rest[0].Command? then Reply(rest[0].text) else ""
  {
    hide IndexOf, FileMatch, Reply, WireAll;
    if rest != [] {
      WireAllFirst(rest);
      if rest[0].Body? {
        BodyFirst(s.buf, up, rest[0].bytes, WireAll(rest[1..]));
      } else {
        FirstLine(s.buf, up, rest[0].text, WireAll(rest[1..]));
      }
    } else {
      WireAllNone(rest);
    }
  }

  lemma WireAllNone(items: seq<Item>)
    ensures items == [] ==> WireAll(items) == ""
  {
  }

  lemma BodyFirst(buf: string, up: string, bytes: string, tail: string)
    requires buf + up == bytes + tail
    ensures |buf| >= |bytes| ==> buf[..|bytes|] == bytes && buf[|bytes|..] + up == tail
  {
    if |buf| >= |bytes| {
      assert buf[..|bytes|] == (buf + up)[..|bytes|];
      assert buf[|bytes|..] + up == (buf + up)[|bytes|..];
      assert (bytes + tail)[..|bytes|] == bytes && (bytes + tail)[|bytes|..] == tail;
    }
  }

  lemma FirstLine(buf: string, up: string, text: string, tail: string)
    requires Plain(text) && buf + up == text + [LF] + tail
    ensures up == "" ==> IndexOf(buf, LF) < |buf|
    ensures IndexOf(buf, LF) < |buf| ==>
              var i := IndexOf(buf, LF);
              i == |text| && StripCR(buf[..i]) == text && buf[i + 1..] + up == tail
  {
    var s := buf + up;
    assert s == text + [LF] + tail;
    if |text| < |buf| {
      CutAt(s, buf, up, text, tail);
      IndexOfPrefix(text, LF, buf[|text| + 1..]);
    } else {
      assert up != "";
      assert buf == s[..|buf|] == text[..|buf|];
    }
  }

  lemma CutAt(s: string, buf: string, up: string, text: string, tail: string)
    requires s == buf + up && s == text + [LF] + tail && |text| < |buf|
    ensures buf == text + [LF] + buf[|text| + 1..]
    ensures buf[..|text|] == text
    ensures buf[|text| + 1..] + up == tail
  {
    assert buf[..|text|] == s[..|text|] == text;
    assert buf[|text|] == s[|text|] == LF;
    assert tail == s[|text| + 1..];
  }

  lemma OpenAfterLast(items: seq<Item>, i: Item)
    ensures OpenAfter(items + [i], 0) == if i.Header? then i.size else 0
  {
    FramedConcat(items, [i], 0);
    assert [i][1..] == [];
  }

  lemma RepliesLast(items: seq<Item>, i: Item)
    ensures Replies(items + [i]) == Replies(items) + if i.Command? then Reply(i.text) else ""
  {
    assert (items + [i])[..|items|] == items;
  }

  lemma FramedPart(items: seq<Item>, a: seq<Item>, b: seq<Item>)
    requires Framed(items, 0) && a <= b <= items
    ensures Framed(b[|a|..], OpenAfter(a, 0))
  {
    hide Framed, OpenAfter;
    FramedConcat(b, items[|b|..], 0);
    assert items == b + items[|b|..];
    FramedConcat(a, b[|a|..], 0);
    assert b == a + b[|a|..];
  }

  lemma RestFramed(job: Job, pc: nat, server: Server, up: string)
    requires Sound(job) && UpKept(job, pc, server, up)
    ensures Framed(SentBy(Program(job), pc)[|server.log|..], server.bodyLeft)
  {
    hide Framed, OpenAfter, Program, SentBy, Sound, Replies, Prologue, SeenFiles;
    Answers(job);
    SentOverall(job);
    SentByPrefix(Program(job), pc, |Program(job)|);
    FramedPart(Seen(job), server.log, SentBy(Program(job), pc));
  }

  lemma ServeKeepsUp(job: Job, pc: nat, server: Server, up: string)
    requires Sound(job) && UpKept(job, pc, server, up) && ServeOne(server).Some?
    ensures UpKept(job, pc, ServeOne(server).value, up)
    ensures server.replies <= ServeOne(server).value.replies
    ensures |ServeOne(server).value.buf| < |server.buf|
  {
    hide ServeOne, Framed, Reply, SentBy, Program, WireAll, OpenAfter, Replies, Sound;
    var sent, log := SentBy(Program(job), pc), server.log;
    var rest := sent[|log|..];
    RestFramed(job, pc, server, up);
    ServesTheFirst(server, up, rest);
    ServeOneShrinks(server);
    OpenAfterLast(log, rest[0]);
    RepliesLast(log, rest[0]);
    assert sent[|log| + 1..] == rest[1..];
    assert (log + [rest[0]])[..|log|] == log;
  }

  lemma ServeOneShrinks(s: Server)
    requires ServeOne(s).Some?
    ensures |ServeOne(s).value.buf| < |s.buf|
  {
  }

  lemma WriteKeepsUp(job: Job, pc: nat, server: Server, up: string)
    requires UpKept(job, pc, server, up) && pc < |Program(job)| && Program(job)[pc].Send?
    ensures UpKept(job, pc + 1, server, up + Wire(Program(job)[pc].item))
  {
    hide Program, OpenAfter, Replies, WireAll;
    var acts := Program(job);
    var item := acts[pc].item;
    var sent, sent', log := SentBy(acts, pc), SentBy(acts, pc + 1), server.log;
    if Wire(item) == "" {
      assert up + Wire(item) == up;
      assert sent' == sent;
    } else {
      assert sent' == sent + [item];
      assert sent'[|log|..] == sent[|log|..] + [item];
      WireAllAppend(sent[|log|..], [item]);
      WireOne(item);
      assert server.buf + (up + Wire(item)) == server.buf + up + Wire(item);
    }
  }

  lemma WireOne(item: Item)
    ensures WireAll([item]) == Wire(item)
  {
    assert [item][1..] == [];
  }

  lemma ReadKeepsUp(job: Job, pc: nat, server: Server, up: string)
    requires UpKept(job, pc, server, up) && pc < |Program(job)| && !Program(job)[pc].Send?
    ensures UpKept(job, pc + 1, server, up)
  {
    hide Program, WireAll;
    assert SentBy(Program(job), pc + 1) == SentBy(Program(job), pc);
  }

  lemma CarryKeepsUp(job: Job, pc: nat, server: Server, up: string, n: nat)
    requires UpKept(job, pc, server, up) && n <= |up|
    ensures UpKept(job, pc, server.(buf := server.buf + up[..n]), up[n..])
  {
    hide Program, WireAll, SentBy;
    assert server.buf + up[..n] + up[n..] == server.buf + up;
  }

  // ---- The way down: the parser gets exactly what the server replied ----

  ghost predicate DownKept(parser: Parser, down: string, replies: string) {
    parser.appended + down == replies
  }

  lemma RepliesPrefix(a: seq<Item>, b: seq<Item>)
    requires a <= b
    ensures Replies(a) <= Replies(b)
  {
    hide Replies;
    RepliesConcat(a, b[|a|..]);
    assert b == a + b[|a|..];
  }

  /** What has been replied is the beginning of the only reply there is. */
  lemma RepliesSoFar(job: Job, pc: nat, server: Server, up: string)
    requires Sound(job) && UpKept(job, pc, server, up)
    ensures server.replies <= BothReplies()
    ensures server.log <= Seen(job)
  {
    hide Program, Replies, SentBy, Seen, OpenAfter, WireAll, Sound;
    SentOverall(job);
    Answers(job);
    SentByPrefix(Program(job), pc, |Program(job)|);
    RepliesPrefix(server.log, Seen(job));
  }

  // ---- The client's reads ----

  /** The reads 0, 1, ... in order: those completed, and the current one waiting or just settled. */
  ghost predicate ReadsInOrder(p: Parser, reading: bool, got: seq<string>) {
    var r := |got|;
    && Inv(p) && !p.closed && p.errored.None?
    && p.maxLine == 8192 && p.maxBuffer == 65536
    && (forall i <- p.started :: if reading then i <= r else i < r)
    && (p.waiter.Some? ==> LF !in p.buffer)
    && |p.delivered| == r + (if reading && p.waiter.None? then 1 else 0)
    && (reading ==> p.waiter.None? || p.waiter == Some(r))
    && (!reading ==> p.waiter.None?)
    && (forall i :: 0 <= i < |p.delivered| ==> p.delivered[i].id == i)
    && (forall i :: 0 <= i < r ==> got[i] == StripCR(p.delivered[i].raw))
  }

  lemma NoLineYet(p: Parser, reading: bool, got: seq<string>)
    requires Inv(p) && !p.closed && p.errored.None? && p.maxLine == 8192 && p.maxBuffer == 65536
    requires p.waiter.None? || LF !in p.buffer
    requires forall i <- p.started :: if reading then i <= |got| else i < |got|
    requires |p.delivered| == |got| + (if reading && p.waiter.None? then 1 else 0)
    requires if reading then p.waiter.None? || p.waiter == Some(|got|) else p.waiter.None?
    requires forall i :: 0 <= i < |p.delivered| ==> p.delivered[i].id == i
    requires forall i :: 0 <= i < |got| ==> got[i] == StripCR(p.delivered[i].raw)
    ensures ReadsInOrder(p, reading, got)
  {
    hide Inv, StripCR;
  }

  lemma LineArrives(p: Parser, q: Parser, got: seq<string>)
    requires Inv(q) && !q.closed && q.errored.None? && q.maxLine == 8192 && q.maxBuffer == 65536
    requires q.waiter.None? && q.started == p.started && |p.delivered| == |got|
    requires exists raw :: q.delivered == p.delivered + [Delivery(|got|, raw)]
    requires forall i <- p.started :: i <= |got|
    requires forall i :: 0 <= i < |p.delivered| ==> p.delivered[i].id == i
    requires forall i :: 0 <= i < |got| ==> got[i] == StripCR(p.delivered[i].raw)
    ensures ReadsInOrder(q, true, got)
  {
    hide Inv, StripCR;
  }

  lemma ResolveKeepsReads(p: Parser, reading: bool, got: seq<string>)
    requires Inv(p) && !p.closed && p.errored.None? && p.maxLine == 8192 && p.maxBuffer == 65536
    requires |p.buffer| <= 8192
    requires forall i <- p.started :: if reading then i <= |got| else i < |got|
    requires |p.delivered| == |got| + (if reading && p.waiter.None? then 1 else 0)
    requires if reading then p.waiter.None? || p.waiter == Some(|got|) else p.waiter.None?
    requires forall i :: 0 <= i < |p.delivered| ==> p.delivered[i].id == i
    requires forall i :: 0 <= i < |got| ==> got[i] == StripCR(p.delivered[i].raw)
    ensures ReadsInOrder(TryResolve(p), reading, got)
    ensures TryResolve(p).appended == p.appended
  {
    ResolveKeepsInv(p);
    ResolveCases(p);
    hide Inv, TryResolve, IndexOf, StripCR, ReadsInOrder;
    if p.waiter.Some? && LF in p.buffer {
      LineArrives(p, TryResolve(p), got);
    } else {
      assert ReadsInOrder(p, reading, got) by { NoLineYet(p, reading, got); }
    }
  }

  lemma PushIsResolve(p: Parser, chunk: string)
    requires Inv(p) && !p.closed && p.errored.None? && |p.buffer + chunk| <= p.maxBuffer
    ensures var q := p.(buffer := p.buffer + chunk, appended := p.appended + chunk);
            PushChunk(p, chunk) == TryResolve(q) && Inv(q)
  {
    hide TryResolve, FailWaiter;
    var q := p.(buffer := p.buffer + chunk, appended := p.appended + chunk);
    assert q.appended == Unsplit(q.delivered) + q.buffer;
  }

  lemma PushKeepsReads(p: Parser, reading: bool, got: seq<string>, chunk: string)
    requires ReadsInOrder(p, reading, got) && |p.appended + chunk| <= 8192
    ensures ReadsInOrder(PushChunk(p, chunk), reading, got)
    ensures PushChunk(p, chunk).appended == p.appended + chunk
  {
    assert |p.buffer| <= |p.appended|;
    PushIsResolve(p, chunk);
    hide TryResolve, Inv, PushChunk, StripCR;
    ResolveKeepsReads(p.(buffer := p.buffer + chunk, appended := p.appended + chunk), reading, got);
  }

  lemma BeginKeepsReads(p: Parser, got: seq<string>)
    requires ReadsInOrder(p, false, got) && |p.appended| <= 8192
    ensures |got| !in p.started
    ensures ReadsInOrder(ReadLine(p, |got|, NoSignal), true, got)
    ensures ReadLine(p, |got|, NoSignal).appended == p.appended
  {
    var q := Waiting(p, |got|, NoSignal);
    assert |p.buffer| <= |p.appended|;
    WaitingKeepsInv(p, |got|, NoSignal);
    hide TryResolve, Inv, FailWaiter;
    ResolveKeepsReads(q, true, got);
  }

  lemma Lines()
    ensures SplitLines(BothReplies()) == (["yes", Url()], "")
    ensures SplitLines(YES) == (["yes"], "")
  {
    hide SplitLines;
    SplitEmpty();
    SplitFirst("yes", Url() + [LF]);
    SplitFirst(Url(), "");
    SplitFirst("yes", "");
    assert BothReplies() == "yes" + [LF] + (Url() + [LF]);
    assert Url() + [LF] + "" == Url() + [LF];
    assert YES == "yes" + [LF] + "";
    assert ["yes"] + ([Url()] + []) == ["yes", Url()] && ["yes"] + [] == ["yes"];
  }

  lemma SplitEmpty()
    ensures SplitLines("") == ([], "")
  {
  }

  /** Whatever lines the parser has delivered are the two the server replies with. */
  lemma DeliveredLines(p: Parser)
    requires Inv(p) && p.appended <= BothReplies()
    ensures Raws(p.delivered) <= ["yes", Url()]
  {
    hide SplitLines;
    DeliveredAreStreamLines(p);
    Lines();
    SplitExtends(p.appended, BothReplies()[|p.appended|..]);
    assert BothReplies() == p.appended + BothReplies()[|p.appended|..];
  }

  // ---- Every reachable state ----

  /** How many of the two reads are behind the client. */
  function ReadsBefore(job: Job, pc: nat): nat {
    (if pc > YesAt() then 1 else 0) + (if pc > UrlAt(job) then 1 else 0)
  }

  ghost predicate Kept(job: Job, s: System) {
    && UpKept(job, s.pc, s.server, s.up)
    && DownKept(s.parser, s.down, s.server.replies)
    && ReadsInOrder(s.parser, s.reading, s.got)
    && !s.rejected
    && |s.got| == ReadsBefore(job, s.pc)
    && (s.reading ==> s.pc == YesAt() || s.pc == UrlAt(job))
  }

  lemma StartKept(job: Job)
    ensures Kept(job, Start())
  {
    assert ReadsInOrder(Init(8192, 65536), false, []) by {
      InitInv(8192, 65536);
      hide Inv;
    }
    hide Program, WireAll, OpenAfter, Replies, ReadsInOrder;
    assert SentBy(Program(job), 0) == [];
    NothingYet();
  }

  lemma NothingYet()
    ensures WireAll([]) == "" && OpenAfter([], 0) == 0 && Replies([]) == ""
  {
  }

  lemma TrimNothing(s: string)
    requires s != "" && !IsSpace(s[0]) && !IsSpace(s[|s| - 1])
    ensures Trim(s) == s
  {
  }

  lemma LowerNothing(s: string)
    requires forall k :: 0 <= k < |s| ==> !('A' <= s[k] <= 'Z')
    ensures LowerAll(s) == s
  {
  }

  lemma AnswersAcceptable()
    ensures StripCR("yes") == "yes" && Acceptable(AwaitYes, "yes")
    ensures StripCR(Url()) == Url() && Acceptable(AwaitUrl, Url())
  {
    hide Trim, LowerAll;
    TrimNothing("yes");
    LowerNothing("yes");
    assert Url()[0] == Origin()[0] && Url()[|Url()| - 1] == '1';
    TrimNothing(Url());
    LowerNothing(Origin());
    assert Url()[..|Origin()|] == Origin() && Url()[|Origin()|] == 'r';
  }

  /** A read that is settled has the line this read is for, and the client accepts it. */
  lemma SettledAsExpected(p: Parser, got: seq<string>)
    requires ReadsInOrder(p, true, got) && p.appended <= BothReplies() && |got| < 2 && |got| in p.settled
    ensures p.settled[|got|] == Line(["yes", Url()][|got|])
    ensures ReadsInOrder(p, false, got + [["yes", Url()][|got|]])
  {
    var r := |got|;
    hide SplitLines;
    DeliveredLines(p);
    assert p.waiter.None?;
    assert Raws(p.delivered)[r] == ["yes", Url()][r];
    hide Unsplit, Raws;
    AnswersAcceptable();
  }

  lemma EndReadIs(job: Job, s: System)
    requires Sound(job) && Kept(job, s) && Possible(Program(job), s, EndRead)
    ensures |s.got| < 2
    ensures Next(Program(job), s, EndRead) ==
            s.(pc := s.pc + 1, reading := false, got := s.got + [["yes", Url()][|s.got|]])
    ensures ReadsInOrder(s.parser, false, s.got + [["yes", Url()][|s.got|]])
  {
    ProgramShape(job);
    RepliesSoFar(job, s.pc, s.server, s.up);
    hide Program, Sound, ReadsInOrder, Acceptable, UpKept, BothReplies;
    assert s.parser.appended <= BothReplies();
    SettledAsExpected(s.parser, s.got);
    AnswersAcceptable();
    EndReadNext(Program(job), s, ["yes", Url()][|s.got|]);
  }

  lemma EndReadNext(acts: seq<Action>, s: System, line: string)
    requires Possible(acts, s, EndRead) && s.parser.settled[|s.got|] == Line(line) && Acceptable(acts[s.pc], line)
    ensures Next(acts, s, EndRead) == s.(pc := s.pc + 1, reading := false, got := s.got + [line])
  {
    hide Acceptable;
  }

  lemma EndReadKept(job: Job, s: System)
    requires Sound(job) && Kept(job, s) && Possible(Program(job), s, EndRead)
    ensures Kept(job, Next(Program(job), s, EndRead))
  {
    ProgramShape(job);
    hide Program, Sound, ReadsInOrder, UpKept, Next;
    EndReadIs(job, s);
    ReadKeepsUp(job, s.pc, s.server, s.up);
  }

  lemma RepliesShort()
    ensures |BothReplies()| <= 8192
  {
  }

  lemma WriteKept(job: Job, s: System)
    requires Kept(job, s) && Possible(Program(job), s, Write)
    ensures Kept(job, Next(Program(job), s, Write))
  {
    hide Program, UpKept, DownKept, ReadsInOrder, Wire;
    ProgramShape(job);
    WriteKeepsUp(job, s.pc, s.server, s.up);
  }

  lemma BeginReadKept(job: Job, s: System)
    requires Sound(job) && Kept(job, s) && Possible(Program(job), s, BeginRead)
    ensures Kept(job, Next(Program(job), s, BeginRead))
  {
    hide Program, UpKept, ReadsInOrder, Sound, ReadLine, BothReplies;
    ProgramShape(job);
    RepliesSoFar(job, s.pc, s.server, s.up);
    RepliesShort();
    BeginKeepsReads(s.parser, s.got);
  }

  lemma ServerMoveKept(job: Job, s: System, m: Move)
    requires Sound(job) && Kept(job, s) && Possible(Program(job), s, m) && (m.CarryUp? || m.Serve?)
    ensures Kept(job, Next(Program(job), s, m))
  {
    hide Program, UpKept, ReadsInOrder, ServeOne, Sound;
    if m.CarryUp? {
      CarryKeepsUp(job, s.pc, s.server, s.up, m.n);
    } else {
      ServeKeepsUp(job, s.pc, s.server, s.up);
    }
  }

  lemma CarryDownKept(job: Job, s: System, n: nat)
    requires Sound(job) && Kept(job, s) && Possible(Program(job), s, CarryDown(n))
    ensures Kept(job, Next(Program(job), s, CarryDown(n)))
  {
    hide Program, UpKept, ReadsInOrder, Sound, PushChunk, BothReplies;
    RepliesSoFar(job, s.pc, s.server, s.up);
    RepliesShort();
    CutStream(s.parser.appended, s.down, n);
    assert |s.parser.appended + s.down[..n]| <= |s.server.replies| <= 8192;
    PushKeepsReads(s.parser, s.reading, s.got, s.down[..n]);
  }

  lemma CutStream(a: string, b: string, n: nat)
    requires n <= |b|
    ensures a + b[..n] + b[n..] == a + b
  {
  }

  lemma MoveKept(job: Job, s: System, m: Move)
    requires Sound(job) && Kept(job, s) && Possible(Program(job), s, m)
    ensures Kept(job, Next(Program(job), s, m))
  {
    hide Program, Kept, Next, Sound;
    match m {
      case EndRead => EndReadKept(job, s);
      case CarryDown(n) => CarryDownKept(job, s, n);
      case Write => WriteKept(job, s);
      case BeginRead => BeginReadKept(job, s);
      case _ => ServerMoveKept(job, s, m);
    }
  }

  // ---- Progress, termination and the outcome ----

  /** Some part of the system can move until the client has performed its whole program. */
  lemma NoDeadlock(job: Job, s: System) returns (m: Move)
    requires Sound(job) && Kept(job, s) && s.pc < |Program(job)|
    ensures Possible(Program(job), s, m)
  {
    ProgramShape(job);
    hide Program, Sound, UpKept;
    if Program(job)[s.pc].Send? {
      m := Write;
    } else if !s.reading {
      RepliesSoFar(job, s.pc, s.server, s.up);
      BeginKeepsReads(s.parser, s.got);
      m := BeginRead;
    } else if |s.got| in s.parser.settled {
      m := EndRead;
    } else if s.up != "" {
      m := CarryUp(1);
    } else if ServeOne(s.server).Some? {
      m := Serve;
    } else if s.down != "" {
      m := CarryDown(1);
    } else {
      NothingIsMissing(job, s);
      assert false;
    }
  }

  /** With nothing on its way and nothing left to serve, the line being read has arrived. */
  lemma NothingIsMissing(job: Job, s: System)
    requires Sound(job) && Kept(job, s) && s.reading
    requires s.up == "" && ServeOne(s.server).None? && s.down == ""
    ensures |s.got| in s.parser.settled
  {
    var sent := SentBy(Program(job), s.pc);
    RestFramed(job, s.pc, s.server, s.up);
    ServesTheFirst(s.server, s.up, sent[|s.server.log|..]);
    hide Program, Sound, ServeOne, SplitLines, WireAll, Replies, Framed, OpenAfter, ReadsInOrder, BothReplies;
    assert s.server.log == sent;
    assert s.parser.appended == Replies(sent);
    SentOverall(job);
    Answers(job);
    Lines();
    LinesArrived(s.parser, s.got);
  }

  lemma LinesArrived(p: Parser, got: seq<string>)
    requires ReadsInOrder(p, true, got) && |SplitLines(p.appended).0| == |got| + 1
    ensures |got| in p.settled
  {
    hide SplitLines, Unsplit;
    DeliveredAreStreamLines(p);
    assert Raws(p.delivered) + [] == Raws(p.delivered);
    if p.waiter.None? {
      assert p.delivered[|got|].id == |got|;
    } else {
      SplitNone(p.buffer);
    }
  }

  function Unsent(acts: seq<Action>, pc: nat): nat
    requires pc <= |acts|
    decreases |acts| - pc
  {
    if pc == |acts| then 0
    else (if acts[pc].Send? then |Wire(acts[pc].item)| else 0) + Unsent(acts, pc + 1)
  }

  /** Bytes count three times before they are written, twice on their way, and once at the server. */
  function Cost(acts: seq<Action>, s: System): int
    requires s.pc <= |acts|
  {
    CostOf(|acts| - s.pc, s.reading, Unsent(acts, s.pc), |s.up|, |s.server.buf|, |s.server.replies|, |s.down|)
  }

  function CostOf(todo: int, reading: bool, unsent: int, up: int, buf: int, replies: int, down: int): int {
    3 * todo + (if reading then 0 else 1) + 3 * unsent + 2 * up + buf + 2 * (|BothReplies()| - replies) + down
  }

  lemma PlainCost(acts: seq<Action>, s: System, m: Move)
    requires Possible(acts, s, m) && !m.Serve? && !m.EndRead? && s.pc <= |acts|
    ensures Next(acts, s, m).pc <= |acts| && Cost(acts, Next(acts, s, m)) < Cost(acts, s)
  {
    hide PushChunk, ReadLine, BothReplies, ServeOne, Acceptable;
  }

  lemma ServeCost(acts: seq<Action>, s: System)
    requires ServeOne(s.server).Some? && s.pc <= |acts|
    requires s.server.replies <= ServeOne(s.server).value.replies
    requires |ServeOne(s.server).value.buf| < |s.server.buf|
    ensures Next(acts, s, Serve).pc <= |acts| && Cost(acts, Next(acts, s, Serve)) < Cost(acts, s)
  {
    hide ServeOne, BothReplies, Unsent;
  }

  lemma EndReadCost(acts: seq<Action>, s: System, got: seq<string>)
    requires s.pc < |acts|
    ensures Cost(acts, s.(pc := s.pc + 1, reading := false, got := got)) < Cost(acts, s)
  {
    hide BothReplies;
  }

  lemma CostFalls(job: Job, s: System, m: Move)
    requires Sound(job) && Kept(job, s) && Possible(Program(job), s, m)
    ensures Next(Program(job), s, m).pc <= |Program(job)|
    ensures Cost(Program(job), Next(Program(job), s, m)) < Cost(Program(job), s)
  {
    assert UpKept(job, s.pc, s.server, s.up) && s.pc <= |Program(job)|;
    hide Program, Sound, Kept, UpKept, ServeOne, Cost, Next;
    if m.Serve? {
      ServeKeepsUp(job, s.pc, s.server, s.up);
      ServeCost(Program(job), s);
    } else if m.EndRead? {
      EndReadIs(job, s);
      EndReadCost(Program(job), s, s.got + [["yes", Url()][|s.got|]]);
    } else {
      PlainCost(Program(job), s, m);
    }
  }

  lemma CostIsNatural(job: Job, s: System)
    requires Sound(job) && Kept(job, s)
    ensures s.pc <= |Program(job)| && Cost(Program(job), s) >= 0
  {
    RepliesSoFar(job, s.pc, s.server, s.up);
    hide Program, Sound, ReadsInOrder, Unsent;
  }

  /** Every run keeps the invariant and takes no more moves than the job costs. */
  lemma {:induction false} RunKept(job: Job, s: System, ms: seq<Move>)
    requires Sound(job) && Kept(job, s) && Run(Program(job), s, ms)
    ensures Kept(job, Exec(Program(job), s, ms))
    ensures s.pc <= |Program(job)| && |ms| <= Cost(Program(job), s)
    decreases |ms|
  {
    hide Kept, Next, Cost, Program, Sound;
    CostIsNatural(job, s);
    if ms != [] {
      MoveKept(job, s, ms[0]);
      CostFalls(job, s, ms[0]);
      RunKept(job, Next(Program(job), s, ms[0]), ms[1..]);
    }
  }

  /** Header and body of each file, as text, in order. */
  function JobFiles(job: Job, k: nat): seq<(string, string)>
    requires k <= |job.files|
  {
    if k == 0 then [] else JobFiles(job, k - 1) + [(HeaderText(job, k - 1), job.files[k - 1].bytes)]
  }

  /** A part that ends between items is read back on its own. */
  lemma {:induction false} FilesOfConcat(a: seq<Item>, b: seq<Item>, open: nat)
    requires Framed(a, open) && OpenAfter(a, open) == 0
    ensures FilesOf(a + b) == FilesOf(a) + FilesOf(b)
    decreases |a|
  {
    hide FileMatch, Plain;
    if a == [] {
      assert a + b == b;
    } else if a[0].Header? && a[0].size > 0 {
      HeaderThenBody(a, open);
      assert (a + b)[2..] == a[2..] + b;
      FilesOfConcat(a[2..], b, 0);
    } else {
      assert (a + b)[1..] == a[1..] + b;
      FilesOfConcat(a[1..], b, 0);
    }
  }

  lemma HeaderThenBody(a: seq<Item>, open: nat)
    requires Framed(a, open) && OpenAfter(a, open) == 0
    requires a != [] && a[0].Header? && a[0].size > 0
    ensures |a| >= 2 && a[1].Body? && Framed(a[2..], 0) && OpenAfter(a[2..], 0) == 0
  {
    assert a[1..] != [];
    assert a[1..][0] == a[1] && a[1..][1..] == a[2..];
  }

  lemma FilesOfOne(job: Job, i: nat)
    requires i < |job.files|
    ensures FilesOf(SeenFile(job, i)) == [(HeaderText(job, i), job.files[i].bytes)]
  {
    hide HeaderText;
    var s := SeenFile(job, i);
    if |s| == 2 { assert s[2..] == []; } else { assert s[1..] == []; }
  }

  lemma {:induction false} FilesReadBack(job: Job, k: nat)
    requires Sound(job) && k <= |job.files|
    ensures FilesOf(SeenFiles(job, k)) == JobFiles(job, k)
  {
    hide Framed, OpenAfter, FilesOf, SeenFile, HeaderText, Sound, Token, Framable, Refusal, Replies;
    NoFiles([]);
    if k > 0 {
      FilesReadBack(job, k - 1);
      SoundParts(job);
      SeenFilesFramed(job, k - 1);
      FilesOfConcat(SeenFiles(job, k - 1), SeenFile(job, k - 1), 0);
      FilesOfOne(job, k - 1);
      assert SeenFiles(job, k) == SeenFiles(job, k - 1) + SeenFile(job, k - 1);
    }
  }

  lemma SoundParts(job: Job)
    ensures Sound(job) ==> Refusal(job).None? && Token(job.language) && Framable(job)
  {
  }

  lemma {:induction false} NoFiles(items: seq<Item>)
    requires forall k :: 0 <= k < |items| ==> items[k].Command?
    ensures FilesOf(items) == []
  {
    if items != [] { NoFiles(items[1..]); }
  }

  lemma SeenReadBack(job: Job)
    requires Sound(job)
    ensures FilesOf(Prologue(job) + SeenFiles(job, |job.files|) + [Query(job)]) == JobFiles(job, |job.files|)
  {
    hide Prologue, SeenFiles, JobFiles, FilesOf, Framed, OpenAfter, HeaderText, Comment;
    var files := SeenFiles(job, |job.files|);
    PrologueCommands(job);
    PrologueFramed(job);
    SeenFilesFramed(job, |job.files|);
    FilesOfConcat(Prologue(job), files + [Query(job)], 0);
    FilesOfConcat(files, [Query(job)], 0);
    NoFiles(Prologue(job));
    NoFiles([Query(job)]);
    FilesReadBack(job, |job.files|);
    assert Prologue(job) + files + [Query(job)] == Prologue(job) + (files + [Query(job)]);
    assert [] + (JobFiles(job, |job.files|) + []) == JobFiles(job, |job.files|);
  }

  /**
   The session is safe at every moment of every run: the server has taken the items of the job in
   order and nothing else, the reads so far returned `yes` and then the URL, and no read was refused.
   */
  lemma SessionSafety(job: Job, ms: seq<Move>)
    requires Sound(job) && Run(Program(job), Start(), ms)
    ensures var t := Exec(Program(job), Start(), ms);
            t.server.log <= Seen(job) && t.got <= ["yes", Url()] && !t.rejected
  {
    var t := Exec(Program(job), Start(), ms);
    StartKept(job);
    RunKept(job, Start(), ms);
    RepliesSoFar(job, t.pc, t.server, t.up);
    GotLines(t.parser, t.reading, t.got);
  }

  lemma GotLines(p: Parser, reading: bool, got: seq<string>)
    requires ReadsInOrder(p, reading, got) && p.appended <= BothReplies()
    ensures got <= ["yes", Url()]
  {
    hide SplitLines;
    DeliveredLines(p);
    hide Unsplit;
    AnswersAcceptable();
    forall i | 0 <= i < |got| ensures i < 2 && got[i] == ["yes", Url()][i] {
      assert Raws(p.delivered)[i] == ["yes", Url()][i];
    }
  }

  /**
   Every run ends, after at most `Cost` moves, and it can only end with success: the client performed
   its whole program, read `yes` and the URL, and the server recovered every file body exactly.
   */
  lemma SessionSucceeds(job: Job, ms: seq<Move>)
    requires Sound(job) && Run(Program(job), Start(), ms)
    ensures |ms| <= Cost(Program(job), Start())
    ensures var t := Exec(Program(job), Start(), ms);
            && ((forall m :: !Possible(Program(job), t, m)) ==> t.pc == |Program(job)|)
            && (t.pc > UrlAt(job) ==>
                  t.got == ["yes", Url()] && FilesOf(t.server.log) == JobFiles(job, |job.files|))
  {
    var t := Exec(Program(job), Start(), ms);
    StartKept(job);
    RunKept(job, Start(), ms);
    SessionSafety(job, ms);
    if t.pc < |Program(job)| {
      var m := NoDeadlock(job, t);
    }
    if t.pc > UrlAt(job) {
      RecoveredByThen(job, t);
    }
  }

  /** The second reply is only written once everything up to the query has been taken. */
  lemma RecoveredByThen(job: Job, t: System)
    requires Sound(job) && Kept(job, t) && t.pc > UrlAt(job)
    ensures FilesOf(t.server.log) == JobFiles(job, |job.files|)
  {
    RepliesSoFar(job, t.pc, t.server, t.up);
    assert |t.parser.delivered| >= 2;
    AllDelivered(t.parser);
    hide Inv, Program, SentBy, FilesOf, Sound;
    RecoveredLog(job, t.server.log);
  }

  lemma RecoveredLog(job: Job, log: seq<Item>)
    requires Sound(job) && log <= Seen(job) && Replies(log) == BothReplies()
    ensures FilesOf(log) == JobFiles(job, |job.files|)
  {
    hide Prologue, SeenFiles, Sound, Replies, FilesOf, JobFiles, Comment;
    var files := Prologue(job) + SeenFiles(job, |job.files|);
    var upToQuery := files + [Query(job)];
    assert Seen(job) == upToQuery + [Command("end")];
    FilesUnanswered(job);
    if |log| <= |files| {
      RepliesPrefix(log, files);
    }
    SeenReadBack(job);
    if |log| > |upToQuery| {
      assert log == Seen(job);
      EndAddsNoFile(job);
    } else {
      assert log == upToQuery;
    }
  }

  lemma FilesUnanswered(job: Job)
    requires Sound(job)
    ensures |Replies(Prologue(job) + SeenFiles(job, |job.files|))| < |BothReplies()|
  {
    hide Prologue, SeenFiles, Replies, Framed, OpenAfter;
    PrologueFramed(job);
    SeenFilesFramed(job, |job.files|);
    RepliesConcat(Prologue(job), SeenFiles(job, |job.files|));
  }

  lemma EndAddsNoFile(job: Job)
    requires Sound(job)
    ensures FilesOf(Seen(job)) == FilesOf(Prologue(job) + SeenFiles(job, |job.files|) + [Query(job)])
  {
    hide Prologue, SeenFiles, Replies, Framed, OpenAfter, FilesOf, Comment;
    var files := Prologue(job) + SeenFiles(job, |job.files|);
    PrologueFramed(job);
    SeenFilesFramed(job, |job.files|);
    FramedConcat(Prologue(job), SeenFiles(job, |job.files|), 0);
    FilesOfConcat(files, [Query(job)], 0);
    FilesOfConcat(files, [Query(job), Command("end")], 0);
    NoFiles([Query(job)]);
    NoFiles([Query(job), Command("end")]);
    assert Seen(job) == files + [Query(job), Command("end")];
  }

  lemma AllDelivered(p: Parser)
    requires Inv(p) && p.appended <= BothReplies() && |p.delivered| >= 2
    ensures p.appended == BothReplies()
  {
    DeliveredLines(p);
    var d := p.delivered;
    assert Raws(d) == ["yes", Url()];
    assert d[0].raw == Raws(d)[0] && d[1].raw == Raws(d)[1];
    UnsplitAppend([], d[0]);
    UnsplitAppend([d[0]], d[1]);
    assert d == [d[0]] + [d[1]];
    assert Unsplit(d) == BothReplies();
  }

  // ---- When the files can be recovered at all ----

  /** After this run the server has read back exactly the job's files. */
  ghost predicate Recovers(job: Job, ms: seq<Move>) {
    Run(Program(job), Start(), ms) &&
    FilesOf(Exec(Program(job), Start(), ms).server.log) == JobFiles(job, |job.files|)
  }

  /** The server takes for a header only a line it recognises as one. */
  ghost predicate HeadersRead(items: seq<Item>) {
    forall i <- items :: i.Header? ==> FileMatch(i.text).Some?
  }

  lemma ServeReadsHeaders(s: Server)
    requires HeadersRead(s.log) && ServeOne(s).Some?
    ensures HeadersRead(ServeOne(s).value.log)
  {
    hide FileMatch, Reply;
  }

  lemma {:induction false} RunReadsHeaders(acts: seq<Action>, s: System, ms: seq<Move>)
    requires HeadersRead(s.server.log) && Run(acts, s, ms)
    ensures HeadersRead(Exec(acts, s, ms).server.log)
    decreases |ms|
  {
    hide HeadersRead, ServeOne, PushChunk, ReadLine, Acceptable;
    if ms != [] {
      if ms[0].Serve? { ServeReadsHeaders(s.server); }
      RunReadsHeaders(acts, Next(acts, s, ms[0]), ms[1..]);
    }
  }

  lemma {:induction false} FilesHaveHeaders(items: seq<Item>)
    requires HeadersRead(items)
    ensures forall f <- FilesOf(items) :: FileMatch(f.0).Some?
    decreases |items|
  {
    hide FileMatch;
    if items != [] {
      FilesHaveHeaders(items[1..]);
      if |items| > 1 { FilesHaveHeaders(items[2..]); }
    }
  }

  lemma {:induction false} JobFileHeader(job: Job, k: nat, i: nat)
    requires i < k <= |job.files|
    ensures (HeaderText(job, i), job.files[i].bytes) in JobFiles(job, k)
  {
    hide HeaderText;
    if i < k - 1 {
      JobFileHeader(job, k - 1, i);
    } else {
      assert JobFiles(job, k)[|JobFiles(job, k - 1)|] == (HeaderText(job, i), job.files[i].bytes);
    }
  }

  /** With one submission id too large to be printed in full, no run whatever recovers the files. */
  lemma NeverRecovered(job: Job, i: nat, ms: seq<Move>)
    requires i < |job.files| && Token(job.language) && SubmissionId(job.files[i], i) >= E21
    ensures !Recovers(job, ms)
  {
    hide Exec, Run, FileMatch, HeaderText, FilesOf, JobFiles, Program;
    if Recovers(job, ms) {
      RunReadsHeaders(Program(job), Start(), ms);
      FilesHaveHeaders(Exec(Program(job), Start(), ms).server.log);
      JobFileHeader(job, |job.files|, i);
      HeaderRecognised(job, i);
    }
  }

  /** From every state that is kept the client can be brought to the end of its program. */
  lemma {:induction false} Completes(job: Job, s: System) returns (ms: seq<Move>)
    requires Sound(job) && Kept(job, s)
    ensures Run(Program(job), s, ms) && Exec(Program(job), s, ms).pc == |Program(job)|
    decreases Cost(Program(job), s)
  {
    hide Program, Sound, Kept, Cost, Next, Possible;
    CostIsNatural(job, s);
    if s.pc == |Program(job)| {
      return [];
    }
    var m := NoDeadlock(job, s);
    MoveKept(job, s, m);
    CostFalls(job, s, m);
    CostIsNatural(job, Next(Program(job), s, m));
    var rest := Completes(job, Next(Program(job), s, m));
    ms := [m] + rest;
    assert ms[1..] == rest;
  }

  /** The files can be recovered exactly when every submission id is printed in full. */
  lemma RecoveredIff(job: Job)
    requires Refusal(job).None? && Token(job.language)
    ensures (exists ms :: Recovers(job, ms)) <==> Framable(job)
  {
    hide Program, Refusal, Token, SubmissionId, Recovers;
    if Framable(job) {
      StartKept(job);
      var ms := Completes(job, Start());
      ProgramShape(job);
      SessionSucceeds(job, ms);
      IsRecovery(job, ms);
    } else {
      var i :| 0 <= i < |job.files| && SubmissionId(job.files[i], i) >= E21;
      forall ms ensures !Recovers(job, ms) {
        NeverRecovered(job, i, ms);
      }
    }
  }

  lemma IsRecovery(job: Job, ms: seq<Move>)
    requires Run(Program(job), Start(), ms)
    requires FilesOf(Exec(Program(job), Start(), ms).server.log) == JobFiles(job, |job.files|)
    ensures Recovers(job, ms)
  {
  }

  /**
   The condition on submission ids is needed: with an id of 10^21 or more the header is taken for an
   unknown command, the body is read as command lines, and a body can have the URL sent early.
   */
  lemma LargeIdExposesTheBody(job: Job, i: nat)
    requires i < |job.files| && Token(job.language) && SubmissionId(job.files[i], i) >= E21
    requires job.files[i].bytes == "query x\n"
    ensures var t := Feed(Server("", 0, [], ""), HeaderText(job, i) + [LF] + job.files[i].bytes);
            t.replies == Url() + [LF] && FilesOf(t.log) == []
  {
    hide HeaderText;
    HeaderRecognised(job, i);
    HeaderPlain(job, i);
    HeaderSilent(job, i);
    QueryAfterCommand(HeaderText(job, i));
  }

  lemma QueryAfterCommand(text: string)
    requires Plain(text) && FileMatch(text).None? && Reply(text) == ""
    ensures var t := Feed(Server("", 0, [], ""), text + [LF] + "query x\n");
            t.replies == Url() + [LF] && FilesOf(t.log) == []
  {
    hide FileMatch, Reply, ServeOne, ServeAll, FilesOf;
    var body, log := "query x\n", [Command(text)] + [Command("query x")];
    QueryLine();
    CommandServed(text, body, [], "");
    CommandServed("query x", "", [Command(text)], "");
    NothingServed(log, Url() + [LF]);
    NoFiles(log);
    assert body == "query x" + [LF] + "" && "" + (Url() + [LF]) == Url() + [LF] && [] + [Command(text)] == [Command(text)];
    assert "" + (text + [LF] + body) == text + [LF] + body && "" + Reply(text) == "";
    ServeTwo(Server(text + [LF] + body, 0, [], ""), Server(body, 0, [Command(text)], ""),
             Server("", 0, log, Url() + [LF]));
  }

  lemma ServeTwo(a: Server, b: Server, c: Server)
    requires ServeOne(a) == Some(b) && ServeOne(b) == Some(c) && ServeOne(c).None?
    ensures ServeAll(a) == c
  {
    hide ServeOne;
    assert ServeAll(c) == c;
    assert ServeAll(b) == c;
  }

  lemma HeaderSilent(job: Job, i: nat)
    requires i < |job.files|
    ensures Reply(HeaderText(job, i)) == ""
  {
    var text := HeaderText(job, i);
    assert text[0] == 'f';
    FirstLetter(text, "language");
    FirstLetter(text, "query");
  }

  lemma CommandServed(line: string, rest: string, log: seq<Item>, replies: string)
    requires Plain(line) && FileMatch(line).None?
    ensures ServeOne(Server(line + [LF] + rest, 0, log, replies)) ==
            Some(Server(rest, 0, log + [Command(line)], replies + Reply(line)))
  {
    IndexOfPrefix(line, LF, rest);
    var buf := line + [LF] + rest;
    assert buf[..|line|] == line && buf[|line| + 1..] == rest;
  }

  lemma NothingServed(log: seq<Item>, replies: string)
    ensures ServeOne(Server("", 0, log, replies)).None?
  {
  }

  lemma QueryLine()
    ensures FileMatch("query x").None? && Reply("query x") == Url() + [LF] && StripCR("query x") == "query x"
  {
    NotAFile("query x");
    FirstLetter("query x", "language");
    assert "query x"[..5] == "query" && LowerAll("query") == "query";
  }
}
