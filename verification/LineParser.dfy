/**
 The bounded protocol line parser: bytes arrive in chunks of any size, at most one read waits
 for the next line, and a read ends with a line, a deadline, an abort or an error.

 The `Parser` value is the abstract state; `Step` says what one event does to it. The class
 `LineParser` performs the events in place and every method is tied to `Step`.
 */
module LineParsing {
  import opened Text

  const LF := '\n'

  type ReadId = nat

  datatype Outcome = Line(text: string) | Fail(error: string)

  /** The abort signal a read was given. */
  datatype Signal = NoSignal | Live | AlreadyAborted

  datatype Event =
    | Push(chunk: string)
    | Read(id: ReadId, signal: Signal)
    | DeadlineFires(id: ReadId)
    | AbortFires(id: ReadId)
    | Close
    | Error(code: string)

  datatype Delivery = Delivery(id: ReadId, raw: string)

  /**
   `timers` are the deadline timers still armed, `listeners` the abort listeners still attached.
   `settled` are the promises that have a result. `appended` and `delivered` are history: every
   byte ever put in the buffer, and every raw line handed to a read.
   */
  datatype Parser = Parser(
    maxLine: nat,
    maxBuffer: nat,
    buffer: string,
    waiter: Option<ReadId>,
    closed: bool,
    errored: Option<string>,
    timers: set<ReadId>,
    listeners: set<ReadId>,
    started: set<ReadId>,
    settled: map<ReadId, Outcome>,
    appended: string,
    delivered: seq<Delivery>)

  function Init(maxLine: nat, maxBuffer: nat): Parser {
    Parser(maxLine, maxBuffer, "", None, false, None, {}, {}, {}, map[], "", [])
  }

  function StripCR(s: string): string {
    if s != "" && s[|s| - 1] == '\r' then s[..|s| - 1] else s
  }

  // ---- One event ----

  /** Resolving a promise a second time has no effect. */
  function Settle(p: Parser, id: ReadId, o: Outcome): Parser {
    if id in p.settled then p else p.(settled := p.settled[id := o])
  }

  /** The waiter goes away with its timer and its abort listener. */
  function Detach(p: Parser, w: ReadId): Parser {
    p.(waiter := None, timers := p.timers - {w}, listeners := p.listeners - {w})
  }

  function FailWaiter(p: Parser, error: string): Parser {
    if p.waiter.None? then p
    else Settle(Detach(p, p.waiter.value), p.waiter.value, Fail(error))
  }

  function TryResolve(p: Parser): Parser {
    if p.waiter.None? then p
    else
      var lf := IndexOf(p.buffer, LF);
      if lf == |p.buffer| then
        if |p.buffer| > p.maxLine then FailWaiter(p.(errored := Some("line-oversize")), "line-oversize") else p
      else
        var raw := p.buffer[..lf];
        var w := p.waiter.value;
        Settle(Detach(p.(buffer := p.buffer[lf + 1..], delivered := p.delivered + [Delivery(w, raw)]), w),
               w, Line(StripCR(raw)))
  }

  function PushChunk(p: Parser, chunk: string): Parser {
    if p.closed || p.errored.Some? then p
    else
      var q := p.(buffer := p.buffer + chunk, appended := p.appended + chunk);
      if |q.buffer| > p.maxBuffer
      then FailWaiter(q.(errored := Some("buffer-oversize")), "buffer-oversize")
      else TryResolve(q)
  }

  /** Read `id` becomes the waiter, with a timer and, when it has a signal, a listener. */
  function Waiting(p: Parser, id: ReadId, signal: Signal): Parser {
    p.(started := p.started + {id}, waiter := Some(id), timers := p.timers + {id},
       listeners := if signal.Live? then p.listeners + {id} else p.listeners)
  }

  function ReadLine(p: Parser, id: ReadId, signal: Signal): Parser {
    var q := p.(started := p.started + {id});
    if p.waiter.Some? then Settle(q, id, Fail("waiter-busy"))
    else if p.errored.Some? then Settle(q, id, Fail(p.errored.value))
    else if p.closed && p.buffer == "" then Settle(q, id, Fail("closed"))
    else if signal.AlreadyAborted? then Settle(q, id, Fail("abort"))
    else
      var r := TryResolve(Waiting(p, id, signal));
      if r.closed then FailWaiter(r, "closed") else r
  }

  /** The timer callback only looks at whether some read waits, not at which one. */
  function DeadlineFired(p: Parser, id: ReadId): Parser {
    var q := p.(timers := p.timers - {id});
    if p.waiter.None? then q else Settle(q.(waiter := None), id, Fail("deadline"))
  }

  /** So does the abort listener, which outlives its own read when that one hit its deadline. */
  function AbortFired(p: Parser, id: ReadId): Parser {
    var q := p.(listeners := p.listeners - {id});
    if p.waiter.None? then q
    else Settle(q.(waiter := None, timers := q.timers - {id}), id, Fail("abort"))
  }

  predicate Enabled(p: Parser, e: Event) {
    match e
    case Read(id, _) => id !in p.started
    case DeadlineFires(id) => id in p.timers
    case AbortFires(id) => id in p.listeners
    case _ => true
  }

  function Step(p: Parser, e: Event): Parser {
    match e
    case Push(chunk) => PushChunk(p, chunk)
    case Read(id, signal) => ReadLine(p, id, signal)
    case DeadlineFires(id) => DeadlineFired(p, id)
    case AbortFires(id) => AbortFired(p, id)
    case Close => FailWaiter(p.(closed := true), "closed")
    case Error(code) => FailWaiter(p.(errored := Some(code)), code)
  }

  ghost predicate Run(p: Parser, es: seq<Event>)
    decreases |es|
  {
    es == [] || (Enabled(p, es[0]) && Run(Step(p, es[0]), es[1..]))
  }

  function Exec(p: Parser, es: seq<Event>): Parser
    decreases |es|
  {
    if es == [] then p else Exec(Step(p, es[0]), es[1..])
  }

  // ---- Conservation of bytes ----

  /** The delivered raw lines, each followed by its LF. */
  function Unsplit(ds: seq<Delivery>): string {
    if ds == [] then "" else Unsplit(ds[..|ds| - 1]) + ds[|ds| - 1].raw + [LF]
  }

  /** A stream split at its LFs: the complete lines, and what is left after the last LF. */
  function SplitLines(s: string): (seq<string>, string) {
    var lf := IndexOf(s, LF);
    if lf == |s| then ([], s)
    else var (ls, rest) := SplitLines(s[lf + 1..]); ([s[..lf]] + ls, rest)
  }

  function Raws(ds: seq<Delivery>): (rs: seq<string>)
    ensures |rs| == |ds|
    ensures forall k :: 0 <= k < |ds| ==> rs[k] == ds[k].raw
  {
    seq(|ds|, k requires 0 <= k < |ds| => ds[k].raw)
  }

  function Ids(ds: seq<Delivery>): (ids: seq<ReadId>)
    ensures |ids| == |ds|
    ensures forall k :: 0 <= k < |ds| ==> ids[k] == ds[k].id
  {
    seq(|ds|, k requires 0 <= k < |ds| => ds[k].id)
  }

  ghost predicate BytesKept(p: Parser) {
    && p.appended == Unsplit(p.delivered) + p.buffer
    && (forall k :: 0 <= k < |p.delivered| ==> LF !in p.delivered[k].raw)
    && (p.errored.None? ==> |p.buffer| <= p.maxBuffer)
  }

  /** An armed timer belongs to an unsettled read; an attached listener of a settled read is stale. */
  ghost predicate ReadsKept(p: Parser) {
    && (p.waiter.Some? ==> p.waiter.value in p.started && p.waiter.value !in p.settled && p.waiter.value in p.timers)
    && p.settled.Keys <= p.started && p.timers <= p.started && p.listeners <= p.started
    && p.timers !! p.settled.Keys
    && (forall l <- p.listeners :: l in p.settled ==> p.settled[l] == Fail("deadline"))
  }

  /** The reads that succeeded are exactly the deliveries, each once. */
  ghost predicate LinesKept(p: Parser) {
    && (forall k :: 0 <= k < |p.delivered| ==>
          p.delivered[k].id in p.settled && p.settled[p.delivered[k].id] == Line(StripCR(p.delivered[k].raw)))
    && (forall i, j :: 0 <= i < j < |p.delivered| ==> p.delivered[i].id != p.delivered[j].id)
    && (forall r <- p.settled :: p.settled[r].Line? ==> r in Ids(p.delivered))
  }

  ghost predicate Inv(p: Parser) {
    BytesKept(p) && ReadsKept(p) && LinesKept(p)
  }

  lemma InitInv(maxLine: nat, maxBuffer: nat)
    ensures Inv(Init(maxLine, maxBuffer))
  {
    assert Unsplit([]) == "";
  }

  lemma UnsplitAppend(ds: seq<Delivery>, d: Delivery)
    ensures Unsplit(ds + [d]) == Unsplit(ds) + d.raw + [LF]
  {
    assert (ds + [d])[..|ds|] == ds;
  }

  /** Handing over a line moves its bytes from the buffer to what is delivered. */
  lemma HandedOver(ds: seq<Delivery>, buffer: string, lf: nat, id: ReadId)
    requires lf < |buffer| && buffer[lf] == LF
    ensures Unsplit(ds + [Delivery(id, buffer[..lf])]) + buffer[lf + 1..] == Unsplit(ds) + buffer
  {
    hide Unsplit;
    UnsplitAppend(ds, Delivery(id, buffer[..lf]));
    assert buffer == buffer[..lf] + [LF] + buffer[lf + 1..];
  }

  lemma ResolveKeepsBytes(p: Parser)
    requires BytesKept(p)
    ensures BytesKept(TryResolve(p))
  {
    hide IndexOf, Unsplit;
    var lf := IndexOf(p.buffer, LF);
    if p.waiter.Some? && lf < |p.buffer| {
      HandedOver(p.delivered, p.buffer, lf, p.waiter.value);
    }
  }

  /** What resolving comes to, short of the line being too long. */
  lemma ResolveCases(p: Parser)
    requires |p.buffer| <= p.maxLine
    ensures p.waiter.None? || LF !in p.buffer ==> TryResolve(p) == p
    ensures p.waiter.Some? && LF in p.buffer ==>
              var q := TryResolve(p);
              && q == p.(buffer := q.buffer, waiter := None, timers := q.timers, listeners := q.listeners,
                         settled := q.settled, delivered := p.delivered + [Delivery(p.waiter.value, p.buffer[..IndexOf(p.buffer, LF)])])
  {
  }

  lemma ResolveKeepsReads(p: Parser)
    requires ReadsKept(p)
    ensures ReadsKept(TryResolve(p))
  {
  }

  lemma ResolveKeepsLines(p: Parser)
    requires LinesKept(p)
    requires p.waiter.Some? ==> p.waiter.value !in p.settled
    ensures LinesKept(TryResolve(p))
  {
    var lf := IndexOf(p.buffer, LF);
    if p.waiter.Some? && lf < |p.buffer| {
      var d := Delivery(p.waiter.value, p.buffer[..lf]);
      assert Ids(p.delivered + [d]) == Ids(p.delivered) + [d.id];
    }
  }

  lemma ResolveKeepsInv(p: Parser)
    requires Inv(p)
    ensures Inv(TryResolve(p))
  {
    hide TryResolve;
    ResolveKeepsBytes(p);
    ResolveKeepsReads(p);
    ResolveKeepsLines(p);
  }

  lemma FailKeepsInv(p: Parser, error: string)
    requires Inv(p)
    ensures Inv(FailWaiter(p, error))
  {
  }

  lemma PushKeepsInv(p: Parser, chunk: string)
    requires Inv(p)
    ensures Inv(PushChunk(p, chunk))
  {
    hide TryResolve, FailWaiter;
    var q := p.(buffer := p.buffer + chunk, appended := p.appended + chunk);
    assert q.appended == Unsplit(q.delivered) + q.buffer;
    if |q.buffer| > p.maxBuffer {
      FailKeepsInv(q.(errored := Some("buffer-oversize")), "buffer-oversize");
    } else if p.errored.None? {
      ResolveKeepsInv(q);
    }
  }

  lemma WaitingKeepsInv(p: Parser, id: ReadId, signal: Signal)
    requires Inv(p) && id !in p.started
    ensures Inv(Waiting(p, id, signal))
  {
  }

  lemma SettleNewKeepsInv(p: Parser, id: ReadId, error: string)
    requires Inv(p) && id !in p.started
    ensures Inv(Settle(p.(started := p.started + {id}), id, Fail(error)))
  {
  }

  lemma ReadKeepsInv(p: Parser, id: ReadId, signal: Signal)
    requires Inv(p) && id !in p.started
    ensures Inv(ReadLine(p, id, signal))
  {
    hide TryResolve, FailWaiter, Inv, Waiting, Settle;
    forall error { SettleNewKeepsInv(p, id, error); }
    WaitingKeepsInv(p, id, signal);
    ResolveKeepsInv(Waiting(p, id, signal));
    FailKeepsInv(TryResolve(Waiting(p, id, signal)), "closed");
  }

  lemma DeadlineKeepsInv(p: Parser, id: ReadId)
    requires Inv(p) && id in p.timers
    ensures Inv(DeadlineFired(p, id))
  {
  }

  lemma AbortKeepsInv(p: Parser, id: ReadId)
    requires Inv(p) && id in p.listeners
    ensures Inv(AbortFired(p, id))
  {
  }

  lemma StepKeepsInv(p: Parser, e: Event)
    requires Inv(p) && Enabled(p, e)
    ensures Inv(Step(p, e))
  {
    hide PushChunk, ReadLine, DeadlineFired, AbortFired, FailWaiter;
    match e {
      case Push(chunk) => PushKeepsInv(p, chunk);
      case Read(id, signal) => ReadKeepsInv(p, id, signal);
      case DeadlineFires(id) => DeadlineKeepsInv(p, id);
      case AbortFires(id) => AbortKeepsInv(p, id);
      case Close => FailKeepsInv(p.(closed := true), "closed");
      case Error(code) => FailKeepsInv(p.(errored := Some(code)), code);
    }
  }

  /** Whatever happens, every byte appended is either in a delivered line or still in the buffer. */
  lemma {:induction false} Conservation(p: Parser, es: seq<Event>)
    requires Inv(p) && Run(p, es)
    ensures Inv(Exec(p, es))
    ensures var t := Exec(p, es);
            t.appended == Unsplit(t.delivered) + t.buffer && (t.errored.None? ==> |t.buffer| <= t.maxBuffer)
    decreases |es|
  {
    if es != [] {
      StepKeepsInv(p, es[0]);
      Conservation(Step(p, es[0]), es[1..]);
    }
  }

  lemma SplitFirst(line: string, rest: string)
    requires LF !in line
    ensures SplitLines(line + [LF] + rest) == ([line] + SplitLines(rest).0, SplitLines(rest).1)
  {
    var s := line + [LF] + rest;
    IndexOfPrefix(line, LF, rest);
    assert s[|line| + 1..] == rest && s[..|line|] == line;
  }

  lemma {:induction false} SplitUnsplit(ds: seq<Delivery>, tail: string)
    requires forall k :: 0 <= k < |ds| ==> LF !in ds[k].raw
    ensures SplitLines(Unsplit(ds) + tail) == (Raws(ds) + SplitLines(tail).0, SplitLines(tail).1)
  {
    if ds == [] {
      assert Unsplit(ds) + tail == tail;
      assert Raws(ds) + SplitLines(tail).0 == SplitLines(tail).0;
    } else {
      var last, front := ds[|ds| - 1], ds[..|ds| - 1];
      assert ds == front + [last];
      hide SplitLines, Unsplit;
      SplitUnsplit(front, last.raw + [LF] + tail);
      SplitFirst(last.raw, tail);
      UnsplitBefore(front, last, tail);
      RawsAppend(front, last, SplitLines(tail).0);
    }
  }

  lemma UnsplitBefore(front: seq<Delivery>, last: Delivery, tail: string)
    ensures Unsplit(front + [last]) + tail == Unsplit(front) + (last.raw + [LF] + tail)
  {
    UnsplitAppend(front, last);
    hide Unsplit;
  }

  lemma RawsAppend(front: seq<Delivery>, last: Delivery, lines: seq<string>)
    ensures Raws(front) + ([last.raw] + lines) == Raws(front + [last]) + lines
  {
  }

  /** The lines handed out are the first lines of the appended stream, in order and whole. */
  lemma DeliveredAreStreamLines(p: Parser)
    requires Inv(p)
    ensures Raws(p.delivered) <= SplitLines(p.appended).0
    ensures SplitLines(p.appended).0 == Raws(p.delivered) + SplitLines(p.buffer).0
    ensures SplitLines(p.appended).1 == SplitLines(p.buffer).1
  {
    SplitUnsplit(p.delivered, p.buffer);
  }

  lemma SplitExtendsLine(line: string, rest: string, t: string)
    requires LF !in line
    requires SplitLines(rest).0 <= SplitLines(rest + t).0
    ensures SplitLines(line + [LF] + rest).0 <= SplitLines(line + [LF] + rest + t).0
  {
    hide SplitLines;
    SplitFirst(line, rest);
    SplitFirst(line, rest + t);
    assert line + [LF] + rest + t == line + [LF] + (rest + t);
  }

  lemma SplitNone(s: string)
    requires LF !in s
    ensures SplitLines(s) == ([], s)
  {
    assert IndexOf(s, LF) == |s|;
  }

  lemma {:induction false} SplitExtends(s: string, t: string)
    ensures SplitLines(s).0 <= SplitLines(s + t).0
    decreases |s|
  {
    hide SplitLines;
    var lf := IndexOf(s, LF);
    if lf < |s| {
      SplitExtends(s[lf + 1..], t);
      SplitExtendsLine(s[..lf], s[lf + 1..], t);
      assert s == s[..lf] + [LF] + s[lf + 1..];
    } else {
      SplitNone(s);
    }
  }

  lemma PrefixesCompare(a: seq<string>, b: seq<string>, c: seq<string>)
    requires a <= c && b <= c
    ensures a <= b || b <= a
  {
  }

  /**
   How the bytes were cut into chunks and how reads, deadlines and aborts fell between them makes
   no difference to the lines: two runs fed from the same stream agree on every line both delivered.
   */
  lemma ChunkingIsInvisible(p: Parser, es: seq<Event>, q: Parser, fs: seq<Event>)
    requires Inv(p) && Run(p, es) && Inv(q) && Run(q, fs)
    requires Exec(p, es).appended <= Exec(q, fs).appended
    ensures var a, b := Raws(Exec(p, es).delivered), Raws(Exec(q, fs).delivered);
            a <= b || b <= a
  {
    hide Inv, Run, Exec, SplitLines;
    var x, y := Exec(p, es), Exec(q, fs);
    Conservation(p, es);
    Conservation(q, fs);
    DeliveredAreStreamLines(x);
    DeliveredAreStreamLines(y);
    SplitExtends(x.appended, y.appended[|x.appended|..]);
    assert y.appended == x.appended + y.appended[|x.appended|..];
    PrefixesCompare(Raws(x.delivered), Raws(y.delivered), SplitLines(y.appended).0);
  }

  // ---- Reads settle at most once, and which reads are lost ----

  ghost predicate Keeps(p: Parser, q: Parser) {
    forall r <- p.settled :: r in q.settled && q.settled[r] == p.settled[r]
  }

  lemma FailKeepsSettled(p: Parser, error: string)
    ensures Keeps(p, FailWaiter(p, error))
  {
  }

  lemma ResolveKeepsSettled(p: Parser)
    ensures Keeps(p, TryResolve(p))
  {
  }

  lemma ReadKeepsSettled(p: Parser, id: ReadId, signal: Signal)
    ensures Keeps(p, ReadLine(p, id, signal))
  {
    hide TryResolve, FailWaiter;
    ResolveKeepsSettled(Waiting(p, id, signal));
    FailKeepsSettled(TryResolve(Waiting(p, id, signal)), "closed");
  }

  lemma PushKeepsSettled(p: Parser, chunk: string)
    ensures Keeps(p, PushChunk(p, chunk))
  {
    hide TryResolve, FailWaiter;
    var q := p.(buffer := p.buffer + chunk, appended := p.appended + chunk);
    ResolveKeepsSettled(q);
    FailKeepsSettled(q.(errored := Some("buffer-oversize")), "buffer-oversize");
  }

  lemma StepKeepsSettled(p: Parser, e: Event)
    ensures Keeps(p, Step(p, e))
  {
    hide PushChunk, ReadLine, FailWaiter;
    match e {
      case Push(chunk) => PushKeepsSettled(p, chunk);
      case Read(id, signal) => ReadKeepsSettled(p, id, signal);
      case Close => FailKeepsSettled(p.(closed := true), "closed");
      case Error(code) => FailKeepsSettled(p.(errored := Some(code)), code);
      case _ =>
    }
  }

  /** A settled read keeps its outcome for ever. */
  lemma {:induction false} SettledOnce(p: Parser, es: seq<Event>, id: ReadId)
    requires id in p.settled
    ensures id in Exec(p, es).settled && Exec(p, es).settled[id] == p.settled[id]
    decreases |es|
  {
    hide Step;
    if es != [] {
      StepKeepsSettled(p, es[0]);
      SettledOnce(Step(p, es[0]), es[1..], id);
    }
  }

  /** Reads that have begun, have no result, and are not the one being waited for. */
  function Lost(p: Parser): set<ReadId> {
    p.started - p.settled.Keys - (if p.waiter.Some? then {p.waiter.value} else {})
  }

  /** An abort fires after its own read was settled by its deadline, while another read waits. */
  predicate StaleAbort(p: Parser, e: Event) {
    e.AbortFires? && e.id in p.settled && p.waiter.Some?
  }

  function StaleAborts(p: Parser, es: seq<Event>): nat
    decreases |es|
  {
    if es == [] then 0
    else (if StaleAbort(p, es[0]) then 1 else 0) + StaleAborts(Step(p, es[0]), es[1..])
  }

  lemma FailLosesNone(p: Parser, error: string)
    ensures Lost(FailWaiter(p, error)) == Lost(p)
  {
  }

  lemma ResolveLosesNone(p: Parser)
    ensures Lost(TryResolve(p)) == Lost(p)
  {
  }

  lemma ReadLosesNone(p: Parser, id: ReadId, signal: Signal)
    requires id !in p.started && ReadsKept(p)
    ensures Lost(ReadLine(p, id, signal)) == Lost(p)
  {
    hide TryResolve, FailWaiter;
    var q := Waiting(p, id, signal);
    ResolveLosesNone(q);
    FailLosesNone(TryResolve(q), "closed");
    assert p.waiter.None? ==> Lost(q) == Lost(p);
    forall o: Outcome ensures Lost(Settle(p.(started := p.started + {id}), id, o)) == Lost(p) {
    }
  }

  lemma PushLosesNone(p: Parser, chunk: string)
    ensures Lost(PushChunk(p, chunk)) == Lost(p)
  {
    hide TryResolve, FailWaiter;
    var q := p.(buffer := p.buffer + chunk, appended := p.appended + chunk);
    ResolveLosesNone(q);
    FailLosesNone(q.(errored := Some("buffer-oversize")), "buffer-oversize");
  }

  lemma AbortLost(p: Parser, id: ReadId)
    requires ReadsKept(p) && id in p.listeners
    ensures Lost(AbortFired(p, id)) == if p.waiter.Some? then Lost(p) + {p.waiter.value} - {id} else Lost(p)
  {
  }

  lemma DeadlineLost(p: Parser, id: ReadId)
    requires ReadsKept(p) && id in p.timers
    ensures Lost(DeadlineFired(p, id)) == if p.waiter.Some? then Lost(p) + {p.waiter.value} - {id} else Lost(p)
  {
  }

  lemma StepLosesOne(p: Parser, e: Event)
    requires Inv(p) && Enabled(p, e)
    ensures |Lost(Step(p, e))| == |Lost(p)| + (if StaleAbort(p, e) then 1 else 0)
  {
    hide PushChunk, ReadLine, DeadlineFired, AbortFired, FailWaiter, Lost;
    match e {
      case Push(chunk) => PushLosesNone(p, chunk);
      case Read(id, signal) => ReadLosesNone(p, id, signal);
      case DeadlineFires(id) => DeadlineLost(p, id); LostMembers(p, id);
      case AbortFires(id) => AbortLost(p, id); LostMembers(p, id);
      case Close => FailLosesNone(p.(closed := true), "closed"); CloseLost(p);
      case Error(code) => FailLosesNone(p.(errored := Some(code)), code); ErrorLost(p, code);
    }
  }

  lemma LostMembers(p: Parser, id: ReadId)
    requires ReadsKept(p)
    ensures p.waiter.Some? ==> p.waiter.value !in Lost(p)
    ensures p.waiter.Some? && p.waiter.value == id ==> Lost(p) + {p.waiter.value} - {id} == Lost(p)
    ensures p.waiter.Some? && p.waiter.value != id && id in p.settled ==> id !in Lost(p) + {p.waiter.value}
    ensures id in p.started && id !in p.settled && p.waiter.Some? && p.waiter.value != id ==> id in Lost(p)
  {
  }

  lemma CloseLost(p: Parser)
    ensures Lost(p.(closed := true)) == Lost(p)
  {
  }

  lemma ErrorLost(p: Parser, code: string)
    ensures Lost(p.(errored := Some(code))) == Lost(p)
  {
  }

  /** Each stale abort adds exactly one to the lost reads, and nothing else changes their number. */
  lemma {:induction false} LostReads(p: Parser, es: seq<Event>)
    requires Inv(p) && Run(p, es)
    ensures |Lost(Exec(p, es))| == |Lost(p)| + StaleAborts(p, es)
    decreases |es|
  {
    if es != [] {
      StepKeepsInv(p, es[0]);
      StepLosesOne(p, es[0]);
      LostReads(Step(p, es[0]), es[1..]);
    }
  }

  /** From a new parser, every read is settled or waiting if and only if no abort was stale. */
  lemma NeverLost(maxLine: nat, maxBuffer: nat, es: seq<Event>)
    requires Run(Init(maxLine, maxBuffer), es)
    ensures Lost(Exec(Init(maxLine, maxBuffer), es)) == {} <==> StaleAborts(Init(maxLine, maxBuffer), es) == 0
  {
    LostReads(Init(maxLine, maxBuffer), es);
  }

  /** The lost read's own timer or listener fires while another read waits: it settles, and the other is lost instead. */
  predicate Rescues(p: Parser, e: Event, id: ReadId) {
    (e == DeadlineFires(id) || e == AbortFires(id)) && p.waiter.Some?
  }

  predicate Rescued(p: Parser, es: seq<Event>, id: ReadId)
    decreases |es|
  {
    es != [] && (Rescues(p, es[0], id) || Rescued(Step(p, es[0]), es[1..], id))
  }

  lemma StepStaysLost(p: Parser, e: Event, id: ReadId)
    requires Inv(p) && Enabled(p, e) && id in Lost(p)
    ensures id in Lost(Step(p, e)) <==> !Rescues(p, e, id)
    ensures Rescues(p, e, id) ==> id in Step(p, e).settled && (p.waiter.value in Lost(Step(p, e)))
  {
    hide PushChunk, ReadLine, FailWaiter, Lost;
    match e {
      case Push(chunk) => PushLosesNone(p, chunk);
      case Read(r, signal) => ReadLosesNone(p, r, signal);
      case DeadlineFires(r) => DeadlineLost(p, r); LostMembers(p, id);
      case AbortFires(r) => AbortLost(p, r); LostMembers(p, id);
      case Close => FailLosesNone(p.(closed := true), "closed"); CloseLost(p);
      case Error(code) => FailLosesNone(p.(errored := Some(code)), code); ErrorLost(p, code);
    }
  }

  lemma SettledNotLost(p: Parser, es: seq<Event>, id: ReadId)
    requires id in p.settled
    ensures id !in Lost(Exec(p, es))
  {
    hide Step;
    SettledOnce(p, es, id);
  }

  /** A lost read stays lost exactly unless its own timer or listener fires while another read waits. */
  lemma {:induction false} StaysLostIff(p: Parser, es: seq<Event>, id: ReadId)
    requires Inv(p) && Run(p, es) && id in Lost(p)
    ensures id in Lost(Exec(p, es)) <==> !Rescued(p, es, id)
    decreases |es|
  {
    hide Step, Lost, Inv;
    if es != [] {
      StepKeepsInv(p, es[0]);
      StepStaysLost(p, es[0], id);
      if Rescues(p, es[0], id) {
        SettledNotLost(Step(p, es[0]), es[1..], id);
      } else {
        StaysLostIff(Step(p, es[0]), es[1..], id);
      }
    }
  }

  /** A begun read with no timer and no listener left never gets one again. */
  predicate Unarmed(p: Parser, id: ReadId) {
    id in p.started && id !in p.timers && id !in p.listeners
  }

  lemma ResolveStaysUnarmed(p: Parser, id: ReadId)
    requires Unarmed(p, id)
    ensures Unarmed(TryResolve(p), id)
  {
  }

  lemma ReadStaysUnarmed(p: Parser, r: ReadId, signal: Signal, id: ReadId)
    requires Unarmed(p, id) && r != id
    ensures Unarmed(ReadLine(p, r, signal), id)
  {
    hide TryResolve;
    ResolveStaysUnarmed(Waiting(p, r, signal), id);
  }

  lemma StepStaysUnarmed(p: Parser, e: Event, id: ReadId)
    requires Enabled(p, e) && Unarmed(p, id)
    ensures Unarmed(Step(p, e), id)
  {
    hide ReadLine, TryResolve;
    match e {
      case Push(chunk) => ResolveStaysUnarmed(p.(buffer := p.buffer + chunk, appended := p.appended + chunk), id);
      case Read(r, signal) => ReadStaysUnarmed(p, r, signal, id);
      case _ =>
    }
  }

  lemma UnarmedIsNotRescued(p: Parser, e: Event, id: ReadId)
    requires Enabled(p, e) && Unarmed(p, id)
    ensures !Rescues(p, e, id)
  {
  }

  /** A lost read whose timer and listener have both gone never settles, whatever follows. */
  lemma {:induction false} LostForGood(p: Parser, es: seq<Event>, id: ReadId)
    requires Inv(p) && Run(p, es) && id in Lost(p) && Unarmed(p, id)
    ensures id in Lost(Exec(p, es)) && id !in Exec(p, es).settled
    decreases |es|
  {
    hide Step, Unarmed, Inv;
    if es != [] {
      StepKeepsInv(p, es[0]);
      StepStaysUnarmed(p, es[0], id);
      UnarmedIsNotRescued(p, es[0], id);
      StepStaysLost(p, es[0], id);
      LostForGood(Step(p, es[0]), es[1..], id);
    }
  }

  /** The shortest run that loses a read: read 0 hits its deadline, read 1 waits, the signal of read 0 aborts. */
  function StaleRun(): seq<Event> {
    [Read(0, Live), DeadlineFires(0), Read(1, NoSignal), AbortFires(0)]
  }

  /** Read 1 gets no line that arrives, and only its own timer is left to it. */
  lemma StaleAbortLosesARead()
    ensures var p := Exec(Init(8192, 65536), StaleRun());
            && Run(Init(8192, 65536), StaleRun()) && Inv(p)
            && p == Init(8192, 65536).(timers := {1}, started := {0, 1}, settled := map[0 := Fail("deadline")])
            && Lost(p) == {1}
            && Step(p, Push("yes\n")).delivered == []
  {
    var p0, es := Init(8192, 65536), StaleRun();
    var p1 := Step(p0, es[0]);
    var p2 := Step(p1, es[1]);
    var p3 := Step(p2, es[2]);
    var p4 := Step(p3, es[3]);
    ExecFour(p0, es);
    assert Run(p4, es[4..]);
    assert Run(p3, es[3..]);
    assert Run(p2, es[2..]);
    assert Run(p1, es[1..]);
    InitInv(8192, 65536);
    Conservation(p0, es);
  }

  /** When that timer goes off with no read waiting, read 1 hangs whatever follows. */
  lemma LostAfterItsDeadline(fs: seq<Event>)
    requires Run(Step(Exec(Init(8192, 65536), StaleRun()), DeadlineFires(1)), fs)
    ensures Enabled(Exec(Init(8192, 65536), StaleRun()), DeadlineFires(1))
    ensures 1 in Lost(Exec(Step(Exec(Init(8192, 65536), StaleRun()), DeadlineFires(1)), fs))
  {
    hide Exec, Run, Inv;
    StaleAbortLosesARead();
    var p := Exec(Init(8192, 65536), StaleRun());
    StepKeepsInv(p, DeadlineFires(1));
    LostForGood(Step(p, DeadlineFires(1)), fs, 1);
  }

  /** When it goes off while read 2 waits, read 1 settles and read 2 is lost in its place. */
  lemma DeadlineHandsOn()
    ensures var p := Exec(Init(8192, 65536), StaleRun());
            var es := [Read(2, NoSignal), DeadlineFires(1)];
            && Run(p, es)
            && 1 in Exec(p, es).settled && Lost(Exec(p, es)) == {2}
  {
    hide Inv;
    StaleAbortLosesARead();
    var p := Exec(Init(8192, 65536), StaleRun());
    var es := [Read(2, NoSignal), DeadlineFires(1)];
    var q := Step(p, es[0]);
    var r := Step(q, es[1]);
    assert Run(r, es[1..][1..]) && Exec(r, es[1..][1..]) == r;
    assert Run(q, es[1..]) && Exec(q, es[1..]) == r;
  }

  lemma ExecFour(p: Parser, es: seq<Event>)
    requires |es| == 4
    ensures Exec(p, es) == Step(Step(Step(Step(p, es[0]), es[1]), es[2]), es[3])
  {
    hide Step;
    assert es == [es[0]] + [es[1]] + [es[2]] + [es[3]];
    ExecAppend(p, [es[0]] + [es[1]] + [es[2]], es[3]);
    ExecAppend(p, [es[0]] + [es[1]], es[2]);
    ExecAppend(p, [es[0]], es[1]);
    assert Exec(p, [es[0]]) == Step(p, es[0]);
  }

  lemma {:induction false} ExecAppend(p: Parser, es: seq<Event>, e: Event)
    ensures Exec(p, es + [e]) == Step(Exec(p, es), e)
    decreases |es|
  {
    hide Step;
    if es == [] {
      assert es + [e] == [e];
    } else {
      assert (es + [e])[1..] == es[1..] + [e];
      ExecAppend(Step(p, es[0]), es[1..], e);
    }
  }

  // ---- What each event answers ----

  /** `line` is `raw` less one trailing carriage return. */
  predicate LessCR(raw: string, line: string) {
    raw == line + "\r" || (raw == line && !EndsWith(raw, "\r"))
  }

  /** Read `id` ends with `o`, and its timer and listener go with it; `keeps` is the rest of the state. */
  ghost predicate Answered(keeps: Parser, q: Parser, id: ReadId, o: Outcome) {
    q == keeps.(started := keeps.started + {id}, waiter := None, settled := keeps.settled[id := o],
                timers := keeps.timers - {id}, listeners := keeps.listeners - {id})
  }

  /** Read `id` takes the first line of the buffer, whole, and leaves what follows it. */
  ghost predicate TakesLine(p: Parser, q: Parser, id: ReadId, raw: string, line: string) {
    && LF !in raw && p.buffer == raw + [LF] + q.buffer && LessCR(raw, line)
    && Answered(p.(buffer := q.buffer, delivered := p.delivered + [Delivery(id, raw)]), q, id, Line(line))
  }

  ghost predicate TakesFirstLine(p: Parser, q: Parser, id: ReadId) {
    exists raw, line :: TakesLine(p, q, id, raw, line)
  }

  lemma LessCRIs(raw: string)
    ensures LessCR(raw, StripCR(raw))
  {
    if raw != "" && raw[|raw| - 1] == '\r' { assert raw == raw[..|raw| - 1] + "\r"; }
  }

  /** A read that waits takes a whole line, or fails on a line that grew too long, or goes on waiting. */
  lemma ResolveAnswers(p: Parser, id: ReadId)
    requires Inv(p) && p.waiter == Some(id)
    ensures LF in p.buffer ==> TakesFirstLine(p, TryResolve(p), id)
    ensures LF !in p.buffer && |p.buffer| > p.maxLine ==>
              Answered(p.(errored := Some("line-oversize")), TryResolve(p), id, Fail("line-oversize"))
    ensures LF !in p.buffer && |p.buffer| <= p.maxLine ==> TryResolve(p) == p
  {
    var lf := IndexOf(p.buffer, LF);
    assert id in p.started && id !in p.settled;
    assert p.started + {id} == p.started;
    hide Inv;
    if lf < |p.buffer| {
      assert p.buffer == p.buffer[..lf] + [LF] + p.buffer[lf + 1..];
      LessCRIs(p.buffer[..lf]);
      assert TakesLine(p, TryResolve(p), id, p.buffer[..lf], StripCR(p.buffer[..lf]));
    }
  }

  ghost predicate WaitsFor(p: Parser, q: Parser, id: ReadId, signal: Signal) {
    q == p.(started := p.started + {id}, waiter := Some(id), timers := p.timers + {id},
            listeners := p.listeners + if signal.Live? then {id} else {})
  }

  lemma WaitingIs(p: Parser, id: ReadId, signal: Signal)
    requires Inv(p) && id !in p.started
    ensures WaitsFor(p, Waiting(p, id, signal), id, signal) && Inv(Waiting(p, id, signal))
    ensures forall q, o :: Answered(Waiting(p, id, signal), q, id, o) ==> Answered(p, q, id, o)
    ensures forall q, o, e :: Answered(Waiting(p, id, signal).(errored := e), q, id, o) ==> Answered(p.(errored := e), q, id, o)
  {
    var w := Waiting(p, id, signal);
    WaitingKeepsInv(p, id, signal);
    assert id !in p.timers && id !in p.listeners;
    hide Inv;
    assert w.started + {id} == p.started + {id};
    assert w.timers - {id} == p.timers - {id} && w.listeners - {id} == p.listeners - {id};
    assert p.listeners + {} == p.listeners;
  }

  lemma WaitingTakes(p: Parser, q: Parser, id: ReadId, signal: Signal)
    requires Inv(p) && id !in p.started && TakesFirstLine(Waiting(p, id, signal), q, id)
    ensures TakesFirstLine(p, q, id) && q.waiter.None?
  {
    var w := Waiting(p, id, signal);
    var raw, line :| TakesLine(w, q, id, raw, line);
    WaitingIs(p, id, signal);
    hide Inv, LessCR;
    assert w.timers - {id} == p.timers - {id} && w.listeners - {id} == p.listeners - {id};
    assert TakesLine(p, q, id, raw, line);
  }

  lemma ReadCases(p: Parser, id: ReadId, signal: Signal)
    requires Inv(p) && id !in p.started && p.waiter.None? && p.errored.None? && !signal.AlreadyAborted?
    ensures var q := Step(p, Read(id, signal));
            if LF in p.buffer then TakesFirstLine(p, q, id)
            else if |p.buffer| > p.maxLine then Answered(p.(errored := Some("line-oversize")), q, id, Fail("line-oversize"))
            else if p.closed then Answered(p, q, id, Fail("closed"))
            else WaitsFor(p, q, id, signal)
  {
    var w := Waiting(p, id, signal);
    WaitingIs(p, id, signal);
    ResolveAnswers(w, id);
    assert id !in p.settled && id !in p.timers && id !in p.listeners;
    assert p.timers - {id} == p.timers && p.listeners - {id} == p.listeners;
    hide Inv, TryResolve, TakesFirstLine;
    if LF in p.buffer { WaitingTakes(p, TryResolve(w), id, signal); }
  }

  /**
   With no other read waiting and no error, a read takes the first line exactly when a whole one is buffered,
   closed or not; fails "closed" exactly when none is, the parser is closed and the rest is not too long; and
   otherwise fails on that length or waits.
   */
  lemma ReadAnswered(p: Parser, id: ReadId, signal: Signal)
    requires Inv(p) && id !in p.started && p.waiter.None? && p.errored.None? && !signal.AlreadyAborted?
    ensures var q := Step(p, Read(id, signal));
            && (TakesFirstLine(p, q, id) <==> LF in p.buffer)
            && (Answered(p, q, id, Fail("closed")) <==> p.closed && LF !in p.buffer && |p.buffer| <= p.maxLine)
            && (Answered(p.(errored := Some("line-oversize")), q, id, Fail("line-oversize")) <==>
                  LF !in p.buffer && |p.buffer| > p.maxLine)
            && (WaitsFor(p, q, id, signal) <==> !p.closed && LF !in p.buffer && |p.buffer| <= p.maxLine)
  {
    ReadCases(p, id, signal);
    hide Inv, Step, LessCR;
    var q := Step(p, Read(id, signal));
    if TakesFirstLine(p, q, id) {
      var raw, line :| TakesLine(p, q, id, raw, line);
      assert LF in [LF] && p.buffer[|raw|] == LF && q.settled[id] == Line(line) && q.waiter.None?;
    }
  }

  /** Any other read is refused at once, and changes nothing but its own result. */
  lemma ReadRefused(p: Parser, id: ReadId, signal: Signal)
    requires Inv(p) && id !in p.started
    ensures forall error :: Refused(p, Step(p, Read(id, signal)), id, error) <==
              (if p.waiter.Some? then error == "waiter-busy"
               else if p.errored.Some? then error == p.errored.value
               else signal.AlreadyAborted? && error == if p.closed && p.buffer == "" then "closed" else "abort")
  {
    hide TryResolve;
  }

  ghost predicate Refused(p: Parser, q: Parser, id: ReadId, error: string) {
    q == p.(started := p.started + {id}, settled := p.settled[id := Fail(error)])
  }

  /** A chunk is refused, overflows the buffer, or is appended; then the waiting read takes what it can. */
  lemma PushAnswered(p: Parser, chunk: string)
    requires Inv(p)
    ensures var q, r := Step(p, Push(chunk)), p.(buffer := p.buffer + chunk, appended := p.appended + chunk);
            && (p.closed || p.errored.Some? ==> q == p)
            && (!p.closed && p.errored.None? ==>
                  if |r.buffer| > p.maxBuffer then
                    if p.waiter.None? then q == r.(errored := Some("buffer-oversize"))
                    else Answered(r.(errored := Some("buffer-oversize")), q, p.waiter.value, Fail("buffer-oversize"))
                  else if p.waiter.None? then q == r
                  else if LF in r.buffer then TakesFirstLine(r, q, p.waiter.value)
                  else if |r.buffer| > p.maxLine then
                    Answered(r.(errored := Some("line-oversize")), q, p.waiter.value, Fail("line-oversize"))
                  else q == r)
  {
    var r := p.(buffer := p.buffer + chunk, appended := p.appended + chunk);
    assert p.waiter.Some? ==> p.started + {p.waiter.value} == p.started;
    if !p.closed && p.errored.None? && |r.buffer| <= p.maxBuffer {
      assert r.appended == Unsplit(r.delivered) + r.buffer;
      assert Inv(r);
      hide Inv, TryResolve;
      if p.waiter.Some? {
        ResolveAnswers(r, p.waiter.value);
      } else {
        NoWaiter(r);
      }
    }
  }

  lemma NoWaiter(p: Parser)
    requires p.waiter.None?
    ensures TryResolve(p) == p
  {
  }

  /** Closing and errors end the waiting read; its own deadline and its own abort do so too. */
  lemma EndAnswered(p: Parser, e: Event, id: ReadId)
    requires Inv(p) && Enabled(p, e) && p.waiter == Some(id)
    ensures e.Close? ==> Answered(p.(closed := true), Step(p, e), id, Fail("closed"))
    ensures e.Error? ==> Answered(p.(errored := Some(e.code)), Step(p, e), id, Fail(e.code))
    ensures e == AbortFires(id) ==> Answered(p, Step(p, e), id, Fail("abort"))
    ensures e == DeadlineFires(id) ==>
              Step(p, e) == p.(waiter := None, settled := p.settled[id := Fail("deadline")], timers := p.timers - {id})
  {
    assert p.started + {id} == p.started;
  }

  /** With no read waiting they settle nothing. */
  lemma EndUnanswered(p: Parser, e: Event)
    requires Inv(p) && Enabled(p, e) && p.waiter.None? && !e.Push? && !e.Read?
    ensures var q := Step(p, e);
            && q == p.(closed := q.closed, errored := q.errored, timers := q.timers, listeners := q.listeners)
            && q.closed == (p.closed || e.Close?) && q.errored == (if e.Error? then Some(e.code) else p.errored)
            && q.timers == p.timers - (if e.DeadlineFires? then {e.id} else {})
            && q.listeners == p.listeners - (if e.AbortFires? then {e.id} else {})
  {
  }

  // ---- A connection that closes early ----

  /** A waiting read has no whole line before it, and "closed" is answered only when none is left. */
  ghost predicate Drained(p: Parser) {
    && (p.waiter.Some? ==> LF !in p.buffer)
    && p.errored != Some("closed")
    && (forall r <- p.settled :: p.settled[r] == Fail("closed") ==> p.closed && LF !in p.buffer)
  }

  lemma TakenKeepsDrained(p: Parser, q: Parser, id: ReadId)
    requires Drained(p.(waiter := None)) && LF in p.buffer && TakesFirstLine(p, q, id)
    ensures Drained(q)
  {
    hide LessCR;
  }

  lemma ReadKeepsDrained(p: Parser, id: ReadId, signal: Signal)
    requires Inv(p) && Drained(p) && id !in p.started
    ensures Drained(Step(p, Read(id, signal)))
  {
    if p.waiter.None? && p.errored.None? && !signal.AlreadyAborted? {
      ReadAnswered(p, id, signal);
      hide Inv, Step, TakesFirstLine;
      if LF in p.buffer {
        TakenKeepsDrained(p, Step(p, Read(id, signal)), id);
      }
    } else {
      var error := if p.waiter.Some? then "waiter-busy" else if p.errored.Some? then p.errored.value
                   else if p.closed && p.buffer == "" then "closed" else "abort";
      ReadRefused(p, id, signal);
      hide Inv, Step;
      assert Refused(p, Step(p, Read(id, signal)), id, error);
    }
  }

  lemma PushKeepsDrained(p: Parser, chunk: string)
    requires Inv(p) && Drained(p)
    ensures Drained(Step(p, Push(chunk)))
  {
    PushAnswered(p, chunk);
    hide Inv, Step, TakesFirstLine;
    var r := p.(buffer := p.buffer + chunk, appended := p.appended + chunk);
    if !p.closed && p.errored.None? && |r.buffer| <= p.maxBuffer && p.waiter.Some? && LF in r.buffer {
      TakenKeepsDrained(r, Step(p, Push(chunk)), p.waiter.value);
    }
  }

  lemma StepKeepsDrained(p: Parser, e: Event)
    requires Inv(p) && Enabled(p, e) && Drained(p) && e != Error("closed")
    ensures Drained(Step(p, e))
  {
    match e {
      case Push(chunk) => PushKeepsDrained(p, chunk);
      case Read(id, signal) => ReadKeepsDrained(p, id, signal);
      case _ =>
    }
  }

  lemma {:induction false} RunKeepsDrained(p: Parser, es: seq<Event>)
    requires Inv(p) && Run(p, es) && Drained(p) && Error("closed") !in es
    ensures Drained(Exec(p, es))
    decreases |es|
  {
    hide Step, Inv, Drained, Enabled;
    if es != [] {
      StepKeepsInv(p, es[0]);
      StepKeepsDrained(p, es[0]);
      RunKeepsDrained(Step(p, es[0]), es[1..]);
    }
  }

  /**
   In every run, once a read is answered "closed" every whole line of the appended stream has been handed out,
   and what is left has no line in it; an error that happens to be called "closed" aside.
   */
  lemma ClosedMeansDrained(maxLine: nat, maxBuffer: nat, es: seq<Event>, id: ReadId)
    requires Run(Init(maxLine, maxBuffer), es) && Error("closed") !in es
    ensures var p := Exec(Init(maxLine, maxBuffer), es);
            id in p.settled && p.settled[id] == Fail("closed") ==>
              p.closed && LF !in p.buffer && Raws(p.delivered) == SplitLines(p.appended).0
  {
    var p := Exec(Init(maxLine, maxBuffer), es);
    InitInv(maxLine, maxBuffer);
    Conservation(Init(maxLine, maxBuffer), es);
    RunKeepsDrained(Init(maxLine, maxBuffer), es);
    DeliveredAreStreamLines(p);
    if LF !in p.buffer { SplitNone(p.buffer); }
    hide Inv, SplitLines, Exec;
    assert Raws(p.delivered) + [] == Raws(p.delivered);
  }

  function Reads(ids: seq<ReadId>): (es: seq<Event>)
    ensures |es| == |ids| && forall k :: 0 <= k < |ids| ==> es[k] == Read(ids[k], NoSignal)
  {
    seq(|ids|, k requires 0 <= k < |ids| => Read(ids[k], NoSignal))
  }

  ghost predicate NewReads(p: Parser, ids: seq<ReadId>) {
    && (forall k :: 0 <= k < |ids| ==> ids[k] !in p.started)
    && forall i, j :: 0 <= i < j < |ids| ==> ids[i] != ids[j]
  }

  /** Closed, with no read waiting; an error only for a rest that is too long to be a line. */
  ghost predicate ClosedQuietly(p: Parser) {
    && Inv(p) && p.closed && p.waiter.None?
    && (p.errored.None? || (p.errored == Some("line-oversize") && LF !in p.buffer && |p.buffer| > p.maxLine))
  }

  /** The answer to a read: the line, or why there is none. */
  ghost predicate Gives(o: Outcome, lines: seq<string>, k: nat, rest: string, maxLine: nat) {
    if k < |lines| then o.Line? && LessCR(lines[k], o.text)
    else o == Fail(if |rest| > maxLine then "line-oversize" else "closed")
  }

  lemma ReadWhenClosed(p: Parser, id: ReadId)
    requires ClosedQuietly(p) && id !in p.started
    ensures var q := Step(p, Read(id, NoSignal));
            && ClosedQuietly(q) && q.started == p.started + {id} && q.maxLine == p.maxLine && id in q.settled
            && Gives(q.settled[id], SplitLines(p.buffer).0, 0, SplitLines(p.buffer).1, p.maxLine)
            && SplitLines(q.buffer) ==
               (if SplitLines(p.buffer).0 == [] then SplitLines(p.buffer) else (SplitLines(p.buffer).0[1..], SplitLines(p.buffer).1))
  {
    hide Inv, Step, SplitLines, LessCR;
    var q := Step(p, Read(id, NoSignal));
    StepKeepsInv(p, Read(id, NoSignal));
    if LF !in p.buffer { SplitNone(p.buffer); }
    if p.errored.Some? {
      ReadRefused(p, id, NoSignal);
      assert Refused(p, q, id, p.errored.value);
    } else {
      ReadAnswered(p, id, NoSignal);
      if LF in p.buffer {
        var raw, line :| TakesLine(p, q, id, raw, line);
        SplitFirst(raw, q.buffer);
        assert ([raw] + SplitLines(q.buffer).0)[1..] == SplitLines(q.buffer).0;
      }
    }
  }

  /** After a close, reads made one after the other get the buffered lines in order, and only then a refusal. */
  lemma {:induction false} ReadsAfterClose(p: Parser, ids: seq<ReadId>, k: nat)
    requires ClosedQuietly(p) && NewReads(p, ids) && k < |ids|
    ensures Run(p, Reads(ids)) && ids[k] in Exec(p, Reads(ids)).settled
    ensures Gives(Exec(p, Reads(ids)).settled[ids[k]], SplitLines(p.buffer).0, k, SplitLines(p.buffer).1, p.maxLine)
    decreases |ids|
  {
    hide ClosedQuietly, Step, SplitLines, LessCR;
    var q := Step(p, Read(ids[0], NoSignal));
    ReadWhenClosed(p, ids[0]);
    assert Reads(ids)[1..] == Reads(ids[1..]);
    if |ids| > 1 {
      ReadsAfterClose(q, ids[1..], if k == 0 then 0 else k - 1);
    }
    if k == 0 {
      hide Run, Exec, Gives;
      assert Exec(p, Reads(ids)) == Exec(q, Reads(ids)[1..]) by { ExecFirst(p, Reads(ids)); }
      SettledOnce(q, Reads(ids)[1..], ids[0]);
    }
  }

  lemma ExecFirst(p: Parser, es: seq<Event>)
    requires es != []
    ensures Exec(p, es) == Exec(Step(p, es[0]), es[1..])
  {
  }

  /** So a stream closed before it was read is read to its last whole line: nothing is lost, whatever came before. */
  lemma ClosedStreamIsRead(maxLine: nat, maxBuffer: nat, es: seq<Event>, ids: seq<ReadId>, k: nat)
    requires Run(Init(maxLine, maxBuffer), es)
    requires var p := Exec(Init(maxLine, maxBuffer), es);
             p.closed && p.waiter.None? && p.errored.None? && NewReads(p, ids) && k < |ids|
    ensures var p := Exec(Init(maxLine, maxBuffer), es);
            var (lines, rest) := SplitLines(p.appended);
            && |p.delivered| <= |lines| && ids[k] in Exec(p, Reads(ids)).settled
            && Gives(Exec(p, Reads(ids)).settled[ids[k]], lines, |p.delivered| + k, rest, maxLine)
  {
    hide Inv, Run, Exec, SplitLines, LessCR;
    var p := Exec(Init(maxLine, maxBuffer), es);
    InitInv(maxLine, maxBuffer);
    Conservation(Init(maxLine, maxBuffer), es);
    LimitsStay(Init(maxLine, maxBuffer), es);
    DeliveredAreStreamLines(p);
    ReadsAfterClose(p, ids, k);
  }

  lemma {:induction false} LimitsStay(p: Parser, es: seq<Event>)
    ensures Exec(p, es).maxLine == p.maxLine
    decreases |es|
  {
    if es != [] {
      assert Step(p, es[0]).maxLine == p.maxLine by { hide IndexOf, StripCR; }
      hide Step;
      LimitsStay(Step(p, es[0]), es[1..]);
    }
  }

  // ---- The parser in place ----

  /**
   The parser's own fields are `buffer`, `waiter`, `closed` and `errored`. The timers, listeners and
   promise results belong to the runtime; the last three fields are history.
   */
  class LineParser {
    const maxLine: nat
    const maxBuffer: nat
    var buffer: string
    var waiter: Option<ReadId>
    var closed: bool
    var errored: Option<string>
    var timers: set<ReadId>
    var listeners: set<ReadId>
    var settled: map<ReadId, Outcome>
    ghost var started: set<ReadId>
    ghost var appended: string
    ghost var delivered: seq<Delivery>

    ghost function State(): Parser
      reads this
    {
      Parser(maxLine, maxBuffer, buffer, waiter, closed, errored, timers, listeners, started, settled,
             appended, delivered)
    }

    constructor (maxLine: nat, maxBuffer: nat)
      ensures State() == Init(maxLine, maxBuffer)
      ensures Inv(State())
    {
      this.maxLine, this.maxBuffer := maxLine, maxBuffer;
      buffer, waiter, closed, errored := "", None, false, None;
      timers, listeners, settled := {}, {}, map[];
      started, appended, delivered := {}, "", [];
    }

    method SettleRead(id: ReadId, o: Outcome)
      modifies this`settled
      ensures State() == Settle(old(State()), id, o)
    {
      if id !in settled {
        settled := settled[id := o];
      }
    }

    method FailCurrent(error: string)
      modifies this
      ensures State() == FailWaiter(old(State()), error)
    {
      if waiter.Some? {
        var w := waiter.value;
        timers := timers - {w};
        listeners := listeners - {w};
        waiter := None;
        SettleRead(w, Fail(error));
      }
    }

    method ResolveCurrent()
      modifies this
      ensures State() == TryResolve(old(State()))
    {
      if waiter.None? {
        return;
      }
      var lf := IndexOf(buffer, LF);
      if lf == |buffer| {
        if |buffer| > maxLine {
          errored := Some("line-oversize");
          FailCurrent("line-oversize");
        }
        return;
      }
      var raw := buffer[..lf];
      buffer := buffer[lf + 1..];
      var w := waiter.value;
      timers := timers - {w};
      listeners := listeners - {w};
      waiter := None;
      delivered := delivered + [Delivery(w, raw)];
      SettleRead(w, Line(StripCR(raw)));
    }

    method OnPush(chunk: string) returns (accepted: bool)
      requires Inv(State())
      modifies this
      ensures State() == Step(old(State()), Push(chunk)) && Inv(State())
      ensures accepted <==> old(!closed && errored.None? && |buffer + chunk| <= maxBuffer)
    {
      StepKeepsInv(State(), Push(chunk));
      if closed || errored.Some? {
        return false;
      }
      buffer := buffer + chunk;
      appended := appended + chunk;
      if |buffer| > maxBuffer {
        errored := Some("buffer-oversize");
        FailCurrent("buffer-oversize");
        return false;
      }
      ResolveCurrent();
      return true;
    }

    method OnRead(id: ReadId, signal: Signal)
      requires Inv(State()) && Enabled(State(), Read(id, signal))
      modifies this
      ensures State() == Step(old(State()), Read(id, signal)) && Inv(State())
    {
      StepKeepsInv(State(), Read(id, signal));
      started := started + {id};
      if waiter.Some? {
        SettleRead(id, Fail("waiter-busy"));
        return;
      }
      if errored.Some? {
        SettleRead(id, Fail(errored.value));
        return;
      }
      if closed && |buffer| == 0 {
        SettleRead(id, Fail("closed"));
        return;
      }
      if signal.AlreadyAborted? {
        SettleRead(id, Fail("abort"));
        return;
      }
      timers := timers + {id};
      if signal.Live? {
        listeners := listeners + {id};
      }
      waiter := Some(id);
      ResolveCurrent();
      if closed && waiter.Some? {
        FailCurrent("closed");
      }
    }

    method OnDeadline(id: ReadId)
      requires Inv(State()) && Enabled(State(), DeadlineFires(id))
      modifies this
      ensures State() == Step(old(State()), DeadlineFires(id)) && Inv(State())
    {
      StepKeepsInv(State(), DeadlineFires(id));
      timers := timers - {id};
      if waiter.Some? {
        waiter := None;
        SettleRead(id, Fail("deadline"));
      }
    }

    method OnAbort(id: ReadId)
      requires Inv(State()) && Enabled(State(), AbortFires(id))
      modifies this
      ensures State() == Step(old(State()), AbortFires(id)) && Inv(State())
    {
      StepKeepsInv(State(), AbortFires(id));
      listeners := listeners - {id};
      if waiter.Some? {
        timers := timers - {id};
        waiter := None;
        SettleRead(id, Fail("abort"));
      }
    }

    method OnClose()
      requires Inv(State())
      modifies this
      ensures State() == Step(old(State()), Close) && Inv(State())
    {
      StepKeepsInv(State(), Close);
      closed := true;
      FailCurrent("closed");
    }

    method OnError(code: string)
      requires Inv(State())
      modifies this
      ensures State() == Step(old(State()), Error(code)) && Inv(State())
    {
      StepKeepsInv(State(), Error(code));
      errored := Some(code);
      FailCurrent(code);
    }
  }
}
