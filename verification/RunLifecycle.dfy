/**
 A run's phases, its wall-clock deadline, its recovery from the persisted job, and when its credit is
 returned.
 */
module RunLifecycle {
  import opened Text

  datatype Phase = Validate | Upload | Queue | Submit | Wait | Success | Failure | Cancelled | Timeout

  datatype JobStatus =
    | Draft | Ready | Uploading | Queued | Submitting | Waiting | Succeeded | FailedJob | CancelledJob | Ambiguous
    | OtherStatus(name: string)

  datatype Signal = Next | Fail | Cancel | Expire | Retry | OtherSignal(name: string)

  /** Why a run ended badly; the code of a failure is the caller's, or the worker's by default. */
  datatype Code = UncertainQuery | ProviderCode | Given(code: string)

  datatype RunState = RunState(
    phase: Phase,
    startedAt: int,
    updatedAt: int,
    deadlineAt: int,
    deadlineMs: int,
    submitted: bool,
    failureCode: Option<Code>)

  /** What is kept of a run: its status and when it last moved. */
  datatype Saved = Saved(status: JobStatus, updatedAt: Option<int>)

  const RUN_DEADLINE: int := 90 * 1000

  predicate IsTerminal(p: Phase) { p.Success? || p.Failure? || p.Cancelled? || p.Timeout? }

  predicate IsSubmitted(p: Phase) { p.Wait? || p.Success? }

  // ---- The phase table ----

  function Transition(p: Phase, s: Signal): Option<Phase> {
    match p
    case Success => None
    case Failure => if s.Retry? then Some(Validate) else None
    case Cancelled => if s.Retry? then Some(Validate) else None
    case Timeout => if s.Retry? then Some(Validate) else None
    case _ =>
      match s
      case Next => Some(Following(p))
      case Fail => Some(Failure)
      case Cancel => Some(Cancelled)
      case Expire => if p.Wait? then Some(Timeout) else None
      case _ => None
  }

  function Following(p: Phase): Phase {
    match p
    case Validate => Upload
    case Upload => Queue
    case Queue => Submit
    case Submit => Wait
    case _ => Success
  }

  function StatusOf(p: Phase): JobStatus {
    match p
    case Validate => Ready
    case Upload => Uploading
    case Queue => Queued
    case Submit => Submitting
    case Wait => Waiting
    case Success => Succeeded
    case Failure => FailedJob
    case Cancelled => CancelledJob
    case Timeout => Ambiguous
  }

  function PhaseOf(s: JobStatus): Option<Phase> {
    match s
    case Draft => Some(Validate)
    case Ready => Some(Validate)
    case Uploading => Some(Upload)
    case Queued => Some(Queue)
    case Submitting => Some(Submit)
    case Waiting => Some(Wait)
    case Succeeded => Some(Success)
    case FailedJob => Some(Failure)
    case CancelledJob => Some(Cancelled)
    case Ambiguous => Some(Timeout)
    case OtherStatus(_) => None
  }

  // ---- Creating, advancing, saving, recovering ----

  /** A budget that is not a positive number is replaced by ninety seconds. */
  function Budget(ms: Option<int>): (b: int)
    ensures b > 0
    ensures ms.Some? && ms.value > 0 ==> b == ms.value
    ensures ms.None? || ms.value <= 0 ==> b == 90_000
  {
    if ms.Some? && ms.value > 0 then ms.value else RUN_DEADLINE
  }

  function Create(now: int, ms: Option<int>): RunState {
    RunState(Validate, now, now, now + Budget(ms), Budget(ms), false, None)
  }

  function TimeoutCode(s: RunState): Code { if s.submitted then UncertainQuery else ProviderCode }

  function Expired(s: RunState, now: int): RunState {
    s.(phase := Timeout, updatedAt := now, failureCode := Some(TimeoutCode(s)))
  }

  datatype Advanced = Advanced(ok: bool, state: RunState, changed: bool, deadlineExceeded: bool)

  function Advance(s: RunState, now: int, signal: Signal, code: Option<string>): Advanced {
    if IsTerminal(s.phase) then Advanced(true, s, false, false)
    else if now >= s.deadlineAt then Advanced(true, Expired(s, now), true, true)
    else match Transition(s.phase, signal)
      case None => Advanced(false, s, false, false)
      case Some(p) =>
        var n := s.(phase := p, updatedAt := now, submitted := s.submitted || IsSubmitted(p));
        var failed :=
          if !p.Failure? then n
          else if code.Some? && code.value != "" then n.(failureCode := Some(Given(code.value)))
          else if s.failureCode.Some? then n
          else n.(failureCode := Some(Given("worker")));
        var restarted :=
          if !p.Validate? then failed
          else failed.(startedAt := now, deadlineAt := now + s.deadlineMs, submitted := false, failureCode := None);
        Advanced(true, restarted, true, false)
  }

  datatype Recovered = NoActiveJob | UnknownStatus | Found(state: RunState, deadlineExceeded: bool)

  function Recover(job: Option<Saved>, now: int, ms: Option<int>): Recovered {
    if job.None? then NoActiveJob
    else match PhaseOf(job.value.status)
      case None => UnknownStatus
      case Some(p) =>
        var anchor := if job.value.updatedAt.Some? then job.value.updatedAt.value else now;
        var budget := Budget(ms);
        var s := RunState(p, anchor, anchor, anchor + budget, budget, IsSubmitted(p) || job.value.status.Ambiguous?, None);
        if !IsTerminal(p) && now >= s.deadlineAt then Found(Expired(s, now), true)
        else Found(if p.Timeout? then s.(failureCode := Some(TimeoutCode(s))) else s, false)
  }

  function JobStatusFor(s: RunState): JobStatus {
    if s.phase.Timeout? && !s.submitted then FailedJob else StatusOf(s.phase)
  }

  function Save(s: RunState): Saved { Saved(JobStatusFor(s), Some(s.updatedAt)) }

  predicate ReleasesCredit(s: RunState) { IsTerminal(s.phase) && !s.phase.Success? && !s.submitted }

  // ---- Runs with crashes ----

  /** A surface keeps a state; the disk keeps what was saved last, which may be out of date. */
  datatype Surface = Surface(state: RunState, disk: Option<Saved>)

  datatype Event = Move(now: int, signal: Signal, code: Option<string>) | Persist | Reopen(now: int)

  function Step(x: Surface, ms: Option<int>, e: Event): Surface {
    match e
    case Move(now, signal, code) => x.(state := Advance(x.state, now, signal, code).state)
    case Persist => x.(disk := Some(Save(x.state)))
    case Reopen(now) =>
      match Recover(x.disk, now, ms)
      case Found(s, _) => x.(state := s)
      case _ => x
  }

  function Run(x: Surface, ms: Option<int>, es: seq<Event>): Surface
    decreases |es|
  {
    if es == [] then x else Run(Step(x, ms, es[0]), ms, es[1..])
  }

  /** The number of phases a run has before it ends. */
  function Rank(p: Phase): nat {
    match p
    case Validate => 5
    case Upload => 4
    case Queue => 3
    case Submit => 2
    case Wait => 1
    case _ => 0
  }

  /** A run at rank `r` last moved within `5 - r` budgets of its start, and has at most one more. */
  ghost predicate OnTime(s: RunState, t0: int, budget: int) {
    IsTerminal(s.phase) || (s.updatedAt <= t0 + (5 - Rank(s.phase)) * budget && s.deadlineAt <= t0 + (6 - Rank(s.phase)) * budget)
  }

  ghost predicate DiskOnTime(d: Option<Saved>, t0: int, budget: int) {
    d.Some? ==>
      && d.value.updatedAt.Some?
      && PhaseOf(d.value.status).Some?
      && var p := PhaseOf(d.value.status).value;
         IsTerminal(p) || d.value.updatedAt.value <= t0 + (5 - Rank(p)) * budget
  }

  lemma AdvanceOnTime(s: RunState, t0: int, budget: int, now: int, signal: Signal, code: Option<string>)
    requires OnTime(s, t0, budget) && budget > 0
    ensures OnTime(Advance(s, now, signal, code).state, t0, budget)
    ensures Advance(s, now, signal, code).changed ==> Rank(Advance(s, now, signal, code).state.phase) < Rank(s.phase)
    ensures !Advance(s, now, signal, code).changed ==> Advance(s, now, signal, code).state == s
    ensures now >= t0 + 5 * budget ==> IsTerminal(Advance(s, now, signal, code).state.phase)
  {
    if !IsTerminal(s.phase) {
      var r := Rank(s.phase);
      assert 1 <= r <= 5;
      assert (6 - r) * budget <= 5 * budget;
      if now < s.deadlineAt && Transition(s.phase, signal).Some? {
        assert IsTerminal(Transition(s.phase, signal).value) || Rank(Transition(s.phase, signal).value) == r - 1;
        assert (5 - (r - 1)) * budget == (6 - r) * budget;
        assert (6 - (r - 1)) * budget == (6 - r) * budget + budget;
      }
    }
  }

  lemma RecoverOnTime(d: Option<Saved>, t0: int, ms: Option<int>, now: int)
    requires DiskOnTime(d, t0, Budget(ms)) && Recover(d, now, ms).Found?
    ensures OnTime(Recover(d, now, ms).state, t0, Budget(ms))
    ensures now >= t0 + 5 * Budget(ms) ==> IsTerminal(Recover(d, now, ms).state.phase)
  {
    var budget, p := Budget(ms), PhaseOf(d.value.status).value;
    if !IsTerminal(p) {
      var r := Rank(p);
      assert 1 <= r <= 5;
      assert (5 - r) * budget + budget == (6 - r) * budget <= 5 * budget;
    }
  }

  lemma StepOnTime(x: Surface, t0: int, ms: Option<int>, e: Event)
    requires OnTime(x.state, t0, Budget(ms)) && DiskOnTime(x.disk, t0, Budget(ms))
    ensures var y := Step(x, ms, e); OnTime(y.state, t0, Budget(ms)) && DiskOnTime(y.disk, t0, Budget(ms))
  {
    match e {
      case Move(now, signal, code) => AdvanceOnTime(x.state, t0, Budget(ms), now, signal, code);
      case Persist =>
      case Reopen(now) => if Recover(x.disk, now, ms).Found? { RecoverOnTime(x.disk, t0, ms, now); }
    }
  }

  lemma {:induction false} RunOnTime(x: Surface, t0: int, ms: Option<int>, es: seq<Event>)
    requires OnTime(x.state, t0, Budget(ms)) && DiskOnTime(x.disk, t0, Budget(ms))
    ensures var y := Run(x, ms, es); OnTime(y.state, t0, Budget(ms)) && DiskOnTime(y.disk, t0, Budget(ms))
    decreases |es|
  {
    if es != [] {
      hide OnTime, DiskOnTime, Step;
      StepOnTime(x, t0, ms, es[0]);
      RunOnTime(Step(x, ms, es[0]), t0, ms, es[1..]);
    }
  }

  /**
   However often a run is saved, lost and recovered, from however old a save, and whatever the clock showed
   meanwhile, a look at it five budgets after its start finds it ended: by its timer, or as it is reopened.
   */
  lemma DeadlineHolds(t0: int, ms: Option<int>, es: seq<Event>, now: int, signal: Signal, code: Option<string>)
    requires now >= t0 + 5 * Budget(ms)
    ensures var x := Run(Surface(Create(t0, ms), None), ms, es);
            && IsTerminal(Advance(x.state, now, signal, code).state.phase)
            && (x.disk.Some? ==> Recover(x.disk, now, ms).Found? && IsTerminal(Recover(x.disk, now, ms).state.phase))
  {
    RunOnTime(Surface(Create(t0, ms), None), t0, ms, es);
    var x := Run(Surface(Create(t0, ms), None), ms, es);
    AdvanceOnTime(x.state, t0, Budget(ms), now, signal, code);
    if x.disk.Some? { RecoverOnTime(x.disk, t0, ms, now); }
    hide Run;
  }

  // ---- Progress of a surface that is not lost ----

  datatype Tick = Tick(now: int, signal: Signal, code: Option<string>)

  function Drive(s: RunState, ts: seq<Tick>): RunState
    decreases |ts|
  {
    if ts == [] then s else Drive(Advance(s, ts[0].now, ts[0].signal, ts[0].code).state, ts[1..])
  }

  function Changes(s: RunState, ts: seq<Tick>): nat
    decreases |ts|
  {
    if ts == [] then 0
    else
      var a := Advance(s, ts[0].now, ts[0].signal, ts[0].code);
      (if a.changed then 1 else 0) + Changes(a.state, ts[1..])
  }

  /** The phases a run goes through, the first included. */
  function Phases(s: RunState, ts: seq<Tick>): set<Phase>
    decreases |ts|
  {
    {s.phase} + if ts == [] then {} else Phases(Advance(s, ts[0].now, ts[0].signal, ts[0].code).state, ts[1..])
  }

  /** Each change lowers the rank, so there are at most five; an ended run stays as it is, retries included. */
  lemma {:induction false} ChangesBounded(s: RunState, ts: seq<Tick>)
    ensures Changes(s, ts) + Rank(Drive(s, ts).phase) <= Rank(s.phase)
    ensures IsTerminal(s.phase) ==> Drive(s, ts) == s
    decreases |ts|
  {
    if ts != [] {
      var a := Advance(s, ts[0].now, ts[0].signal, ts[0].code);
      RankFalls(s, ts[0]);
      hide Advance;
      ChangesBounded(a.state, ts[1..]);
    }
  }

  lemma RankFalls(s: RunState, t: Tick)
    ensures var a := Advance(s, t.now, t.signal, t.code);
            && (a.changed ==> Rank(a.state.phase) < Rank(s.phase))
            && (!a.changed ==> a.state == s)
            && (IsTerminal(s.phase) ==> !a.changed)
  {
  }

  // ---- Credit ----

  /** Before it ends, a run counts as submitted exactly in the waiting phase; a success is always submitted. */
  ghost predicate Coherent(s: RunState) {
    && (!IsTerminal(s.phase) ==> (s.submitted <==> s.phase.Wait?))
    && (s.phase.Success? ==> s.submitted)
  }

  lemma {:induction false} SubmittedIffWaited(s: RunState, ts: seq<Tick>)
    requires Coherent(s)
    ensures Coherent(Drive(s, ts))
    ensures Drive(s, ts).submitted <==> s.submitted || Wait in Phases(s, ts)
    decreases |ts|
  {
    if ts != [] {
      var a := Advance(s, ts[0].now, ts[0].signal, ts[0].code);
      SubmittedStep(s, ts[0]);
      hide Advance;
      SubmittedIffWaited(a.state, ts[1..]);
    }
  }

  lemma SubmittedStep(s: RunState, t: Tick)
    requires Coherent(s)
    ensures var n := Advance(s, t.now, t.signal, t.code).state;
            && Coherent(n)
            && (n.submitted <==> s.submitted || n.phase.Wait?)
            && (s.phase.Wait? ==> s.submitted)
  {
  }

  /** An ended run returns its credit exactly when it never waited for a report. */
  lemma CreditReleasedIffNeverWaited(t0: int, ms: Option<int>, ts: seq<Tick>)
    ensures var s := Drive(Create(t0, ms), ts);
            IsTerminal(s.phase) ==> (ReleasesCredit(s) <==> Wait !in Phases(Create(t0, ms), ts))
  {
    SubmittedIffWaited(Create(t0, ms), ts);
    hide Drive, Phases;
  }

  /** Saving and recovering keeps the phase in time, but for a timeout before submission, which becomes a failure. */
  lemma SaveKeepsPhase(s: RunState, now: int, ms: Option<int>)
    requires Coherent(s) && (IsTerminal(s.phase) || now < s.updatedAt + Budget(ms))
    ensures Recover(Some(Save(s)), now, ms).Found?
    ensures var r := Recover(Some(Save(s)), now, ms).state;
            && r.phase == (if s.phase.Timeout? && !s.submitted then Failure else s.phase)
            && r.updatedAt == s.updatedAt
            && (!IsTerminal(s.phase) ==> r.submitted == s.submitted)
  {
  }

  /**
   It keeps the decision about credit exactly for the runs that did not fail, or get cancelled, after waiting:
   the save forgets that those were submitted, so on recovery they return their credit.
   */
  lemma SaveKeepsCreditIff(s: RunState, now: int, ms: Option<int>)
    requires Coherent(s) && IsTerminal(s.phase)
    ensures Recover(Some(Save(s)), now, ms).Found?
    ensures ReleasesCredit(Recover(Some(Save(s)), now, ms).state) == ReleasesCredit(s) <==>
              !((s.phase.Failure? || s.phase.Cancelled?) && s.submitted)
  {
  }

  /** Such runs exist: one that fails while waiting. */
  lemma CreditReturnedAfterSubmission(t0: int, ms: Option<int>, now: int)
    ensures var go := Tick(t0, Next, None);
            var s := Drive(Create(t0, ms), [go, go, go, go, Tick(t0, Fail, None)]);
            && s.phase.Failure? && s.submitted && !ReleasesCredit(s)
            && Recover(Some(Save(s)), now, ms).Found? && ReleasesCredit(Recover(Some(Save(s)), now, ms).state)
  {
    var go, stop := Tick(t0, Next, None), Tick(t0, Fail, None);
    var c := Create(t0, ms);
    var w := c.(phase := Wait, submitted := true);
    assert [go, go, go, go, stop][1..] == [go, go, go, stop] && [go, go, go, stop][1..] == [go, go, stop];
    assert [go, go, stop][1..] == [go, stop] && [go, stop][1..] == [stop] && [stop][1..] == [];
    assert Drive(c.(phase := Submit), [go, stop]) == Drive(w, [stop]) == Drive(Advance(w, t0, Fail, None).state, []);
    assert Drive(c.(phase := Upload), [go, go, go, stop]) == Drive(c.(phase := Queue), [go, go, stop]);
    assert Drive(c, [go, go, go, go, stop]) == Drive(c.(phase := Upload), [go, go, go, stop]);
    assert Drive(c.(phase := Queue), [go, go, stop]) == Drive(c.(phase := Submit), [go, stop]);
  }

  // ---- What one event does to a run ----

  function Order(): seq<Phase> { [Validate, Upload, Queue, Submit, Wait, Success] }

  /** A run in time moves on by one phase, ends in failure or cancelled, or times out while waiting; nothing else moves it. */
  lemma AdvanceInTime(s: RunState, now: int, signal: Signal, code: Option<string>)
    requires !IsTerminal(s.phase) && now < s.deadlineAt
    ensures var a := Advance(s, now, signal, code);
            && (a.changed <==> signal in {Next, Fail, Cancel} || (signal == Expire && s.phase == Wait))
            && a.ok == a.changed && !a.deadlineExceeded && (!a.changed ==> a.state == s)
            && (signal == Next ==> exists k :: 0 <= k < 5 && s.phase == Order()[k] && a.state.phase == Order()[k + 1])
            && (signal == Fail ==> a.state.phase == Failure
                                   && (code.Some? && code.value != "" ==> a.state.failureCode == Some(Given(code.value)))
                                   && (code == None || code == Some("") ==>
                                         a.state.failureCode == if s.failureCode.Some? then s.failureCode else Some(Given("worker"))))
            && (signal == Cancel ==> a.state.phase == Cancelled) && (signal == Expire && s.phase == Wait ==> a.state.phase == Timeout)
            && (a.changed ==> a.state == s.(phase := a.state.phase, updatedAt := now, submitted := s.submitted || a.state.phase in {Wait, Success},
                                            failureCode := if signal == Fail then a.state.failureCode else s.failureCode))
  {
    var k := 5 - Rank(s.phase);
    assert Order()[k] == s.phase;
    assert Order()[k + 1] == Following(s.phase);
  }

  /** An ended run could only be retried, and a success not even that; but advancing leaves ended runs alone. */
  lemma EndedRuns(s: RunState, now: int, signal: Signal, code: Option<string>)
    requires s.phase in {Success, Failure, Cancelled, Timeout}
    ensures Transition(s.phase, signal) == if signal == Retry && s.phase != Success then Some(Validate) else None
    ensures Advance(s, now, signal, code) == Advanced(true, s, false, false)
  {
  }

  /** A run past its time is timed out whatever the event, and remembers whether a query may be under way. */
  lemma AdvanceLate(s: RunState, now: int, signal: Signal, code: Option<string>)
    requires !IsTerminal(s.phase) && now >= s.deadlineAt
    ensures var a := Advance(s, now, signal, code);
            && a.ok && a.changed && a.deadlineExceeded
            && a.state == s.(phase := Timeout, updatedAt := now, failureCode := Some(if s.submitted then UncertainQuery else ProviderCode))
  {
  }

  /** What a saved run is recovered as, in time or late; the time left is counted from the save. */
  lemma RecoverIs(job: Saved, now: int, ms: Option<int>)
    ensures Recover(None, now, ms) == NoActiveJob
    ensures Recover(Some(job), now, ms) == UnknownStatus <==> job.status.OtherStatus?
    ensures Recover(Some(job), now, ms).Found? ==>
              var (f, saved) := (Recover(Some(job), now, ms), if job.updatedAt.Some? then job.updatedAt.value else now);
              && f.state.startedAt == saved && f.state.deadlineAt == saved + f.state.deadlineMs
              && f.state.deadlineMs == (if ms.Some? && ms.value > 0 then ms.value else 90_000)
              && f.state.submitted == (job.status in {Waiting, Succeeded, Ambiguous})
              && (f.deadlineExceeded <==> job.status in {Draft, Ready, Uploading, Queued, Submitting, Waiting} && now >= f.state.deadlineAt)
              && (f.deadlineExceeded ==> f.state.phase == Timeout && f.state.updatedAt == now
                                         && f.state.failureCode == Some(if job.status == Waiting then UncertainQuery else ProviderCode))
              && (!f.deadlineExceeded ==> f.state.updatedAt == saved
                                          && f.state.failureCode == if job.status == Ambiguous then Some(UncertainQuery) else None)
              && (job.status == Draft && !f.deadlineExceeded ==> f.state.phase == Validate)
  {
  }

  function Statuses(): seq<JobStatus> { [Ready, Uploading, Queued, Submitting, Waiting, Succeeded] }

  /** A run that is moved on in time goes through its phases in order, is saved under their statuses, and succeeds on the fifth move. */
  lemma {:induction false} HappyPath(t0: int, ms: Option<int>, ts: seq<Tick>)
    requires |ts| <= 5 && forall k :: 0 <= k < |ts| ==> ts[k].signal == Next && ts[k].now < t0 + Budget(ms)
    ensures var s := Drive(Create(t0, ms), ts);
            && s.phase == Order()[|ts|] && Save(s).status == Statuses()[|ts|]
            && s.deadlineAt == t0 + Budget(ms) && s.startedAt == t0 && s.failureCode == None
    decreases |ts|
  {
    hide Advance, Transition, Drive;
    DriveNone(Create(t0, ms));
    RankOfOrder();
    if ts != [] {
      var front, last := ts[..|ts| - 1], ts[|ts| - 1];
      HappyPath(t0, ms, front);
      AdvanceInTime(Drive(Create(t0, ms), front), last.now, last.signal, last.code);
      DriveSnoc(Create(t0, ms), front, last);
      assert front + [last] == ts;
    }
  }

  lemma DriveNone(s: RunState)
    ensures Drive(s, []) == s
  {
  }

  lemma {:induction false} DriveSnoc(s: RunState, ts: seq<Tick>, t: Tick)
    ensures Drive(s, ts + [t]) == Advance(Drive(s, ts), t.now, t.signal, t.code).state
    decreases |ts|
  {
    hide Advance;
    if ts == [] {
      assert [t][1..] == [] && ts + [t] == [t];
    } else {
      assert (ts + [t])[1..] == ts[1..] + [t];
      DriveSnoc(Advance(s, ts[0].now, ts[0].signal, ts[0].code).state, ts[1..], t);
    }
  }

  /** No run succeeds, or comes to wait, without going through every phase before. */
  lemma {:induction false} NoPhaseSkipped(s: RunState, ts: seq<Tick>, i: nat, j: nat)
    requires i <= j < 6 && s.phase == Order()[i] && Drive(s, ts).phase == Order()[j]
    ensures forall k :: i <= k <= j ==> Order()[k] in Phases(s, ts)
    decreases |ts|
  {
    if ts != [] {
      var n := Advance(s, ts[0].now, ts[0].signal, ts[0].code).state;
      hide Transition, Order;
      OneMove(s, ts[0], i);
      ChangesBounded(n, ts[1..]);
      RankOfOrder();
      hide Advance;
      if n == s {
        NoPhaseSkipped(n, ts[1..], i, j);
      } else if i + 1 <= j && n.phase == Order()[i + 1] {
        NoPhaseSkipped(n, ts[1..], i + 1, j);
      }
    }
  }

  lemma RankOfOrder()
    ensures forall k :: 0 <= k < 6 ==> Rank(Order()[k]) == 5 - k
    ensures forall k :: 0 <= k < 6 ==> Order()[k] !in {Failure, Cancelled, Timeout}
  {
  }

  lemma OneMove(s: RunState, t: Tick, i: nat)
    requires i < 6 && s.phase == Order()[i]
    ensures var n := Advance(s, t.now, t.signal, t.code).state;
            n == s || (i < 5 && n.phase == Order()[i + 1]) || n.phase in {Failure, Cancelled, Timeout}
  {
  }
}
