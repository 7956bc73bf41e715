/**
 The upload pump: at most `concurrency` uploads in flight, a progress ledger, cancellation, failure
 and resumption. Results and continuations of uploads arrive in any order.
 */
module Transfers {
  import opened Text
  import opened Counting

  datatype FileState = Pending | Uploading | Completed | Failed

  datatype File = File(localId: string, hash: string, bytes: nat, state: FileState)

  datatype Status = StatusUploading | StatusCompleted | StatusFailed | CancelRequested | StatusCanceled

  datatype Outcome = Success | UploadFailed | WasCanceled

  /** An upload in flight: its result is awaited, or its promise is settled and its continuation is due. */
  datatype Stage = Putting | Returned

  /** `completed` lists completed uploads and `puts` every object put, in order; `flight` is what is active. */
  datatype Transfer = Transfer(
    files: seq<File>,
    status: Status,
    canceled: bool,
    done: nat,
    bytesDone: nat,
    completed: seq<nat>,
    puts: seq<nat>,
    running: bool,
    last: Option<Outcome>,
    down: bool,
    queue: seq<nat>,
    index: nat,
    flight: map<nat, Stage>)

  datatype Reselected = Reselected(localId: string, hash: string)

  datatype Event =
    | Run(networkDown: bool)
    | Result(i: nat, stored: bool)
    | Settle(i: nat)
    | Cancel
    | Resume(reselected: Option<seq<Reselected>>)

  // ---- The pump ----

  function WithState(t: Transfer, i: nat, s: FileState): Transfer
    requires i < |t.files|
  {
    t.(files := t.files[i := t.files[i].(state := s)])
  }

  /** Only the first resolution of the run's promise counts. */
  function Resolve(t: Transfer, o: Outcome): Transfer {
    if t.running then t.(running := false, last := Some(o)) else t
  }

  function StartUpload(t: Transfer, i: nat): Transfer
    requires i < |t.files|
  {
    if t.down then WithState(t, i, Failed).(flight := t.flight[i := Returned])
    else WithState(t, i, Uploading).(flight := t.flight[i := Putting], puts := t.puts + [i])
  }

  predicate QueueInRange(t: Transfer) {
    t.index <= |t.queue| && forall k :: 0 <= k < |t.queue| ==> t.queue[k] < |t.files|
  }

  /** Takes the next queued file; a completed one is passed over. */
  function LaunchNext(t: Transfer): Transfer
    requires QueueInRange(t) && t.index < |t.queue|
  {
    var i := t.queue[t.index];
    var u := t.(index := t.index + 1);
    if t.files[i].state.Completed? then u else StartUpload(u, i)
  }

  function Launch(t: Transfer, concurrency: int): (r: Transfer)
    requires QueueInRange(t)
    decreases |t.queue| - t.index
  {
    if |t.flight.Keys| < concurrency && t.index < |t.queue| then Launch(LaunchNext(t), concurrency)
    else t
  }

  predicate Waiting(t: Transfer) {
    exists i :: 0 <= i < |t.files| && (t.files[i].state.Pending? || t.files[i].state.Uploading?)
  }

  function Conclude(t: Transfer): Transfer {
    if t.flight.Keys == {} && t.done < |t.files| && !Waiting(t) then
      if forall i :: 0 <= i < |t.files| ==> t.files[i].state.Completed?
      then Resolve(t.(status := StatusCompleted), Success)
      else Resolve(t.(status := StatusFailed), UploadFailed)
    else t
  }

  function Pump(t: Transfer, concurrency: int): Transfer
    requires QueueInRange(t)
  {
    if t.canceled then Resolve(t.(status := StatusCanceled), WasCanceled)
    else if t.done == |t.files| then Resolve(t.(status := StatusCompleted), Success)
    else Conclude(Launch(t, concurrency))
  }

  // ---- One event ----

  function Unfinished(files: seq<File>, n: nat): (q: seq<nat>)
    requires n <= |files|
    ensures forall k :: 0 <= k < |q| ==> q[k] < n
    ensures forall i: nat :: i in q <==> i < n && (files[i].state.Pending? || files[i].state.Failed?)
    ensures forall a, b :: 0 <= a < b < |q| ==> q[a] < q[b]
  {
    if n == 0 then []
    else Unfinished(files, n - 1) +
         if files[n - 1].state.Pending? || files[n - 1].state.Failed? then [n - 1] else []
  }

  function FindMatch(f: File, rs: seq<Reselected>): Option<Reselected> {
    if rs == [] then None
    else if rs[0].localId == f.localId || rs[0].hash == f.hash then Some(rs[0])
    else FindMatch(f, rs[1..])
  }

  /** Marks files for another try until one has no match with the same hash. */
  function Remark(files: seq<File>, rs: seq<Reselected>, n: nat): (r: (seq<File>, bool))
    requires n <= |files|
    ensures |r.0| == |files|
    decreases |files| - n
  {
    if n == |files| then (files, true)
    else if files[n].state.Completed? then Remark(files, rs, n + 1)
    else
      var m := FindMatch(files[n], rs);
      if m.None? || m.value.hash != files[n].hash then (files, false)
      else Remark(files[n := files[n].(state := Pending)], rs, n + 1)
  }

  predicate Enabled(t: Transfer, e: Event) {
    match e
    case Run(_) => !t.running
    case Result(i, _) => i in t.flight && t.flight[i] == Putting && i < |t.files|
    case Settle(i) => i in t.flight && t.flight[i] == Returned
    case _ => true
  }

  /** A new run takes every file that is pending or failed. */
  function Queued(t: Transfer, networkDown: bool): Transfer {
    t.(running := true, last := None, down := networkDown, queue := Unfinished(t.files, |t.files|), index := 0)
  }

  function RunStep(t: Transfer, concurrency: int, networkDown: bool): Transfer {
    if t.canceled then t.(status := StatusCanceled, last := Some(WasCanceled))
    else if t.done == |t.files| then t.(status := StatusCompleted, last := Some(Success))
    else Pump(Queued(t, networkDown), concurrency)
  }

  function ResultStep(t: Transfer, i: nat, stored: bool): Transfer
    requires i < |t.files|
  {
    if stored then
      WithState(t, i, Completed).(flight := t.flight[i := Returned], done := t.done + 1,
                                  bytesDone := t.bytesDone + t.files[i].bytes, completed := t.completed + [i])
    else WithState(t, i, Failed).(flight := t.flight[i := Returned])
  }

  function ResumeStep(t: Transfer, reselected: Option<seq<Reselected>>): Transfer {
    if t.status.StatusCompleted? || reselected.None? then t
    else
      var (files, ok) := Remark(t.files, reselected.value, 0);
      t.(files := files, status := if ok then StatusUploading else t.status)
  }

  function Step(t: Transfer, concurrency: int, e: Event): Transfer
    requires QueueInRange(t) && Enabled(t, e)
  {
    match e
    case Run(networkDown) => RunStep(t, concurrency, networkDown)
    case Result(i, stored) => ResultStep(t, i, stored)
    case Settle(i) => Pump(t.(flight := t.flight - {i}), concurrency)
    case Cancel => t.(canceled := true, status := CancelRequested)
    case Resume(reselected) => ResumeStep(t, reselected)
  }

  // ---- The ledger and the bound on active uploads ----

  function BytesOf(files: seq<File>, ids: seq<nat>): nat
    requires forall k :: 0 <= k < |ids| ==> ids[k] < |files|
  {
    if ids == [] then 0 else BytesOf(files, ids[..|ids| - 1]) + files[ids[|ids| - 1]].bytes
  }

  /** The completed files are listed once each, and counted and summed exactly. */
  ghost predicate LedgerKept(files: seq<File>, completed: seq<nat>, done: nat, bytesDone: nat) {
    && (forall i: nat :: i in completed <==> i < |files| && files[i].state.Completed?)
    && Distinct(completed)
    && done == |completed|
    && (forall k :: 0 <= k < |completed| ==> completed[k] < |files|)
    && bytesDone == BytesOf(files, completed)
  }

  /** Uploads in flight are distinct files not waiting in the queue; nothing else counts as uploading. */
  ghost predicate FlightKept(t: Transfer, concurrency: int) {
    && QueueInRange(t)
    && Distinct(t.queue)
    && (forall i <- t.flight :: i < |t.files| && (t.flight[i] == Putting ==> !t.files[i].state.Completed?)
                             && (t.flight[i] == Returned ==> !t.files[i].state.Uploading?))
    && (forall k :: t.index <= k < |t.queue| ==> t.queue[k] !in t.flight)
    && (forall i :: 0 <= i < |t.files| && t.files[i].state.Uploading? ==> i in t.flight)
    && (t.flight.Keys != {} ==> |t.flight.Keys| <= concurrency)
    && (!t.running && t.flight.Keys != {} ==> t.canceled || t.done == |t.files|)
  }

  ghost predicate Inv(t: Transfer, concurrency: int) {
    LedgerKept(t.files, t.completed, t.done, t.bytesDone) && FlightKept(t, concurrency)
  }

  function Fresh(files: seq<File>): Transfer {
    Transfer(seq(|files|, i requires 0 <= i < |files| => files[i].(state := Pending)), StatusUploading, false,
             0, 0, [], [], false, None, false, [], 0, map[])
  }

  lemma FreshInv(files: seq<File>, concurrency: int)
    ensures Inv(Fresh(files), concurrency)
  {
  }

  /** The files are the same but for the state of those that are not completed. */
  ghost predicate SameLedgerFiles(files: seq<File>, files': seq<File>) {
    && |files'| == |files|
    && forall i :: 0 <= i < |files| ==>
         files'[i].bytes == files[i].bytes && (files[i].state.Completed? <==> files'[i].state.Completed?)
  }

  lemma {:induction false} SameBytes(files: seq<File>, files': seq<File>, ids: seq<nat>)
    requires SameLedgerFiles(files, files')
    requires forall k :: 0 <= k < |ids| ==> ids[k] < |files|
    ensures BytesOf(files', ids) == BytesOf(files, ids)
  {
    if ids != [] { SameBytes(files, files', ids[..|ids| - 1]); }
  }

  lemma SameLedger(files: seq<File>, files': seq<File>, completed: seq<nat>, done: nat, bytesDone: nat)
    requires LedgerKept(files, completed, done, bytesDone) && SameLedgerFiles(files, files')
    ensures LedgerKept(files', completed, done, bytesDone)
  {
    SameBytes(files, files', completed);
  }

  lemma {:induction false} LaunchKeepsInv(t: Transfer, concurrency: int)
    requires Inv(t, concurrency) && t.running
    ensures Inv(Launch(t, concurrency), concurrency)
    ensures var r := Launch(t, concurrency);
            |r.files| == |t.files| && r == t.(files := r.files, puts := r.puts, index := r.index, flight := r.flight)
    decreases |t.queue| - t.index
  {
    if |t.flight.Keys| < concurrency && t.index < |t.queue| {
      NextKeepsInv(t, concurrency);
      LaunchKeepsInv(LaunchNext(t), concurrency);
    }
  }

  lemma StartKeepsFlight(u: Transfer, concurrency: int, i: nat)
    requires FlightKept(u, concurrency) && u.running && i < |u.files| && !u.files[i].state.Completed?
    requires |u.flight.Keys| < concurrency && i !in u.flight
    requires forall k :: u.index <= k < |u.queue| ==> u.queue[k] != i
    ensures FlightKept(StartUpload(u, i), concurrency)
  {
    assert StartUpload(u, i).flight.Keys == u.flight.Keys + {i};
  }

  lemma StartKeepsInv(u: Transfer, concurrency: int, i: nat)
    requires Inv(u, concurrency) && u.running && i < |u.files| && !u.files[i].state.Completed?
    requires |u.flight.Keys| < concurrency && i !in u.flight
    requires forall k :: u.index <= k < |u.queue| ==> u.queue[k] != i
    ensures Inv(StartUpload(u, i), concurrency)
  {
    StartKeepsFlight(u, concurrency, i);
    SameLedger(u.files, u.files[i := u.files[i].(state := Failed)], u.completed, u.done, u.bytesDone);
    SameLedger(u.files, u.files[i := u.files[i].(state := Uploading)], u.completed, u.done, u.bytesDone);
    hide LedgerKept, FlightKept;
  }

  /** The next queued file is not in flight, and passing over it keeps the invariant. */
  lemma TakeNext(t: Transfer, concurrency: int)
    requires Inv(t, concurrency) && t.index < |t.queue|
    ensures Inv(t.(index := t.index + 1), concurrency)
    ensures var i := t.queue[t.index];
            i < |t.files| && i !in t.flight && forall k :: t.index < k < |t.queue| ==> t.queue[k] != i
  {
    hide LedgerKept;
  }

  lemma NextKeepsInv(t: Transfer, concurrency: int)
    requires Inv(t, concurrency) && t.running && t.index < |t.queue| && |t.flight.Keys| < concurrency
    ensures var i := t.queue[t.index];
            && Inv(LaunchNext(t), concurrency)
            && (t.files[i].state.Completed? ==> LaunchNext(t).flight == t.flight)
            && (!t.files[i].state.Completed? ==> |LaunchNext(t).flight.Keys| == |t.flight.Keys| + 1)
  {
    var i, u := t.queue[t.index], t.(index := t.index + 1);
    assert QueueInRange(t);
    TakeNext(t, concurrency);
    hide Inv, StartUpload;
    if !t.files[i].state.Completed? {
      StartKeepsInv(u, concurrency, i);
      StartGrowsFlight(u, i);
    }
  }

  lemma StartGrowsFlight(u: Transfer, i: nat)
    requires i < |u.files| && i !in u.flight
    ensures |StartUpload(u, i).flight.Keys| == |u.flight.Keys| + 1
  {
    assert StartUpload(u, i).flight.Keys == u.flight.Keys + {i};
  }

  lemma PumpKeepsInv(t: Transfer, concurrency: int)
    requires Inv(t, concurrency) && (t.running || t.canceled || t.done == |t.files|)
    ensures Inv(Pump(t, concurrency), concurrency)
  {
    hide LedgerKept, Launch;
    if !t.canceled && t.done != |t.files| {
      LaunchKeepsInv(t, concurrency);
    }
  }

  /** The count reaches the total exactly when every file is completed. */
  lemma DoneCount(files: seq<File>, completed: seq<nat>, done: nat, bytesDone: nat)
    requires LedgerKept(files, completed, done, bytesDone)
    ensures done <= |files|
    ensures done == |files| <==> forall i :: 0 <= i < |files| ==> files[i].state.Completed?
  {
    DistinctSize(completed);
    SubsetSize(Elements(completed), Upto(|files|));
    assert done == |files| ==> forall i :: 0 <= i < |files| ==> i in Upto(|files|);
    if forall i :: 0 <= i < |files| ==> files[i].state.Completed? {
      assert Elements(completed) == Upto(|files|);
    }
  }

  lemma ResultKeepsInv(t: Transfer, concurrency: int, i: nat, stored: bool)
    requires Inv(t, concurrency) && Enabled(t, Result(i, stored))
    ensures Inv(Step(t, concurrency, Result(i, stored)), concurrency)
  {
    DoneCount(t.files, t.completed, t.done, t.bytesDone);
    if stored {
      CompleteInLedger(t.files, t.completed, t.done, t.bytesDone, i);
    } else {
      SameLedger(t.files, t.files[i := t.files[i].(state := Failed)], t.completed, t.done, t.bytesDone);
    }
    ResultKeepsFlight(t, concurrency, i, stored);
    hide LedgerKept, FlightKept;
  }

  lemma ResultKeepsFlight(t: Transfer, concurrency: int, i: nat, stored: bool)
    requires FlightKept(t, concurrency) && Enabled(t, Result(i, stored))
    requires !t.files[i].state.Completed? ==> t.done < |t.files|
    ensures FlightKept(Step(t, concurrency, Result(i, stored)), concurrency)
  {
    var r := Step(t, concurrency, Result(i, stored));
    assert r.flight.Keys == t.flight.Keys;
  }

  lemma CompleteInLedger(files: seq<File>, completed: seq<nat>, done: nat, bytesDone: nat, i: nat)
    requires LedgerKept(files, completed, done, bytesDone) && i < |files| && !files[i].state.Completed?
    ensures LedgerKept(files[i := files[i].(state := Completed)], completed + [i], done + 1, bytesDone + files[i].bytes)
  {
    var files' := files[i := files[i].(state := Completed)];
    BytesStay(files, files', completed);
    assert (completed + [i])[..|completed|] == completed;
  }

  lemma {:induction false} BytesStay(files: seq<File>, files': seq<File>, ids: seq<nat>)
    requires |files'| == |files| && forall i :: 0 <= i < |files| ==> files'[i].bytes == files[i].bytes
    requires forall k :: 0 <= k < |ids| ==> ids[k] < |files|
    ensures BytesOf(files', ids) == BytesOf(files, ids)
  {
    if ids != [] { BytesStay(files, files', ids[..|ids| - 1]); }
  }

  lemma {:induction false} RemarkKeeps(files: seq<File>, rs: seq<Reselected>, n: nat)
    requires n <= |files|
    ensures SameLedgerFiles(files, Remark(files, rs, n).0)
    ensures forall i :: 0 <= i < |files| && Remark(files, rs, n).0[i].state.Uploading? ==> files[i].state.Uploading?
    decreases |files| - n
  {
    if n < |files| {
      if files[n].state.Completed? { RemarkKeeps(files, rs, n + 1); }
      else { RemarkKeeps(files[n := files[n].(state := Pending)], rs, n + 1); }
    }
  }

  ghost predicate PendingQueued(t: Transfer) {
    && QueueInRange(t)
    && forall i :: 0 <= i < |t.files| && t.files[i].state.Pending? ==> i in t.queue[t.index..]
  }

  lemma QueuedRunning(t: Transfer, networkDown: bool)
    ensures Queued(t, networkDown).running
  {
  }

  lemma QueuedInv(t: Transfer, concurrency: int, networkDown: bool)
    requires Inv(t, concurrency) && !t.running && !t.canceled && t.done != |t.files|
    ensures Inv(Queued(t, networkDown), concurrency)
    ensures PendingQueued(Queued(t, networkDown)) && t.flight.Keys == {}
  {
    hide LedgerKept;
    var u := Queued(t, networkDown);
    assert u.queue[0..] == u.queue;
  }

  lemma StepKeepsInv(t: Transfer, concurrency: int, e: Event)
    requires Inv(t, concurrency) && Enabled(t, e)
    ensures Inv(Step(t, concurrency, e), concurrency)
  {
    hide Pump, Queued, ResultStep;
    match e {
      case Run(networkDown) =>
        if !t.canceled && t.done != |t.files| {
          QueuedInv(t, concurrency, networkDown);
          hide Inv, PendingQueued;
          QueuedRunning(t, networkDown);
          PumpKeepsInv(Queued(t, networkDown), concurrency);
        }
      case Result(i, stored) => ResultKeepsInv(t, concurrency, i, stored);
      case Settle(i) =>
        var u := t.(flight := t.flight - {i});
        assert u.flight.Keys == t.flight.Keys - {i};
        SettleKeepsFlight(t, concurrency, i);
        PumpKeepsInv(u, concurrency);
      case Cancel =>
      case Resume(reselected) =>
        if reselected.Some? {
          RemarkKeeps(t.files, reselected.value, 0);
          SameLedger(t.files, Remark(t.files, reselected.value, 0).0, t.completed, t.done, t.bytesDone);
        }
    }
  }

  lemma SettleKeepsFlight(t: Transfer, concurrency: int, i: nat)
    requires Inv(t, concurrency) && Enabled(t, Settle(i))
    ensures Inv(t.(flight := t.flight - {i}), concurrency)
  {
  }

  // ---- Whole runs ----

  predicate Possible(t: Transfer, concurrency: int, es: seq<Event>)
    decreases |es|
  {
    es == [] || (QueueInRange(t) && Enabled(t, es[0]) && Possible(Step(t, concurrency, es[0]), concurrency, es[1..]))
  }

  function Exec(t: Transfer, concurrency: int, es: seq<Event>): Transfer
    requires Possible(t, concurrency, es)
    decreases |es|
  {
    if es == [] then t else Exec(Step(t, concurrency, es[0]), concurrency, es[1..])
  }

  lemma {:induction false} Always(t: Transfer, concurrency: int, es: seq<Event>)
    requires Inv(t, concurrency) && Possible(t, concurrency, es)
    ensures Inv(Exec(t, concurrency, es), concurrency)
    decreases |es|
  {
    if es != [] {
      StepKeepsInv(t, concurrency, es[0]);
      hide Inv, Step;
      Always(Step(t, concurrency, es[0]), concurrency, es[1..]);
    }
  }

  /**
   Under every interleaving the uploads in flight stay within the limit and the progress is exact: the
   count, the list and the bytes are those of the completed files.
   */
  lemma ProgressIsExact(files: seq<File>, concurrency: int, es: seq<Event>)
    requires Possible(Fresh(files), concurrency, es)
    ensures var t := Exec(Fresh(files), concurrency, es);
            && (t.flight.Keys != {} ==> |t.flight.Keys| <= concurrency)
            && t.done == |t.completed| && Distinct(t.completed)
            && (forall i: nat :: i in t.completed <==> i < |t.files| && t.files[i].state.Completed?)
            && (forall k :: 0 <= k < |t.completed| ==> t.completed[k] < |t.files|)
            && t.bytesDone == BytesOf(t.files, t.completed)
            && (t.done == |t.files| <==> forall i :: 0 <= i < |t.files| ==> t.files[i].state.Completed?)
  {
    FreshInv(files, concurrency);
    Always(Fresh(files), concurrency, es);
    var t := Exec(Fresh(files), concurrency, es);
    hide Exec;
    DoneCount(t.files, t.completed, t.done, t.bytesDone);
  }

  function Puts(t: Transfer, i: nat): nat { multiset(t.puts)[i] }

  lemma {:induction false} LaunchSkipsCompleted(t: Transfer, concurrency: int, i: nat)
    requires QueueInRange(t) && i < |t.files| && t.files[i].state.Completed?
    ensures var r := Launch(t, concurrency);
            i < |r.files| && r.files[i].state.Completed? && Puts(r, i) == Puts(t, i)
    decreases |t.queue| - t.index
  {
    if |t.flight.Keys| < concurrency && t.index < |t.queue| {
      var j := t.queue[t.index];
      var u := t.(index := t.index + 1);
      LaunchSkipsCompleted(if t.files[j].state.Completed? then u else StartUpload(u, j), concurrency, i);
    }
  }

  lemma PumpSkipsCompleted(t: Transfer, concurrency: int, i: nat)
    requires QueueInRange(t) && i < |t.files| && t.files[i].state.Completed?
    ensures var r := Pump(t, concurrency);
            i < |r.files| && r.files[i].state.Completed? && Puts(r, i) == Puts(t, i)
  {
    hide Launch, Waiting;
    LaunchSkipsCompleted(t, concurrency, i);
    var u := Launch(t, concurrency);
    assert Conclude(u).puts == u.puts && Conclude(u).files == u.files;
    hide Conclude;
  }

  lemma StepSkipsCompleted(t: Transfer, concurrency: int, e: Event, i: nat)
    requires Inv(t, concurrency) && Enabled(t, e) && i < |t.files| && t.files[i].state.Completed?
    ensures var r := Step(t, concurrency, e);
            i < |r.files| && r.files[i].state.Completed? && Puts(r, i) == Puts(t, i)
  {
    hide Pump, LedgerKept;
    match e {
      case Run(networkDown) =>
        PumpSkipsCompleted(Queued(t, networkDown), concurrency, i);
      case Settle(j) => PumpSkipsCompleted(t.(flight := t.flight - {j}), concurrency, i);
      case Resume(reselected) =>
        if reselected.Some? { RemarkKeeps(t.files, reselected.value, 0); }
        hide Remark;
      case _ =>
    }
  }

  /** A completed file stays completed and is never put again, in this run or a later one. */
  lemma {:induction false} CompletedIsNeverPutAgain(t: Transfer, concurrency: int, es: seq<Event>, i: nat)
    requires Inv(t, concurrency) && Possible(t, concurrency, es)
    requires i < |t.files| && t.files[i].state.Completed?
    ensures var r := Exec(t, concurrency, es);
            i < |r.files| && r.files[i].state.Completed? && Puts(r, i) == Puts(t, i)
    decreases |es|
  {
    if es != [] {
      StepKeepsInv(t, concurrency, es[0]);
      StepSkipsCompleted(t, concurrency, es[0], i);
      hide Inv, Step;
      CompletedIsNeverPutAgain(Step(t, concurrency, es[0]), concurrency, es[1..], i);
    }
  }

  // ---- A run settles ----

  /** While a run is on, something is in flight, and every pending file is still in the queue. */
  ghost predicate Alive(t: Transfer) {
    t.running ==> t.flight.Keys != {} && PendingQueued(t)
  }

  ghost function Awaited(flight: map<nat, Stage>): set<nat> {
    set i | i in flight && flight[i] == Putting
  }

  lemma AwaitedChanges(flight: map<nat, Stage>, i: nat)
    ensures Awaited(flight[i := Putting]) == Awaited(flight) + {i}
    ensures Awaited(flight[i := Returned]) == Awaited(flight) - {i}
    ensures Awaited(flight - {i}) == Awaited(flight) - {i}
    ensures flight[i := Putting].Keys == flight.Keys + {i} == flight[i := Returned].Keys
    ensures (flight - {i}).Keys == flight.Keys - {i}
  {
  }

  /** Unstarted uploads count three, started ones two until their result arrives and then one. */
  ghost function Work(t: Transfer): int {
    3 * (|t.queue| - t.index) + |t.flight.Keys| + |Awaited(t.flight)|
  }

  lemma {:induction false} LaunchStartsAll(t: Transfer, concurrency: int)
    requires Inv(t, concurrency) && t.running && PendingQueued(t)
    ensures var r := Launch(t, concurrency);
            && PendingQueued(r) && (|r.flight.Keys| >= concurrency || r.index == |r.queue|)
            && Work(r) <= Work(t)
    decreases |t.queue| - t.index
  {
    if |t.flight.Keys| < concurrency && t.index < |t.queue| {
      var i := t.queue[t.index];
      var u := t.(index := t.index + 1);
      assert t.queue[t.index..] == [i] + u.queue[u.index..];
      NextKeepsInv(t, concurrency);
      if !t.files[i].state.Completed? {
        StartCosts(u, i);
      }
      hide Inv;
      LaunchStartsAll(LaunchNext(t), concurrency);
    }
  }

  lemma StartCosts(u: Transfer, i: nat)
    requires i < |u.files| && i !in u.flight
    ensures Work(StartUpload(u, i)) <= Work(u) + 2
  {
    AwaitedChanges(u.flight, i);
    hide Awaited;
  }

  lemma PumpKeepsAlive(t: Transfer, concurrency: int)
    requires Inv(t, concurrency) && concurrency >= 1 && (t.running ==> PendingQueued(t))
    requires t.running || t.canceled || t.done == |t.files|
    ensures Alive(Pump(t, concurrency)) && Work(Pump(t, concurrency)) <= Work(t)
  {
    hide Launch, LedgerKept, Work;
    if !t.canceled && t.done != |t.files| {
      DoneCount(t.files, t.completed, t.done, t.bytesDone);
      LaunchStartsAll(t, concurrency);
      LaunchKeepsInv(t, concurrency);
      ConcludeAlive(Launch(t, concurrency), concurrency);
    }
    SameWork(t);
  }

  lemma ConcludeAlive(r: Transfer, concurrency: int)
    requires Inv(r, concurrency) && PendingQueued(r) && r.done < |r.files|
    requires |r.flight.Keys| >= concurrency >= 1 || r.index == |r.queue|
    ensures Alive(Conclude(r)) && Work(Conclude(r)) == Work(r)
  {
    hide LedgerKept;
  }

  lemma SameWork(t: Transfer)
    ensures forall s, o :: Work(Resolve(t.(status := s), o)) == Work(t)
  {
  }

  /** Files are not reselected while a run is on. */
  predicate OneAtATime(t: Transfer, e: Event) { e.Resume? ==> !t.running }

  predicate IsUploadEvent(e: Event) { e.Result? || e.Settle? }

  lemma StepKeepsAlive(t: Transfer, concurrency: int, e: Event)
    requires Inv(t, concurrency) && concurrency >= 1 && Alive(t) && Enabled(t, e) && OneAtATime(t, e)
    ensures Alive(Step(t, concurrency, e))
    ensures IsUploadEvent(e) ==> Work(Step(t, concurrency, e)) < Work(t)
    ensures e.Cancel? ==> Work(Step(t, concurrency, e)) == Work(t)
  {
    match e {
      case Run(networkDown) =>
        if !t.canceled && t.done != |t.files| {
          QueuedInv(t, concurrency, networkDown);
          hide Pump, Inv, Queued;
          PumpKeepsAlive(Queued(t, networkDown), concurrency);
        }
      case Result(i, stored) => ResultCosts(t, concurrency, i, stored);
      case Settle(i) =>
        SettleKeepsFlight(t, concurrency, i);
        SettleCosts(t, i);
        assert t.running || t.canceled || t.done == |t.files|;
        hide Pump, Inv;
        PumpKeepsAlive(t.(flight := t.flight - {i}), concurrency);
      case _ =>
    }
  }

  lemma SettleCosts(t: Transfer, i: nat)
    requires i in t.flight && t.flight[i] == Returned
    ensures Work(t.(flight := t.flight - {i})) < Work(t)
  {
    AwaitedChanges(t.flight, i);
    assert i !in Awaited(t.flight);
    hide Awaited;
  }

  lemma ResultCosts(t: Transfer, concurrency: int, i: nat, stored: bool)
    requires Inv(t, concurrency) && Alive(t) && Enabled(t, Result(i, stored))
    ensures Alive(Step(t, concurrency, Result(i, stored)))
    ensures Work(Step(t, concurrency, Result(i, stored))) < Work(t)
  {
    hide Inv, BytesOf;
    AwaitedChanges(t.flight, i);
    assert i in Awaited(t.flight);
    hide Awaited;
    assert PendingQueued(t) ==> PendingQueued(Step(t, concurrency, Result(i, stored)));
  }

  function UploadEvents(es: seq<Event>): nat {
    if es == [] then 0 else (if IsUploadEvent(es[0]) then 1 else 0) + UploadEvents(es[1..])
  }

  /**
   A run comes to an end once the uploads it started do. While it is on, some upload has a result or a
   continuation due, and however these and cancellations are interleaved there are at most `Work` of them.
   */
  lemma {:induction false} RunSettles(t: Transfer, concurrency: int, es: seq<Event>)
    requires Inv(t, concurrency) && concurrency >= 1 && Alive(t) && Possible(t, concurrency, es)
    requires forall e <- es :: IsUploadEvent(e) || e.Cancel?
    ensures UploadEvents(es) <= Work(t)
    ensures var r := Exec(t, concurrency, es);
            r.running ==> exists i :: Enabled(r, Settle(i)) || Enabled(r, Result(i, true))
    decreases |es|
  {
    if es == [] {
      if t.running {
        var i :| i in t.flight.Keys;
        assert Enabled(t, Settle(i)) || Enabled(t, Result(i, true));
      }
    } else {
      StepKeepsInv(t, concurrency, es[0]);
      StepKeepsAlive(t, concurrency, es[0]);
      hide Inv, Step, Alive, Work;
      RunSettles(Step(t, concurrency, es[0]), concurrency, es[1..]);
    }
  }

  // ---- When it does not ----

  ghost predicate Stuck(t: Transfer) { t.running && t.flight.Keys == {} }

  /** A run with nothing in flight never settles: only cancelling and reselecting remain, and neither ends it. */
  lemma {:induction false} StuckForever(t: Transfer, concurrency: int, es: seq<Event>)
    requires Stuck(t) && Possible(t, concurrency, es)
    ensures Stuck(Exec(t, concurrency, es))
    decreases |es|
  {
    if es != [] {
      StuckForever(Step(t, concurrency, es[0]), concurrency, es[1..]);
    }
  }

  /** Starting a run leaves it stuck exactly when a file is pending and no upload may ever be started. */
  lemma RunSticks(t: Transfer, concurrency: int, networkDown: bool)
    requires Inv(t, concurrency) && !t.running
    ensures Stuck(Step(t, concurrency, Run(networkDown))) <==>
            concurrency <= 0 && !t.canceled && exists j :: 0 <= j < |t.files| && t.files[j].state.Pending?
  {
    DoneCount(t.files, t.completed, t.done, t.bytesDone);
    if !t.canceled && t.done < |t.files| {
      QueuedInv(t, concurrency, networkDown);
      if concurrency >= 1 {
        PumpKeepsAlive(Queued(t, networkDown), concurrency);
      }
    }
    hide LedgerKept;
  }

  /** Every file left in the queue is already completed. */
  predicate NothingToLaunch(t: Transfer)
    requires QueueInRange(t)
  {
    forall k :: t.index <= k < |t.queue| ==> t.files[t.queue[k]].state.Completed?
  }

  /** Launching takes nothing out of flight, and leaves a run idle only if there was nothing to launch. */
  lemma {:induction false} LaunchIdles(t: Transfer, concurrency: int)
    requires QueueInRange(t)
    ensures t.flight.Keys <= Launch(t, concurrency).flight.Keys
    ensures t.flight.Keys == {} && concurrency >= 1 ==>
              (Launch(t, concurrency).flight.Keys == {} <==> NothingToLaunch(t))
    ensures NothingToLaunch(t) ==> Launch(t, concurrency) == t.(index := Launch(t, concurrency).index)
    decreases |t.queue| - t.index
  {
    if |t.flight.Keys| < concurrency && t.index < |t.queue| {
      var i := t.queue[t.index];
      assert !t.files[i].state.Completed? ==> i in LaunchNext(t).flight.Keys;
      LaunchIdles(LaunchNext(t), concurrency);
    }
  }

  /**
   The continuation of an upload leaves the run stuck exactly when it was the last in flight, with nothing
   cancelled, files still to complete, none of them left in the queue, and one put back to pending meanwhile.
   */
  lemma SettleSticks(t: Transfer, concurrency: int, i: nat)
    requires Inv(t, concurrency) && t.running && Enabled(t, Settle(i))
    ensures Stuck(Step(t, concurrency, Settle(i))) <==>
              && t.flight.Keys == {i} && !t.canceled && t.done < |t.files| && NothingToLaunch(t)
              && exists j :: 0 <= j < |t.files| && t.files[j].state.Pending?
  {
    DoneCount(t.files, t.completed, t.done, t.bytesDone);
    var u := t.(flight := t.flight - {i});
    assert u.flight.Keys == t.flight.Keys - {i};
    assert t.flight.Keys != {} && concurrency >= 1;
    LaunchIdles(u, concurrency);
    assert NothingToLaunch(u) == NothingToLaunch(t);
    hide LedgerKept, Launch;
  }

  // ---- What a run answers ----

  predicate AllCompleted(files: seq<File>) { forall i :: 0 <= i < |files| ==> files[i].state.Completed? }

  /** Nothing in flight and nothing left to do, and some file failed. */
  predicate GaveUp(t: Transfer) {
    && t.flight.Keys == {} && !t.canceled
    && (forall i :: 0 <= i < |t.files| ==> t.files[i].state.Completed? || t.files[i].state.Failed?)
    && exists i :: 0 <= i < |t.files| && t.files[i].state.Failed?
  }

  /** The pump has its turn: a run is started, or an upload of the current run has been settled. */
  predicate Pumps(t: Transfer, e: Event) { e.Run? || (e.Settle? && t.running) }

  /**
   Whenever the pump has its turn: a cancelled transfer answers "canceled"; a completed one succeeds; any other
   ends exactly when nothing is in flight and no file is pending or uploading, and then it has failed, with some
   failed file; and while it goes on it has no answer.
   */
  lemma AnswerIff(t: Transfer, concurrency: int, e: Event)
    requires Inv(t, concurrency) && Enabled(t, e) && Pumps(t, e) && (t.running ==> t.last.None?)
    ensures var r := Step(t, concurrency, e);
            && |r.files| == |t.files| && r.canceled == t.canceled
            && (r.running <==> !t.canceled && !AllCompleted(t.files) && !GaveUp(r))
            && (r.running ==> r.last == None && r.status == t.status)
            && (!r.running ==>
                  && (r.last == Some(WasCanceled) <==> t.canceled) && (r.status == StatusCanceled <==> t.canceled)
                  && (r.last == Some(Success) <==> !t.canceled && AllCompleted(t.files))
                  && (r.status == StatusCompleted <==> !t.canceled && AllCompleted(t.files))
                  && (r.last == Some(UploadFailed) <==> !t.canceled && GaveUp(r))
                  && (r.status == StatusFailed <==> !t.canceled && GaveUp(r)))
            && (AllCompleted(r.files) <==> AllCompleted(t.files))
  {
    DoneCount(t.files, t.completed, t.done, t.bytesDone);
    var p := if e.Run? then Queued(t, e.networkDown) else t.(flight := t.flight - {e.i});
    if e.Run? {
      if !t.canceled && t.done < |t.files| { QueuedInv(t, concurrency, e.networkDown); }
    } else {
      SettleKeepsFlight(t, concurrency, e.i);
    }
    if !t.canceled && t.done < |t.files| {
      hide Inv, Launch, LaunchNext, Waiting, Conclude;
      LaunchKeepsInv(p, concurrency);
      ConcludeAnswers(Launch(p, concurrency), concurrency);
    } else {
      hide Launch, LedgerKept, Unfinished;
    }
  }

  lemma ConcludeAnswers(u: Transfer, concurrency: int)
    requires Inv(u, concurrency) && u.running && u.last.None? && u.done < |u.files| && !u.canceled
    ensures var r := Conclude(u);
            && r == u.(status := r.status, running := r.running, last := r.last)
            && (r.running <==> !GaveUp(r)) && (r.running ==> r == u)
            && (!r.running ==> r.last == Some(UploadFailed) && r.status == StatusFailed)
            && !AllCompleted(r.files)
  {
    DoneCount(u.files, u.completed, u.done, u.bytesDone);
    hide LedgerKept;
  }

  /** No other event gives or takes an answer; an upload of an ended run leaves the answer as it was. */
  lemma AnswerStays(t: Transfer, concurrency: int, e: Event)
    requires Inv(t, concurrency) && Enabled(t, e) && !Pumps(t, e)
    ensures var r := Step(t, concurrency, e);
            && r.running == t.running && r.last == t.last && r.canceled == (t.canceled || e.Cancel?)
            && (e.Settle? ==> r == t.(flight := t.flight - {e.i}, status := if t.canceled then StatusCanceled else StatusCompleted))
            && (e.Cancel? ==> r == t.(canceled := true, status := CancelRequested))
            && (e.Result? ==> r.status == t.status)
            && (e.Resume? ==> r.status == t.status || r.status == StatusUploading)
            && (AllCompleted(t.files) ==> AllCompleted(r.files)) && |r.files| == |t.files|
  {
    hide LedgerKept, Launch;
    if e.Resume? && e.reselected.Some? { RemarkKeeps(t.files, e.reselected.value, 0); }
    hide Remark;
  }

  ghost predicate AnswersKept(t: Transfer) {
    && (t.running ==> t.last.None?)
    && (t.last == Some(Success) || t.status == StatusCompleted ==> AllCompleted(t.files))
    && (t.last == Some(WasCanceled) || t.status in {CancelRequested, StatusCanceled} ==> t.canceled)
    && (t.status == StatusFailed && !t.running ==> t.last == Some(UploadFailed))
  }

  lemma StepKeepsAnswers(t: Transfer, concurrency: int, e: Event)
    requires Inv(t, concurrency) && Enabled(t, e) && AnswersKept(t)
    ensures AnswersKept(Step(t, concurrency, e))
    ensures Step(t, concurrency, e).last == Some(UploadFailed) ==>
              t.last == Some(UploadFailed) || (Pumps(t, e) && GaveUp(Step(t, concurrency, e)))
  {
    if Pumps(t, e) {
      AnswerIff(t, concurrency, e);
    } else {
      AnswerStays(t, concurrency, e);
    }
    if e.Settle? { DoneCount(t.files, t.completed, t.done, t.bytesDone); }
    hide Step, LedgerKept, GaveUp;
  }

  /** At some event of the run the pump found that nothing was left to do and some file had failed. */
  predicate GaveUpIn(t: Transfer, concurrency: int, es: seq<Event>)
    requires Possible(t, concurrency, es)
    decreases |es|
  {
    es != [] &&
    ((Pumps(t, es[0]) && GaveUp(Step(t, concurrency, es[0]))) || GaveUpIn(Step(t, concurrency, es[0]), concurrency, es[1..]))
  }

  lemma {:induction false} RunKeepsAnswers(t: Transfer, concurrency: int, es: seq<Event>)
    requires Inv(t, concurrency) && AnswersKept(t) && Possible(t, concurrency, es)
    ensures AnswersKept(Exec(t, concurrency, es))
    ensures Exec(t, concurrency, es).last == Some(UploadFailed) ==> t.last == Some(UploadFailed) || GaveUpIn(t, concurrency, es)
    decreases |es|
  {
    if es != [] {
      StepKeepsInv(t, concurrency, es[0]);
      StepKeepsAnswers(t, concurrency, es[0]);
      hide Inv, Step, AnswersKept, GaveUp;
      RunKeepsAnswers(Step(t, concurrency, es[0]), concurrency, es[1..]);
    }
  }

  /**
   Over every interleaving of runs, results, cancellations and reselections: the transfer has succeeded only when
   every file is completed, was cancelled only when cancelling was asked for, and has failed only when a run came
   to a point with nothing in flight, no file pending or uploading, and some file failed.
   */
  lemma AnswersAreRight(files: seq<File>, concurrency: int, es: seq<Event>)
    requires Possible(Fresh(files), concurrency, es)
    ensures var t := Exec(Fresh(files), concurrency, es);
            && (t.running ==> t.last.None?)
            && (t.last == Some(Success) || t.status == StatusCompleted ==> AllCompleted(t.files))
            && (t.last == Some(WasCanceled) || t.status in {CancelRequested, StatusCanceled} ==> t.canceled)
            && (t.last == Some(UploadFailed) ==> GaveUpIn(Fresh(files), concurrency, es))
            && (t.status == StatusFailed && !t.running ==> t.last == Some(UploadFailed))
  {
    FreshInv(files, concurrency);
    RunKeepsAnswers(Fresh(files), concurrency, es);
    hide Exec;
  }

  // ---- What each event does to the files ----

  /** The result of an upload is the state of its file and its entry in the ledger, and nothing else. */
  lemma ResultOutcome(t: Transfer, concurrency: int, i: nat, stored: bool)
    requires Inv(t, concurrency) && Enabled(t, Result(i, stored))
    ensures var r := Step(t, concurrency, Result(i, stored));
            && (if stored then r.files[i].state.Completed? else r.files[i].state.Failed?)
            && (forall j :: 0 <= j < |t.files| && j != i ==> r.files[j] == t.files[j])
            && r.completed == t.completed + (if stored then [i] else [])
            && Enabled(r, Settle(i)) && r.flight.Keys == t.flight.Keys
            && r.queue == t.queue && r.index == t.index && r.puts == t.puts && r.running == t.running
  {
  }

  /** The upload of a file is started, or has failed at once with the network down. */
  predicate Started(t: Transfer, r: Transfer, i: nat)
    requires i < |t.files| == |r.files|
  {
    !t.files[i].state.Completed? && i in r.flight
    && if t.down then r.files[i] == t.files[i].(state := Failed) && r.flight[i] == Returned
       else r.files[i] == t.files[i].(state := Uploading) && r.flight[i] == Putting
  }

  /** The file and its upload are as they were. */
  predicate LeftAlone(t: Transfer, r: Transfer, i: nat)
    requires i < |t.files| == |r.files|
  {
    r.files[i] == t.files[i] && (i in r.flight <==> i in t.flight) && (i in t.flight ==> r.flight[i] == t.flight[i])
  }

  /** Uploads are launched in the order of the queue, until the limit is reached or the queue is empty. */
  lemma {:induction false} LaunchStops(t: Transfer, concurrency: int)
    requires QueueInRange(t)
    ensures var r := Launch(t, concurrency);
            && t.index <= r.index <= |t.queue| && r.queue == t.queue && r.down == t.down && |r.files| == |t.files|
            && (|r.flight.Keys| >= concurrency || r.index == |t.queue|)
            && (t.down ==> r.puts == t.puts)
    decreases |t.queue| - t.index
  {
    if |t.flight.Keys| < concurrency && t.index < |t.queue| { LaunchStops(LaunchNext(t), concurrency); }
  }

  /** Each file taken off the queue that is not completed is started, and no other file or upload changes. */
  lemma {:induction false} LaunchOutcome(t: Transfer, concurrency: int, i: nat)
    requires Inv(t, concurrency) && t.running && i < |t.files|
    ensures var r := Launch(t, concurrency);
            && |r.files| == |t.files| && t.index <= r.index <= |t.queue|
            && (if i in t.queue[t.index..r.index] && !t.files[i].state.Completed? then Started(t, r, i) else LeftAlone(t, r, i))
    decreases |t.queue| - t.index
  {
    assert QueueInRange(t);
    if |t.flight.Keys| < concurrency && t.index < |t.queue| {
      var u, first := LaunchNext(t), t.queue[t.index];
      NextKeepsInv(t, concurrency);
      TakenFirst(t, concurrency, i);
      var r := Launch(u, concurrency);
      assert r == Launch(t, concurrency);
      hide Inv, LaunchNext, Started, LeftAlone, Launch, QueueInRange;
      LaunchStops(u, concurrency);
      LaunchOutcome(u, concurrency, i);
      TakenSplits(t.queue, t.index, r.index, i);
      StartedThen(t, u, r, i);
    } else {
      assert t.queue[t.index..t.index] == [];
    }
  }

  lemma TakenSplits(queue: seq<nat>, a: nat, b: nat, i: nat)
    requires a < b <= |queue|
    ensures i in queue[a..b] <==> i == queue[a] || i in queue[a + 1..b]
    ensures i in queue[a + 1..b] ==> i in queue[a + 1..]
  {
    assert queue[a..b] == [queue[a]] + queue[a + 1..b];
    assert queue[a + 1..b] <= queue[a + 1..];
  }

  lemma StartedThen(t: Transfer, u: Transfer, r: Transfer, i: nat)
    requires i < |t.files| == |u.files| == |r.files| && t.down == u.down
    ensures LeftAlone(t, u, i) && Started(u, r, i) ==> Started(t, r, i)
    ensures LeftAlone(t, u, i) && LeftAlone(u, r, i) ==> LeftAlone(t, r, i)
    ensures Started(t, u, i) && LeftAlone(u, r, i) ==> Started(t, r, i)
    ensures LeftAlone(t, u, i) ==> u.files[i].state == t.files[i].state
  {
  }

  /** The first file taken is not taken again. */
  lemma TakenFirst(t: Transfer, concurrency: int, i: nat)
    requires Inv(t, concurrency) && t.running && t.index < |t.queue| && i < |t.files|
    ensures var (u, first) := (LaunchNext(t), t.queue[t.index]);
            && u.index == t.index + 1 && u.queue == t.queue && u.down == t.down && u.running && |u.files| == |t.files|
            && first !in u.queue[u.index..]
            && (if i == first && !t.files[i].state.Completed? then Started(t, u, i) else LeftAlone(t, u, i))
  {
    TakeNext(t, concurrency);
    hide LedgerKept, FlightKept;
  }

  /** Each upload started puts its object once, and no other object is put; with the network down none is. */
  lemma {:induction false} LaunchPuts(t: Transfer, concurrency: int, i: nat)
    requires Inv(t, concurrency) && t.running && i < |t.files|
    ensures var r := Launch(t, concurrency);
            && t.index <= r.index <= |t.queue|
            && Puts(r, i) == Puts(t, i) + if !t.down && i in t.queue[t.index..r.index] && !t.files[i].state.Completed? then 1 else 0
    decreases |t.queue| - t.index
  {
    assert QueueInRange(t);
    if |t.flight.Keys| < concurrency && t.index < |t.queue| {
      var u, first := LaunchNext(t), t.queue[t.index];
      NextKeepsInv(t, concurrency);
      TakenFirst(t, concurrency, i);
      NextPuts(t, i);
      StartedThen(t, u, u, i);
      var r := Launch(u, concurrency);
      assert r == Launch(t, concurrency);
      hide Inv, LaunchNext, Started, LeftAlone, Launch, QueueInRange, Puts;
      LaunchStops(u, concurrency);
      LaunchPuts(u, concurrency, i);
      TakenSplits(t.queue, t.index, r.index, i);
    } else {
      assert t.queue[t.index..t.index] == [];
    }
  }

  lemma NextPuts(t: Transfer, i: nat)
    requires QueueInRange(t) && t.index < |t.queue|
    ensures var first := t.queue[t.index];
            Puts(LaunchNext(t), i) == Puts(t, i) + if first == i && !t.down && !t.files[first].state.Completed? then 1 else 0
  {
  }

  /**
   A run of a transfer that is neither cancelled nor complete takes the pending and failed files in order, under the
   state of the network it is given; each file it takes up at once is put and uploading, or has failed with nothing
   put when the network is down, and no other file changes.
   */
  lemma RunStarts(t: Transfer, concurrency: int, networkDown: bool, i: nat)
    requires Inv(t, concurrency) && !t.running && !t.canceled && !AllCompleted(t.files) && i < |t.files|
    ensures var r := Step(t, concurrency, Run(networkDown));
            && |r.files| == |t.files| && r.index <= |r.queue| && r.down == networkDown
            && (forall j: nat :: j in r.queue <==> j < |t.files| && (t.files[j].state.Pending? || t.files[j].state.Failed?))
            && (forall a, b :: 0 <= a < b < |r.queue| ==> r.queue[a] < r.queue[b])
            && (|r.flight.Keys| >= concurrency || r.index == |r.queue|)
            && (i in r.queue[..r.index] ==>
                  && r.files[i] == t.files[i].(state := if networkDown then Failed else Uploading)
                  && i in r.flight && Puts(r, i) == Puts(t, i) + if networkDown then 0 else 1)
            && (i !in r.queue[..r.index] ==> r.files[i] == t.files[i] && Puts(r, i) == Puts(t, i))
  {
    DoneCount(t.files, t.completed, t.done, t.bytesDone);
    QueuedInv(t, concurrency, networkDown);
    var q := Queued(t, networkDown);
    var r := Launch(q, concurrency);
    LaunchStops(q, concurrency);
    LaunchOutcome(q, concurrency, i);
    LaunchPuts(q, concurrency, i);
    assert q.queue[0..r.index] == q.queue[..r.index];
    ConcludeKeeps(r);
    assert Step(t, concurrency, Run(networkDown)) == Conclude(r);
    if i in q.queue[..r.index] { assert i in q.queue; }
    hide Inv, Launch, Conclude, Unfinished;
  }

  lemma ConcludeKeeps(t: Transfer)
    ensures var r := Conclude(t); r == t.(status := r.status, running := r.running, last := r.last)
  {
  }

  /** The file reselected for `f`: the first with its name or its hash. */
  predicate Matches(f: File, m: Reselected) { m.localId == f.localId || m.hash == f.hash }

  predicate Confirmed(f: File, rs: seq<Reselected>) {
    exists k :: 0 <= k < |rs| && Matches(f, rs[k]) && rs[k].hash == f.hash && forall j :: 0 <= j < k ==> !Matches(f, rs[j])
  }

  lemma {:induction false} FindMatchIs(f: File, rs: seq<Reselected>)
    ensures (FindMatch(f, rs).Some? && FindMatch(f, rs).value.hash == f.hash) <==> Confirmed(f, rs)
  {
    if rs != [] && !Matches(f, rs[0]) {
      FindMatchIs(f, rs[1..]);
      if Confirmed(f, rs[1..]) {
        var k :| 0 <= k < |rs[1..]| && Matches(f, rs[1..][k]) && rs[1..][k].hash == f.hash && forall j :: 0 <= j < k ==> !Matches(f, rs[1..][j]);
        assert rs[k + 1] == rs[1..][k];
        assert forall j :: 1 <= j < k + 1 ==> rs[j] == rs[1..][j - 1];
      }
      if Confirmed(f, rs) {
        var k :| 0 <= k < |rs| && Matches(f, rs[k]) && rs[k].hash == f.hash && forall j :: 0 <= j < k ==> !Matches(f, rs[j]);
        assert rs[1..][k - 1] == rs[k];
        assert forall j :: 0 <= j < k - 1 ==> rs[1..][j] == rs[j + 1];
      }
    }
  }

  /** The files from `n` to before `m` that are not completed are confirmed. */
  predicate ConfirmedFrom(files: seq<File>, rs: seq<Reselected>, n: nat, m: nat)
    requires m <= |files|
  {
    forall j :: n <= j < m && !files[j].state.Completed? ==> Confirmed(files[j], rs)
  }

  lemma ConfirmedFirst(files: seq<File>, rs: seq<Reselected>, n: nat, m: nat)
    requires n < m <= |files| && !files[n].state.Completed?
    ensures ConfirmedFrom(files, rs, n, m) <==>
              Confirmed(files[n], rs) && ConfirmedFrom(files[n := files[n].(state := Pending)], rs, n + 1, m)
  {
    hide Confirmed;
    var files' := files[n := files[n].(state := Pending)];
    assert forall j :: n < j < m ==> files'[j] == files[j];
  }

  /**
   Resuming is accepted exactly when every file that is not completed is confirmed by the first reselected file
   of its name or hash; then all of them are pending again. Otherwise those before the first unconfirmed one are.
   */
  lemma {:induction false} ResumeOutcome(files: seq<File>, rs: seq<Reselected>, n: nat, i: nat)
    requires n <= |files| && i < |files|
    ensures Remark(files, rs, n).1 <==> ConfirmedFrom(files, rs, n, |files|)
    ensures Remark(files, rs, n).0[i] ==
            if i >= n && !files[i].state.Completed? && ConfirmedFrom(files, rs, n, i + 1)
            then files[i].(state := Pending) else files[i]
    decreases |files| - n
  {
    hide Confirmed, FindMatch;
    if n < |files| && files[n].state.Completed? {
      ResumeOutcome(files, rs, n + 1, i);
    } else if n < |files| {
      FindMatchIs(files[n], rs);
      ConfirmedFirst(files, rs, n, |files|);
      if i >= n { ConfirmedFirst(files, rs, n, i + 1); }
      hide ConfirmedFrom;
      ResumeOutcome(files[n := files[n].(state := Pending)], rs, n + 1, i);
      NoneToConfirm(files[n := files[n].(state := Pending)], rs, n + 1);
    }
  }

  lemma NoneToConfirm(files: seq<File>, rs: seq<Reselected>, n: nat)
    requires n <= |files|
    ensures ConfirmedFrom(files, rs, n, n)
  {
  }

  /** Resuming a transfer that is complete, or with no files, changes nothing; otherwise it does to the files, and to the status if accepted, just this. */
  lemma ResumeIff(t: Transfer, concurrency: int, reselected: Option<seq<Reselected>>, i: nat)
    requires QueueInRange(t) && i < |t.files|
    ensures var r := Step(t, concurrency, Resume(reselected));
            if t.status == StatusCompleted || reselected == None then r == t
            else
              var rs := reselected.value;
              && |r.files| == |t.files| && r == t.(files := r.files, status := r.status)
              && r.status == (if ConfirmedFrom(t.files, rs, 0, |t.files|) then StatusUploading else t.status)
              && r.files[i] == if !t.files[i].state.Completed? && ConfirmedFrom(t.files, rs, 0, i + 1)
                               then t.files[i].(state := Pending) else t.files[i]
  {
    if reselected.Some? { ResumeOutcome(t.files, reselected.value, 0, i); }
    hide Remark, ConfirmedFrom;
  }

  // ---- The manager's record of one transfer, in place ----

  class TransferManager {
    const concurrency: int
    var files: seq<File>
    var status: Status
    var canceled: bool
    var done: nat
    var bytesDone: nat
    var completed: seq<nat>
    ghost var puts: seq<nat>
    var running: bool
    var last: Option<Outcome>
    var down: bool
    var queue: seq<nat>
    var index: nat
    var flight: map<nat, Stage>
    var active: int

    ghost function State(): Transfer
      reads this
    {
      Transfer(files, status, canceled, done, bytesDone, completed, puts, running, last, down, queue, index, flight)
    }

    /** The counter the pump tests is the number of uploads in flight. */
    ghost predicate Valid()
      reads this
    {
      Inv(State(), concurrency) && active == |flight.Keys|
    }

    constructor (files: seq<File>, concurrency: int)
      ensures State() == Fresh(files) && this.concurrency == concurrency && Valid()
    {
      this.concurrency := concurrency;
      this.files := seq(|files|, i requires 0 <= i < |files| => files[i].(state := Pending));
      status, canceled, done, bytesDone, completed, puts := StatusUploading, false, 0, 0, [], [];
      running, last, down, queue, index, flight, active := false, None, false, [], 0, map[], 0;
      new;
      FreshInv(files, concurrency);
    }

    method ResolveRun(o: Outcome)
      modifies this`running, this`last
      ensures State() == Resolve(old(State()), o)
    {
      if running {
        running, last := false, Some(o);
      }
    }

    /** The part of an upload that is done before its result is awaited. */
    method UploadOne(i: nat)
      requires i < |files|
      modifies this`files, this`flight, this`puts
      ensures State() == StartUpload(old(State()), i)
    {
      if down {
        files := files[i := files[i].(state := Failed)];
        flight := flight[i := Returned];
        return;
      }
      files := files[i := files[i].(state := Uploading)];
      flight := flight[i := Putting];
      puts := puts + [i];
    }

    method StartNext()
      requires Valid() && running && active < concurrency && index < |queue|
      modifies this
      ensures State() == LaunchNext(old(State())) && Valid()
    {
      assert QueueInRange(State());
      hide Inv, StartUpload;
      NextKeepsInv(State(), concurrency);
      var i := queue[index];
      index := index + 1;
      if files[i].state.Completed? {
        return;
      }
      active := active + 1;
      UploadOne(i);
    }

    /** Starts queued uploads while there is room. */
    method LaunchUploads()
      requires Valid() && running
      modifies this
      ensures State() == Launch(old(State()), concurrency) && Valid()
    {
      assert QueueInRange(State());
      ghost var t := State();
      while active < concurrency && index < |queue|
        invariant Valid() && running && QueueInRange(State())
        invariant Launch(State(), concurrency) == Launch(t, concurrency)
        decreases |queue| - index
      {
        hide LedgerKept;
        StartNext();
      }
    }

    method ConcludeRun()
      requires active == |flight.Keys|
      modifies this`status, this`running, this`last
      ensures State() == Conclude(old(State()))
    {
      if active == 0 && done < |files| {
        var waiting := exists i :: 0 <= i < |files| && (files[i].state.Pending? || files[i].state.Uploading?);
        if !waiting {
          if forall i :: 0 <= i < |files| ==> files[i].state.Completed? {
            status := StatusCompleted;
            ResolveRun(Success);
          } else {
            status := StatusFailed;
            ResolveRun(UploadFailed);
          }
        }
      }
    }

    method RunPump()
      requires Valid() && (running || canceled || done == |files|)
      modifies this
      ensures State() == Pump(old(State()), concurrency) && Valid()
    {
      hide Inv, Launch, Waiting;
      ghost var t := State();
      PumpKeepsInv(t, concurrency);
      if canceled {
        status := StatusCanceled;
        ResolveRun(WasCanceled);
        return;
      }
      if done == |files| {
        status := StatusCompleted;
        ResolveRun(Success);
        return;
      }
      LaunchUploads();
      ConcludeRun();
    }

    method StartRun(networkDown: bool)
      requires Valid() && Enabled(State(), Run(networkDown))
      modifies this
      ensures State() == Step(old(State()), concurrency, Run(networkDown)) && Valid()
    {
      hide Inv, Pump, ResultStep, ResumeStep, Unfinished, PendingQueued;
      StepKeepsInv(State(), concurrency, Run(networkDown));
      if !canceled && done != |files| { QueuedInv(State(), concurrency, networkDown); }
      if canceled {
        status, last := StatusCanceled, Some(WasCanceled);
        return;
      }
      if done == |files| {
        status, last := StatusCompleted, Some(Success);
        return;
      }
      queue, index, active := Unfinished(files, |files|), 0, 0;
      running, last, down := true, None, networkDown;
      RunPump();
    }

    method OnResult(i: nat, stored: bool)
      requires Valid() && Enabled(State(), Result(i, stored))
      modifies this
      ensures State() == Step(old(State()), concurrency, Result(i, stored)) && Valid()
    {
      hide Inv, Awaited, RunStep, ResumeStep, Pump;
      StepKeepsInv(State(), concurrency, Result(i, stored));
      AwaitedChanges(flight, i);
      if stored {
        done := done + 1;
        bytesDone := bytesDone + files[i].bytes;
        completed := completed + [i];
        files := files[i := files[i].(state := Completed)];
      } else {
        files := files[i := files[i].(state := Failed)];
      }
      flight := flight[i := Returned];
    }

    method OnSettled(i: nat)
      requires Valid() && Enabled(State(), Settle(i))
      modifies this
      ensures State() == Step(old(State()), concurrency, Settle(i)) && Valid()
    {
      assert running || canceled || done == |files|;
      hide Inv, Awaited, Pump, RunStep, ResumeStep, ResultStep;
      SettleKeepsFlight(State(), concurrency, i);
      AwaitedChanges(flight, i);
      active := active - 1;
      flight := flight - {i};
      RunPump();
    }

    method CancelTransfer()
      requires Valid()
      modifies this
      ensures State() == Step(old(State()), concurrency, Cancel) && Valid()
    {
      StepKeepsInv(State(), concurrency, Cancel);
      canceled, status := true, CancelRequested;
    }

    method ResumeAfterRestart(reselected: Option<seq<Reselected>>) returns (ok: bool)
      requires Valid()
      modifies this
      ensures State() == Step(old(State()), concurrency, Resume(reselected)) && Valid()
      ensures ok == (old(status).StatusCompleted? || (reselected.Some? && Remark(old(files), reselected.value, 0).1))
    {
      hide Inv, FindMatch, RunStep, ResultStep, Pump;
      ghost var t := State();
      StepKeepsInv(t, concurrency, Resume(reselected));
      if status.StatusCompleted? {
        return true;
      }
      if reselected.None? {
        return false;
      }
      for n := 0 to |files|
        invariant |files| == |t.files|
        invariant State() == t.(files := files)
        invariant Remark(files, reselected.value, n) == Remark(t.files, reselected.value, 0)
        invariant active == old(active)
      {
        if files[n].state.Completed? {
          continue;
        }
        var m := FindMatch(files[n], reselected.value);
        if m.None? || m.value.hash != files[n].hash {
          return false;
        }
        files := files[n := files[n].(state := Pending)];
      }
      status := StatusUploading;
      return true;
    }
  }
}
