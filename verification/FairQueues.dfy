/**
 Intake and provider queues with leases, per-credential caps, retries, dead letters and a circuit
 breaker. Both queues share one sequence: an item without a credential is an intake item, and within
 each queue the order is that of enqueueing. An item's id is its position.
 */
module FairQueueing {
  import opened Text
  import opened Counting

  datatype Item = Item(
    job: string,
    user: string,
    credential: Option<string>,
    enqueuedAt: int,
    attempts: nat,
    done: bool,
    leased: bool,
    expiresAt: int,
    worker: Option<string>,
    canceled: bool)

  datatype Reason = UncertainQuery | MaxAttempts

  datatype Config = Config(cap: int, leaseMs: int)

  datatype Queues = Queues(
    items: seq<Item>,
    leases: set<nat>,
    dead: seq<(nat, Reason)>,
    open: bool,
    failures: nat,
    inflight: map<string, int>,
    served: map<string, nat>)

  datatype Event =
    | EnqueueIntake(job: string, user: string, now: int)
    | EnqueueProvider(job: string, user: string, credential: string, now: int)
    | ClaimIntake(worker: string, now: int)
    | ClaimProvider(worker: string, now: int)
    | Heartbeat(id: nat, worker: string, now: int)
    | Complete(id: nat, success: bool, uncertain: bool)
    | RecoverExpired(now: int)
    | CancelJob(job: string)
    | ResetCircuit

  function Empty(): Queues { Queues([], {}, [], false, 0, map[], map[]) }

  // ---- Choosing what to claim ----

  function Served(q: Queues, user: string): nat { if user in q.served then q.served[user] else 0 }

  function InFlight(q: Queues, c: string): int { if c in q.inflight then q.inflight[c] else 0 }

  predicate Pending(q: Queues, provider: bool, i: nat) {
    i < |q.items| && !q.items[i].done && !q.items[i].leased && q.items[i].credential.Some? == provider
  }

  /** Least service first, then oldest, then first in the queue. */
  predicate Before(q: Queues, i: nat, j: nat)
    requires i < |q.items| && j < |q.items|
  {
    var a, b := q.items[i], q.items[j];
    var sa, sb := Served(q, a.user), Served(q, b.user);
    sa < sb || (sa == sb && (a.enqueuedAt < b.enqueuedAt || (a.enqueuedAt == b.enqueuedAt && i < j)))
  }

  predicate Indices(q: Queues, s: seq<nat>) { forall k :: 0 <= k < |s| ==> s[k] < |q.items| }

  function PendingBelow(q: Queues, provider: bool, n: nat): (s: seq<nat>)
    requires n <= |q.items|
    ensures Indices(q, s)
    ensures forall i: nat :: i in s <==> i < n && Pending(q, provider, i)
  {
    if n == 0 then [] else PendingBelow(q, provider, n - 1) + if Pending(q, provider, n - 1) then [n - 1] else []
  }

  function Insert(q: Queues, s: seq<nat>, i: nat): (t: seq<nat>)
    requires Indices(q, s) && i < |q.items|
    ensures Indices(q, t)
    ensures forall x :: x in t <==> x in s || x == i
  {
    if s == [] then [i]
    else if Before(q, i, s[0]) then [i] + s
    else [s[0]] + Insert(q, s[1..], i)
  }

  /** The library's stable sort by served count and age. */
  function Sort(q: Queues, s: seq<nat>): (t: seq<nat>)
    requires Indices(q, s)
    ensures Indices(q, t)
    ensures forall x :: x in t <==> x in s
  {
    if s == [] then [] else Insert(q, Sort(q, s[..|s| - 1]), s[|s| - 1])
  }

  ghost predicate Ordered(q: Queues, s: seq<nat>) {
    Indices(q, s) && forall a, b :: 0 <= a < b < |s| ==> s[a] == s[b] || Before(q, s[a], s[b])
  }

  lemma {:induction false} InsertOrdered(q: Queues, s: seq<nat>, i: nat)
    requires Ordered(q, s) && i < |q.items|
    ensures Ordered(q, Insert(q, s, i))
  {
    if s == [] {
    } else if Before(q, i, s[0]) {
      ConsOrdered(q, i, s);
    } else {
      InsertOrdered(q, s[1..], i);
      ConsOrdered(q, s[0], Insert(q, s[1..], i));
    }
  }

  lemma ConsOrdered(q: Queues, x: nat, t: seq<nat>)
    requires Ordered(q, t) && x < |q.items|
    requires forall y :: y in t ==> x == y || Before(q, x, y)
    ensures Ordered(q, [x] + t)
  {
    hide Before;
    forall b | 0 <= b < |t| ensures x == t[b] || Before(q, x, t[b]) {
      assert t[b] in t;
    }
  }

  lemma {:induction false} SortOrdered(q: Queues, s: seq<nat>)
    requires Indices(q, s)
    ensures Ordered(q, Sort(q, s))
  {
    if s != [] {
      SortOrdered(q, s[..|s| - 1]);
      InsertOrdered(q, Sort(q, s[..|s| - 1]), s[|s| - 1]);
    }
  }

  predicate Capped(q: Queues, cap: int, i: nat)
    requires i < |q.items|
  {
    q.items[i].credential.Some? && InFlight(q, q.items[i].credential.value) >= cap
  }

  function FirstUncapped(q: Queues, cap: int, s: seq<nat>): Option<nat>
    requires Indices(q, s)
  {
    if s == [] then None else if Capped(q, cap, s[0]) then FirstUncapped(q, cap, s[1..]) else Some(s[0])
  }

  function Choice(q: Queues, cap: int, provider: bool): Option<nat> {
    if provider && q.open then None
    else FirstUncapped(q, cap, Sort(q, PendingBelow(q, provider, |q.items|)))
  }

  predicate Eligible(q: Queues, cap: int, provider: bool, i: nat) {
    Pending(q, provider, i) && !Capped(q, cap, i) && !(provider && q.open)
  }

  lemma {:induction false} FirstIsLeast(q: Queues, cap: int, s: seq<nat>)
    requires Ordered(q, s)
    ensures match FirstUncapped(q, cap, s)
            case Some(i) => i in s && !Capped(q, cap, i) &&
                            forall j :: j in s && !Capped(q, cap, j) && j != i ==> Before(q, i, j)
            case None => forall j :: j in s ==> Capped(q, cap, j)
  {
    if s != [] {
      FirstIsLeast(q, cap, s[1..]);
    }
  }

  /** A claim takes the eligible item that precedes every other, and fails only if there is none. */
  lemma ClaimTakesLeast(q: Queues, cap: int, provider: bool)
    ensures match Choice(q, cap, provider)
            case Some(i) => Eligible(q, cap, provider, i) &&
                            forall j :: Eligible(q, cap, provider, j) && j != i ==> Before(q, i, j)
            case None => forall j :: !Eligible(q, cap, provider, j)
  {
    var s := PendingBelow(q, provider, |q.items|);
    SortOrdered(q, s);
    FirstIsLeast(q, cap, Sort(q, s));
  }

  // ---- One event ----

  function Put(q: Queues, i: nat, x: Item): Queues
    requires i < |q.items|
  {
    q.(items := q.items[i := x])
  }

  /** The slot count as the source computes it: an absent or zero count is taken for one. */
  function Returned(inflight: map<string, int>, c: Option<string>): map<string, int> {
    if c.None? then inflight
    else
      var n := if c.value in inflight && inflight[c.value] != 0 then inflight[c.value] else 1;
      inflight[c.value := if n - 1 > 0 then n - 1 else 0]
  }

  function Claimed(q: Queues, k: Config, i: nat, worker: string, now: int): Queues
    requires i < |q.items|
  {
    var x := q.items[i];
    q.(items := q.items[i := x.(leased := true, expiresAt := now + k.leaseMs, worker := Some(worker))],
       leases := q.leases + {i},
       inflight := if x.credential.None? then q.inflight
                   else q.inflight[x.credential.value := InFlight(q, x.credential.value) + 1],
       served := q.served[x.user := Served(q, x.user) + 1])
  }

  function RecoverOne(q: Queues, now: int, i: nat): Queues
    requires i < |q.items|
  {
    var x := q.items[i];
    if i in q.leases && x.expiresAt < now then
      q.(items := q.items[i := x.(leased := false, worker := None)],
         leases := q.leases - {i},
         inflight := Returned(q.inflight, x.credential))
    else q
  }

  function CancelOne(q: Queues, job: string, i: nat): Queues
    requires i < |q.items|
  {
    var x := q.items[i];
    if x.job == job && !x.done then
      q.(items := q.items[i := x.(done := true, canceled := true)],
         leases := if x.leased then q.leases - {i} else q.leases)
    else q
  }

  function RecoverBelow(q: Queues, now: int, n: nat): (r: Queues)
    requires n <= |q.items|
    ensures |r.items| == |q.items| && r.served == q.served
  {
    if n == 0 then q else RecoverOne(RecoverBelow(q, now, n - 1), now, n - 1)
  }

  function CancelBelow(q: Queues, job: string, n: nat): (r: Queues)
    requires n <= |q.items|
    ensures |r.items| == |q.items| && r.served == q.served
  {
    if n == 0 then q else CancelOne(CancelBelow(q, job, n - 1), job, n - 1)
  }

  function Completed(q: Queues, id: nat, success: bool, uncertain: bool): Queues
    requires id < |q.items|
  {
    var x := q.items[id].(done := true, leased := false);
    var r := Put(q, id, x).(leases := q.leases - {id}, inflight := Returned(q.inflight, x.credential));
    if uncertain then
      r.(dead := r.dead + [(id, UncertainQuery)], failures := r.failures + 1,
         open := r.open || r.failures + 1 >= 3)
    else if !success then
      var y := x.(attempts := x.attempts + 1);
      if y.attempts >= 3 then Put(r, id, y).(dead := r.dead + [(id, MaxAttempts)])
      else Put(r, id, y.(done := false))
    else r.(failures := if r.failures > 0 then r.failures - 1 else 0)
  }

  function Step(q: Queues, k: Config, e: Event): Queues {
    match e
    case EnqueueIntake(job, user, now) =>
      q.(items := q.items + [Item(job, user, None, now, 0, false, false, 0, None, false)])
    case EnqueueProvider(job, user, credential, now) =>
      if credential == "" || q.open then q
      else q.(items := q.items + [Item(job, user, Some(credential), now, 0, false, false, 0, None, false)])
    case ClaimIntake(worker, now) =>
      var c := Choice(q, k.cap, false);
      ChoiceIsItem(q, k.cap, false);
      if c.Some? then Claimed(q, k, c.value, worker, now) else q
    case ClaimProvider(worker, now) =>
      var c := Choice(q, k.cap, true);
      ChoiceIsItem(q, k.cap, true);
      if c.Some? then Claimed(q, k, c.value, worker, now) else q
    case Heartbeat(id, worker, now) =>
      if id in q.leases && id < |q.items| && q.items[id].worker == Some(worker) && q.items[id].expiresAt >= now
      then Put(q, id, q.items[id].(expiresAt := now + k.leaseMs))
      else q
    case Complete(id, success, uncertain) =>
      if id in q.leases && id < |q.items| then Completed(q, id, success, uncertain) else q
    case RecoverExpired(now) => RecoverBelow(q, now, |q.items|)
    case CancelJob(job) => CancelBelow(q, job, |q.items|)
    case ResetCircuit => q.(open := false, failures := 0)
  }

  lemma ChoiceIsItem(q: Queues, cap: int, provider: bool)
    ensures Choice(q, cap, provider).Some? ==> Pending(q, provider, Choice(q, cap, provider).value)
  {
    ClaimTakesLeast(q, cap, provider);
  }

  function Exec(q: Queues, k: Config, es: seq<Event>): Queues
    decreases |es|
  {
    if es == [] then q else Exec(Step(q, k, es[0]), k, es[1..])
  }

  // ---- The invariant ----

  /** Provider items whose slot is counted: leased now, or cancelled while leased. */
  ghost function Held(items: seq<Item>, c: string): set<nat> {
    set i | 0 <= i < |items| && items[i].leased && items[i].credential == Some(c)
  }

  ghost function Live(items: seq<Item>, c: string): set<nat> {
    set i | 0 <= i < |items| && items[i].leased && !items[i].done && items[i].credential == Some(c)
  }

  /** Slots that were never returned because the job was cancelled while its item was leased. */
  ghost function Leaked(items: seq<Item>, c: string): set<nat> {
    set i | 0 <= i < |items| && items[i].leased && items[i].canceled && items[i].credential == Some(c)
  }

  ghost function DeadIds(dead: seq<(nat, Reason)>): set<nat> { set d <- dead :: d.0 }

  ghost predicate LeasesKept(items: seq<Item>, leases: set<nat>) {
    forall i: nat :: i in leases <==> i < |items| && items[i].leased && !items[i].done
  }

  /** Cancelled and dead-lettered items are done, and a done item that is still marked leased was cancelled. */
  ghost predicate ItemsKept(items: seq<Item>, dead: set<nat>) {
    && (forall i <- dead :: i < |items| && items[i].done && !items[i].leased && !items[i].canceled)
    && (forall i :: 0 <= i < |items| ==>
          && (items[i].canceled ==> items[i].done)
          && (items[i].done && items[i].leased ==> items[i].canceled)
          && items[i].attempts <= 3
          && (items[i].attempts == 3 ==> i in dead))
  }

  ghost predicate SlotKept(items: seq<Item>, inflight: map<string, int>, cap: int, c: string) {
    (if c in inflight then inflight[c] else 0) == |Held(items, c)| && (Held(items, c) != {} ==> |Held(items, c)| <= cap)
  }

  ghost predicate SlotsKept(items: seq<Item>, inflight: map<string, int>, cap: int) {
    forall c :: SlotKept(items, inflight, cap, c)
  }

  ghost predicate Inv(q: Queues, k: Config) {
    && LeasesKept(q.items, q.leases)
    && ItemsKept(q.items, DeadIds(q.dead))
    && (forall a, b :: 0 <= a < b < |q.dead| ==> q.dead[a].0 != q.dead[b].0)
    && SlotsKept(q.items, q.inflight, k.cap)
    && (!q.open ==> q.failures <= 2)
  }

  lemma HeldPut(items: seq<Item>, i: nat, x: Item, c: string)
    requires i < |items|
    ensures Held(items[i := x], c) ==
            if x.leased && x.credential == Some(c) then Held(items, c) + {i} else Held(items, c) - {i}
  {
  }

  /** Returning the slot of an item that holds one: the clamp at zero never binds. */
  lemma ReturnKeepsSlots(items: seq<Item>, inflight: map<string, int>, cap: int, i: nat, x: Item)
    requires SlotsKept(items, inflight, cap) && i < |items| && items[i].leased
    requires !x.leased && x.credential == items[i].credential
    ensures SlotsKept(items[i := x], Returned(inflight, x.credential), cap)
  {
    var items', inflight' := items[i := x], Returned(inflight, x.credential);
    forall c ensures SlotKept(items', inflight', cap, c) {
      assert SlotKept(items, inflight, cap, c);
      ReturnKeepsSlot(items, inflight, cap, i, x, c);
    }
    hide SlotKept, Returned;
  }

  lemma ReturnKeepsSlot(items: seq<Item>, inflight: map<string, int>, cap: int, i: nat, x: Item, c: string)
    requires SlotKept(items, inflight, cap, c) && i < |items| && items[i].leased
    requires !x.leased && x.credential == items[i].credential
    ensures SlotKept(items[i := x], Returned(inflight, x.credential), cap, c)
  {
    HeldPut(items, i, x, c);
    assert x.credential == Some(c) ==> i in Held(items, c);
    assert x.credential != Some(c) ==> Held(items, c) - {i} == Held(items, c);
    hide Held;
  }

  lemma SameSlots(items: seq<Item>, inflight: map<string, int>, cap: int, i: nat, x: Item)
    requires SlotsKept(items, inflight, cap) && i < |items|
    requires x.leased == items[i].leased && x.credential == items[i].credential
    ensures SlotsKept(items[i := x], inflight, cap)
  {
    var items' := items[i := x];
    forall c ensures SlotKept(items', inflight, cap, c) {
      HeldPut(items, i, x, c);
      assert SlotKept(items, inflight, cap, c);
      assert Held(items[i := x], c) == Held(items, c);
    }
  }

  function Taken(inflight: map<string, int>, c: Option<string>): map<string, int> {
    if c.None? then inflight
    else inflight[c.value := (if c.value in inflight then inflight[c.value] else 0) + 1]
  }

  lemma TakeKeepsSlots(items: seq<Item>, inflight: map<string, int>, cap: int, i: nat, x: Item)
    requires SlotsKept(items, inflight, cap) && i < |items| && !items[i].leased
    requires x.leased && x.credential == items[i].credential
    requires x.credential.Some? ==> (if x.credential.value in inflight then inflight[x.credential.value] else 0) < cap
    ensures SlotsKept(items[i := x], Taken(inflight, x.credential), cap)
  {
    var items', inflight' := items[i := x], Taken(inflight, x.credential);
    forall c ensures SlotKept(items', inflight', cap, c) {
      assert SlotKept(items, inflight, cap, c);
      TakeKeepsSlot(items, inflight, cap, i, x, c);
    }
    hide SlotKept, Taken;
  }

  lemma TakeKeepsSlot(items: seq<Item>, inflight: map<string, int>, cap: int, i: nat, x: Item, c: string)
    requires SlotKept(items, inflight, cap, c) && i < |items| && !items[i].leased
    requires x.leased && x.credential == items[i].credential
    requires x.credential.Some? ==> (if x.credential.value in inflight then inflight[x.credential.value] else 0) < cap
    ensures SlotKept(items[i := x], Taken(inflight, x.credential), cap, c)
  {
    HeldPut(items, i, x, c);
    assert i !in Held(items, c);
    assert x.credential != Some(c) ==> Held(items, c) - {i} == Held(items, c);
    hide Held;
  }

  lemma ClaimKeepsInv(q: Queues, k: Config, i: nat, worker: string, now: int)
    requires Inv(q, k) && i < |q.items| && !q.items[i].done && !q.items[i].leased && !Capped(q, k.cap, i)
    ensures Inv(Claimed(q, k, i, worker, now), k)
  {
    var r := Claimed(q, k, i, worker, now);
    TakeKeepsSlots(q.items, q.inflight, k.cap, i, r.items[i]);
    assert r.inflight == Taken(q.inflight, q.items[i].credential);
    hide SlotsKept, Taken, Capped, Served;
  }

  /** An item that ends, with or without a dead letter, or is queued again. */
  lemma PutKeepsItems(items: seq<Item>, dead: set<nat>, i: nat, x: Item, dead': set<nat>)
    requires ItemsKept(items, dead) && i < |items| && i !in dead
    requires !x.leased && !x.canceled && x.attempts <= 3
    requires dead' == dead || (dead' == dead + {i} && x.done)
    requires x.attempts == 3 ==> dead' == dead + {i}
    ensures ItemsKept(items[i := x], dead')
  {
  }

  lemma CompleteKeepsInv(q: Queues, k: Config, id: nat, success: bool, uncertain: bool)
    requires Inv(q, k) && id in q.leases
    ensures Inv(Completed(q, id, success, uncertain), k)
  {
    var x := q.items[id].(done := true, leased := false);
    var r := Completed(q, id, success, uncertain);
    var y := r.items[id];
    assert id !in DeadIds(q.dead) && x.attempts < 3;
    ReturnKeepsSlots(q.items, q.inflight, k.cap, id, y);
    DeadAppend(q.dead, id, UncertainQuery);
    DeadAppend(q.dead, id, MaxAttempts);
    assert r.items == q.items[id := y] && r.inflight == Returned(q.inflight, x.credential);
    PutKeepsItems(q.items, DeadIds(q.dead), id, y, DeadIds(r.dead));
    hide SlotsKept, Returned, DeadIds, ItemsKept;
  }

  lemma DeadAppend(dead: seq<(nat, Reason)>, id: nat, reason: Reason)
    ensures DeadIds(dead + [(id, reason)]) == DeadIds(dead) + {id}
    ensures forall a :: 0 <= a < |dead| ==> dead[a].0 in DeadIds(dead)
  {
    forall d | d in dead ensures d.0 in DeadIds(dead + [(id, reason)]) {
      assert d in dead + [(id, reason)];
    }
    assert (id, reason) in dead + [(id, reason)];
  }

  lemma RecoverOneKeepsInv(q: Queues, k: Config, now: int, i: nat)
    requires Inv(q, k) && i < |q.items|
    ensures Inv(RecoverOne(q, now, i), k)
  {
    if i in q.leases {
      ReturnKeepsSlots(q.items, q.inflight, k.cap, i, q.items[i].(leased := false, worker := None));
      hide SlotsKept, Returned;
    }
  }

  lemma CancelOneKeepsInv(q: Queues, k: Config, job: string, i: nat)
    requires Inv(q, k) && i < |q.items|
    ensures Inv(CancelOne(q, job, i), k)
  {
    SameSlots(q.items, q.inflight, k.cap, i, q.items[i].(done := true, canceled := true));
    hide SlotsKept;
  }

  lemma {:induction false} RecoverKeepsInv(q: Queues, k: Config, now: int, n: nat)
    requires Inv(q, k) && n <= |q.items|
    ensures Inv(RecoverBelow(q, now, n), k)
  {
    if n > 0 {
      RecoverKeepsInv(q, k, now, n - 1);
      RecoverOneKeepsInv(RecoverBelow(q, now, n - 1), k, now, n - 1);
    }
  }

  lemma {:induction false} CancelKeepsInv(q: Queues, k: Config, job: string, n: nat)
    requires Inv(q, k) && n <= |q.items|
    ensures Inv(CancelBelow(q, job, n), k)
  {
    if n > 0 {
      CancelKeepsInv(q, k, job, n - 1);
      CancelOneKeepsInv(CancelBelow(q, job, n - 1), k, job, n - 1);
    }
  }

  lemma EnqueueKeepsInv(q: Queues, k: Config, x: Item)
    requires Inv(q, k) && !x.done && !x.leased && !x.canceled && x.attempts == 0
    ensures Inv(q.(items := q.items + [x]), k)
  {
    var items' := q.items + [x];
    forall c ensures SlotKept(items', q.inflight, k.cap, c) {
      assert SlotKept(q.items, q.inflight, k.cap, c);
      assert Held(q.items + [x], c) == Held(q.items, c);
    }
  }

  lemma StepKeepsInv(q: Queues, k: Config, e: Event)
    requires Inv(q, k)
    ensures Inv(Step(q, k, e), k)
  {
    match e {
      case EnqueueIntake(job, user, now) =>
        EnqueueKeepsInv(q, k, Item(job, user, None, now, 0, false, false, 0, None, false));
      case EnqueueProvider(job, user, credential, now) =>
        EnqueueKeepsInv(q, k, Item(job, user, Some(credential), now, 0, false, false, 0, None, false));
      case ClaimIntake(worker, now) =>
        ClaimTakesLeast(q, k.cap, false);
        var c := Choice(q, k.cap, false);
        if c.Some? { ClaimKeepsInv(q, k, c.value, worker, now); }
      case ClaimProvider(worker, now) =>
        ClaimTakesLeast(q, k.cap, true);
        var c := Choice(q, k.cap, true);
        if c.Some? { ClaimKeepsInv(q, k, c.value, worker, now); }
      case Heartbeat(id, worker, now) =>
        if id < |q.items| {
          SameSlots(q.items, q.inflight, k.cap, id, q.items[id].(expiresAt := now + k.leaseMs));
          hide SlotsKept;
        }
      case Complete(id, success, uncertain) =>
        if id in q.leases { CompleteKeepsInv(q, k, id, success, uncertain); }
      case RecoverExpired(now) => RecoverKeepsInv(q, k, now, |q.items|);
      case CancelJob(job) => CancelKeepsInv(q, k, job, |q.items|);
      case ResetCircuit =>
    }
  }

  lemma EmptyInv(k: Config)
    ensures Inv(Empty(), k)
  {
    assert forall c :: Held([], c) == {};
  }

  lemma {:induction false} Always(q: Queues, k: Config, es: seq<Event>)
    requires Inv(q, k)
    ensures Inv(Exec(q, k, es), k)
    decreases |es|
  {
    if es != [] {
      StepKeepsInv(q, k, es[0]);
      Always(Step(q, k, es[0]), k, es[1..]);
    }
  }

  // ---- What holds of every state ----

  /** The five places an item can be in. */
  datatype Place = InQueue | Leased | Finished | DeadLettered | Canceled

  ghost predicate In(q: Queues, i: nat, p: Place)
    requires i < |q.items|
  {
    var x := q.items[i];
    match p
    case InQueue => !x.done && !x.leased
    case Leased => i in q.leases
    case Finished => x.done && !x.leased && !x.canceled && i !in DeadIds(q.dead)
    case DeadLettered => i in DeadIds(q.dead)
    case Canceled => x.canceled
  }

  /** Every item is in exactly one of them, whatever the history. */
  lemma OnePlace(k: Config, es: seq<Event>, i: nat)
    requires i < |Exec(Empty(), k, es).items|
    ensures exists p :: In(Exec(Empty(), k, es), i, p)
    ensures forall p, r :: In(Exec(Empty(), k, es), i, p) && In(Exec(Empty(), k, es), i, r) ==> p == r
  {
    EmptyInv(k);
    Always(Empty(), k, es);
    var q := Exec(Empty(), k, es);
    hide Exec;
    var x := q.items[i];
    if i in DeadIds(q.dead) {
      assert In(q, i, DeadLettered);
    } else if x.canceled {
      assert In(q, i, Canceled);
    } else if x.done {
      assert In(q, i, Finished);
    } else if x.leased {
      assert In(q, i, Leased);
    } else {
      assert In(q, i, InQueue);
    }
  }

  // ---- What leaks a slot ----

  /** The live leases of a credential that an event ends by cancelling the job. */
  ghost function Struck(q: Queues, e: Event, c: string): set<nat> {
    if e.CancelJob? then set i | i in Live(q.items, c) && q.items[i].job == e.job else {}
  }

  /** How many live leases of a credential the cancellations of a run meet. */
  ghost function StruckLeases(q: Queues, k: Config, es: seq<Event>, c: string): nat
    decreases |es|
  {
    if es == [] then 0 else |Struck(q, es[0], c)| + StruckLeases(Step(q, k, es[0]), k, es[1..], c)
  }

  lemma {:induction false} CancelEffect(q: Queues, job: string, n: nat, i: nat)
    requires n <= |q.items| && i < |q.items|
    ensures CancelBelow(q, job, n).items[i] ==
            if i < n && q.items[i].job == job && !q.items[i].done then q.items[i].(done := true, canceled := true) else q.items[i]
  {
    if n > 0 { CancelEffect(q, job, n - 1, i); }
  }

  lemma {:induction false} RecoverEffect(q: Queues, now: int, n: nat, i: nat)
    requires n <= |q.items| && i < |q.items|
    ensures var r := RecoverBelow(q, now, n);
            && (i in r.leases <==> i in q.leases && !(i < n && q.items[i].expiresAt < now))
            && r.items[i] == if i < n && i in q.leases && q.items[i].expiresAt < now
                             then q.items[i].(leased := false, worker := None) else q.items[i]
  {
    if n > 0 {
      RecoverEffect(q, now, n - 1, i);
      RecoverEffect(q, now, n - 1, n - 1);
    }
  }

  lemma ClaimLeaksNothing(q: Queues, k: Config, provider: bool, worker: string, now: int, c: string)
    requires Inv(q, k) && Choice(q, k.cap, provider).Some?
    ensures Choice(q, k.cap, provider).value < |q.items|
    ensures Leaked(Claimed(q, k, Choice(q, k.cap, provider).value, worker, now).items, c) == Leaked(q.items, c)
  {
    hide SlotsKept, Choice;
    ChoiceIsItem(q, k.cap, provider);
  }

  lemma CompleteLeaksNothing(q: Queues, k: Config, id: nat, success: bool, uncertain: bool, c: string)
    requires Inv(q, k) && id in q.leases && id < |q.items|
    ensures Leaked(Completed(q, id, success, uncertain).items, c) == Leaked(q.items, c)
  {
    hide SlotsKept, Returned;
  }

  lemma RecoverLeaksNothing(q: Queues, k: Config, now: int, c: string)
    requires Inv(q, k)
    ensures Leaked(RecoverBelow(q, now, |q.items|).items, c) == Leaked(q.items, c)
  {
    hide SlotsKept, RecoverBelow;
    var r := RecoverBelow(q, now, |q.items|);
    forall i | 0 <= i < |r.items| ensures i in Leaked(r.items, c) <==> i in Leaked(q.items, c) {
      RecoverEffect(q, now, |q.items|, i);
    }
  }

  /** Every event but a cancellation leaves exactly the leaked slots there were. */
  lemma OthersLeakNothing(q: Queues, k: Config, e: Event, c: string)
    requires Inv(q, k) && !e.CancelJob?
    ensures Leaked(Step(q, k, e).items, c) == Leaked(q.items, c)
  {
    hide Inv, Choice, Claimed, Completed, RecoverBelow;
    match e {
      case ClaimIntake(worker, now) =>
        if Choice(q, k.cap, false).Some? { ClaimLeaksNothing(q, k, false, worker, now, c); }
      case ClaimProvider(worker, now) =>
        if Choice(q, k.cap, true).Some? { ClaimLeaksNothing(q, k, true, worker, now, c); }
      case Complete(id, success, uncertain) =>
        if id in q.leases && id < |q.items| { CompleteLeaksNothing(q, k, id, success, uncertain, c); }
      case RecoverExpired(now) => RecoverLeaksNothing(q, k, now, c);
      case _ =>
    }
  }

  /** A cancellation leaks exactly the slots of the live leases of the job. */
  lemma LeakExactly(q: Queues, k: Config, e: Event, c: string)
    requires Inv(q, k)
    ensures Leaked(Step(q, k, e).items, c) == Leaked(q.items, c) + Struck(q, e, c)
    ensures Leaked(q.items, c) !! Struck(q, e, c)
  {
    if e.CancelJob? {
      hide SlotsKept;
      var r := Step(q, k, e);
      forall i | 0 <= i < |r.items| ensures i in Leaked(r.items, c) <==> i in Leaked(q.items, c) || i in Struck(q, e, c) {
        CancelEffect(q, e.job, |q.items|, i);
      }
    } else {
      OthersLeakNothing(q, k, e, c);
    }
  }

  /** Over a run as many slots are leaked as live leases were cancelled. */
  lemma {:induction false} LeaksAreCancellations(q: Queues, k: Config, es: seq<Event>, c: string)
    requires Inv(q, k)
    ensures |Leaked(Exec(q, k, es).items, c)| == |Leaked(q.items, c)| + StruckLeases(q, k, es, c)
    decreases |es|
  {
    if es != [] {
      LeakExactly(q, k, es[0], c);
      StepKeepsInv(q, k, es[0]);
      hide Inv, Step, Leaked, Struck;
      LeaksAreCancellations(Step(q, k, es[0]), k, es[1..], c);
    }
  }

  /** No cancellation of the run meets a live lease of the credential. */
  ghost predicate SparesLeases(q: Queues, k: Config, es: seq<Event>, c: string)
    decreases |es|
  {
    es == [] || (Struck(q, es[0], c) == {} && SparesLeases(Step(q, k, es[0]), k, es[1..], c))
  }

  lemma {:induction false} SparedIffNoneStruck(q: Queues, k: Config, es: seq<Event>, c: string)
    ensures SparesLeases(q, k, es, c) <==> StruckLeases(q, k, es, c) == 0
    decreases |es|
  {
    if es != [] {
      hide Step, Struck;
      SparedIffNoneStruck(Step(q, k, es[0]), k, es[1..], c);
    }
  }

  /**
   In every run the slots counted for a credential are its live leases and one more for each live lease
   that was cancelled, and never exceed the cap. So the count is that of the live leases exactly on the
   runs in which no cancellation meets a live lease of the credential.
   */
  lemma SlotAccounting(k: Config, es: seq<Event>, c: string)
    ensures var q := Exec(Empty(), k, es);
            && InFlight(q, c) == |Live(q.items, c)| + StruckLeases(Empty(), k, es, c)
            && (InFlight(q, c) > 0 ==> InFlight(q, c) <= k.cap)
            && (InFlight(q, c) == |Live(q.items, c)| <==> SparesLeases(Empty(), k, es, c))
  {
    EmptyInv(k);
    Always(Empty(), k, es);
    LeaksAreCancellations(Empty(), k, es, c);
    SparedIffNoneStruck(Empty(), k, es, c);
    var q := Exec(Empty(), k, es);
    hide Exec, StruckLeases, SparesLeases;
    assert Leaked(Empty().items, c) == {};
    assert SlotKept(q.items, q.inflight, k.cap, c);
    assert Held(q.items, c) == Live(q.items, c) + Leaked(q.items, c);
    assert Live(q.items, c) !! Leaked(q.items, c);
  }

  // ---- What holds of whole runs ----

  /** Items keep their identity, and nothing about a done item ever changes. */
  ghost predicate Frozen(q: Queues, r: Queues) {
    && |q.items| <= |r.items|
    && (forall i :: 0 <= i < |q.items| ==>
          && r.items[i].user == q.items[i].user && r.items[i].credential == q.items[i].credential
          && (q.items[i].done ==> r.items[i] == q.items[i]))
  }

  lemma {:induction false} RecoverFreezes(q: Queues, k: Config, now: int, n: nat)
    requires Inv(q, k) && n <= |q.items|
    ensures Frozen(q, RecoverBelow(q, now, n))
  {
    if n > 0 {
      RecoverFreezes(q, k, now, n - 1);
      RecoverKeepsInv(q, k, now, n - 1);
      hide SlotsKept, ItemsKept, Returned;
    }
  }

  lemma {:induction false} CancelFreezes(q: Queues, job: string, n: nat)
    requires n <= |q.items|
    ensures Frozen(q, CancelBelow(q, job, n))
  {
    if n > 0 { CancelFreezes(q, job, n - 1); }
  }

  lemma StepFreezes(q: Queues, k: Config, e: Event)
    requires Inv(q, k)
    ensures Frozen(q, Step(q, k, e))
  {
    hide SlotsKept, ItemsKept, Returned, Sort, PendingBelow, FirstUncapped;
    ClaimTakesLeast(q, k.cap, false);
    ClaimTakesLeast(q, k.cap, true);
    hide Choice;
    match e {
      case RecoverExpired(now) => RecoverFreezes(q, k, now, |q.items|);
      case CancelJob(job) => CancelFreezes(q, job, |q.items|);
      case _ =>
    }
  }

  lemma {:induction false} RunFreezes(q: Queues, k: Config, es: seq<Event>)
    requires Inv(q, k)
    ensures Frozen(q, Exec(q, k, es))
    decreases |es|
  {
    if es != [] {
      StepFreezes(q, k, es[0]);
      StepKeepsInv(q, k, es[0]);
      hide Inv, Step;
      RunFreezes(Step(q, k, es[0]), k, es[1..]);
    }
  }

  /** The item a claim event takes. */
  function Target(q: Queues, k: Config, e: Event): (t: Option<nat>)
    ensures t.Some? ==> t.value < |q.items|
  {
    if e.ClaimIntake? then ChoiceIsItem(q, k.cap, false); Choice(q, k.cap, false)
    else if e.ClaimProvider? then ChoiceIsItem(q, k.cap, true); Choice(q, k.cap, true)
    else None
  }

  /** Finished, cancelled and dead-lettered items are never claimed again. */
  lemma DoneNeverClaimed(q: Queues, k: Config, es: seq<Event>, e: Event, i: nat)
    requires Inv(q, k) && i < |q.items| && q.items[i].done
    ensures Target(Exec(q, k, es), k, e) != Some(i)
    ensures i < |Exec(q, k, es).items| && Exec(q, k, es).items[i] == q.items[i]
  {
    RunFreezes(q, k, es);
    ChoiceIsItem(Exec(q, k, es), k.cap, false);
    ChoiceIsItem(Exec(q, k, es), k.cap, true);
  }

  /**
   Leaked slots stay leaked: once cancelling leased items has used up the cap of a credential, no item
   of that credential is claimed in any continuation.
   */
  lemma LeaksStarveACredential(q: Queues, k: Config, c: string, es: seq<Event>, e: Event)
    requires Inv(q, k) && |Leaked(q.items, c)| >= k.cap
    ensures var r := Exec(q, k, es);
            Target(r, k, e).Some? ==> r.items[Target(r, k, e).value].credential != Some(c)
  {
    RunFreezes(q, k, es);
    Always(q, k, es);
    var r := Exec(q, k, es);
    hide Exec;
    assert SlotKept(r.items, r.inflight, k.cap, c);
    assert Leaked(q.items, c) <= Held(r.items, c);
    SubsetSize(Leaked(q.items, c), Held(r.items, c));
    ClaimTakesLeast(r, k.cap, false);
    ClaimTakesLeast(r, k.cap, true);
  }

  /** How many claims of a run served the user. */
  function ServicesOf(q: Queues, k: Config, es: seq<Event>, u: string): nat
    decreases |es|
  {
    if es == [] then 0
    else
      var t := Target(q, k, es[0]);
      (if t.Some? && q.items[t.value].user == u then 1 else 0) + ServicesOf(Step(q, k, es[0]), k, es[1..], u)
  }

  lemma {:induction false} ServedSince(q: Queues, k: Config, es: seq<Event>, u: string)
    ensures Served(Exec(q, k, es), u) == Served(q, u) + ServicesOf(q, k, es, u)
    decreases |es|
  {
    if es != [] {
      ServedStep(q, k, es[0], u);
      hide Step, Target, Served;
      ServedSince(Step(q, k, es[0]), k, es[1..], u);
    }
  }

  /** What a claim goes by is how often the user has been served so far, from none at the start. */
  lemma ServedCounts(k: Config, es: seq<Event>, u: string)
    ensures Served(Exec(Empty(), k, es), u) == ServicesOf(Empty(), k, es, u)
  {
    ServedSince(Empty(), k, es, u);
    hide Exec, ServicesOf;
  }

  /**
   The item claimed is waiting, under its credential's cap, with the circuit closed for a provider item; and no other
   such item has a user served less, or served as often and enqueued earlier, or enqueued then and standing before it.
   */
  lemma ClaimIsFair(q: Queues, k: Config, e: Event, i: nat, j: nat)
    requires (e.ClaimIntake? || e.ClaimProvider?) && Target(q, k, e) == Some(i)
    requires Eligible(q, k.cap, e.ClaimProvider?, j)
    ensures Eligible(q, k.cap, e.ClaimProvider?, i)
    ensures var (a, b) := (q.items[i], q.items[j]);
            && Served(q, a.user) <= Served(q, b.user)
            && (Served(q, a.user) == Served(q, b.user) ==>
                  a.enqueuedAt <= b.enqueuedAt && (a.enqueuedAt == b.enqueuedAt ==> i <= j))
  {
    ClaimTakesLeast(q, k.cap, false);
    ClaimTakesLeast(q, k.cap, true);
    hide Choice, Served;
  }

  /** An item is eligible exactly when it waits in the queue asked for, with a free slot, and no open circuit in the way. */
  lemma EligibleIff(q: Queues, cap: int, provider: bool, i: nat)
    ensures Eligible(q, cap, provider, i) <==>
              && i < |q.items| && !q.items[i].done && !q.items[i].leased && (provider ==> !q.open)
              && (if provider then q.items[i].credential.Some? && InFlight(q, q.items[i].credential.value) < cap
                  else q.items[i].credential.None?)
  {
    hide InFlight;
  }

  // ---- Where each event puts an item ----

  /** A completion that is certain and reports success, of an item that is leased. */
  predicate Succeeds(q: Queues, e: Event, i: nat) { e == Complete(i, true, false) && i in q.leases }

  predicate Fails(q: Queues, e: Event, i: nat) { e == Complete(i, false, false) && i in q.leases }

  /** An item's lot but for its lease, its attempts and whether it is done. */
  predicate SameTask(x: Item, y: Item) {
    x.job == y.job && x.user == y.user && x.credential == y.credential && x.enqueuedAt == y.enqueuedAt
  }

  /**
   A completed item is dead-lettered when the outcome is uncertain or the third attempt failed, is queued again
   and claimable after an earlier failure, and is finished otherwise. Every other item stays as it is.
   */
  lemma CompletionOutcome(q: Queues, k: Config, id: nat, success: bool, uncertain: bool)
    requires Inv(q, k) && id in q.leases
    ensures var r := Step(q, k, Complete(id, success, uncertain));
            && |r.items| == |q.items| && id < |q.items| && r.leases == q.leases - {id}
            && SameTask(r.items[id], q.items[id])
            && r.items[id].attempts == q.items[id].attempts + (if success || uncertain then 0 else 1)
            && (uncertain || (!success && q.items[id].attempts == 2) ==>
                  In(r, id, DeadLettered) && r.dead == q.dead + [(id, if uncertain then UncertainQuery else MaxAttempts)])
            && (!uncertain && !success && q.items[id].attempts < 2 ==>
                  In(r, id, InQueue) && Pending(r, q.items[id].credential.Some?, id) && r.dead == q.dead)
            && (success && !uncertain ==> In(r, id, Finished) && r.dead == q.dead)
            && forall j: nat :: j < |q.items| && j != id ==>
                 r.items[j] == q.items[j] && forall p :: In(r, j, p) <==> In(q, j, p)
  {
    hide SlotsKept, Returned;
    DeadAppend(q.dead, id, UncertainQuery);
    DeadAppend(q.dead, id, MaxAttempts);
    hide DeadIds;
    var r := Step(q, k, Complete(id, success, uncertain));
    forall j: nat | j < |q.items| && j != id ensures r.items[j] == q.items[j] && forall p :: In(r, j, p) <==> In(q, j, p) {
      assert j in DeadIds(r.dead) <==> j in DeadIds(q.dead);
      SamePlace(q, r, j);
    }
  }

  lemma SamePlace(q: Queues, r: Queues, j: nat)
    requires j < |q.items| == |r.items| && r.items[j] == q.items[j] && (j in r.leases <==> j in q.leases)
    requires j in DeadIds(r.dead) <==> j in DeadIds(q.dead)
    ensures forall p :: In(r, j, p) <==> In(q, j, p)
  {
    hide DeadIds;
  }

  /** What a completion does to the circuit: only uncertainty is a failure, and a third one opens it. */
  lemma CompletionCircuit(q: Queues, k: Config, id: nat, success: bool, uncertain: bool)
    requires Inv(q, k) && id in q.leases
    ensures var r := Step(q, k, Complete(id, success, uncertain));
            && (uncertain ==> r.failures == q.failures + 1 && (r.open <==> q.open || q.failures >= 2))
            && (!uncertain && success ==> r.open == q.open && (q.failures > 0 ==> r.failures == q.failures - 1)
                                          && (q.failures == 0 ==> r.failures == 0))
            && (!uncertain && !success ==> r.open == q.open && r.failures == q.failures)
            && r.served == q.served
  {
    hide SlotsKept, Returned;
  }

  /** Completing, or extending, what is not leased does nothing; nor does extending another worker's lease or a late one. */
  lemma NoLeaseNoEffect(q: Queues, k: Config, e: Event)
    requires Inv(q, k)
    requires (e.Complete? && e.id !in q.leases)
             || (e.Heartbeat? && (e.id !in q.leases || q.items[e.id].worker != Some(e.worker) || q.items[e.id].expiresAt < e.now))
    ensures Step(q, k, e) == q
  {
  }

  /** A claimed item is its worker's for the length of a lease, on record against its user and its credential. */
  lemma ClaimOutcome(q: Queues, k: Config, e: Event)
    requires Inv(q, k) && (e.ClaimIntake? || e.ClaimProvider?)
    ensures match Target(q, k, e)
            case None => Step(q, k, e) == q
            case Some(i) =>
              var r := Step(q, k, e);
              && Pending(q, e.ClaimProvider?, i) && In(r, i, Leased) && r.leases == q.leases + {i}
              && r.items == q.items[i := q.items[i].(leased := true, worker := Some(e.worker), expiresAt := e.now + k.leaseMs)]
              && r.dead == q.dead && r.open == q.open && r.failures == q.failures
              && (forall c :: InFlight(r, c) == InFlight(q, c) + if q.items[i].credential == Some(c) then 1 else 0)
              && forall u :: Served(r, u) == Served(q, u) + if q.items[i].user == u then 1 else 0
  {
    hide Inv, Choice;
    ChoiceIsItem(q, k.cap, false);
    ChoiceIsItem(q, k.cap, true);
  }

  /** A timely heartbeat of the holder moves the end of the lease, and nothing else. */
  lemma HeartbeatOutcome(q: Queues, k: Config, id: nat, worker: string, now: int)
    requires Inv(q, k) && id in q.leases && q.items[id].worker == Some(worker) && q.items[id].expiresAt >= now
    ensures Step(q, k, Heartbeat(id, worker, now)) == q.(items := q.items[id := q.items[id].(expiresAt := now + k.leaseMs)])
  {
  }

  /** Resetting closes the circuit and forgets its failures, and nothing else. */
  lemma ResetOutcome(q: Queues, k: Config)
    ensures !Step(q, k, ResetCircuit).open && Step(q, k, ResetCircuit).failures == 0
    ensures Step(q, k, ResetCircuit) == q.(open := false, failures := 0)
  {
  }

  /** The place an event moves an item to. */
  ghost function Moved(q: Queues, k: Config, e: Event, i: nat, p: Place): Place
    requires i < |q.items|
  {
    var x := q.items[i];
    match p
    case InQueue => if e == CancelJob(x.job) then Canceled else if Target(q, k, e) == Some(i) then Leased else InQueue
    case Leased =>
      if e == CancelJob(x.job) then Canceled
      else if e.RecoverExpired? && x.expiresAt < e.now then InQueue
      else if !e.Complete? || e.id != i then Leased
      else if e.uncertain || (!e.success && x.attempts == 2) then DeadLettered
      else if e.success then Finished
      else InQueue
    case _ => p
  }

  /** Every item is moved along the table, whatever the event. */
  lemma MovesAlong(q: Queues, k: Config, e: Event, i: nat, p: Place)
    requires Inv(q, k) && i < |q.items| && In(q, i, p)
    ensures i < |Step(q, k, e).items| && In(Step(q, k, e), i, Moved(q, k, e, i, p))
    ensures Step(q, k, e).items[i].attempts == q.items[i].attempts + (if Fails(q, e, i) then 1 else 0)
    ensures SameTask(Step(q, k, e).items[i], q.items[i])
  {
    match e {
      case ClaimIntake(_, _) => ClaimMoves(q, k, e, i, p);
      case ClaimProvider(_, _) => ClaimMoves(q, k, e, i, p);
      case Complete(id, success, uncertain) => CompleteMoves(q, k, e, i, p);
      case RecoverExpired(now) => RecoverMoves(q, k, now, i, p);
      case CancelJob(job) => CancelMoves(q, k, job, i, p);
      case _ => QuietMoves(q, k, e, i, p);
    }
  }

  lemma ClaimMoves(q: Queues, k: Config, e: Event, i: nat, p: Place)
    requires Inv(q, k) && i < |q.items| && In(q, i, p) && (e.ClaimIntake? || e.ClaimProvider?)
    ensures i < |Step(q, k, e).items| && In(Step(q, k, e), i, Moved(q, k, e, i, p))
    ensures Step(q, k, e).items[i].attempts == q.items[i].attempts && SameTask(Step(q, k, e).items[i], q.items[i])
  {
    ClaimOutcome(q, k, e);
    hide SlotsKept, Step, Target, DeadIds;
  }

  lemma CompleteMoves(q: Queues, k: Config, e: Event, i: nat, p: Place)
    requires Inv(q, k) && i < |q.items| && In(q, i, p) && e.Complete?
    ensures i < |Step(q, k, e).items| && In(Step(q, k, e), i, Moved(q, k, e, i, p))
    ensures Step(q, k, e).items[i].attempts == q.items[i].attempts + (if Fails(q, e, i) then 1 else 0)
    ensures SameTask(Step(q, k, e).items[i], q.items[i])
  {
    assert Target(q, k, e).None?;
    if e.id in q.leases {
      CompletionOutcome(q, k, e.id, e.success, e.uncertain);
    } else {
      NoLeaseNoEffect(q, k, e);
    }
    hide SlotsKept, Step, DeadIds, Target;
  }

  lemma RecoverMoves(q: Queues, k: Config, now: int, i: nat, p: Place)
    requires Inv(q, k) && i < |q.items| && In(q, i, p)
    ensures var r := Step(q, k, RecoverExpired(now));
            && i < |r.items| && In(r, i, Moved(q, k, RecoverExpired(now), i, p))
            && r.items[i].attempts == q.items[i].attempts && SameTask(r.items[i], q.items[i])
  {
    RecoverEffect(q, now, |q.items|, i);
    RecoverDead(q, now, |q.items|);
    hide SlotsKept, RecoverBelow, DeadIds;
  }

  lemma CancelMoves(q: Queues, k: Config, job: string, i: nat, p: Place)
    requires Inv(q, k) && i < |q.items| && In(q, i, p)
    ensures var r := Step(q, k, CancelJob(job));
            && i < |r.items| && In(r, i, Moved(q, k, CancelJob(job), i, p))
            && r.items[i].attempts == q.items[i].attempts && SameTask(r.items[i], q.items[i])
  {
    CancelEffect(q, job, |q.items|, i);
    CancelDead(q, job, |q.items|);
    CancelKeepsInv(q, k, job, |q.items|);
    hide SlotsKept, CancelBelow, DeadIds;
  }

  lemma QuietMoves(q: Queues, k: Config, e: Event, i: nat, p: Place)
    requires Inv(q, k) && i < |q.items| && In(q, i, p)
    requires e.EnqueueIntake? || e.EnqueueProvider? || e.Heartbeat? || e.ResetCircuit?
    ensures i < |Step(q, k, e).items| && In(Step(q, k, e), i, Moved(q, k, e, i, p))
    ensures Step(q, k, e).items[i].attempts == q.items[i].attempts && SameTask(Step(q, k, e).items[i], q.items[i])
  {
    hide SlotsKept, DeadIds;
  }

  lemma {:induction false} RecoverDead(q: Queues, now: int, n: nat)
    requires n <= |q.items|
    ensures RecoverBelow(q, now, n).dead == q.dead
  {
    if n > 0 { RecoverDead(q, now, n - 1); }
  }

  lemma {:induction false} CancelDead(q: Queues, job: string, n: nat)
    requires n <= |q.items|
    ensures CancelBelow(q, job, n).dead == q.dead
  {
    if n > 0 { CancelDead(q, job, n - 1); }
  }

  /** An item that has only now been put in the queue is pending there, and never attempted. */
  lemma EnqueuedIsPending(q: Queues, k: Config, e: Event)
    requires Inv(q, k)
    ensures var r := Step(q, k, e);
            |r.items| == |q.items| + (if e.EnqueueIntake? || (e.EnqueueProvider? && e.credential != "" && !q.open) then 1 else 0)
    ensures var (r, n) := (Step(q, k, e), |q.items|);
            |r.items| > n ==>
              && In(r, n, InQueue) && Pending(r, e.EnqueueProvider?, n) && r.items[n].attempts == 0 && r.items[..n] == q.items
              && r.items[n].job == e.job && r.items[n].user == e.user && r.items[n].enqueuedAt == e.now
              && r.items[n].credential == (if e.EnqueueProvider? then Some(e.credential) else None)
  {
    hide SlotsKept, Choice, Returned;
    ChoiceIsItem(q, k.cap, false);
    ChoiceIsItem(q, k.cap, true);
    hide DeadIds;
  }

  /** The certain failures, and whether there was a certain success, of item `i` in a run. */
  function Failures(q: Queues, k: Config, es: seq<Event>, i: nat): nat
    decreases |es|
  {
    if es == [] then 0 else (if Fails(q, es[0], i) then 1 else 0) + Failures(Step(q, k, es[0]), k, es[1..], i)
  }

  predicate SucceededIn(q: Queues, k: Config, es: seq<Event>, i: nat)
    decreases |es|
  {
    es != [] && (Succeeds(q, es[0], i) || SucceededIn(Step(q, k, es[0]), k, es[1..], i))
  }

  ghost predicate IsFinished(q: Queues, i: nat) { i < |q.items| && In(q, i, Finished) }

  function Attempts(q: Queues, i: nat): nat { if i < |q.items| then q.items[i].attempts else 0 }

  lemma StepFinishes(q: Queues, k: Config, e: Event, i: nat)
    requires Inv(q, k)
    ensures IsFinished(Step(q, k, e), i) <==> IsFinished(q, i) || Succeeds(q, e, i)
    ensures Attempts(Step(q, k, e), i) == Attempts(q, i) + (if Fails(q, e, i) then 1 else 0)
  {
    StepKeepsInv(q, k, e);
    if i < |q.items| {
      PlaceOf(q, k, i);
      var p :| In(q, i, p);
      MovesAlong(q, k, e, i, p);
      OnlyPlace(q, k, i);
      OnlyPlace(Step(q, k, e), k, i);
      hide Step, Target, SlotsKept, ItemsKept, DeadIds;
      assert i in q.leases <==> p == Leased by { assert i in q.leases <==> In(q, i, Leased); }
    } else {
      EnqueuedIsPending(q, k, e);
      OnlyPlaceIfThere(Step(q, k, e), k, |q.items|);
      hide Step, SlotsKept, ItemsKept, In;
    }
  }

  lemma PlaceOf(q: Queues, k: Config, i: nat)
    requires Inv(q, k) && i < |q.items|
    ensures exists p :: In(q, i, p)
  {
    var x := q.items[i];
    hide SlotsKept;
    assert In(q, i, if i in DeadIds(q.dead) then DeadLettered else if x.canceled then Canceled
                    else if x.done then Finished else if x.leased then Leased else InQueue);
  }

  lemma OnlyPlace(q: Queues, k: Config, i: nat)
    requires Inv(q, k) && i < |q.items|
    ensures forall p, r :: In(q, i, p) && In(q, i, r) ==> p == r
  {
    hide SlotsKept, DeadIds;
  }

  lemma OnlyPlaceIfThere(q: Queues, k: Config, i: nat)
    requires Inv(q, k)
    ensures i < |q.items| ==> forall p, r :: In(q, i, p) && In(q, i, r) ==> p == r
  {
    if i < |q.items| { OnlyPlace(q, k, i); }
  }

  lemma {:induction false} FinishedSince(q: Queues, k: Config, es: seq<Event>, i: nat)
    requires Inv(q, k)
    ensures IsFinished(Exec(q, k, es), i) <==> IsFinished(q, i) || SucceededIn(q, k, es, i)
    ensures Attempts(Exec(q, k, es), i) == Attempts(q, i) + Failures(q, k, es, i)
    decreases |es|
  {
    hide Inv, Step, IsFinished, Attempts, Succeeds, Fails;
    if es != [] {
      StepFinishes(q, k, es[0], i);
      StepKeepsInv(q, k, es[0]);
      FinishedSince(Step(q, k, es[0]), k, es[1..], i);
    }
  }

  /**
   Over whole runs: an item is finished if and only if a completion of its lease was certain and successful,
   and its attempts are its certain failures, of which the third dead-letters it.
   */
  lemma FinishedIffSucceeded(k: Config, es: seq<Event>, i: nat)
    ensures IsFinished(Exec(Empty(), k, es), i) <==> SucceededIn(Empty(), k, es, i)
    ensures Attempts(Exec(Empty(), k, es), i) == Failures(Empty(), k, es, i) <= 3
    ensures Failures(Empty(), k, es, i) == 3 ==> i in DeadIds(Exec(Empty(), k, es).dead)
  {
    EmptyInv(k);
    FinishedSince(Empty(), k, es, i);
    Always(Empty(), k, es);
    hide Exec, SucceededIn, Failures, DeadIds, SlotsKept;
  }

  // ---- The starvation bound ----

  lemma ServedStep(q: Queues, k: Config, e: Event, u: string)
    ensures var t := Target(q, k, e);
            Served(Step(q, k, e), u) == Served(q, u) + if t.Some? && q.items[t.value].user == u then 1 else 0
  {
    hide Choice;
  }

  /** User `u` has an intake item pending before every event, and none of the events claims an item of `u`. */
  ghost predicate Waits(q: Queues, k: Config, es: seq<Event>, u: string)
    decreases |es|
  {
    es == [] ||
    (&& (exists i: nat :: Pending(q, false, i) && q.items[i].user == u)
     && (Target(q, k, es[0]).Some? ==> q.items[Target(q, k, es[0]).value].user != u)
     && Waits(Step(q, k, es[0]), k, es[1..], u))
  }

  /** How many of the events claim an intake item of user `w`. */
  function IntakeClaims(q: Queues, k: Config, es: seq<Event>, w: string): nat
    decreases |es|
  {
    if es == [] then 0
    else
      var t := Target(q, k, es[0]);
      (if es[0].ClaimIntake? && t.Some? && q.items[t.value].user == w then 1 else 0)
      + IntakeClaims(Step(q, k, es[0]), k, es[1..], w)
  }

  lemma {:induction false} StarvationBound(q: Queues, k: Config, es: seq<Event>, u: string, w: string)
    requires Waits(q, k, es, u) && w != u
    ensures IntakeClaims(q, k, es, w) <=
            if Served(q, w) <= Served(q, u) then Served(q, u) + 1 - Served(q, w) else 0
    decreases |es|
  {
    if es != [] {
      ServedStep(q, k, es[0], u);
      ServedStep(q, k, es[0], w);
      ClaimTakesLeast(q, k.cap, false);
      StarvationBound(Step(q, k, es[0]), k, es[1..], u, w);
      hide Step, Choice, Served;
      var j: nat :| Pending(q, false, j) && q.items[j].user == u;
      assert Eligible(q, k.cap, false, j);
    }
  }

  /** A dead-lettered item is never claimed again, an uncertain one included. */
  lemma DeadNeverClaimed(q: Queues, k: Config, es: seq<Event>, e: Event, d: (nat, Reason))
    requires Inv(q, k) && d in q.dead
    ensures Target(Exec(q, k, es), k, e) != Some(d.0)
  {
    assert d.0 in DeadIds(q.dead);
    DoneNeverClaimed(q, k, es, e, d.0);
  }

  /** No item fails more than three times, three failures dead-letter it, and a closed circuit has few failures. */
  lemma RetryLimits(k: Config, es: seq<Event>)
    ensures var q := Exec(Empty(), k, es);
            && (forall i :: 0 <= i < |q.items| ==> q.items[i].attempts <= 3)
            && (forall i :: 0 <= i < |q.items| && q.items[i].attempts == 3 ==> i in DeadIds(q.dead))
            && (!q.open ==> q.failures <= 2)
  {
    EmptyInv(k);
    Always(Empty(), k, es);
    hide Exec;
  }

  /** Cancelling a leased provider item drops the lease and keeps the slot. */
  lemma CancelLeaksASlot(q: Queues, k: Config, i: nat, c: string)
    requires Inv(q, k) && i in q.leases && q.items[i].credential == Some(c)
    ensures var r := Step(q, k, CancelJob(q.items[i].job));
            i in Leaked(r.items, c) && i !in r.leases && InFlight(r, c) == InFlight(q, c)
  {
    CancelReaches(q, q.items[i].job, |q.items|, i);
  }

  lemma {:induction false} CancelReaches(q: Queues, job: string, n: nat, i: nat)
    requires n <= |q.items| && i < |q.items| && q.items[i].job == job && !q.items[i].done
    ensures var r := CancelBelow(q, job, n);
            && r.inflight == q.inflight
            && r.items[i] == (if i < n then q.items[i].(done := true, canceled := true) else q.items[i])
            && (i < n && q.items[i].leased ==> i !in r.leases)
  {
    if n > 0 { CancelReaches(q, job, n - 1, i); }
  }

  // ---- The queues in place ----

  class FairQueues {
    const config: Config
    var items: seq<Item>
    var leases: set<nat>
    var dead: seq<(nat, Reason)>
    var open: bool
    var failures: nat
    var inflight: map<string, int>
    var served: map<string, nat>

    function State(): Queues
      reads this
    {
      Queues(items, leases, dead, open, failures, inflight, served)
    }

    constructor (config: Config)
      ensures State() == Empty() && this.config == config
      ensures Inv(State(), config)
    {
      this.config := config;
      items, leases, dead, open, failures, inflight, served := [], {}, [], false, 0, map[], map[];
      new;
      EmptyInv(config);
    }

    method EnqueueIntakeItem(job: string, user: string, now: int)
      requires Inv(State(), config)
      modifies this
      ensures State() == Step(old(State()), config, EnqueueIntake(job, user, now)) && Inv(State(), config)
    {
      StepKeepsInv(State(), config, EnqueueIntake(job, user, now));
      items := items + [Item(job, user, None, now, 0, false, false, 0, None, false)];
    }

    method EnqueueProviderItem(job: string, user: string, credential: string, now: int) returns (ok: bool)
      requires Inv(State(), config)
      modifies this
      ensures State() == Step(old(State()), config, EnqueueProvider(job, user, credential, now))
      ensures Inv(State(), config) && (ok <==> credential != "" && !old(open))
    {
      StepKeepsInv(State(), config, EnqueueProvider(job, user, credential, now));
      if credential == "" || open {
        return false;
      }
      items := items + [Item(job, user, Some(credential), now, 0, false, false, 0, None, false)];
      return true;
    }

    /** Leases item `i` and counts the service, and the credential's slot for a provider item. */
    method Lease(i: nat, worker: string, now: int)
      requires i < |items|
      modifies this
      ensures State() == Claimed(old(State()), config, i, worker, now)
    {
      var item := items[i];
      items := items[i := item.(leased := true, expiresAt := now + config.leaseMs, worker := Some(worker))];
      if item.credential.Some? {
        var c := item.credential.value;
        inflight := inflight[c := (if c in inflight then inflight[c] else 0) + 1];
      }
      leases := leases + {i};
      served := served[item.user := (if item.user in served then served[item.user] else 0) + 1];
    }

    method ClaimIntakeItem(worker: string, now: int) returns (id: Option<nat>)
      requires Inv(State(), config)
      modifies this
      ensures State() == Step(old(State()), config, ClaimIntake(worker, now)) && Inv(State(), config)
      ensures id == Choice(old(State()), config.cap, false)
    {
      StepKeepsInv(State(), config, ClaimIntake(worker, now));
      var pending := PendingBelow(State(), false, |items|);
      var sorted := Sort(State(), pending);
      if |pending| == 0 {
        return None;
      }
      assert pending[0] in sorted && sorted[0] in pending;
      hide Sort, PendingBelow, Inv, Claimed;
      Lease(sorted[0], worker, now);
      return Some(sorted[0]);
    }

    method ClaimProviderItem(worker: string, now: int) returns (id: Option<nat>)
      requires Inv(State(), config)
      modifies this
      ensures State() == Step(old(State()), config, ClaimProvider(worker, now)) && Inv(State(), config)
      ensures id == Choice(old(State()), config.cap, true)
    {
      ghost var q := State();
      StepKeepsInv(q, config, ClaimProvider(worker, now));
      hide Sort, PendingBelow, Inv, Claimed;
      if open {
        return None;
      }
      var pending := Sort(State(), PendingBelow(State(), true, |items|));
      assert forall n :: 0 <= n < |pending| ==> pending[n] in pending;
      for n := 0 to |pending|
        invariant State() == q
        invariant FirstUncapped(q, config.cap, pending[n..]) == FirstUncapped(q, config.cap, pending)
      {
        var i := pending[n];
        assert Pending(q, true, i);
        assert pending[n..][0] == i && pending[n..][1..] == pending[n + 1..];
        var c := items[i].credential.value;
        if (if c in inflight then inflight[c] else 0) >= config.cap {
          continue;
        }
        Lease(i, worker, now);
        return Some(i);
      }
      return None;
    }

    method HeartbeatLease(id: nat, worker: string, now: int)
      requires Inv(State(), config)
      modifies this
      ensures State() == Step(old(State()), config, Heartbeat(id, worker, now)) && Inv(State(), config)
    {
      StepKeepsInv(State(), config, Heartbeat(id, worker, now));
      if id !in leases || items[id].worker != Some(worker) {
        return;
      }
      if items[id].expiresAt < now {
        return;
      }
      items := items[id := items[id].(expiresAt := now + config.leaseMs)];
    }

    method ReturnSlot(c: Option<string>)
      modifies this`inflight
      ensures inflight == Returned(old(inflight), c)
    {
      if c.Some? {
        var n := if c.value in inflight && inflight[c.value] != 0 then inflight[c.value] else 1;
        inflight := inflight[c.value := if n - 1 > 0 then n - 1 else 0];
      }
    }

    method CompleteLease(id: nat, success: bool, uncertain: bool)
      requires Inv(State(), config)
      modifies this
      ensures State() == Step(old(State()), config, Complete(id, success, uncertain)) && Inv(State(), config)
    {
      StepKeepsInv(State(), config, Complete(id, success, uncertain));
      if id !in leases {
        return;
      }
      var item := items[id].(done := true, leased := false);
      items := items[id := item];
      leases := leases - {id};
      ReturnSlot(item.credential);
      if uncertain {
        dead := dead + [(id, UncertainQuery)];
        failures := failures + 1;
        if failures >= 3 {
          open := true;
        }
        return;
      }
      if !success {
        item := item.(attempts := item.attempts + 1);
        if item.attempts >= 3 {
          items := items[id := item];
          dead := dead + [(id, MaxAttempts)];
          return;
        }
        items := items[id := item.(done := false)];
        return;
      }
      failures := if failures > 0 then failures - 1 else 0;
    }

    method RecoverExpiredLeases(now: int)
      requires Inv(State(), config)
      modifies this
      ensures State() == Step(old(State()), config, RecoverExpired(now)) && Inv(State(), config)
    {
      StepKeepsInv(State(), config, RecoverExpired(now));
      for id := 0 to |items|
        invariant |items| == |old(items)|
        invariant State() == RecoverBelow(old(State()), now, id)
      {
        if id in leases && items[id].expiresAt < now {
          var item := items[id];
          items := items[id := item.(leased := false, worker := None)];
          leases := leases - {id};
          ReturnSlot(item.credential);
        }
      }
    }

    method CancelJobItems(job: string)
      requires Inv(State(), config)
      modifies this
      ensures State() == Step(old(State()), config, CancelJob(job)) && Inv(State(), config)
    {
      StepKeepsInv(State(), config, CancelJob(job));
      for i := 0 to |items|
        invariant |items| == |old(items)|
        invariant State() == CancelBelow(old(State()), job, i)
      {
        var item := items[i];
        if item.job == job && !item.done {
          items := items[i := item.(done := true, canceled := true)];
          if item.leased {
            leases := leases - {i};
          }
        }
      }
    }

    method Reset()
      requires Inv(State(), config)
      modifies this
      ensures State() == Step(old(State()), config, ResetCircuit) && Inv(State(), config)
    {
      open, failures := false, 0;
    }
  }
}
