/**
 The finalize service: jobs admitted once per idempotency key, a validation outbox and a provider outbox
 that tasks leave once, and a quota ledger of reservations, consumptions and releases.
 */
module Finalizing {
  import opened Text
  import opened Counting

  type JobId = nat

  datatype Status = Uploaded | Queued | AwaitingReport | Canceled | Failed

  datatype Job = Job(user: string, key: string, payload: string, status: Status, reserved: bool, consumed: bool)

  datatype Task = Task(job: JobId, done: bool)

  datatype Quota = Quota(reserved: nat, consumed: nat, released: nat)

  datatype Ledger = Ledger(
    jobs: map<JobId, Job>,
    validation: seq<Task>,
    provider: seq<Task>,
    quota: map<string, Quota>)

  /** `payload` stands for the payload's hash; `intake` is the intake's error, if any. */
  datatype Request = Request(
    user: string,
    key: string,
    entitled: bool,
    consented: bool,
    language: string,
    objects: nat,
    payload: string,
    intake: Option<string>)

  datatype Reply = Accepted(id: JobId, reused: bool) | Refused(error: string)

  datatype Event =
    | Finalize(request: Request, id: JobId)
    | Validate(fail: bool)
    | Submit(consume: bool)
    | Cancel(job: JobId)
    | Rollback(job: JobId)

  // ---- Finalizing ----

  predicate Holds(j: Job, user: string, key: string) { j.user == user && j.key == key }

  ghost function Existing(jobs: map<JobId, Job>, user: string, key: string): (r: Option<JobId>)
    ensures r.Some? ==> r.value in jobs && Holds(jobs[r.value], user, key)
    ensures r.None? ==> forall id <- jobs :: !Holds(jobs[id], user, key)
  {
    if exists id :: id in jobs && Holds(jobs[id], user, key) then
      var id :| id in jobs && Holds(jobs[id], user, key);
      Some(id)
    else None
  }

  function Precheck(r: Request): Option<string> {
    if !r.entitled then Some("entitlement")
    else if !r.consented then Some("stale-consent")
    else if r.language == "" then Some("language")
    else if r.objects == 0 then Some("objects")
    else None
  }

  ghost function FinalizeReply(s: Ledger, r: Request, id: JobId): Reply {
    if Precheck(r).Some? then Refused(Precheck(r).value)
    else match Existing(s.jobs, r.user, r.key)
      case Some(old_) => if s.jobs[old_].payload != r.payload then Refused("idempotency-conflict") else Accepted(old_, true)
      case None => if r.intake.Some? then Refused(r.intake.value) else Accepted(id, false)
  }

  function Admit(s: Ledger, r: Request, id: JobId): Ledger {
    s.(jobs := s.jobs[id := Job(r.user, r.key, r.payload, Uploaded, false, false)],
       validation := s.validation + [Task(id, false)])
  }

  ghost function FinalizeStep(s: Ledger, r: Request, id: JobId): Ledger {
    var reply := FinalizeReply(s, r, id);
    if reply.Accepted? && !reply.reused then Admit(s, r, id) else s
  }

  // ---- The quota ledger ----

  function QuotaOf(quota: map<string, Quota>, user: string): Quota {
    if user in quota then quota[user] else Quota(0, 0, 0)
  }

  /** The code clamps the count at zero. */
  function LessOne(n: nat): nat { if n == 0 then 0 else n - 1 }

  predicate Held(j: Job) { j.reserved && !j.consumed }

  function Reserve(s: Ledger, id: JobId): Ledger
    requires id in s.jobs
  {
    var (j, q) := (s.jobs[id], QuotaOf(s.quota, s.jobs[id].user));
    s.(jobs := s.jobs[id := j.(status := Queued, reserved := true)],
       quota := s.quota[j.user := q.(reserved := q.reserved + 1)],
       provider := s.provider + [Task(id, false)])
  }

  function Release(s: Ledger, id: JobId): Ledger
    requires id in s.jobs
  {
    var (j, q) := (s.jobs[id], QuotaOf(s.quota, s.jobs[id].user));
    if !Held(j) then s
    else s.(jobs := s.jobs[id := j.(reserved := false)],
            quota := s.quota[j.user := q.(reserved := LessOne(q.reserved), released := q.released + 1)])
  }

  function Consume(s: Ledger, id: JobId): Ledger
    requires id in s.jobs
  {
    var (j, q) := (s.jobs[id], QuotaOf(s.quota, s.jobs[id].user));
    s.(jobs := s.jobs[id := j.(consumed := true)],
       quota := s.quota[j.user := q.(consumed := q.consumed + 1, reserved := LessOne(q.reserved))])
  }

  function WithStatus(s: Ledger, id: JobId, status: Status): Ledger
    requires id in s.jobs
  {
    s.(jobs := s.jobs[id := s.jobs[id].(status := status)])
  }

  // ---- The outboxes ----

  function ValidateOne(s: Ledger, i: nat): Ledger
    requires i < |s.validation|
  {
    var id := s.validation[i].job;
    var t := s.(validation := s.validation[i := Task(id, true)]);
    if s.validation[i].done then s
    else if id !in s.jobs || s.jobs[id].status.Canceled? then t
    else Reserve(t, id)
  }

  function ValidateFrom(s: Ledger, i: nat): Ledger
    requires i <= |s.validation|
    decreases |s.validation| - i
  {
    if i == |s.validation| then s else ValidateFrom(ValidateOne(s, i), i + 1)
  }

  function SubmitOne(s: Ledger, consume: bool, i: nat): Ledger
    requires i < |s.provider|
  {
    var id := s.provider[i].job;
    var t := s.(provider := s.provider[i := Task(id, true)]);
    if s.provider[i].done then s
    else if id !in s.jobs then t
    else if s.jobs[id].status.Canceled? then Release(t, id)
    else WithStatus(if consume && Held(s.jobs[id]) then Consume(t, id) else t, id, AwaitingReport)
  }

  function SubmitFrom(s: Ledger, consume: bool, i: nat): Ledger
    requires i <= |s.provider|
    decreases |s.provider| - i
  {
    if i == |s.provider| then s else SubmitFrom(SubmitOne(s, consume, i), consume, i + 1)
  }

  function Settled(tasks: seq<Task>, id: JobId): (r: seq<Task>)
    ensures |r| == |tasks|
    ensures forall i :: 0 <= i < |tasks| ==> r[i] == Task(tasks[i].job, tasks[i].done || tasks[i].job == id)
  {
    if tasks == [] then []
    else Settled(tasks[..|tasks| - 1], id) +
         [Task(tasks[|tasks| - 1].job, tasks[|tasks| - 1].done || tasks[|tasks| - 1].job == id)]
  }

  function CancelStep(s: Ledger, id: JobId): Ledger {
    if id !in s.jobs then s else Release(WithStatus(s, id, Canceled), id)
  }

  function RollbackStep(s: Ledger, id: JobId): Ledger {
    if id !in s.jobs then s
    else var t := Release(WithStatus(s, id, Failed), id); t.(provider := Settled(t.provider, id))
  }

  /** Drawn job identifiers are new. */
  predicate Enabled(s: Ledger, e: Event) { e.Finalize? ==> e.id !in s.jobs }

  ghost function Step(s: Ledger, e: Event): Ledger {
    match e
    case Finalize(r, id) => FinalizeStep(s, r, id)
    case Validate(fail) => if fail then s else ValidateFrom(s, 0)
    case Submit(consume) => SubmitFrom(s, consume, 0)
    case Cancel(id) => CancelStep(s, id)
    case Rollback(id) => RollbackStep(s, id)
  }

  // ---- What every step keeps ----

  function HeldBy(jobs: map<JobId, Job>, user: string): set<JobId> {
    set id | id in jobs && jobs[id].user == user && Held(jobs[id])
  }

  function ConsumedBy(jobs: map<JobId, Job>, user: string): set<JobId> {
    set id | id in jobs && jobs[id].user == user && jobs[id].consumed
  }

  /** Every reservation ever made for a user left one provider task. */
  function MadeFor(jobs: map<JobId, Job>, provider: seq<Task>, user: string): set<int> {
    set i | 0 <= i < |provider| && provider[i].job in jobs && jobs[provider[i].job].user == user
  }

  ghost predicate QuotaKept(jobs: map<JobId, Job>, provider: seq<Task>, quota: map<string, Quota>, user: string) {
    var q := QuotaOf(quota, user);
    && q.reserved == |HeldBy(jobs, user)|
    && q.consumed == |ConsumedBy(jobs, user)|
    && q.reserved + q.consumed + q.released == |MadeFor(jobs, provider, user)|
  }

  ghost predicate TasksKept(jobs: map<JobId, Job>, tasks: seq<Task>) {
    && (forall i :: 0 <= i < |tasks| ==> tasks[i].job in jobs)
    && (forall i, k :: 0 <= i < k < |tasks| ==> tasks[i].job != tasks[k].job)
  }

  predicate Pending(validation: seq<Task>, id: JobId) {
    exists i :: 0 <= i < |validation| && validation[i] == Task(id, false)
  }

  /** Until its validation task is done a job has no provider task and no claim on quota. */
  ghost predicate StagesKept(jobs: map<JobId, Job>, validation: seq<Task>, provider: seq<Task>) {
    && (forall id <- jobs :: exists i :: 0 <= i < |validation| && validation[i].job == id)
    && (forall id <- jobs :: Pending(validation, id) ==> !jobs[id].reserved && !jobs[id].consumed)
    && (forall i :: 0 <= i < |provider| ==> !Pending(validation, provider[i].job))
  }

  ghost predicate KeysUnique(jobs: map<JobId, Job>) {
    forall a <- jobs, b <- jobs :: Holds(jobs[b], jobs[a].user, jobs[a].key) ==> a == b
  }

  ghost predicate Inv(s: Ledger) {
    && TasksKept(s.jobs, s.validation)
    && TasksKept(s.jobs, s.provider)
    && StagesKept(s.jobs, s.validation, s.provider)
    && KeysUnique(s.jobs)
    && forall user :: QuotaKept(s.jobs, s.provider, s.quota, user)
  }

  function One(b: bool): nat { if b then 1 else 0 }

  lemma HeldChanges(jobs: map<JobId, Job>, id: JobId, j: Job, user: string)
    requires id in jobs && j.user == jobs[id].user
    ensures |HeldBy(jobs[id := j], user)| ==
            |HeldBy(jobs, user)| + (if j.user == user then One(Held(j)) - One(Held(jobs[id])) else 0)
  {
    var old_, new_ := HeldBy(jobs, user), HeldBy(jobs[id := j], user);
    assert new_ == if j.user == user && Held(j) then old_ + {id} else old_ - {id};
  }

  lemma ConsumedChanges(jobs: map<JobId, Job>, id: JobId, j: Job, user: string)
    requires id in jobs && j.user == jobs[id].user
    ensures |ConsumedBy(jobs[id := j], user)| ==
            |ConsumedBy(jobs, user)| + (if j.user == user then One(j.consumed) - One(jobs[id].consumed) else 0)
  {
    var old_, new_ := ConsumedBy(jobs, user), ConsumedBy(jobs[id := j], user);
    assert new_ == if j.user == user && j.consumed then old_ + {id} else old_ - {id};
  }

  lemma MadeSame(jobs: map<JobId, Job>, id: JobId, j: Job, provider: seq<Task>, user: string)
    requires id in jobs && j.user == jobs[id].user
    ensures MadeFor(jobs[id := j], provider, user) == MadeFor(jobs, provider, user)
  {
  }

  lemma MadeGrows(jobs: map<JobId, Job>, provider: seq<Task>, id: JobId, user: string)
    requires id in jobs
    ensures |MadeFor(jobs, provider + [Task(id, false)], user)| == |MadeFor(jobs, provider, user)| + One(jobs[id].user == user)
  {
    var old_, new_ := MadeFor(jobs, provider, user), MadeFor(jobs, provider + [Task(id, false)], user);
    assert new_ == if jobs[id].user == user then old_ + {|provider|} else old_;
  }

  /** Changing a job's record moves at most its own user's counts; the rest of the ledger is untouched. */
  lemma JobChanges(jobs: map<JobId, Job>, provider: seq<Task>, id: JobId, j: Job, user: string)
    requires id in jobs && j.user == jobs[id].user
    ensures var jobs' := jobs[id := j];
            && MadeFor(jobs', provider, user) == MadeFor(jobs, provider, user)
            && |HeldBy(jobs', user)| == |HeldBy(jobs, user)| + (if j.user == user then One(Held(j)) - One(Held(jobs[id])) else 0)
            && |ConsumedBy(jobs', user)| == |ConsumedBy(jobs, user)| + (if j.user == user then One(j.consumed) - One(jobs[id].consumed) else 0)
  {
    HeldChanges(jobs, id, j, user);
    ConsumedChanges(jobs, id, j, user);
    MadeSame(jobs, id, j, provider, user);
    hide HeldBy, ConsumedBy, MadeFor;
  }

  /** A held reservation is counted, so the clamp does not bind. */
  lemma ClampNeverBinds(s: Ledger, id: JobId)
    requires Inv(s) && id in s.jobs && Held(s.jobs[id])
    ensures QuotaOf(s.quota, s.jobs[id].user).reserved >= 1
  {
    var user := s.jobs[id].user;
    assert id in HeldBy(s.jobs, user);
    assert QuotaKept(s.jobs, s.provider, s.quota, user);
  }

  lemma ReserveKeepsQuota(s: Ledger, id: JobId, user: string)
    requires id in s.jobs && !s.jobs[id].reserved && !s.jobs[id].consumed
    requires QuotaKept(s.jobs, s.provider, s.quota, user)
    ensures var r := Reserve(s, id); QuotaKept(r.jobs, r.provider, r.quota, user)
  {
    var r := Reserve(s, id);
    JobChanges(s.jobs, s.provider, id, r.jobs[id], user);
    MadeGrows(r.jobs, s.provider, id, user);
    hide HeldBy, ConsumedBy, MadeFor;
  }

  lemma ReleaseKeepsQuota(s: Ledger, id: JobId, user: string)
    requires id in s.jobs && (Held(s.jobs[id]) ==> QuotaOf(s.quota, s.jobs[id].user).reserved >= 1)
    requires QuotaKept(s.jobs, s.provider, s.quota, user)
    ensures var r := Release(s, id); QuotaKept(r.jobs, r.provider, r.quota, user)
  {
    var r := Release(s, id);
    JobChanges(s.jobs, s.provider, id, r.jobs[id], user);
    hide HeldBy, ConsumedBy, MadeFor;
    assert !Held(s.jobs[id]) ==> r == s;
  }

  lemma ConsumeKeepsQuota(s: Ledger, id: JobId, user: string)
    requires id in s.jobs && Held(s.jobs[id]) && QuotaOf(s.quota, s.jobs[id].user).reserved >= 1
    requires QuotaKept(s.jobs, s.provider, s.quota, user)
    ensures var r := Consume(s, id); QuotaKept(r.jobs, r.provider, r.quota, user)
  {
    var r := Consume(s, id);
    JobChanges(s.jobs, s.provider, id, r.jobs[id], user);
    hide HeldBy, ConsumedBy, MadeFor;
  }

  lemma StatusKeepsQuota(s: Ledger, id: JobId, status: Status, user: string)
    requires id in s.jobs && QuotaKept(s.jobs, s.provider, s.quota, user)
    ensures var r := WithStatus(s, id, status); QuotaKept(r.jobs, r.provider, r.quota, user)
  {
    JobChanges(s.jobs, s.provider, id, s.jobs[id].(status := status), user);
    hide HeldBy, ConsumedBy, MadeFor;
  }

  // ---- One task of an outbox, one command ----

  /** A job's record may change in its status and in giving up or consuming a reservation. */
  ghost predicate SameJobs(jobs: map<JobId, Job>, jobs': map<JobId, Job>) {
    && jobs'.Keys == jobs.Keys
    && forall id <- jobs :: jobs'[id].user == jobs[id].user && jobs'[id].key == jobs[id].key
                         && jobs'[id].payload == jobs[id].payload
  }

  ghost predicate NoNewClaims(jobs: map<JobId, Job>, jobs': map<JobId, Job>) {
    forall id <- jobs :: id in jobs' && (jobs'[id].reserved ==> jobs[id].reserved)
                      && (jobs'[id].consumed ==> jobs[id].reserved || jobs[id].consumed)
  }

  /** Everything but the quota is kept when records change in these ways and tasks are only marked done. */
  lemma SameStages(s: Ledger, r: Ledger)
    requires Inv(s) && SameJobs(s.jobs, r.jobs) && NoNewClaims(s.jobs, r.jobs)
    requires r.validation == s.validation && |r.provider| == |s.provider|
    requires forall i :: 0 <= i < |s.provider| ==> r.provider[i].job == s.provider[i].job
    requires forall user :: QuotaKept(r.jobs, r.provider, r.quota, user)
    ensures Inv(r)
  {
    hide QuotaKept;
  }

  lemma ReleaseKeepsInv(s: Ledger, id: JobId)
    requires Inv(s) && id in s.jobs
    ensures Inv(Release(s, id))
  {
    var r := Release(s, id);
    if Held(s.jobs[id]) { ClampNeverBinds(s, id); }
    forall user ensures QuotaKept(r.jobs, r.provider, r.quota, user) { ReleaseKeepsQuota(s, id, user); }
    SameStages(s, r);
    hide Inv;
  }

  lemma ConsumeKeepsInv(s: Ledger, id: JobId)
    requires Inv(s) && id in s.jobs && Held(s.jobs[id])
    ensures Inv(Consume(s, id))
  {
    var r := Consume(s, id);
    ClampNeverBinds(s, id);
    forall user ensures QuotaKept(r.jobs, r.provider, r.quota, user) { ConsumeKeepsQuota(s, id, user); }
    SameStages(s, r);
    hide Inv;
  }

  lemma StatusKeepsInv(s: Ledger, id: JobId, status: Status)
    requires Inv(s) && id in s.jobs
    ensures Inv(WithStatus(s, id, status))
  {
    var r := WithStatus(s, id, status);
    forall user ensures QuotaKept(r.jobs, r.provider, r.quota, user) { StatusKeepsQuota(s, id, status, user); }
    SameStages(s, r);
    hide Inv;
  }

  /** Marking provider tasks done moves no count. */
  lemma SettleKeepsInv(s: Ledger, provider: seq<Task>)
    requires Inv(s) && |provider| == |s.provider|
    requires forall i :: 0 <= i < |provider| ==> provider[i].job == s.provider[i].job
    ensures Inv(s.(provider := provider))
  {
    forall user ensures QuotaKept(s.jobs, provider, s.quota, user) {
      assert QuotaKept(s.jobs, s.provider, s.quota, user);
      assert MadeFor(s.jobs, provider, user) == MadeFor(s.jobs, s.provider, user);
    }
    SameStages(s, s.(provider := provider));
    hide Inv;
  }

  lemma PendingShrinks(tasks: seq<Task>, i: nat, id: JobId)
    requires i < |tasks| && Pending(tasks[i := Task(tasks[i].job, true)], id)
    ensures Pending(tasks, id)
  {
    var r := tasks[i := Task(tasks[i].job, true)];
    var k :| 0 <= k < |r| && r[k] == Task(id, false);
    assert tasks[k] == Task(id, false);
  }

  lemma MarkKeepsInv(s: Ledger, i: nat)
    requires Inv(s) && i < |s.validation|
    ensures var id := s.validation[i].job;
            && Inv(s.(validation := s.validation[i := Task(id, true)]))
            && !Pending(s.validation[i := Task(id, true)], id)
  {
    hide QuotaKept, KeysUnique;
    var v := s.validation[i := Task(s.validation[i].job, true)];
    forall id | Pending(v, id) ensures Pending(s.validation, id) && id != s.validation[i].job {
      PendingShrinks(s.validation, i, id);
    }
    forall id <- s.jobs ensures exists k :: 0 <= k < |v| && v[k].job == id {
      var k :| 0 <= k < |s.validation| && s.validation[k].job == id;
      assert v[k].job == id;
    }
  }

  lemma ReserveKeepsInv(s: Ledger, id: JobId)
    requires Inv(s) && id in s.jobs && !s.jobs[id].reserved && !s.jobs[id].consumed
    requires !Pending(s.validation, id) && forall i :: 0 <= i < |s.provider| ==> s.provider[i].job != id
    ensures Inv(Reserve(s, id))
  {
    var r := Reserve(s, id);
    forall user ensures QuotaKept(r.jobs, r.provider, r.quota, user) { ReserveKeepsQuota(s, id, user); }
    hide QuotaKept;
  }

  lemma ValidateOneKeepsInv(s: Ledger, i: nat)
    requires Inv(s) && i < |s.validation|
    ensures Inv(ValidateOne(s, i))
  {
    var id := s.validation[i].job;
    if !s.validation[i].done {
      MarkKeepsInv(s, i);
      assert Pending(s.validation, id);
      if !s.jobs[id].status.Canceled? {
        ReserveKeepsInv(s.(validation := s.validation[i := Task(id, true)]), id);
      }
    }
    hide QuotaKept, KeysUnique, TasksKept, Reserve;
  }

  lemma SubmitOneKeepsInv(s: Ledger, consume: bool, i: nat)
    requires Inv(s) && i < |s.provider|
    ensures Inv(SubmitOne(s, consume, i))
  {
    var id := s.provider[i].job;
    var t := s.(provider := s.provider[i := Task(id, true)]);
    SettleKeepsInv(s, t.provider);
    assert id in t.jobs;
    hide Inv, Release, Consume;
    if t.jobs[id].status.Canceled? {
      ReleaseKeepsInv(t, id);
    } else if consume && Held(t.jobs[id]) {
      ConsumeKeepsInv(t, id);
      ConsumeKeepsJobs(t, id);
      StatusKeepsInv(Consume(t, id), id, AwaitingReport);
    } else {
      StatusKeepsInv(t, id, AwaitingReport);
    }
  }

  lemma ConsumeKeepsJobs(s: Ledger, id: JobId)
    requires id in s.jobs
    ensures Consume(s, id).jobs.Keys == s.jobs.Keys
  {
  }

  lemma AdmitKeepsQuota(s: Ledger, r: Request, id: JobId, user: string)
    requires id !in s.jobs && TasksKept(s.jobs, s.provider) && QuotaKept(s.jobs, s.provider, s.quota, user)
    ensures var t := Admit(s, r, id); QuotaKept(t.jobs, t.provider, t.quota, user)
  {
    var t := Admit(s, r, id);
    assert HeldBy(t.jobs, user) == HeldBy(s.jobs, user);
    assert ConsumedBy(t.jobs, user) == ConsumedBy(s.jobs, user);
    assert MadeFor(t.jobs, t.provider, user) == MadeFor(s.jobs, s.provider, user);
  }

  lemma AdmitKeepsStages(s: Ledger, r: Request, id: JobId)
    requires TasksKept(s.jobs, s.validation) && TasksKept(s.jobs, s.provider) && StagesKept(s.jobs, s.validation, s.provider)
    requires id !in s.jobs
    ensures var t := Admit(s, r, id); StagesKept(t.jobs, t.validation, t.provider)
  {
    var t := Admit(s, r, id);
    forall k | Pending(t.validation, k) ensures k == id || Pending(s.validation, k) {
      var i :| 0 <= i < |t.validation| && t.validation[i] == Task(k, false);
      assert i < |s.validation| ==> s.validation[i] == Task(k, false);
    }
    assert t.validation[|s.validation|].job == id;
    forall k <- s.jobs ensures exists i :: 0 <= i < |t.validation| && t.validation[i].job == k {
      var i :| 0 <= i < |s.validation| && s.validation[i].job == k;
      assert t.validation[i].job == k;
    }
  }

  lemma AdmitKeepsInv(s: Ledger, r: Request, id: JobId)
    requires Inv(s) && id !in s.jobs && forall k <- s.jobs :: !Holds(s.jobs[k], r.user, r.key)
    ensures Inv(Admit(s, r, id))
  {
    var t := Admit(s, r, id);
    forall user ensures QuotaKept(t.jobs, t.provider, t.quota, user) { AdmitKeepsQuota(s, r, id, user); }
    AdmitKeepsStages(s, r, id);
    hide QuotaKept, StagesKept;
  }

  lemma {:induction false} ValidateKeepsInv(s: Ledger, i: nat)
    requires Inv(s) && i <= |s.validation|
    ensures Inv(ValidateFrom(s, i))
    decreases |s.validation| - i
  {
    if i < |s.validation| {
      ValidateOneKeepsInv(s, i);
      hide Inv, ValidateOne;
      ValidateOneLength(s, i);
      ValidateKeepsInv(ValidateOne(s, i), i + 1);
    }
  }

  lemma ValidateOneLength(s: Ledger, i: nat)
    requires i < |s.validation|
    ensures |ValidateOne(s, i).validation| == |s.validation|
  {
  }

  lemma {:induction false} SubmitKeepsInv(s: Ledger, consume: bool, i: nat)
    requires Inv(s) && i <= |s.provider|
    ensures Inv(SubmitFrom(s, consume, i))
    decreases |s.provider| - i
  {
    if i < |s.provider| {
      SubmitOneKeepsInv(s, consume, i);
      hide Inv, SubmitOne;
      SubmitOneLength(s, consume, i);
      SubmitKeepsInv(SubmitOne(s, consume, i), consume, i + 1);
    }
  }

  lemma SubmitOneLength(s: Ledger, consume: bool, i: nat)
    requires i < |s.provider|
    ensures |SubmitOne(s, consume, i).provider| == |s.provider|
  {
  }

  lemma StepKeepsInv(s: Ledger, e: Event)
    requires Inv(s) && Enabled(s, e)
    ensures Inv(Step(s, e))
  {
    hide Inv, ValidateFrom, SubmitFrom, Release, Settled;
    match e {
      case Finalize(r, id) =>
        if Existing(s.jobs, r.user, r.key).None? { AdmitKeepsInv(s, r, id); }
      case Validate(fail) => ValidateKeepsInv(s, 0);
      case Submit(consume) => SubmitKeepsInv(s, consume, 0);
      case Cancel(id) =>
        if id in s.jobs {
          StatusKeepsInv(s, id, Canceled);
          ReleaseKeepsInv(WithStatus(s, id, Canceled), id);
        }
      case Rollback(id) =>
        if id in s.jobs {
          StatusKeepsInv(s, id, Failed);
          ReleaseKeepsInv(WithStatus(s, id, Failed), id);
          var t := Release(WithStatus(s, id, Failed), id);
          SettleKeepsInv(t, Settled(t.provider, id));
        }
    }
  }

  // ---- Whole runs ----

  ghost predicate Legal(s: Ledger, es: seq<Event>)
    decreases |es|
  {
    es == [] || (Enabled(s, es[0]) && Legal(Step(s, es[0]), es[1..]))
  }

  ghost function Exec(s: Ledger, es: seq<Event>): Ledger
    decreases |es|
  {
    if es == [] then s else Exec(Step(s, es[0]), es[1..])
  }

  function Empty(): Ledger { Ledger(map[], [], [], map[]) }

  lemma EmptyInv()
    ensures Inv(Empty())
  {
    forall u ensures QuotaKept(map[], [], map[], u) {
      assert HeldBy(map[], u) == {} && ConsumedBy(map[], u) == {} && MadeFor(map[], [], u) == {};
    }
  }

  lemma {:induction false} ExecKeepsInv(s: Ledger, es: seq<Event>)
    requires Inv(s) && Legal(s, es)
    ensures Inv(Exec(s, es))
    decreases |es|
  {
    if es != [] {
      hide Inv, Step;
      StepKeepsInv(s, es[0]);
      ExecKeepsInv(Step(s, es[0]), es[1..]);
    }
  }

  /**
   In every run, for every user: what is reserved, consumed and released adds up to the reservations ever
   made; each count is the number of jobs in that condition; a job has one validation task and at most one
   provider task; and a key names at most one of a user's jobs.
   */
  lemma LedgerBalances(es: seq<Event>, user: string)
    requires Legal(Empty(), es)
    ensures var s := Exec(Empty(), es);
            && (var q := QuotaOf(s.quota, user);
                && q.reserved == |HeldBy(s.jobs, user)| && q.consumed == |ConsumedBy(s.jobs, user)|
                && q.reserved + q.consumed + q.released == |MadeFor(s.jobs, s.provider, user)|)
            && (forall id <- s.jobs :: exists i :: 0 <= i < |s.validation| && s.validation[i].job == id)
            && (forall i, k :: 0 <= i < k < |s.validation| ==> s.validation[i].job != s.validation[k].job)
            && (forall i, k :: 0 <= i < k < |s.provider| ==> s.provider[i].job != s.provider[k].job)
            && (forall a <- s.jobs, b <- s.jobs :: s.jobs[a].user == s.jobs[b].user && s.jobs[a].key == s.jobs[b].key ==> a == b)
  {
    EmptyInv();
    ExecKeepsInv(Empty(), es);
    var s := Exec(Empty(), es);
    assert QuotaKept(s.jobs, s.provider, s.quota, user);
    hide HeldBy, ConsumedBy, MadeFor, Exec, Legal;
  }

  // ---- Idempotency ----

  ghost predicate Remembers(jobs: map<JobId, Job>, jobs': map<JobId, Job>) {
    forall id <- jobs :: id in jobs' && jobs'[id].user == jobs[id].user && jobs'[id].key == jobs[id].key
                      && jobs'[id].payload == jobs[id].payload
  }

  lemma {:induction false} ValidateRemembers(s: Ledger, i: nat)
    requires i <= |s.validation|
    ensures Remembers(s.jobs, ValidateFrom(s, i).jobs)
    decreases |s.validation| - i
  {
    if i < |s.validation| { ValidateRemembers(ValidateOne(s, i), i + 1); }
  }

  lemma {:induction false} SubmitRemembers(s: Ledger, consume: bool, i: nat)
    requires i <= |s.provider|
    ensures Remembers(s.jobs, SubmitFrom(s, consume, i).jobs)
    decreases |s.provider| - i
  {
    if i < |s.provider| { SubmitRemembers(SubmitOne(s, consume, i), consume, i + 1); }
  }

  lemma StepRemembers(s: Ledger, e: Event)
    requires Enabled(s, e)
    ensures Remembers(s.jobs, Step(s, e).jobs)
  {
    match e {
      case Finalize(r, id) =>
      case Validate(fail) => ValidateRemembers(s, 0);
      case Submit(consume) => SubmitRemembers(s, consume, 0);
      case Cancel(id) =>
      case Rollback(id) =>
    }
  }

  lemma {:induction false} ExecRemembers(s: Ledger, es: seq<Event>)
    requires Legal(s, es)
    ensures Remembers(s.jobs, Exec(s, es).jobs)
    decreases |es|
  {
    if es != [] {
      hide Step;
      StepRemembers(s, es[0]);
      ExecRemembers(Step(s, es[0]), es[1..]);
    }
  }

  /**
   A finalize that was accepted names its job for good: whatever happened since, the same user and key get
   that job back for the same payload and a conflict for another, and nothing changes.
   */
  lemma RetryFindsTheJob(s: Ledger, r: Request, id: JobId, es: seq<Event>, again: Request, id': JobId)
    requires Inv(s) && Enabled(s, Finalize(r, id)) && FinalizeReply(s, r, id).Accepted?
    requires Legal(Step(s, Finalize(r, id)), es)
    requires again.user == r.user && again.key == r.key && Precheck(again).None?
    ensures var t := Exec(Step(s, Finalize(r, id)), es);
            && FinalizeReply(t, again, id') == (if again.payload == r.payload then Accepted(FinalizeReply(s, r, id).id, true)
                                                else Refused("idempotency-conflict"))
            && FinalizeStep(t, again, id') == t
  {
    var s1, job := Step(s, Finalize(r, id)), FinalizeReply(s, r, id).id;
    StepKeepsInv(s, Finalize(r, id));
    ExecKeepsInv(s1, es);
    ExecRemembers(s1, es);
    var t := Exec(s1, es);
    assert Holds(s1.jobs[job], r.user, r.key) && s1.jobs[job].payload == r.payload;
    assert Holds(t.jobs[job], r.user, r.key) && t.jobs[job].payload == r.payload;
    assert KeysUnique(t.jobs);
    hide Inv, Exec, Legal, Precheck;
  }

  // ---- Cancellation ----

  /** A job that can no longer claim quota: its validation is over and it holds nothing. */
  predicate Spent(s: Ledger, id: JobId) {
    id in s.jobs && !Pending(s.validation, id) && !s.jobs[id].reserved && !s.jobs[id].consumed
  }

  predicate Parked(s: Ledger, id: JobId) {
    id in s.jobs && s.jobs[id].status.Canceled? && !s.jobs[id].reserved && !s.jobs[id].consumed
  }

  lemma ValidateOneKeepsSpent(s: Ledger, i: nat, id: JobId)
    requires i < |s.validation|
    ensures Spent(s, id) ==> Spent(ValidateOne(s, i), id)
    ensures Parked(s, id) ==> Parked(ValidateOne(s, i), id)
  {
    if Pending(s.validation[i := Task(s.validation[i].job, true)], id) { PendingShrinks(s.validation, i, id); }
    assert s.validation[i] == Task(id, false) ==> Pending(s.validation, id);
  }

  lemma {:induction false} ValidateKeepsSpent(s: Ledger, i: nat, id: JobId)
    requires i <= |s.validation|
    ensures Spent(s, id) ==> Spent(ValidateFrom(s, i), id)
    ensures Parked(s, id) ==> Parked(ValidateFrom(s, i), id)
    decreases |s.validation| - i
  {
    if i < |s.validation| {
      ValidateOneKeepsSpent(s, i, id);
      ValidateOneLength(s, i);
      hide ValidateOne;
      ValidateKeepsSpent(ValidateOne(s, i), i + 1, id);
    }
  }

  lemma {:induction false} SubmitKeepsSpent(s: Ledger, consume: bool, i: nat, id: JobId)
    requires i <= |s.provider|
    ensures Spent(s, id) ==> Spent(SubmitFrom(s, consume, i), id)
    ensures Parked(s, id) ==> Parked(SubmitFrom(s, consume, i), id)
    decreases |s.provider| - i
  {
    if i < |s.provider| {
      hide Pending;
      SubmitKeepsSpent(SubmitOne(s, consume, i), consume, i + 1, id);
    }
  }

  /** Only a rollback can bring a cancelled job out of its condition. */
  lemma StepKeepsSpent(s: Ledger, e: Event, id: JobId)
    requires Enabled(s, e)
    ensures Spent(s, id) ==> Spent(Step(s, e), id)
    ensures Parked(s, id) && e != Rollback(id) ==> Parked(Step(s, e), id)
  {
    match e {
      case Finalize(r, k) =>
        if k != id && Pending(Admit(s, r, k).validation, id) {
          var i :| 0 <= i < |s.validation| + 1 && Admit(s, r, k).validation[i] == Task(id, false);
          assert s.validation[i] == Task(id, false);
        }
      case Validate(fail) => ValidateKeepsSpent(s, 0, id);
      case Submit(consume) => SubmitKeepsSpent(s, consume, 0, id);
      case Cancel(k) =>
      case Rollback(k) =>
    }
  }

  lemma {:induction false} ExecKeepsSpent(s: Ledger, es: seq<Event>, id: JobId)
    requires Legal(s, es)
    ensures Spent(s, id) ==> Spent(Exec(s, es), id)
    ensures Parked(s, id) && Rollback(id) !in es ==> Parked(Exec(s, es), id)
    decreases |es|
  {
    if es != [] {
      hide Step, Spent, Parked;
      StepKeepsSpent(s, es[0], id);
      ExecKeepsSpent(Step(s, es[0]), es[1..], id);
    }
  }

  /** Ready to be submitted: quota is held and the provider task is pending. */
  ghost predicate Claiming(s: Ledger, id: JobId) {
    id in s.jobs && Held(s.jobs[id]) && !s.jobs[id].status.Canceled? && Pending(s.provider, id)
  }

  ghost predicate Waiting(s: Ledger, id: JobId, k: nat) {
    id in s.jobs && !s.jobs[id].status.Canceled? && k < |s.validation| && s.validation[k] == Task(id, false)
  }

  lemma ValidateOneReserves(s: Ledger, i: nat, id: JobId)
    requires Inv(s) && Waiting(s, id, i)
    ensures Claiming(ValidateOne(s, i), id)
  {
    assert Pending(s.validation, id);
    assert ValidateOne(s, i).provider[|s.provider|] == Task(id, false);
  }

  lemma ValidateOneKeepsWaiting(s: Ledger, i: nat, id: JobId, k: nat)
    requires Inv(s) && i < k && Waiting(s, id, k)
    ensures Waiting(ValidateOne(s, i), id, k)
  {
    assert s.validation[i].job != id;
    hide StagesKept, QuotaKept, KeysUnique;
  }

  lemma ValidateOneKeepsClaiming(s: Ledger, i: nat, id: JobId)
    requires Inv(s) && i < |s.validation| && Claiming(s, id)
    ensures Claiming(ValidateOne(s, i), id)
  {
    assert s.validation[i].done || Pending(s.validation, s.validation[i].job);
    var m :| 0 <= m < |s.provider| && s.provider[m] == Task(id, false);
    assert ValidateOne(s, i).provider[m] == Task(id, false);
    hide QuotaKept, KeysUnique, TasksKept;
  }

  lemma {:induction false} ValidateReserves(s: Ledger, i: nat, id: JobId, k: nat)
    requires Inv(s) && i <= |s.validation| && (Claiming(s, id) || (i <= k && Waiting(s, id, k)))
    ensures Claiming(ValidateFrom(s, i), id)
    decreases |s.validation| - i
  {
    hide Inv, ValidateOne, Claiming;
    if i < |s.validation| {
      ValidateOneKeepsInv(s, i);
      ValidateOneLength(s, i);
      if Claiming(s, id) {
        ValidateOneKeepsClaiming(s, i, id);
      } else if i < k {
        ValidateOneKeepsWaiting(s, i, id, k);
      } else {
        ValidateOneReserves(s, i, id);
      }
      ValidateReserves(ValidateOne(s, i), i + 1, id, k);
    }
  }

  lemma SubmitOneConsumes(s: Ledger, i: nat, id: JobId)
    requires Inv(s) && i < |s.provider| && s.provider[i] == Task(id, false) && Claiming(s, id)
    ensures var t := SubmitOne(s, true, i); id in t.jobs && t.jobs[id].consumed
  {
    hide Inv;
  }

  lemma SubmitOneKeepsClaiming(s: Ledger, i: nat, id: JobId)
    requires Inv(s) && i < |s.provider| && s.provider[i] != Task(id, false) && Claiming(s, id)
    ensures Claiming(SubmitOne(s, true, i), id)
  {
    var m :| 0 <= m < |s.provider| && s.provider[m] == Task(id, false);
    assert s.provider[i].job != id;
    assert SubmitOne(s, true, i).provider[m] == Task(id, false);
    hide Inv;
  }

  lemma {:induction false} SubmitConsumes(s: Ledger, i: nat, id: JobId, k: nat)
    requires Inv(s) && i <= k < |s.provider| && s.provider[k] == Task(id, false) && Claiming(s, id)
    ensures var t := SubmitFrom(s, true, i); id in t.jobs && t.jobs[id].consumed
    decreases |s.provider| - i
  {
    hide Inv, SubmitOne, Claiming;
    SubmitOneKeepsInv(s, true, i);
    SubmitOneLength(s, true, i);
    if s.provider[i] == Task(id, false) {
      SubmitOneConsumes(s, i, id);
      ConsumedStays(SubmitOne(s, true, i), i + 1, id);
    } else {
      SubmitOneKeepsClaiming(s, i, id);
      SubmitOneSpares(s, true, i, k);
      SubmitConsumes(SubmitOne(s, true, i), i + 1, id, k);
    }
  }

  lemma SubmitOneSpares(s: Ledger, consume: bool, i: nat, k: nat)
    requires i < |s.provider| && k < |s.provider| && k != i
    ensures |SubmitOne(s, consume, i).provider| == |s.provider| && SubmitOne(s, consume, i).provider[k] == s.provider[k]
  {
  }

  lemma {:induction false} ConsumedStays(s: Ledger, i: nat, id: JobId)
    requires i <= |s.provider| && id in s.jobs && s.jobs[id].consumed
    ensures var t := SubmitFrom(s, true, i); id in t.jobs && t.jobs[id].consumed
    decreases |s.provider| - i
  {
    if i < |s.provider| { ConsumedStays(SubmitOne(s, true, i), i + 1, id); }
  }

  /** A cancelled job that has not consumed does not consume in any run without a rollback of it. */
  lemma CanceledNeverConsumes(s: Ledger, id: JobId, es: seq<Event>)
    requires id in s.jobs && !s.jobs[id].consumed
    requires Legal(CancelStep(s, id), es) && Rollback(id) !in es
    ensures var t := Exec(CancelStep(s, id), es); id in t.jobs && t.jobs[id].status.Canceled? && !t.jobs[id].consumed
  {
    assert Parked(CancelStep(s, id), id);
    ExecKeepsSpent(CancelStep(s, id), es, id);
    hide Exec, Legal;
  }

  lemma CanceledAfterValidation(s: Ledger, id: JobId, es: seq<Event>)
    requires id in s.jobs && !s.jobs[id].consumed && !Pending(s.validation, id)
    requires Legal(CancelStep(s, id), es)
    ensures var t := Exec(CancelStep(s, id), es); id in t.jobs && !t.jobs[id].consumed
  {
    assert Spent(CancelStep(s, id), id);
    ExecKeepsSpent(CancelStep(s, id), es, id);
    hide Exec, Legal;
  }

  lemma RollbackWaits(s: Ledger, id: JobId)
    requires Inv(s) && id in s.jobs && Pending(s.validation, id)
    ensures var t := RollbackStep(CancelStep(s, id), id); Inv(t) && Pending(t.validation, id) && t.jobs[id].status == Failed
  {
    StepKeepsInv(s, Cancel(id));
    StepKeepsInv(CancelStep(s, id), Rollback(id));
    hide Inv, Pending, Settled;
  }

  lemma RollbackRevivesPending(s: Ledger, id: JobId)
    requires Inv(s) && id in s.jobs && Pending(s.validation, id)
    ensures var es := [Rollback(id), Validate(false), Submit(true)];
            var t := Exec(CancelStep(s, id), es);
            Legal(CancelStep(s, id), es) && id in t.jobs && t.jobs[id].consumed
  {
    hide Inv, ValidateFrom, SubmitFrom, CancelStep, RollbackStep, StagesKept;
    var e0, e1, e2 := Rollback(id), Validate(false), Submit(true);
    var s0 := CancelStep(s, id);
    var s1 := RollbackStep(s0, id);
    var s2 := ValidateFrom(s1, 0);
    RollbackWaits(s, id);
    var k :| 0 <= k < |s1.validation| && s1.validation[k] == Task(id, false);
    WaitingJob(s1, id);
    ValidateReserves(s1, 0, id, k);
    ValidateKeepsInv(s1, 0);
    var m :| 0 <= m < |s2.provider| && s2.provider[m] == Task(id, false);
    SubmitConsumes(s2, 0, id, m);
    var es := [e0, e1, e2];
    assert es[1..] == [e1, e2] && es[1..][1..] == [e2] && [e2][1..] == [];
    assert Exec(s2, [e2]) == SubmitFrom(s2, true, 0);
    assert Exec(s1, [e1, e2]) == SubmitFrom(s2, true, 0);
    assert Legal(s2, [e2]);
    assert Legal(s1, [e1, e2]) by { assert [e1, e2][1..] == [e2]; }
  }

  lemma WaitingJob(s: Ledger, id: JobId)
    requires Inv(s) && Pending(s.validation, id)
    ensures id in s.jobs
  {
  }

  ghost predicate ConsumedIn(s: Ledger, id: JobId, es: seq<Event>) {
    Legal(s, es) && id in Exec(s, es).jobs && Exec(s, es).jobs[id].consumed
  }

  /** With rollbacks, some run makes a cancelled job consume exactly when its validation task was still pending. */
  lemma CanceledConsumesIffPending(s: Ledger, id: JobId)
    requires Inv(s) && id in s.jobs && !s.jobs[id].consumed
    ensures (exists es :: ConsumedIn(CancelStep(s, id), id, es)) <==> Pending(s.validation, id)
  {
    if Pending(s.validation, id) {
      RollbackRevivesPending(s, id);
      assert ConsumedIn(CancelStep(s, id), id, [Rollback(id), Validate(false), Submit(true)]);
    } else {
      forall es | Legal(CancelStep(s, id), es) ensures !ConsumedIn(CancelStep(s, id), id, es) {
        CanceledAfterValidation(s, id, es);
      }
    }
    hide Inv, Exec, Legal, CancelStep, Pending;
  }

  // ---- What each event makes of a job ----

  /** The request passes every check made before any job is looked for. */
  predicate Sound(r: Request) { r.entitled && r.consented && r.language != "" && r.objects > 0 }

  predicate Known(jobs: map<JobId, Job>, r: Request) { exists id <- jobs :: jobs[id].user == r.user && jobs[id].key == r.key }

  /**
   A sound request is answered with the job its user already has under the key when the payload is the same, with a
   conflict when it is not, and with a new job when there is none and the intake accepts; the new job has one task
   waiting for validation and claims nothing. Every other answer changes nothing.
   */
  lemma FinalizeIff(s: Ledger, r: Request, id: JobId)
    requires Inv(s) && id !in s.jobs
    ensures var (reply, t) := (FinalizeReply(s, r, id), Step(s, Finalize(r, id)));
            && (forall k :: reply == Accepted(k, true) <==>
                  Sound(r) && k in s.jobs && s.jobs[k].user == r.user && s.jobs[k].key == r.key && s.jobs[k].payload == r.payload)
            && (Sound(r) && Known(s.jobs, r) && !reply.Accepted? ==>
                  reply == Refused("idempotency-conflict")
                  && exists k <- s.jobs :: s.jobs[k].user == r.user && s.jobs[k].key == r.key && s.jobs[k].payload != r.payload)
            && (reply == Accepted(id, false) <==> Sound(r) && !Known(s.jobs, r) && r.intake.None?)
            && (Sound(r) && !Known(s.jobs, r) && r.intake.Some? ==> reply == Refused(r.intake.value))
            && (reply == Accepted(id, false) ==>
                  t == s.(jobs := s.jobs[id := Job(r.user, r.key, r.payload, Uploaded, false, false)],
                          validation := s.validation + [Task(id, false)]))
            && (reply != Accepted(id, false) ==> t == s)
            && (!Sound(r) ==> reply == Refused(if !r.entitled then "entitlement" else if !r.consented then "stale-consent"
                                               else if r.language == "" then "language" else "objects"))
  {
    hide TasksKept, StagesKept, QuotaKept;
    var e := Existing(s.jobs, r.user, r.key);
    if Known(s.jobs, r) {
      var k :| k in s.jobs && s.jobs[k].user == r.user && s.jobs[k].key == r.key;
      assert Holds(s.jobs[k], r.user, r.key);
      assert e.Some? && Holds(s.jobs[e.value], s.jobs[k].user, s.jobs[k].key);
    }
  }

  predicate PendingFrom(tasks: seq<Task>, i: nat, id: JobId) {
    exists k :: i <= k < |tasks| && tasks[k] == Task(id, false)
  }

  /** Validation queues the job, reserving a run, unless it is cancelled. */
  function Validated(j: Job, pending: bool): Job {
    if pending && !j.status.Canceled? then j.(status := Queued, reserved := true) else j
  }

  /** Submission uses up the run reserved, or gives it back when the job is cancelled meanwhile. */
  function Submitted(j: Job, pending: bool, consume: bool): Job {
    if !pending then j
    else if j.status.Canceled? then j.(reserved := j.consumed && j.reserved)
    else j.(status := AwaitingReport, consumed := j.consumed || (consume && j.reserved))
  }

  /** Only one of a job's turns counts. */
  lemma OneTurn(j: Job, here: bool, later: bool, consume: bool)
    requires !(here && later)
    ensures Validated(Validated(j, here), later) == Validated(j, here || later)
    ensures Validated(j, here).status.Canceled? <==> j.status.Canceled?
    ensures Submitted(Submitted(j, here, consume), later, consume) == Submitted(j, here || later, consume)
    ensures Validated(j, false) == j == Submitted(j, false, consume)
  {
  }

  lemma ValidateOneMoves(s: Ledger, i: nat, id: JobId)
    requires Inv(s) && i < |s.validation| && id in s.jobs
    ensures var (r, here) := (ValidateOne(s, i), s.validation[i] == Task(id, false));
            && id in r.jobs && r.jobs[id] == Validated(s.jobs[id], here)
            && r.validation == s.validation[i := Task(s.validation[i].job, true)]
            && (Pending(r.provider, id) <==> Pending(s.provider, id) || (here && !s.jobs[id].status.Canceled?))
  {
    hide StagesKept, QuotaKept, KeysUnique;
    var r := ValidateOne(s, i);
    var task := Task(s.validation[i].job, false);
    assert s.validation[i].done ==> s.validation[i] == Task(s.validation[i].job, true);
    if r.provider == s.provider + [task] { PendingAppend(s.provider, task, id); }
  }

  lemma PendingAppend(tasks: seq<Task>, task: Task, id: JobId)
    ensures Pending(tasks + [task], id) <==> Pending(tasks, id) || task == Task(id, false)
  {
    if k :| 0 <= k < |tasks| && tasks[k] == Task(id, false) { assert (tasks + [task])[k] == Task(id, false); }
    assert (tasks + [task])[|tasks|] == task;
  }

  lemma PendingStep(tasks: seq<Task>, i: nat, id: JobId)
    requires i < |tasks| && forall a, b :: 0 <= a < b < |tasks| ==> tasks[a].job != tasks[b].job
    ensures var tasks' := tasks[i := Task(tasks[i].job, true)];
            && (PendingFrom(tasks, i, id) <==> tasks[i] == Task(id, false) || PendingFrom(tasks', i + 1, id))
            && (tasks[i] == Task(id, false) ==> !PendingFrom(tasks', i + 1, id))
  {
    var tasks' := tasks[i := Task(tasks[i].job, true)];
    if k :| i + 1 <= k < |tasks| && tasks[k] == Task(id, false) { assert tasks'[k] == Task(id, false); }
    if k :| i + 1 <= k < |tasks| && tasks'[k] == Task(id, false) { assert tasks[k] == Task(id, false); }
  }

  lemma TasksStep(s: Ledger, i: nat, id: JobId)
    requires Inv(s)
    ensures i < |s.validation| ==>
              var later := PendingFrom(s.validation[i := Task(s.validation[i].job, true)], i + 1, id);
              && (PendingFrom(s.validation, i, id) <==> s.validation[i] == Task(id, false) || later)
              && (s.validation[i] == Task(id, false) ==> !later)
    ensures i < |s.provider| ==>
              var later := PendingFrom(s.provider[i := Task(s.provider[i].job, true)], i + 1, id);
              && (PendingFrom(s.provider, i, id) <==> s.provider[i] == Task(id, false) || later)
              && (s.provider[i] == Task(id, false) ==> !later)
  {
    if i < |s.validation| { PendingStep(s.validation, i, id); }
    if i < |s.provider| { PendingStep(s.provider, i, id); }
    hide StagesKept, QuotaKept, KeysUnique, PendingFrom;
  }

  lemma {:induction false} ValidateMoves(s: Ledger, i: nat, id: JobId)
    requires Inv(s) && i <= |s.validation| && id in s.jobs
    ensures var (r, pending) := (ValidateFrom(s, i), PendingFrom(s.validation, i, id));
            && id in r.jobs && r.jobs[id] == Validated(s.jobs[id], pending)
            && (Pending(r.provider, id) <==> Pending(s.provider, id) || (pending && !s.jobs[id].status.Canceled?))
    decreases |s.validation| - i
  {
    hide Inv, ValidateOne, Pending, Validated;
    if i < |s.validation| {
      ValidateOneMoves(s, i, id);
      ValidateOneKeepsInv(s, i);
      TasksStep(s, i, id);
      hide PendingFrom;
      var t := ValidateOne(s, i);
      assert ValidateFrom(s, i) == ValidateFrom(t, i + 1);
      hide ValidateFrom;
      OneTurn(s.jobs[id], s.validation[i] == Task(id, false), PendingFrom(t.validation, i + 1, id), false);
      ValidateMoves(t, i + 1, id);
    } else {
      OneTurn(s.jobs[id], false, false, false);
    }
  }

  /** The loop leaves every task from where it starts done, and looks back at none. */
  lemma {:induction false} ValidateEnds(s: Ledger, i: nat, k: nat)
    requires i <= |s.validation| && k < |s.validation|
    ensures var r := ValidateFrom(s, i);
            |r.validation| == |s.validation| && if k < i then r.validation[k] == s.validation[k] else r.validation[k].done
    decreases |s.validation| - i
  {
    if i < |s.validation| {
      var t := ValidateOne(s, i);
      assert |t.validation| == |s.validation| && t.validation[i].done && (k < i ==> t.validation[k] == s.validation[k]);
      hide ValidateOne;
      ValidateEnds(t, i + 1, k);
    }
  }

  lemma SubmitOneMoves(s: Ledger, consume: bool, i: nat, id: JobId)
    requires Inv(s) && i < |s.provider| && id in s.jobs
    ensures var (r, here) := (SubmitOne(s, consume, i), s.provider[i] == Task(id, false));
            && id in r.jobs && r.jobs[id] == Submitted(s.jobs[id], here, consume)
            && r.provider == s.provider[i := Task(s.provider[i].job, true)] && r.validation == s.validation
  {
    hide StagesKept, QuotaKept, KeysUnique;
    assert s.provider[i].done ==> s.provider[i] == Task(s.provider[i].job, true);
  }

  lemma {:induction false} SubmitMoves(s: Ledger, consume: bool, i: nat, id: JobId)
    requires Inv(s) && i <= |s.provider| && id in s.jobs
    ensures var (r, pending) := (SubmitFrom(s, consume, i), PendingFrom(s.provider, i, id));
            && id in r.jobs && r.jobs[id] == Submitted(s.jobs[id], pending, consume) && r.validation == s.validation
    decreases |s.provider| - i
  {
    hide Inv, SubmitOne, Submitted, Pending;
    if i < |s.provider| {
      SubmitOneMoves(s, consume, i, id);
      SubmitOneKeepsInv(s, consume, i);
      TasksStep(s, i, id);
      hide PendingFrom;
      var t := SubmitOne(s, consume, i);
      OneTurn(s.jobs[id], s.provider[i] == Task(id, false), PendingFrom(t.provider, i + 1, id), consume);
      SubmitMoves(t, consume, i + 1, id);
    } else {
      OneTurn(s.jobs[id], false, false, consume);
    }
  }

  lemma {:induction false} SubmitEnds(s: Ledger, consume: bool, i: nat, k: nat)
    requires i <= |s.provider| && k < |s.provider|
    ensures var r := SubmitFrom(s, consume, i);
            |r.provider| == |s.provider| && if k < i then r.provider[k] == s.provider[k] else r.provider[k].done
    decreases |s.provider| - i
  {
    if i < |s.provider| {
      var t := SubmitOne(s, consume, i);
      assert |t.provider| == |s.provider| && t.provider[i].done && (k < i ==> t.provider[k] == s.provider[k]);
      hide SubmitOne;
      SubmitEnds(t, consume, i + 1, k);
    }
  }

  /** Afterwards nothing is left pending. */
  lemma OutboxesEmpty(s: Ledger, consume: bool, id: JobId)
    ensures !Pending(ValidateFrom(s, 0).validation, id)
    ensures !Pending(SubmitFrom(s, consume, 0).provider, id)
  {
    ValidateKeepsLength(s, 0);
    SubmitKeepsLength(s, consume, 0);
    hide ValidateFrom, SubmitFrom;
    forall k | 0 <= k < |s.validation| ensures ValidateFrom(s, 0).validation[k] != Task(id, false) { ValidateEnds(s, 0, k); }
    forall k | 0 <= k < |s.provider| ensures SubmitFrom(s, consume, 0).provider[k] != Task(id, false) { SubmitEnds(s, consume, 0, k); }
  }

  lemma {:induction false} ValidateKeepsLength(s: Ledger, i: nat)
    requires i <= |s.validation|
    ensures |ValidateFrom(s, i).validation| == |s.validation|
    decreases |s.validation| - i
  {
    if i < |s.validation| {
      assert |ValidateOne(s, i).validation| == |s.validation|;
      hide ValidateOne;
      ValidateKeepsLength(ValidateOne(s, i), i + 1);
    }
  }

  lemma {:induction false} SubmitKeepsLength(s: Ledger, consume: bool, i: nat)
    requires i <= |s.provider|
    ensures |SubmitFrom(s, consume, i).provider| == |s.provider|
    decreases |s.provider| - i
  {
    if i < |s.provider| {
      assert |SubmitOne(s, consume, i).provider| == |s.provider|;
      hide SubmitOne;
      SubmitKeepsLength(SubmitOne(s, consume, i), consume, i + 1);
    }
  }

  /** What becomes of a job at an event, from its own record and whether its tasks are pending. */
  function Fate(j: Job, id: JobId, validating: bool, submitting: bool, e: Event): Job {
    match e
    case Finalize(_, _) => j
    case Validate(fail) => Validated(j, validating && !fail)
    case Submit(consume) => Submitted(j, submitting, consume)
    case Cancel(k) => if k == id then j.(status := Canceled, reserved := j.consumed && j.reserved) else j
    case Rollback(k) => if k == id then j.(status := Failed, reserved := j.consumed && j.reserved) else j
  }

  /**
   Every job meets its fate at every event. Validation leaves no validation task pending, and a provider task for
   each job it queues; submission leaves no provider task pending; a rollback ends the job's own provider task; and
   no other event moves a task of the job.
   */
  lemma JobMoves(s: Ledger, e: Event, id: JobId)
    requires Inv(s) && Enabled(s, e) && id in s.jobs
    ensures var (t, validating, submitting) := (Step(s, e), Pending(s.validation, id), Pending(s.provider, id));
            && id in t.jobs && t.jobs[id] == Fate(s.jobs[id], id, validating, submitting, e)
            && (Pending(t.validation, id) <==> validating && e != Validate(false))
            && (Pending(t.provider, id) <==>
                  (submitting && !e.Submit? && e != Rollback(id))
                  || (validating && e == Validate(false) && !s.jobs[id].status.Canceled?))
  {
    match e {
      case Finalize(r, k) => AdmitMoves(s, r, k, id);
      case Validate(fail) =>
        if !fail {
          ValidateMoves(s, 0, id);
          OutboxesEmpty(s, false, id);
          hide Inv, ValidateFrom, Validated;
        }
      case Submit(consume) =>
        SubmitMoves(s, consume, 0, id);
        OutboxesEmpty(s, consume, id);
        hide Inv, SubmitFrom, Submitted;
      case Cancel(k) => hide Inv;
      case Rollback(k) => RollbackMoves(s, k, id);
    }
  }

  lemma AdmitMoves(s: Ledger, r: Request, k: JobId, id: JobId)
    requires Inv(s) && k !in s.jobs && id in s.jobs
    ensures var t := Step(s, Finalize(r, k));
            id in t.jobs && t.jobs[id] == s.jobs[id] && t.provider == s.provider
            && (Pending(t.validation, id) <==> Pending(s.validation, id))
  {
    FinalizeIff(s, r, k);
    PendingAppend(s.validation, Task(k, false), id);
    hide Inv, Step, FinalizeReply, Pending;
  }

  lemma RollbackMoves(s: Ledger, k: JobId, id: JobId)
    requires Inv(s) && id in s.jobs
    ensures var t := Step(s, Rollback(k));
            && id in t.jobs && t.jobs[id] == Fate(s.jobs[id], id, Pending(s.validation, id), Pending(s.provider, id), Rollback(k))
            && t.validation == s.validation
            && (Pending(t.provider, id) <==> Pending(s.provider, id) && k != id)
  {
    hide Inv;
    var t := Step(s, Rollback(k));
    assert |t.provider| == |s.provider|;
    if m :| 0 <= m < |s.provider| && s.provider[m] == Task(id, false) && k != id { assert t.provider[m] == Task(id, false); }
    if m :| 0 <= m < |t.provider| && t.provider[m] == Task(id, false) { assert s.provider[m] == Task(id, false); }
  }

  /** Jobs come from finalizing alone: no event takes one away or makes another. */
  lemma JobsStay(s: Ledger, e: Event)
    requires Inv(s) && Enabled(s, e)
    ensures Step(s, e).jobs.Keys == s.jobs.Keys + (if e.Finalize? && FinalizeReply(s, e.request, e.id) == Accepted(e.id, false) then {e.id} else {})
  {
    match e {
      case Finalize(r, id) => FinalizeIff(s, r, id); hide Inv, FinalizeReply;
      case Validate(fail) => ValidateKeepsJobs(s, 0); hide Inv, ValidateFrom;
      case Submit(consume) => SubmitKeepsJobs(s, consume, 0); hide Inv, SubmitFrom;
      case _ =>
    }
  }

  lemma {:induction false} ValidateKeepsJobs(s: Ledger, i: nat)
    requires i <= |s.validation|
    ensures ValidateFrom(s, i).jobs.Keys == s.jobs.Keys
    decreases |s.validation| - i
  {
    if i < |s.validation| {
      assert ValidateOne(s, i).jobs.Keys == s.jobs.Keys && |ValidateOne(s, i).validation| == |s.validation|;
      hide ValidateOne;
      ValidateKeepsJobs(ValidateOne(s, i), i + 1);
    }
  }

  lemma {:induction false} SubmitKeepsJobs(s: Ledger, consume: bool, i: nat)
    requires i <= |s.provider|
    ensures SubmitFrom(s, consume, i).jobs.Keys == s.jobs.Keys
    decreases |s.provider| - i
  {
    if i < |s.provider| {
      assert SubmitOne(s, consume, i).jobs.Keys == s.jobs.Keys && |SubmitOne(s, consume, i).provider| == |s.provider|;
      hide SubmitOne;
      SubmitKeepsJobs(SubmitOne(s, consume, i), consume, i + 1);
    }
  }

  // ---- The service, in place ----

  function CountPending(tasks: seq<Task>): nat {
    if tasks == [] then 0 else One(!tasks[0].done) + CountPending(tasks[1..])
  }

  class FinalizeService {
    var jobs: map<JobId, Job>
    var validation: seq<Task>
    var provider: seq<Task>
    var quota: map<string, Quota>

    ghost function State(): Ledger
      reads this
    {
      Ledger(jobs, validation, provider, quota)
    }

    ghost predicate Valid()
      reads this
    {
      Inv(State())
    }

    constructor ()
      ensures State() == Empty() && Valid()
    {
      jobs, validation, provider, quota := map[], [], [], map[];
      new;
      EmptyInv();
    }

    method FinalizeJob(r: Request, id: JobId) returns (reply: Reply)
      requires Valid() && id !in jobs
      modifies this`jobs, this`validation
      ensures State() == FinalizeStep(old(State()), r, id)
      ensures reply == FinalizeReply(old(State()), r, id)
      ensures Valid()
    {
      hide QuotaKept, StagesKept, TasksKept;
      StepKeepsInv(State(), Finalize(r, id));
      if !r.entitled {
        return Refused("entitlement");
      }
      if !r.consented {
        return Refused("stale-consent");
      }
      if r.language == "" {
        return Refused("language");
      }
      if r.objects == 0 {
        return Refused("objects");
      }
      var todo := jobs.Keys;
      while todo != {}
        invariant todo <= jobs.Keys
        invariant forall k <- jobs :: k !in todo ==> !Holds(jobs[k], r.user, r.key)
        decreases |todo|
      {
        var k :| k in todo;
        todo := todo - {k};
        if jobs[k].user == r.user && jobs[k].key == r.key {
          assert Existing(jobs, r.user, r.key) == Some(k);
          if r.payload != jobs[k].payload {
            return Refused("idempotency-conflict");
          }
          return Accepted(k, true);
        }
      }
      if r.intake.Some? {
        return Refused(r.intake.value);
      }
      jobs := jobs[id := Job(r.user, r.key, r.payload, Uploaded, false, false)];
      validation := validation + [Task(id, false)];
      return Accepted(id, false);
    }

    method GetQuota(user: string) returns (q: Quota)
      modifies this`quota
      ensures q == old(QuotaOf(quota, user)) && quota == old(quota)[user := q]
    {
      if user !in quota {
        quota := quota[user := Quota(0, 0, 0)];
      }
      q := quota[user];
      assert quota == old(quota)[user := q];
    }

    method ProcessValidationOutbox(fail: bool) returns (ok: bool, processed: nat)
      requires Valid()
      modifies this
      ensures State() == Step(old(State()), Validate(fail)) && Valid()
      ensures ok == !fail && processed == if fail then 0 else CountPending(old(validation))
    {
      hide Inv;
      ghost var s := State();
      StepKeepsInv(s, Validate(fail));
      processed := 0;
      if fail {
        return false, 0;
      }
      for i := 0 to |validation|
        invariant |validation| == |s.validation| && validation[i..] == s.validation[i..]
        invariant ValidateFrom(State(), i) == ValidateFrom(s, 0)
        invariant processed + CountPending(s.validation[i..]) == CountPending(s.validation)
      {
        var entry := validation[i];
        assert validation[i..] == [entry] + validation[i + 1..];
        if entry.done {
          continue;
        }
        processed := processed + 1;
        ValidateEntry(i);
      }
      return true, processed;
    }

    method ValidateEntry(i: nat)
      requires i < |validation| && !validation[i].done
      modifies this
      ensures State() == ValidateOne(old(State()), i)
      ensures validation == old(validation)[i := Task(old(validation)[i].job, true)]
    {
      var id := validation[i].job;
      validation := validation[i := Task(id, true)];
      if id !in jobs || jobs[id].status.Canceled? {
        return;
      }
      var q := GetQuota(jobs[id].user);
      quota := quota[jobs[id].user := q.(reserved := q.reserved + 1)];
      jobs := jobs[id := jobs[id].(status := Queued, reserved := true)];
      provider := provider + [Task(id, false)];
    }

    method ReleaseQuota(id: JobId)
      requires id in jobs
      modifies this`jobs, this`quota
      ensures State() == Release(old(State()), id)
    {
      var job := jobs[id];
      if job.reserved && !job.consumed {
        var q := GetQuota(job.user);
        quota := quota[job.user := q.(reserved := LessOne(q.reserved), released := q.released + 1)];
        jobs := jobs[id := job.(reserved := false)];
      }
    }

    method ProcessProviderOutbox(consume: bool) returns (processed: nat)
      requires Valid()
      modifies this
      ensures State() == Step(old(State()), Submit(consume)) && Valid()
      ensures processed == CountPending(old(provider))
    {
      hide Inv, Release;
      ghost var s := State();
      StepKeepsInv(s, Submit(consume));
      processed := 0;
      for i := 0 to |provider|
        invariant |provider| == |s.provider| && provider[i..] == s.provider[i..]
        invariant SubmitFrom(State(), consume, i) == SubmitFrom(s, consume, 0)
        invariant processed + CountPending(s.provider[i..]) == CountPending(s.provider)
      {
        var entry := provider[i];
        assert provider[i..] == [entry] + provider[i + 1..];
        if entry.done {
          continue;
        }
        processed := processed + 1;
        SubmitEntry(consume, i);
      }
    }

    method SubmitEntry(consume: bool, i: nat)
      requires i < |provider| && !provider[i].done
      modifies this
      ensures State() == SubmitOne(old(State()), consume, i)
      ensures provider == old(provider)[i := Task(old(provider)[i].job, true)]
    {
      var id := provider[i].job;
      provider := provider[i := Task(id, true)];
      if id !in jobs {
        return;
      }
      if jobs[id].status.Canceled? {
        ReleaseQuota(id);
        return;
      }
      var job := jobs[id];
      if consume && job.reserved && !job.consumed {
        var q := GetQuota(job.user);
        quota := quota[job.user := q.(consumed := q.consumed + 1, reserved := LessOne(q.reserved))];
        job := job.(consumed := true);
      }
      jobs := jobs[id := job.(status := AwaitingReport)];
    }

    method CancelJob(id: JobId) returns (found: bool)
      requires Valid()
      modifies this
      ensures State() == Step(old(State()), Cancel(id)) && Valid() && found == (id in old(jobs))
    {
      hide Inv;
      StepKeepsInv(State(), Cancel(id));
      if id !in jobs {
        return false;
      }
      jobs := jobs[id := jobs[id].(status := Canceled)];
      ReleaseQuota(id);
      return true;
    }

    method RollbackValidation(id: JobId) returns (found: bool)
      requires Valid()
      modifies this
      ensures State() == Step(old(State()), Rollback(id)) && Valid() && found == (id in old(jobs))
    {
      hide Inv;
      StepKeepsInv(State(), Rollback(id));
      if id !in jobs {
        return false;
      }
      jobs := jobs[id := jobs[id].(status := Failed)];
      ReleaseQuota(id);
      ghost var t, tasks := State(), provider;
      for i := 0 to |provider|
        invariant |provider| == |tasks| && State() == t.(provider := provider)
        invariant forall k :: 0 <= k < |tasks| ==> provider[k] == if k < i then Task(tasks[k].job, tasks[k].done || tasks[k].job == id) else tasks[k]
      {
        if provider[i].job == id && !provider[i].done {
          provider := provider[i := Task(id, true)];
        }
      }
      assert provider == Settled(tasks, id);
      return true;
    }
  }
}
