/**
 The purchase ledger: signed webhook events taken once, purchases taken once per checkout session, refunds
 and disputes, licence tokens, and runs consumed from what was bought.
 */
module Entitlements {
  import opened Text

  const RUNS_INCLUDED: int := 15
  const PRICE_USD: int := 15
  const MAX_SKEW_SEC: int := 300

  datatype Status = Active | Refunded | Disputed | SetBySupport(name: string)

  datatype Record = Record(status: Status, remaining: int, total: int, session: string)

  datatype LicenseToken = LicenseToken(user: string, device: string, expires: int, revoked: bool)

  datatype Shop = Shop(
    records: map<string, Record>,
    processed: set<string>,
    sessions: map<string, string>,
    tokens: map<string, LicenseToken>)

  datatype Kind = CheckoutCompleted | ChargeRefunded | DisputeCreated | OtherKind | NoKind

  datatype Notice = Notice(id: string, kind: Kind, user: string, session: string, amountUsd: int, approvedVersion: bool)

  /** A delivery: when it claims to be from, whether its digest is right, and what its body parses to. */
  datatype Delivery = Delivery(timestamp: Option<int>, genuine: bool, body: Option<Notice>)

  datatype Request =
    | Webhook(delivery: Delivery)
    | Issue(user: string, device: string, token: string)
    | Consume(user: string, token: string, device: string, claims: bool)
    | Override(user: string, status: string, remaining: int, actor: string, reason: string)

  datatype Event = At(now: int, request: Request)

  datatype Refusal =
    | BadTimestamp | TimestampSkew | BadSignature | BadJson | BadEvent | Replay | OfferMismatch | MissingUser
    | UnknownEntitlement | MissingFields | NotEntitled | InvalidToken | WrongUser | DeviceMismatch | Expired
    | ClientClaimRejected | QuotaExhausted

  datatype Reply =
    | Purchased | Duplicate | StatusChanged | Ignored | TokenIssued | Consumed(remaining: int) | Overridden
    | Refused(why: Refusal)

  /** How long a token lasts, and how long past that it is still taken. */
  datatype Terms = Terms(tokenTtl: int, offlineGrace: int)

  // ---- Webhooks ----

  function Distance(a: int, b: int): int { if a < b then b - a else a - b }

  function Verify(d: Delivery, now: int): Option<Refusal> {
    if d.timestamp.None? then Some(BadTimestamp)
    else if Distance(now / 1000, d.timestamp.value) > MAX_SKEW_SEC then Some(TimestampSkew)
    else if !d.genuine then Some(BadSignature)
    else None
  }

  function ApplyPurchase(s: Shop, n: Notice): (Shop, Reply) {
    if n.amountUsd != PRICE_USD || !n.approvedVersion then (s, Refused(OfferMismatch))
    else if n.user == "" then (s, Refused(MissingUser))
    else if n.session != "" && n.session in s.sessions then (s, Duplicate)
    else
      (s.(records := s.records[n.user := Record(Active, RUNS_INCLUDED, RUNS_INCLUDED, n.session)],
          sessions := if n.session != "" then s.sessions[n.session := n.user] else s.sessions), Purchased)
  }

  function ApplyStatus(s: Shop, n: Notice, status: Status): (Shop, Reply) {
    if n.user !in s.records then (s, Refused(UnknownEntitlement))
    else (s.(records := s.records[n.user := s.records[n.user].(status := status, remaining := 0)]), StatusChanged)
  }

  function Apply(s: Shop, n: Notice): (Shop, Reply) {
    match n.kind
    case CheckoutCompleted => ApplyPurchase(s, n)
    case ChargeRefunded => ApplyStatus(s, n, Refunded)
    case DisputeCreated => ApplyStatus(s, n, Disputed)
    case _ => (s, Ignored)
  }

  function HandleWebhook(s: Shop, d: Delivery, now: int): (Shop, Reply) {
    if Verify(d, now).Some? then (s, Refused(Verify(d, now).value))
    else if d.body.None? then (s, Refused(BadJson))
    else
      var n := d.body.value;
      if n.id == "" || n.kind.NoKind? then (s, Refused(BadEvent))
      else if n.id in s.processed then (s, Refused(Replay))
      else
        var (t, reply) := Apply(s, n);
        if reply.Refused? then (t, reply) else (t.(processed := t.processed + {n.id}), reply)
  }

  // ---- Tokens and runs ----

  function IssueToken(s: Shop, user: string, device: string, token: string, now: int, terms: Terms): (Shop, Reply) {
    if user !in s.records || !s.records[user].status.Active? || s.records[user].remaining < 0 then (s, Refused(NotEntitled))
    else (s.(tokens := s.tokens[token := LicenseToken(user, device, now + terms.tokenTtl, false)]), TokenIssued)
  }

  function VerifyToken(s: Shop, token: string, user: string, device: string, now: int, terms: Terms): Option<Refusal> {
    if token !in s.tokens || s.tokens[token].revoked then Some(InvalidToken)
    else
      var entry := s.tokens[token];
      if entry.user != user then Some(WrongUser)
      else if device != "" && entry.device != "" && entry.device != device then Some(DeviceMismatch)
      else if entry.expires + (if terms.offlineGrace > 0 then terms.offlineGrace else 0) < now then Some(Expired)
      else if user !in s.records || !s.records[user].status.Active? then Some(NotEntitled)
      else None
  }

  function ConsumeRun(s: Shop, user: string, token: string, device: string, claims: bool, now: int, terms: Terms): (Shop, Reply) {
    if claims then (s, Refused(ClientClaimRejected))
    else if token != "" && VerifyToken(s, token, user, device, now, terms).Some? then
      (s, Refused(VerifyToken(s, token, user, device, now, terms).value))
    else if user !in s.records || !s.records[user].status.Active? then (s, Refused(NotEntitled))
    else if s.records[user].remaining < 1 then (s, Refused(QuotaExhausted))
    else
      var left := s.records[user].remaining - 1;
      (s.(records := s.records[user := s.records[user].(remaining := left)]), Consumed(left))
  }

  function ApplyOverride(s: Shop, q: Request): (Shop, Reply)
    requires q.Override?
  {
    if q.user == "" || q.actor == "" || q.reason == "" then (s, Refused(MissingFields))
    else
      var base := if q.user in s.records then s.records[q.user] else Record(Active, 0, RUNS_INCLUDED, "");
      var status := if q.status == "active" then Active else SetBySupport(q.status);
      (s.(records := s.records[q.user := base.(status := status, remaining := q.remaining)]), Overridden)
  }

  function Serve(s: Shop, e: Event, terms: Terms): (Shop, Reply) {
    match e.request
    case Webhook(d) => HandleWebhook(s, d, e.now)
    case Issue(user, device, token) => IssueToken(s, user, device, token, e.now, terms)
    case Consume(user, token, device, claims) => ConsumeRun(s, user, token, device, claims, e.now, terms)
    case Override(_, _, _, _, _) => ApplyOverride(s, e.request)
  }

  function Step(s: Shop, e: Event, terms: Terms): Shop { Serve(s, e, terms).0 }

  function ReplyTo(s: Shop, e: Event, terms: Terms): Reply { Serve(s, e, terms).1 }

  // ---- Whole runs ----

  function Run(s: Shop, es: seq<Event>, terms: Terms): Shop
    decreases |es|
  {
    if es == [] then s else Run(Step(s, es[0], terms), es[1..], terms)
  }

  function Start(): Shop { Shop(map[], {}, map[], map[]) }

  predicate BuysFor(s: Shop, e: Event, user: string, terms: Terms) {
    ReplyTo(s, e, terms).Purchased? && e.request.Webhook? && e.request.delivery.body.Some?
    && e.request.delivery.body.value.user == user
  }

  predicate RunsFor(s: Shop, e: Event, user: string, terms: Terms) {
    ReplyTo(s, e, terms).Consumed? && e.request.Consume? && e.request.user == user
  }

  function Purchases(s: Shop, es: seq<Event>, user: string, terms: Terms): nat
    decreases |es|
  {
    if es == [] then 0
    else (if BuysFor(s, es[0], user, terms) then 1 else 0) + Purchases(Step(s, es[0], terms), es[1..], user, terms)
  }

  function Consumptions(s: Shop, es: seq<Event>, user: string, terms: Terms): nat
    decreases |es|
  {
    if es == [] then 0
    else (if RunsFor(s, es[0], user, terms) then 1 else 0) + Consumptions(Step(s, es[0], terms), es[1..], user, terms)
  }

  function Remaining(s: Shop, user: string): int { if user in s.records then s.records[user].remaining else 0 }

  /** Bounds on every record, and nothing left on one that is not active. */
  ghost predicate RecordsKept(s: Shop) {
    forall u <- s.records ::
      var r := s.records[u];
      0 <= r.remaining <= r.total && r.total == RUNS_INCLUDED && (!r.status.Active? ==> r.remaining == 0)
  }

  predicate NoOverrides(es: seq<Event>) { forall k :: 0 <= k < |es| ==> !es[k].request.Override? }

  /** One request moves the account by what it bought or consumed, or takes from it. */
  lemma StepBalance(s: Shop, e: Event, user: string, terms: Terms)
    requires RecordsKept(s) && !e.request.Override?
    ensures RecordsKept(Step(s, e, terms))
    ensures (if RunsFor(s, e, user, terms) then 1 else 0) + Remaining(Step(s, e, terms), user) <=
            Remaining(s, user) + (if BuysFor(s, e, user, terms) then RUNS_INCLUDED else 0)
  {
    match e.request {
      case Webhook(d) =>
        if d.body.Some? { NoticeBalance(s, d.body.value, user); }
      case Issue(_, _, _) =>
      case Consume(u, _, _, _) =>
    }
    hide Verify, VerifyToken, Apply;
  }

  lemma NoticeBalance(s: Shop, n: Notice, user: string)
    requires RecordsKept(s)
    ensures var (t, reply) := Apply(s, n);
            && RecordsKept(t) && !reply.Consumed?
            && Remaining(t, user) <= Remaining(s, user) + (if reply.Purchased? && n.user == user then RUNS_INCLUDED else 0)
  {
  }

  lemma {:induction false} RunBalance(s: Shop, es: seq<Event>, user: string, terms: Terms)
    requires RecordsKept(s) && NoOverrides(es)
    ensures RecordsKept(Run(s, es, terms))
    ensures Consumptions(s, es, user, terms) + Remaining(Run(s, es, terms), user) <=
            Remaining(s, user) + RUNS_INCLUDED * Purchases(s, es, user, terms)
    decreases |es|
  {
    if es != [] {
      hide RecordsKept, Step, BuysFor, RunsFor, Remaining;
      StepBalance(s, es[0], user, terms);
      RunBalance(Step(s, es[0], terms), es[1..], user, terms);
    }
  }

  /**
   In every run without support overrides, what a user has consumed and has left is at most what their
   accepted purchases include; what is left is never negative nor more than a purchase includes; and a
   refunded or disputed account has nothing left.
   */
  lemma NothingFromNothing(es: seq<Event>, user: string, terms: Terms)
    requires NoOverrides(es)
    ensures var s := Run(Start(), es, terms);
            && Consumptions(Start(), es, user, terms) + Remaining(s, user) <= RUNS_INCLUDED * Purchases(Start(), es, user, terms)
            && (user in s.records ==> 0 <= s.records[user].remaining <= s.records[user].total
                                      && (s.records[user].status != Active ==> s.records[user].remaining == 0))
  {
    RunBalance(Start(), es, user, terms);
    hide Run, Consumptions, Purchases;
  }

  // ---- Deliveries that come again ----

  /** Accepted events and paid sessions are never forgotten. */
  ghost predicate Remembers(s: Shop, t: Shop) { s.processed <= t.processed && s.sessions.Keys <= t.sessions.Keys }

  lemma StepRemembers(s: Shop, e: Event, terms: Terms)
    ensures Remembers(s, Step(s, e, terms))
  {
    hide Verify, VerifyToken;
  }

  lemma {:induction false} RunRemembers(s: Shop, es: seq<Event>, terms: Terms)
    ensures Remembers(s, Run(s, es, terms))
    decreases |es|
  {
    if es != [] {
      hide Step;
      StepRemembers(s, es[0], terms);
      RunRemembers(Step(s, es[0], terms), es[1..], terms);
    }
  }

  predicate IsDelivery(e: Event, n: Notice) { e.request.Webhook? && e.request.delivery.body == Some(n) }

  /**
   An event that was accepted changes nothing when delivered again, however much later and whatever came
   between; nor does a new event for a session that was paid.
   */
  lemma RedeliveryChangesNothing(s: Shop, e: Event, n: Notice, es: seq<Event>, again: Event, n': Notice, terms: Terms)
    requires IsDelivery(e, n) && !ReplyTo(s, e, terms).Refused? && IsDelivery(again, n')
    requires n'.id == n.id
             || (n.kind.CheckoutCompleted? && n'.kind.CheckoutCompleted? && n.session != "" && n'.session == n.session)
    ensures var t := Run(Step(s, e, terms), es, terms);
            && Step(t, again, terms).records == t.records
            && !ReplyTo(t, again, terms).Purchased?
            && (n'.id == n.id ==> Step(t, again, terms) == t && ReplyTo(t, again, terms).Refused?)
  {
    hide Verify, VerifyToken;
    var t0 := Step(s, e, terms);
    assert n.id in t0.processed;
    assert n.kind.CheckoutCompleted? && n.session != "" ==> n.session in t0.sessions;
    RunRemembers(t0, es, terms);
    hide Run;
  }

  predicate BuysSession(s: Shop, e: Event, session: string, terms: Terms) {
    ReplyTo(s, e, terms).Purchased? && e.request.Webhook? && e.request.delivery.body.Some?
    && e.request.delivery.body.value.session == session
  }

  function SessionPurchases(s: Shop, es: seq<Event>, session: string, terms: Terms): nat
    decreases |es|
  {
    if es == [] then 0
    else (if BuysSession(s, es[0], session, terms) then 1 else 0) + SessionPurchases(Step(s, es[0], terms), es[1..], session, terms)
  }

  /** A checkout session is paid out once in a whole run, support overrides or not. */
  lemma {:induction false} SessionPaysOnce(s: Shop, es: seq<Event>, session: string, terms: Terms)
    requires session != ""
    ensures SessionPurchases(s, es, session, terms) + (if session in s.sessions then 1 else 0) <= 1
    decreases |es|
  {
    if es != [] {
      if BuysSession(s, es[0], session, terms) { StepPaysOnce(s, es[0], session, terms); }
      StepRemembers(s, es[0], terms);
      hide Step, BuysSession;
      SessionPaysOnce(Step(s, es[0], terms), es[1..], session, terms);
    }
  }

  lemma StepPaysOnce(s: Shop, e: Event, session: string, terms: Terms)
    requires session != "" && BuysSession(s, e, session, terms)
    ensures session !in s.sessions && session in Step(s, e, terms).sessions
  {
    hide Verify, VerifyToken;
  }

  // ---- Licence tokens ----

  /** Every token drawn is a new one. */
  ghost predicate Legal(s: Shop, es: seq<Event>, terms: Terms)
    decreases |es|
  {
    es != [] ==>
      (es[0].request.Issue? ==> es[0].request.token !in s.tokens) && Legal(Step(s, es[0], terms), es[1..], terms)
  }

  lemma StepKeepsToken(s: Shop, e: Event, terms: Terms, token: string)
    requires token in s.tokens && (e.request.Issue? ==> e.request.token !in s.tokens)
    ensures token in Step(s, e, terms).tokens && Step(s, e, terms).tokens[token] == s.tokens[token]
  {
    hide Verify, VerifyToken;
  }

  lemma {:induction false} RunKeepsToken(s: Shop, es: seq<Event>, terms: Terms, token: string)
    requires token in s.tokens && Legal(s, es, terms)
    ensures token in Run(s, es, terms).tokens && Run(s, es, terms).tokens[token] == s.tokens[token]
    decreases |es|
  {
    if es != [] {
      hide Step;
      StepKeepsToken(s, es[0], terms, token);
      RunKeepsToken(Step(s, es[0], terms), es[1..], terms, token);
    }
  }

  /** Presented for the user and, where both sides name one, the device it was issued for. */
  predicate PresentedFor(issue: Request, user: string, device: string)
    requires issue.Issue?
  {
    user == issue.user && (device == "" || issue.device == "" || device == issue.device)
  }

  predicate ActiveAccount(s: Shop, user: string) { user in s.records && s.records[user].status.Active? }

  /**
   A token issued at one time is honoured after any run, at any time, exactly when it is presented for its
   user and device, no later than its lifetime and the offline grace allow, and the account is then active.
   */
  lemma TokenHonouredIff(s: Shop, e: Event, es: seq<Event>, user: string, device: string, now: int, terms: Terms)
    requires e.request.Issue? && ReplyTo(s, e, terms).TokenIssued? && Legal(Step(s, e, terms), es, terms)
    ensures var t := Run(Step(s, e, terms), es, terms);
            VerifyToken(t, e.request.token, user, device, now, terms).None? <==>
            && PresentedFor(e.request, user, device)
            && now <= e.now + terms.tokenTtl + (if terms.offlineGrace > 0 then terms.offlineGrace else 0)
            && ActiveAccount(t, user)
  {
    RunKeepsToken(Step(s, e, terms), es, terms, e.request.token);
    hide Run, Legal;
  }

  lemma {:induction false} UnknownUntilIssued(s: Shop, es: seq<Event>, terms: Terms, token: string)
    requires token !in s.tokens
    requires forall e <- es :: e.request.Issue? ==> e.request.token != token
    ensures token !in Run(s, es, terms).tokens
    decreases |es|
  {
    if es != [] {
      assert token !in Step(s, es[0], terms).tokens by { hide Verify, VerifyToken; }
      hide Step;
      UnknownUntilIssued(Step(s, es[0], terms), es[1..], terms, token);
    }
  }

  /** A token nobody was ever issued is refused at every time. */
  lemma UnissuedIsRefused(es: seq<Event>, token: string, user: string, device: string, now: int, terms: Terms)
    requires forall e <- es :: e.request.Issue? ==> e.request.token != token
    ensures VerifyToken(Run(Start(), es, terms), token, user, device, now, terms) == Some(InvalidToken)
  {
    UnknownUntilIssued(Start(), es, terms, token);
    hide Run;
  }

  /** Once a refund or dispute is taken, no token of the user is honoured and no run is consumed. */
  lemma RefundStopsTokens(s: Shop, e: Event, n: Notice, user: string, token: string, device: string, now: int, terms: Terms)
    requires IsDelivery(e, n) && n.kind in {ChargeRefunded, DisputeCreated} && n.user == user
    requires ReplyTo(s, e, terms).StatusChanged?
    ensures VerifyToken(Step(s, e, terms), token, user, device, now, terms).Some?
    ensures ReplyTo(Step(s, e, terms), At(now, Consume(user, token, device, false)), terms).Refused?
  {
    hide Verify;
  }

  // ---- What each request answers ----

  /** Signed, and dated within five minutes of now to the second below. */
  predicate Authentic(d: Delivery, now: int) {
    d.genuine && d.timestamp.Some? && -300 <= now / 1000 - d.timestamp.value <= 300
  }

  /** The notice an authentic delivery brings, when it is one and not yet taken. */
  predicate Brings(s: Shop, d: Delivery, now: int, n: Notice) {
    Authentic(d, now) && d.body == Some(n) && n.id != "" && n.kind != NoKind && n.id !in s.processed
  }

  /** A purchase on the approved terms: fifteen dollars, the approved version, and a user. */
  predicate OnTerms(n: Notice) { n.amountUsd == 15 && n.approvedVersion && n.user != "" }

  predicate PaidBefore(s: Shop, n: Notice) { n.session != "" && n.session in s.sessions }

  /** A delivery is refused for the first of these that fails: its date, its signature, its body, its being new. */
  lemma DeliveryRefused(s: Shop, now: int, d: Delivery, terms: Terms)
    ensures var r := ReplyTo(s, At(now, Webhook(d)), terms);
            var dated := d.timestamp.Some? && -300 <= now / 1000 - d.timestamp.value <= 300;
            && (r == Refused(BadTimestamp) <==> d.timestamp.None?)
            && (r == Refused(TimestampSkew) <==> d.timestamp.Some? && !dated)
            && (r == Refused(BadSignature) <==> dated && !d.genuine)
            && (r == Refused(BadJson) <==> Authentic(d, now) && d.body.None?)
            && (r == Refused(BadEvent) <==> Authentic(d, now) && d.body.Some? && (d.body.value.id == "" || d.body.value.kind == NoKind))
            && (r == Refused(Replay) <==> Authentic(d, now) && d.body.Some? && d.body.value.id != "" && d.body.value.kind != NoKind
                                          && d.body.value.id in s.processed)
  {
    assert d.timestamp.Some? ==> (Distance(now / 1000, d.timestamp.value) <= 300 <==> -300 <= now / 1000 - d.timestamp.value <= 300);
    hide Distance;
  }

  /** What a new authentic notice does, kind by kind; an accepted one is remembered, and a refused one changes nothing. */
  lemma NoticeTaken(s: Shop, now: int, d: Delivery, n: Notice, terms: Terms)
    requires Brings(s, d, now, n)
    ensures var (r, t) := (ReplyTo(s, At(now, Webhook(d)), terms), Step(s, At(now, Webhook(d)), terms));
            var remembered := s.(processed := s.processed + {n.id});
            && (n.kind == CheckoutCompleted ==>
                  && (r == Refused(OfferMismatch) <==> n.amountUsd != 15 || !n.approvedVersion)
                  && (r == Refused(MissingUser) <==> n.amountUsd == 15 && n.approvedVersion && n.user == "")
                  && (r == Duplicate <==> OnTerms(n) && PaidBefore(s, n)) && (r == Duplicate ==> t == remembered)
                  && (r == Purchased <==> OnTerms(n) && !PaidBefore(s, n))
                  && (r == Purchased ==> Granted(remembered, t, n)))
            && (n.kind in {ChargeRefunded, DisputeCreated} ==>
                  && (r == Refused(UnknownEntitlement) <==> n.user !in s.records)
                  && (r == StatusChanged <==> n.user in s.records)
                  && (r == StatusChanged ==> TakenBack(remembered, t, n)))
            && (n.kind == OtherKind ==> r == Ignored && t == remembered)
            && (r.Refused? ==> t == s)
  {
    assert Verify(d, now).None?;
    hide Verify;
  }

  /** The user has a fresh active record of fifteen runs, and the session is on record as theirs. */
  ghost predicate Granted(s: Shop, t: Shop, n: Notice) {
    && t.records == s.records[n.user := Record(Active, 15, 15, n.session)]
    && t.sessions == (if n.session == "" then s.sessions else s.sessions[n.session := n.user])
    && t.processed == s.processed && t.tokens == s.tokens
  }

  /** The user's record is refunded or disputed, with nothing left; all else is as it was. */
  ghost predicate TakenBack(s: Shop, t: Shop, n: Notice) {
    && n.user in s.records
    && t == s.(records := s.records[n.user := s.records[n.user].(
                 status := if n.kind == ChargeRefunded then Refunded else Disputed, remaining := 0)])
  }

  /** A token is issued exactly to an active account that is not overdrawn. */
  lemma IssuedIff(s: Shop, e: Event, terms: Terms)
    requires e.request.Issue?
    ensures ReplyTo(s, e, terms) == TokenIssued <==> ActiveAccount(s, e.request.user) && s.records[e.request.user].remaining >= 0
    ensures ReplyTo(s, e, terms) != TokenIssued ==> ReplyTo(s, e, terms) == Refused(NotEntitled) && Step(s, e, terms) == s
    ensures Step(s, e, terms).records == s.records && Step(s, e, terms).processed == s.processed && Step(s, e, terms).sessions == s.sessions
  {
  }

  /** The token is on record for that user and device, in time, and the account is active. */
  predicate Honoured(s: Shop, token: string, user: string, device: string, now: int, terms: Terms) {
    && token in s.tokens
    && var k := s.tokens[token];
       && !k.revoked && k.user == user && (device == "" || k.device == "" || k.device == device)
       && now - k.expires <= (if terms.offlineGrace > 0 then terms.offlineGrace else 0)
       && ActiveAccount(s, user)
  }

  /** A run is consumed exactly by an active account with one left, on no claim of its own, and on a token that is honoured if any is given. */
  lemma ConsumedIff(s: Shop, e: Event, terms: Terms)
    requires e.request.Consume?
    ensures var (q, r, t) := (e.request, ReplyTo(s, e, terms), Step(s, e, terms));
            var cleared := !q.claims && (q.token == "" || Honoured(s, q.token, q.user, q.device, e.now, terms));
            && (r.Consumed? <==> cleared && ActiveAccount(s, q.user) && s.records[q.user].remaining >= 1)
            && (r.Consumed? ==>
                  && r.remaining == s.records[q.user].remaining - 1
                  && t == s.(records := s.records[q.user := s.records[q.user].(remaining := r.remaining)]))
            && (!r.Consumed? ==> r.Refused? && t == s)
            && (r == Refused(ClientClaimRejected) <==> q.claims)
            && (r == Refused(QuotaExhausted) <==> cleared && ActiveAccount(s, q.user) && s.records[q.user].remaining < 1)
            && (cleared && !ActiveAccount(s, q.user) ==> r == Refused(NotEntitled))
  {
  }

  /** Support sets status and runs left on a record, made for the purpose where there is none, if it says who, whom and why. */
  lemma OverriddenIff(s: Shop, e: Event, terms: Terms)
    requires e.request.Override?
    ensures var (q, r, t) := (e.request, ReplyTo(s, e, terms), Step(s, e, terms));
            && (r == Overridden <==> q.user != "" && q.actor != "" && q.reason != "")
            && (r != Overridden ==> r == Refused(MissingFields) && t == s)
            && (r == Overridden ==>
                  && q.user in t.records && t == s.(records := t.records) && t.records == s.records[q.user := t.records[q.user]]
                  && t.records[q.user].remaining == q.remaining
                  && (ActiveAccount(t, q.user) <==> q.status == "active")
                  && (!ActiveAccount(t, q.user) ==> t.records[q.user].status == SetBySupport(q.status))
                  && t.records[q.user].total == (if q.user in s.records then s.records[q.user].total else 15)
                  && t.records[q.user].session == (if q.user in s.records then s.records[q.user].session else ""))
  {
  }

  // ---- The service, in place ----

  class EntitlementService {
    const terms: Terms
    var records: map<string, Record>
    var processed: set<string>
    var sessions: map<string, string>
    var tokens: map<string, LicenseToken>

    ghost function State(): Shop
      reads this
    {
      Shop(records, processed, sessions, tokens)
    }

    constructor (terms: Terms)
      ensures State() == Start() && this.terms == terms
    {
      this.terms, records, processed, sessions, tokens := terms, map[], {}, map[], map[];
    }

    method RecordPurchase(n: Notice) returns (reply: Reply)
      modifies this`records, this`sessions
      ensures (State(), reply) == ApplyPurchase(old(State()), n)
    {
      if n.amountUsd != PRICE_USD || !n.approvedVersion {
        return Refused(OfferMismatch);
      }
      if n.user == "" {
        return Refused(MissingUser);
      }
      if n.session != "" && n.session in sessions {
        return Duplicate;
      }
      records := records[n.user := Record(Active, RUNS_INCLUDED, RUNS_INCLUDED, n.session)];
      if n.session != "" {
        sessions := sessions[n.session := n.user];
      }
      return Purchased;
    }

    method RecordStatus(n: Notice, status: Status) returns (reply: Reply)
      requires status.Refunded? || status.Disputed?
      modifies this`records
      ensures (State(), reply) == ApplyStatus(old(State()), n, status)
    {
      if n.user !in records {
        return Refused(UnknownEntitlement);
      }
      var record := records[n.user].(status := status);
      if status.Refunded? || status.Disputed? {
        record := record.(remaining := 0);
      }
      records := records[n.user := record];
      return StatusChanged;
    }

    method ReceiveWebhook(d: Delivery, now: int) returns (reply: Reply)
      modifies this
      ensures (State(), reply) == Serve(old(State()), At(now, Webhook(d)), terms)
    {
      var refusal := Verify(d, now);
      if refusal.Some? {
        return Refused(refusal.value);
      }
      if d.body.None? {
        return Refused(BadJson);
      }
      var n := d.body.value;
      if n.id == "" || n.kind.NoKind? {
        return Refused(BadEvent);
      }
      if n.id in processed {
        return Refused(Replay);
      }
      match n.kind {
        case CheckoutCompleted => reply := RecordPurchase(n);
        case ChargeRefunded => reply := RecordStatus(n, Refunded);
        case DisputeCreated => reply := RecordStatus(n, Disputed);
        case _ => reply := Ignored;
      }
      if !reply.Refused? {
        processed := processed + {n.id};
      }
    }

    method IssueLicenseToken(user: string, device: string, token: string, now: int) returns (reply: Reply)
      modifies this`tokens
      ensures (State(), reply) == Serve(old(State()), At(now, Issue(user, device, token)), terms)
    {
      if user !in records || !records[user].status.Active? || records[user].remaining < 0 {
        return Refused(NotEntitled);
      }
      tokens := tokens[token := LicenseToken(user, device, now + terms.tokenTtl, false)];
      return TokenIssued;
    }

    method VerifyLicenseToken(token: string, user: string, device: string, now: int) returns (refusal: Option<Refusal>)
      ensures refusal == VerifyToken(State(), token, user, device, now, terms)
    {
      if token !in tokens || tokens[token].revoked {
        return Some(InvalidToken);
      }
      var entry := tokens[token];
      if entry.user != user {
        return Some(WrongUser);
      }
      if device != "" && entry.device != "" && entry.device != device {
        return Some(DeviceMismatch);
      }
      var grace := if terms.offlineGrace > 0 then terms.offlineGrace else 0;
      if entry.expires + grace < now {
        return Some(Expired);
      }
      if user !in records || !records[user].status.Active? {
        return Some(NotEntitled);
      }
      return None;
    }

    method ConsumeOneRun(user: string, token: string, device: string, claims: bool, now: int) returns (reply: Reply)
      modifies this`records
      ensures (State(), reply) == Serve(old(State()), At(now, Consume(user, token, device, claims)), terms)
    {
      if claims {
        return Refused(ClientClaimRejected);
      }
      if token != "" {
        var refusal := VerifyLicenseToken(token, user, device, now);
        if refusal.Some? {
          return Refused(refusal.value);
        }
      }
      if user !in records || !records[user].status.Active? {
        return Refused(NotEntitled);
      }
      if records[user].remaining < 1 {
        return Refused(QuotaExhausted);
      }
      records := records[user := records[user].(remaining := records[user].remaining - 1)];
      return Consumed(records[user].remaining);
    }

    method ApplySupportOverride(q: Request, now: int) returns (reply: Reply)
      requires q.Override?
      modifies this`records
      ensures (State(), reply) == Serve(old(State()), At(now, q), terms)
    {
      if q.user == "" || q.actor == "" || q.reason == "" {
        return Refused(MissingFields);
      }
      var record := if q.user in records then records[q.user] else Record(Active, 0, RUNS_INCLUDED, "");
      var status := if q.status == "active" then Active else SetBySupport(q.status);
      records := records[q.user := record.(status := status, remaining := q.remaining)];
      return Overridden;
    }
  }
}
