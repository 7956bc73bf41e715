/**
 Sign-in by magic link: one-time nonces bound to a device, session and refresh rotation, and a sweep of
 the presenting device when a spent refresh token comes back.
 */
module MagicAuth {
  import opened Text
  import opened Sessions

  datatype Link = Link(email: string, device: string, code: string, expires: int, used: bool)

  /** `drawn` records every nonce ever drawn. */
  datatype Service = Service(
    links: map<string, Link>,
    users: map<string, nat>,
    registry: Registry,
    drawn: set<string>)

  const MAGIC_TTL: int := 10 * 60 * 1000

  datatype Origin = NoOrigin | AllowedOrigin | OtherOrigin

  datatype Refusal =
    | MissingFields | BadOrigin | UnknownNonce | Replay | LinkExpired | DeviceBinding | BadCode
    | RefreshReuse | UnknownRefresh | SessionRevoked | RefreshExpired

  datatype Reply = LinkSent(nonce: string, code: string) | SignedIn(user: nat) | LoggedOut | Refused(why: Refusal)

  datatype Request =
    | AskLink(email: string, device: string, origin: Origin, nonce: string, code: string)
    | Verify(nonce: string, code: string, device: string, access: Token, refresh: Token)
    | Renew(token: Token, device: string, access: Token, refresh: Token)
    | Logout(user: nat)

  datatype Event = At(now: int, request: Request)

  // ---- The service ----

  function AskReply(m: Service, q: Request): Reply
    requires q.AskLink?
  {
    if q.email == "" || q.device == "" then Refused(MissingFields)
    else if q.origin.OtherOrigin? then Refused(BadOrigin)
    else LinkSent(q.nonce, q.code)
  }

  function VerifyReply(m: Service, q: Request, now: int): Reply
    requires q.Verify?
  {
    if q.nonce !in m.links then Refused(UnknownNonce)
    else
      var link := m.links[q.nonce];
      if link.used then Refused(Replay)
      else if link.expires < now then Refused(LinkExpired)
      else if link.device != q.device then Refused(DeviceBinding)
      else if link.code != q.code then Refused(BadCode)
      else SignedIn(UserId(m.users, link.email))
  }

  function UserId(users: map<string, nat>, email: string): nat {
    if email in users then users[email] else |users| + 1
  }

  function RenewReply(m: Service, q: Request, now: int): Reply
    requires q.Renew?
  {
    match CheckRefresh(m.registry, q.token, q.device, now)
    case Reuse => Refused(RefreshReuse)
    case Unknown => Refused(UnknownRefresh)
    case Revoked => Refused(SessionRevoked)
    case Expired => Refused(RefreshExpired)
    case WrongDevice => Refused(DeviceBinding)
    case Good(s) => SignedIn(s.user)
  }

  function ReplyTo(m: Service, e: Event): Reply {
    match e.request
    case AskLink(_, _, _, _, _) => AskReply(m, e.request)
    case Verify(_, _, _, _, _) => VerifyReply(m, e.request, e.now)
    case Renew(_, _, _, _) => RenewReply(m, e.request, e.now)
    case Logout(_) => LoggedOut
  }

  /** Logs out, one after another, the users of the listed sessions that are on the device. */
  function Sweep(r: Registry, listed: seq<Session>, device: string): Registry
    decreases |listed|
  {
    if listed == [] then r
    else Sweep(if listed[0].device == device then LogoutAll(r, listed[0].user) else r, listed[1..], device)
  }

  function RenewStep(r: Registry, q: Request, now: int): Registry
    requires q.Renew?
  {
    match CheckRefresh(r, q.token, q.device, now)
    case Reuse => Sweep(r, r.sessions, q.device)
    case Good(s) => Issue(Spend(r, s), s.user, s.email, q.device, now, q.access, q.refresh)
    case _ => r
  }

  function Step(m: Service, e: Event): Service {
    match e.request
    case AskLink(email, device, _, nonce, code) =>
      if AskReply(m, e.request).Refused? then m
      else m.(links := m.links[nonce := Link(LowerAll(email), device, code, e.now + MAGIC_TTL, false)],
              drawn := m.drawn + {nonce})
    case Verify(nonce, _, device, access, refresh) =>
      if VerifyReply(m, e.request, e.now).Refused? then m
      else
        var link := m.links[nonce];
        var user := UserId(m.users, link.email);
        m.(links := m.links[nonce := link.(used := true)],
           users := m.users[link.email := user],
           registry := Issue(m.registry, user, link.email, device, e.now, access, refresh))
    case Renew(_, _, _, _) => m.(registry := RenewStep(m.registry, e.request, e.now))
    case Logout(user) => m.(registry := LogoutAll(m.registry, user))
  }

  /** Time does not go back, and drawn nonces and tokens are new. */
  predicate Enabled(m: Service, clock: int, e: Event) {
    && clock <= e.now
    && match e.request
       case AskLink(_, _, _, nonce, _) => nonce !in m.drawn
       case Verify(_, _, _, a, r) => a !in m.registry.issued && r !in m.registry.issued && a != r
       case Renew(_, _, a, r) => a !in m.registry.issued && r !in m.registry.issued && a != r
       case Logout(_) => true
  }

  // ---- What every step keeps ----

  ghost predicate UsersKept(users: map<string, nat>) {
    && (forall e <- users :: 1 <= users[e] <= |users|)
    && (forall e <- users, f <- users :: users[e] == users[f] ==> e == f)
  }

  ghost predicate Owned(sessions: seq<Session>, users: map<string, nat>) {
    forall s <- sessions :: s.email in users && users[s.email] == s.user
  }

  ghost predicate Inv(m: Service, clock: int) {
    && Kept(m.registry, clock)
    && m.links.Keys <= m.drawn
    && UsersKept(m.users)
    && Owned(m.registry.sessions, m.users)
  }

  /** A link is never forgotten, altered or made unused again; an account keeps its number. */
  ghost predicate LinksLast(m: Service, m': Service) {
    && m.drawn <= m'.drawn
    && (forall n <- m.links :: n in m'.links && m'.links[n].(used := false) == m.links[n].(used := false)
                            && (m.links[n].used ==> m'.links[n].used))
    && (forall e <- m.users :: e in m'.users && m'.users[e] == m.users[e])
  }

  lemma {:induction false} SweepKeeps(r: Registry, clock: int, listed: seq<Session>, device: string)
    requires Kept(r, clock)
    ensures Kept(Sweep(r, listed, device), clock) && Evolves(r, Sweep(r, listed, device))
    decreases |listed|
  {
    if listed != [] {
      var q := if listed[0].device == device then LogoutAll(r, listed[0].user) else r;
      LogoutKeeps(r, clock, listed[0].user);
      hide Kept, LogoutAll;
      SweepKeeps(q, clock, listed[1..], device);
      EvolvesTransitive(r, q, Sweep(q, listed[1..], device));
    }
  }

  /** A sweep ends exactly the sessions of users with a listed session on the device. */
  lemma {:induction false} SweepEnds(r: Registry, listed: seq<Session>, device: string, s: Session)
    ensures s in Sweep(r, listed, device).sessions <==>
              s in r.sessions && !exists x :: x in listed && x.device == device && x.user == s.user
    decreases |listed|
  {
    if listed != [] {
      var q := if listed[0].device == device then LogoutAll(r, listed[0].user) else r;
      SweepEnds(q, listed[1..], device, s);
      assert forall x :: x in listed <==> x == listed[0] || x in listed[1..];
    }
  }

  lemma RenewKeeps(r: Registry, clock: int, q: Request, now: int)
    requires q.Renew? && Kept(r, clock) && clock <= now
    requires q.access !in r.issued && q.refresh !in r.issued
    ensures Kept(RenewStep(r, q, now), now) && Evolves(r, RenewStep(r, q, now))
  {
    hide Kept;
    LaterKeeps(r, clock, now);
    var c := CheckRefresh(r, q.token, q.device, now);
    if c.Reuse? {
      SweepKeeps(r, now, r.sessions, q.device);
    } else if c.Good? {
      GoodIsLive(r, clock, q.token, q.device, now);
      SpendKeeps(r, now, c.session);
      IssueKeeps(Spend(r, c.session), now, c.session.user, c.session.email, q.device, now, q.access, q.refresh);
      EvolvesTransitive(r, Spend(r, c.session), RenewStep(r, q, now));
    }
  }

  lemma GoodIsLive(r: Registry, clock: int, token: Token, device: string, now: int)
    requires Kept(r, clock) && CheckRefresh(r, token, device, now).Good?
    ensures CheckRefresh(r, token, device, now).session in r.sessions
  {
  }

  lemma RenewOwned(r: Registry, clock: int, users: map<string, nat>, q: Request, now: int)
    requires q.Renew? && Kept(r, clock) && Owned(r.sessions, users)
    ensures Owned(RenewStep(r, q, now).sessions, users)
  {
    var c := CheckRefresh(r, q.token, q.device, now);
    if c.Reuse? {
      forall s | s in Sweep(r, r.sessions, q.device).sessions ensures s in r.sessions { SweepEnds(r, r.sessions, q.device, s); }
    } else if c.Good? {
      GoodIsLive(r, clock, q.token, q.device, now);
    }
    hide Sweep, Kept, CheckRefresh;
  }

  lemma AskKeepsInv(m: Service, clock: int, e: Event)
    requires Inv(m, clock) && Enabled(m, clock, e) && e.request.AskLink?
    ensures Inv(Step(m, e), e.now) && Evolves(m.registry, Step(m, e).registry) && LinksLast(m, Step(m, e))
  {
    hide Kept, Evolves;
    LaterKeeps(m.registry, clock, e.now);
    EvolvesSelf(m.registry);
  }

  lemma VerifyKeepsInv(m: Service, clock: int, e: Event)
    requires Inv(m, clock) && Enabled(m, clock, e) && e.request.Verify?
    ensures Inv(Step(m, e), e.now) && Evolves(m.registry, Step(m, e).registry) && LinksLast(m, Step(m, e))
  {
    hide Kept, Evolves, UsersKept;
    LaterKeeps(m.registry, clock, e.now);
    EvolvesSelf(m.registry);
    if !VerifyReply(m, e.request, e.now).Refused? {
      var link := m.links[e.request.nonce];
      var user := UserId(m.users, link.email);
      IssueKeeps(m.registry, clock, user, link.email, e.request.device, e.now, e.request.access, e.request.refresh);
      UsersGrow(m.users, link.email);
    }
  }

  lemma StepKeepsInv(m: Service, clock: int, e: Event)
    requires Inv(m, clock) && Enabled(m, clock, e)
    ensures Inv(Step(m, e), e.now) && Evolves(m.registry, Step(m, e).registry) && LinksLast(m, Step(m, e))
  {
    match e.request {
      case AskLink(_, _, _, _, _) =>
        AskKeepsInv(m, clock, e);
      case Verify(_, _, _, _, _) =>
        VerifyKeepsInv(m, clock, e);
      case Renew(_, _, _, _) =>
        RenewKeeps(m.registry, clock, e.request, e.now);
        RenewOwned(m.registry, clock, m.users, e.request, e.now);
      case Logout(user) =>
        LaterKeeps(m.registry, clock, e.now);
        LogoutKeeps(m.registry, e.now, user);
    }
    hide Kept, Evolves, RenewStep, UsersKept;
  }

  lemma EvolvesSelf(r: Registry)
    ensures Evolves(r, r)
  {
  }

  lemma UsersGrow(users: map<string, nat>, email: string)
    requires UsersKept(users)
    ensures var users' := users[email := UserId(users, email)];
            UsersKept(users') && (forall e <- users :: users'[e] == users[e])
  {
    var users' := users[email := UserId(users, email)];
    assert users'.Keys == users.Keys + {email};
    assert |users'| == |users'.Keys| && |users| == |users.Keys|;
  }

  // ---- Whole runs ----

  predicate Legal(m: Service, clock: int, es: seq<Event>)
    decreases |es|
  {
    es == [] || (Enabled(m, clock, es[0]) && Legal(Step(m, es[0]), es[0].now, es[1..]))
  }

  function Run(m: Service, es: seq<Event>): Service
    decreases |es|
  {
    if es == [] then m else Run(Step(m, es[0]), es[1..])
  }

  function Clock(clock: int, es: seq<Event>): int { if es == [] then clock else es[|es| - 1].now }

  lemma LinksLastTransitive(a: Service, b: Service, c: Service)
    requires LinksLast(a, b) && LinksLast(b, c)
    ensures LinksLast(a, c)
  {
    assert forall n <- a.links :: n in b.links && n in c.links;
  }

  lemma {:induction false} RunKeepsInv(m: Service, clock: int, es: seq<Event>)
    requires Inv(m, clock) && Legal(m, clock, es)
    ensures Inv(Run(m, es), Clock(clock, es)) && clock <= Clock(clock, es)
    ensures Evolves(m.registry, Run(m, es).registry) && LinksLast(m, Run(m, es))
    decreases |es|
  {
    if es == [] {
      EvolvesSelf(m.registry);
    } else {
      hide Inv, Step, Evolves, LinksLast;
      var n := Step(m, es[0]);
      StepKeepsInv(m, clock, es[0]);
      RunKeepsInv(n, es[0].now, es[1..]);
      EvolvesTransitive(m.registry, n.registry, Run(m, es).registry);
      LinksLastTransitive(m, n, Run(m, es));
      assert Clock(clock, es) == Clock(es[0].now, es[1..]);
    }
  }

  function Start(): Service { Service(map[], map[], Registry([], map[], {}, {}), {}) }

  /**
   In every run the access map and the refresh map hold the same sessions, spent refresh tokens are apart
   from live ones, every live session belongs to the account of its email, and accounts differ.
   */
  lemma Always(clock: int, es: seq<Event>)
    requires Legal(Start(), clock, es)
    ensures var m := Run(Start(), es);
            && SameSessions(m.registry.sessions, m.registry.byRefresh)
            && m.registry.retired !! m.registry.byRefresh.Keys
            && Owned(m.registry.sessions, m.users)
            && (forall e <- m.users, f <- m.users :: m.users[e] == m.users[f] ==> e == f)
  {
    RunKeepsInv(Start(), clock, es);
    hide Run, Legal, SameSessions, Owned;
  }

  /** A magic link signs in once: ever after it is a replay. */
  lemma LinkWorksOnce(m: Service, clock: int, e: Event, es: seq<Event>, again: Event)
    requires Inv(m, clock) && Enabled(m, clock, e) && e.request.Verify? && ReplyTo(m, e).SignedIn?
    requires Legal(Step(m, e), e.now, es) && again.request.Verify? && again.request.nonce == e.request.nonce
    ensures ReplyTo(Run(Step(m, e), es), again) == Refused(Replay)
  {
    StepKeepsInv(m, clock, e);
    RunKeepsInv(Step(m, e), e.now, es);
    assert Step(m, e).links[e.request.nonce].used;
    hide Run, Legal, Inv;
  }

  /** A refresh token renews once: ever after it is reuse, on any device. */
  lemma RefreshWorksOnce(m: Service, clock: int, e: Event, es: seq<Event>, again: Event)
    requires Inv(m, clock) && Enabled(m, clock, e) && e.request.Renew? && ReplyTo(m, e).SignedIn?
    requires Legal(Step(m, e), e.now, es) && again.request.Renew? && again.request.token == e.request.token
    ensures ReplyTo(Run(Step(m, e), es), again) == Refused(RefreshReuse)
  {
    GoodIsLive(m.registry, clock, e.request.token, e.request.device, e.now);
    StepKeepsInv(m, clock, e);
    RunKeepsInv(Step(m, e), e.now, es);
    assert e.request.token in Step(m, e).registry.retired;
    RetiredForGood(Step(m, e).registry, Run(Step(m, e), es).registry, again.request.token, again.request.device, again.now);
    hide Run, Legal, Inv, Step;
  }

  /** No token drawn before a logout opens a session of that user after it. */
  lemma LogoutIsFinal(m: Service, clock: int, now: int, user: nat, es: seq<Event>, token: Token, device: string, later: int)
    requires Inv(m, clock) && clock <= now && token in m.registry.issued
    requires Legal(Step(m, At(now, Logout(user))), now, es)
    ensures var r := Run(Step(m, At(now, Logout(user))), es).registry;
            && (Authorize(r, token, later).Authorized? ==> Authorize(r, token, later).user != user)
            && (CheckRefresh(r, token, device, later).Good? ==> CheckRefresh(r, token, device, later).session.user != user)
  {
    var out := At(now, Logout(user));
    StepKeepsInv(m, clock, out);
    RunKeepsInv(Step(m, out), now, es);
    var r := Run(Step(m, out), es).registry;
    LogoutEnds(m.registry, clock, user, r, token, later);
    LogoutEndsRefresh(m.registry, clock, user, r, Clock(now, es), token, device, later);
    hide Run, Legal, Authorize, CheckRefresh, Kept, Evolves;
  }

  /**
   Presenting a spent refresh token ends, everywhere and for good, the sessions of every user with a session
   on the presenting device; in particular none is left on the device. Sessions of other users are untouched.
   */
  lemma ReuseSweepsDevice(m: Service, clock: int, e: Event, es: seq<Event>, s: Session)
    requires Inv(m, clock) && Enabled(m, clock, e) && e.request.Renew? && e.request.token in m.registry.retired
    requires Legal(Step(m, e), e.now, es) && s in m.registry.sessions
    ensures ReplyTo(m, e) == Refused(RefreshReuse)
    ensures s in Step(m, e).registry.sessions <==>
              !exists x :: x in m.registry.sessions && x.device == e.request.device && x.user == s.user
    ensures (exists x :: x in m.registry.sessions && x.device == e.request.device && x.user == s.user) ==>
              s !in Run(Step(m, e), es).registry.sessions
    ensures forall x :: x in Step(m, e).registry.sessions ==> x.device != e.request.device
  {
    var r := m.registry;
    SweepEnds(r, r.sessions, e.request.device, s);
    forall x | x in Step(m, e).registry.sessions ensures x.device != e.request.device {
      SweepEnds(r, r.sessions, e.request.device, x);
    }
    StepKeepsInv(m, clock, e);
    RunKeepsInv(Step(m, e), e.now, es);
    assert s.access in Step(m, e).registry.issued;
    hide Run, Legal, Sweep;
  }

  /** No access token is honoured longer than fifteen minutes after it was drawn. */
  lemma TokensExpire(m: Service, clock: int, es: seq<Event>, token: Token, later: int)
    requires Inv(m, clock) && Legal(m, clock, es) && token in m.registry.issued && later > clock + ACCESS_TTL
    ensures !Authorize(Run(m, es).registry, token, later).Authorized?
  {
    RunKeepsInv(m, clock, es);
    AccessExpires(m.registry, clock, Run(m, es).registry, token, later);
    hide Run, Legal, Authorize;
  }

  // ---- Who is signed in, and by what ----

  /** A link is sent exactly when email and device are given from an allowed origin or none; it lasts ten minutes. */
  lemma AskIff(m: Service, e: Event)
    requires e.request.AskLink?
    ensures var (q, r, n) := (e.request, ReplyTo(m, e), Step(m, e));
            && (r == Refused(MissingFields) <==> q.email == "" || q.device == "")
            && (r == Refused(BadOrigin) <==> q.email != "" && q.device != "" && q.origin == OtherOrigin)
            && (r == LinkSent(q.nonce, q.code) <==> q.email != "" && q.device != "" && q.origin != OtherOrigin)
            && (r.LinkSent? ==>
                  n == m.(links := m.links[q.nonce := Link(LowerAll(q.email), q.device, q.code, e.now + 600_000, false)],
                          drawn := m.drawn + {q.nonce}))
            && (r.Refused? ==> n == m)
  {
  }

  /** The link stands: on record, unused, in time, and presented on its device with its code. */
  predicate GoodLink(m: Service, q: Request, now: int)
    requires q.Verify?
  {
    q.nonce in m.links && var k := m.links[q.nonce]; !k.used && now <= k.expires && k.device == q.device && k.code == q.code
  }

  /** The number of the account: its own, or the next one where there is none. */
  predicate IsNumber(users: map<string, nat>, email: string, user: nat) {
    if email in users then user == users[email] else user == |users| + 1
  }

  ghost predicate OpenedByLink(m: Service, e: Event, s: Session) {
    var q := e.request;
    && q.Verify? && GoodLink(m, q, e.now) && s.email == m.links[q.nonce].email && IsNumber(m.users, s.email, s.user)
    && s == Opened(s.user, s.email, q.device, e.now, q.access, q.refresh)
  }

  ghost predicate OpenedByRenewal(m: Service, e: Event, s: Session) {
    var q := e.request;
    && q.Renew? && s == Opened(s.user, s.email, q.device, e.now, q.access, q.refresh)
    && exists live <- m.registry.sessions ::
         live.refresh == q.token && live.device == q.device && e.now <= live.refreshExpires && s.user == live.user && s.email == live.email
  }

  /** A link signs in exactly when it stands, the account of its email; it is used up, and the one session added. */
  lemma VerifyIff(m: Service, e: Event, u: nat)
    requires e.request.Verify?
    ensures ReplyTo(m, e) == SignedIn(u) <==> exists s :: OpenedByLink(m, e, s) && s.user == u
    ensures ReplyTo(m, e).SignedIn? ==>
              exists s :: OpenedByLink(m, e, s) &&
                (var (q, n) := (e.request, Step(m, e));
                 && n.registry.sessions == m.registry.sessions + [s] && n.users == m.users[s.email := s.user]
                 && n.links == m.links[q.nonce := m.links[q.nonce].(used := true)] && n.drawn == m.drawn)
    ensures ReplyTo(m, e).Refused? ==> Step(m, e) == m
    ensures ReplyTo(m, e).SignedIn? <==> GoodLink(m, e.request, e.now)
    ensures var (q, r) := (e.request, ReplyTo(m, e));
            && (r == Refused(UnknownNonce) <==> q.nonce !in m.links)
            && (q.nonce in m.links ==>
                  var k := m.links[q.nonce];
                  && (r == Refused(Replay) <==> k.used)
                  && (r == Refused(LinkExpired) <==> !k.used && e.now > k.expires)
                  && (r == Refused(DeviceBinding) <==> !k.used && e.now <= k.expires && k.device != q.device)
                  && (r == Refused(BadCode) <==> !k.used && e.now <= k.expires && k.device == q.device && k.code != q.code))
  {
    var q := e.request;
    if ReplyTo(m, e).SignedIn? {
      var email := m.links[q.nonce].email;
      assert OpenedByLink(m, e, Opened(UserId(m.users, email), email, q.device, e.now, q.access, q.refresh));
    }
  }

  /** A refresh token renews exactly the live session it belongs to, on its device and in time. */
  lemma RenewIff(m: Service, clock: int, e: Event, u: nat)
    requires Inv(m, clock) && Enabled(m, clock, e) && e.request.Renew?
    ensures ReplyTo(m, e) == SignedIn(u) <==> exists s :: OpenedByRenewal(m, e, s) && s.user == u
    ensures ReplyTo(m, e).SignedIn? ==>
              exists s :: OpenedByRenewal(m, e, s) && s in Step(m, e).registry.sessions &&
                forall x :: x in Step(m, e).registry.sessions <==> x == s || (x in m.registry.sessions && x.refresh != e.request.token)
    ensures ReplyTo(m, e) == Refused(RefreshReuse) <==> e.request.token in m.registry.retired
    ensures ReplyTo(m, e).Refused? && ReplyTo(m, e) != Refused(RefreshReuse) ==> Step(m, e) == m
    ensures Step(m, e).links == m.links && Step(m, e).users == m.users && !ReplyTo(m, e).LinkSent? && !ReplyTo(m, e).LoggedOut?
  {
    var q, r := e.request, m.registry;
    CheckRefreshIff(r, clock, q.token, q.device, e.now);
    var c := CheckRefresh(r, q.token, q.device, e.now);
    if c.Good? {
      var live := c.session;
      SpendEnds(r, clock, live);
      assert forall x <- r.sessions :: x.refresh == q.token ==> x == live by { hide OneToken; }
      assert OpenedByRenewal(m, e, Opened(live.user, live.email, q.device, e.now, q.access, q.refresh));
    }
    hide Kept, UsersKept, Owned, CheckRefresh, Spend, Sweep;
  }

  ghost predicate OpenedIn(m: Service, es: seq<Event>, s: Session)
    decreases |es|
  {
    es != [] && (OpenedByLink(m, es[0], s) || OpenedByRenewal(m, es[0], s) || OpenedIn(Step(m, es[0]), es[1..], s))
  }

  lemma StepOpens(m: Service, clock: int, e: Event, s: Session)
    requires Inv(m, clock) && Enabled(m, clock, e) && s in Step(m, e).registry.sessions
    ensures s in m.registry.sessions || OpenedByLink(m, e, s) || OpenedByRenewal(m, e, s)
  {
    hide Inv, OpenedByLink, OpenedByRenewal, CheckRefresh;
    match e.request {
      case AskLink(_, _, _, _, _) => AskIff(m, e);
      case Verify(_, _, _, _, _) => VerifyIff(m, e, 0);
      case Renew(_, _, _, _) =>
        RenewIff(m, clock, e, 0);
        if e.request.token in m.registry.retired { ReuseSweepsOnly(m, e, s); }
      case Logout(user) =>
    }
  }

  lemma ReuseSweepsOnly(m: Service, e: Event, s: Session)
    requires e.request.Renew? && e.request.token in m.registry.retired && s in Step(m, e).registry.sessions
    ensures s in m.registry.sessions
  {
    SweepEnds(m.registry, m.registry.sessions, e.request.device, s);
    hide Sweep;
  }

  lemma {:induction false} RunOpens(m: Service, clock: int, es: seq<Event>, s: Session)
    requires Inv(m, clock) && Legal(m, clock, es) && s in Run(m, es).registry.sessions
    ensures s in m.registry.sessions || OpenedIn(m, es, s)
    decreases |es|
  {
    hide Inv, Step, OpenedByLink, OpenedByRenewal, Enabled;
    if es != [] {
      var n := Step(m, es[0]);
      StepKeepsInv(m, clock, es[0]);
      RunOpens(n, es[0].now, es[1..], s);
      if s in n.registry.sessions { StepOpens(m, clock, es[0], s); }
    }
  }

  /** Over whole runs, whatever an access token opens was opened by a link that stood, or by renewing a live session. */
  lemma TokensAreEarned(clock: int, es: seq<Event>, token: Token, now: int)
    requires Legal(Start(), clock, es)
    ensures var a := Authorize(Run(Start(), es).registry, token, now);
            a.Authorized? ==>
              exists s :: OpenedIn(Start(), es, s) && s.access == token && now <= s.accessExpires
                          && s.user == a.user && s.email == a.email && s.device == a.device
  {
    hide Legal, Run, OpenedIn, Kept;
    var r := Run(Start(), es).registry;
    StartKept(clock);
    RunKeepsInv(Start(), clock, es);
    AuthorizeIff(r, Clock(clock, es), token, now);
    var a := Authorize(r, token, now);
    if a.Authorized? {
      assert a == Authorized(a.user, a.email, a.device);
      var s :| s in r.sessions && s.access == token && now <= s.accessExpires && s.user == a.user && s.email == a.email && s.device == a.device;
      RunOpens(Start(), clock, es, s);
    }
  }

  lemma StartKept(clock: int)
    ensures Inv(Start(), clock)
  {
  }

  // ---- The service, in place ----

  class MagicAuthService {
    var links: map<string, Link>
    var users: map<string, nat>
    const table: SessionTable
    ghost var drawn: set<string>

    ghost function State(): Service
      reads this, table
    {
      Service(links, users, table.State(), drawn)
    }

    constructor ()
      ensures State() == Start() && fresh(table)
    {
      links, users, drawn := map[], map[], {};
      table := new SessionTable();
    }

    method RequestMagicLink(q: Request, now: int) returns (reply: Reply)
      requires q.AskLink?
      modifies this
      ensures State() == Step(old(State()), At(now, q)) && reply == ReplyTo(old(State()), At(now, q))
    {
      if q.email == "" || q.device == "" {
        return Refused(MissingFields);
      }
      if q.origin.OtherOrigin? {
        return Refused(BadOrigin);
      }
      links := links[q.nonce := Link(LowerAll(q.email), q.device, q.code, now + MAGIC_TTL, false)];
      drawn := drawn + {q.nonce};
      return LinkSent(q.nonce, q.code);
    }

    method UpsertUser(email: string) returns (user: nat)
      modifies this`users
      ensures user == UserId(old(users), email) && users == old(users)[email := user]
    {
      if email !in users {
        users := users[email := |users| + 1];
      }
      user := users[email];
      assert users == old(users)[email := user];
    }

    method VerifyMagicLink(q: Request, now: int) returns (reply: Reply)
      requires q.Verify?
      modifies this, table
      ensures State() == Step(old(State()), At(now, q)) && reply == ReplyTo(old(State()), At(now, q))
    {
      if q.nonce !in links {
        return Refused(UnknownNonce);
      }
      var link := links[q.nonce];
      if link.used {
        return Refused(Replay);
      }
      if link.expires < now {
        return Refused(LinkExpired);
      }
      if link.device != q.device {
        return Refused(DeviceBinding);
      }
      if link.code != q.code {
        return Refused(BadCode);
      }
      links := links[q.nonce := link.(used := true)];
      var user := UpsertUser(link.email);
      table.IssueSession(user, link.email, q.device, now, q.access, q.refresh);
      return SignedIn(user);
    }

    /** Logs out every user seen on the device, over a copy of the sessions taken at the start. */
    method SweepDevice(device: string)
      modifies table
      ensures table.State() == Sweep(old(table.State()), old(table.sessions), device)
    {
      ghost var r := table.State();
      var listed := table.sessions;
      for i := 0 to |listed|
        invariant Sweep(table.State(), listed[i..], device) == Sweep(r, listed, device)
      {
        assert listed[i..][1..] == listed[i + 1..];
        if listed[i].device == device {
          table.LogoutAllOf(listed[i].user);
        }
      }
    }

    method RefreshSession(q: Request, now: int) returns (reply: Reply)
      requires q.Renew?
      modifies table
      ensures State() == Step(old(State()), At(now, q)) && reply == ReplyTo(old(State()), At(now, q))
    {
      if q.token in table.retired {
        SweepDevice(q.device);
        return Refused(RefreshReuse);
      }
      if q.token !in table.byRefresh {
        return Refused(UnknownRefresh);
      }
      var s := table.byRefresh[q.token];
      if s.revoked {
        return Refused(SessionRevoked);
      }
      if s.refreshExpires < now {
        return Refused(RefreshExpired);
      }
      if s.device != q.device {
        return Refused(DeviceBinding);
      }
      table.SpendSession(s);
      table.IssueSession(s.user, s.email, q.device, now, q.access, q.refresh);
      return SignedIn(s.user);
    }

    method LogoutUser(user: nat, now: int)
      modifies table
      ensures State() == Step(old(State()), At(now, Logout(user)))
    {
      table.LogoutAllOf(user);
    }
  }
}
