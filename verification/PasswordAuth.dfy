/**
 Accounts with a password, one-time codes by mail, and linked provider identities, over the shared session
 table. A stored password stands for its hash; a code stands for its digest.
 */
module PasswordAuth {
  import opened Text
  import opened Sessions

  datatype Identity = Identity(provider: string, subject: string)

  datatype User = User(id: nat, email: string, password: Option<string>, verified: bool, identities: seq<Identity>)

  datatype Purpose = ToRegister | ToLogin | ToReset

  datatype Otp = Otp(email: string, purpose: Purpose, code: string, expires: int, used: bool)

  /** `drawn` records every nonce ever drawn. */
  datatype Service = Service(users: seq<User>, otps: map<string, Otp>, registry: Registry, drawn: set<string>)

  const OTP_TTL: int := 10 * 60 * 1000
  const MIN_PASSWORD: nat := 10

  datatype Refusal =
    | InvalidEmail | WeakPassword | EmailTaken | InvalidCredentials | NoAccount | MissingFields | UnknownNonce
    | WrongPurpose | Replay | OtpExpired | BadCode | UserMissing | OtpEmailFailed
    | ProviderNotSupported | ProviderIdentityInvalid
    | RefreshReuse | UnknownRefresh | SessionRevoked | RefreshExpired | DeviceBinding

  datatype Reply = OtpSent(nonce: string, purpose: Purpose) | SignedIn(user: nat) | PasswordChanged | LoggedOut | Refused(why: Refusal)

  /** What a one-time code is made from, and whether its mail went out. */
  datatype Draw = Draw(nonce: string, code: string, mailed: bool)

  datatype Tokens = Tokens(access: Token, refresh: Token)

  datatype Request =
    | Register(email: string, password: string, id: nat, draw: Draw)
    | Login(email: string, password: string, draw: Draw)
    | AskReset(email: string, draw: Draw)
    | Reset(nonce: string, code: string, newPassword: string)
    | VerifyOtp(nonce: string, code: string, device: string, tokens: Tokens)
    | Provider(identity: Identity, email: string, emailVerified: bool, device: string, id: nat, tokens: Tokens)
    | Renew(token: Token, device: string, tokens: Tokens)
    | Logout(user: nat)

  datatype Event = At(now: int, request: Request)

  // ---- Emails and passwords ----

  function Normalize(email: string): string { LowerAll(Trim(email)) }

  /** Something, an at sign, something, a dot, something; no space and no other at sign. */
  predicate IsEmail(s: string) {
    exists at: nat, dot: nat ::
      && 1 <= at && at + 2 <= dot && dot + 1 < |s| && s[at] == '@' && s[dot] == '.'
      && forall k :: 0 <= k < |s| ==> !IsSpace(s[k]) && (s[k] == '@' ==> k == at)
  }

  predicate Has(s: string, p: char -> bool) { exists k :: 0 <= k < |s| && p(s[k]) }

  predicate IsUpper(c: char) { 'A' <= c <= 'Z' }

  predicate IsLower(c: char) { 'a' <= c <= 'z' }

  predicate IsSymbol(c: char) { !IsUpper(c) && !IsLower(c) && !IsDigit(c) && !IsSpace(c) }

  predicate StrongPassword(s: string) {
    |s| >= MIN_PASSWORD && Has(s, IsUpper) && Has(s, IsLower) && Has(s, IsDigit) && Has(s, IsSymbol) && !Has(s, IsSpace)
  }

  predicate PasswordMatches(password: string, stored: Option<string>) { stored == Some(password) }

  // ---- Finding accounts ----

  function FindUser(users: seq<User>, email: string): (i: nat)
    ensures i <= |users|
    ensures i < |users| ==> users[i].email == email
    ensures forall k :: 0 <= k < i ==> users[k].email != email
  {
    if users == [] || users[0].email == email then 0 else 1 + FindUser(users[1..], email)
  }

  function FindIdentity(users: seq<User>, identity: Identity): (i: nat)
    ensures i <= |users|
    ensures i < |users| ==> identity in users[i].identities
    ensures forall k :: 0 <= k < i ==> identity !in users[k].identities
  {
    if users == [] || identity in users[0].identities then 0 else 1 + FindIdentity(users[1..], identity)
  }

  function FindId(users: seq<User>, id: nat): (i: nat)
    ensures i <= |users|
    ensures i < |users| ==> users[i].id == id
    ensures forall k :: 0 <= k < i ==> users[k].id != id
  {
    if users == [] || users[0].id == id then 0 else 1 + FindId(users[1..], id)
  }

  // ---- One-time codes ----

  function StartOtp(m: Service, email: string, purpose: Purpose, d: Draw, now: int): (Service, Reply) {
    var n := m.(drawn := m.drawn + {d.nonce});
    if !d.mailed then (n, Refused(OtpEmailFailed))
    else (n.(otps := m.otps[d.nonce := Otp(email, purpose, d.code, now + OTP_TTL, false)]), OtpSent(d.nonce, purpose))
  }

  function RegisterStep(m: Service, q: Request, now: int): (Service, Reply)
    requires q.Register?
  {
    var email := Normalize(q.email);
    if !IsEmail(email) then (m, Refused(InvalidEmail))
    else if !StrongPassword(q.password) then (m, Refused(WeakPassword))
    else if FindUser(m.users, email) < |m.users| then (m, Refused(EmailTaken))
    else StartOtp(m.(users := m.users + [User(q.id, email, Some(q.password), false, [])]), email, ToRegister, q.draw, now)
  }

  function LoginStep(m: Service, q: Request, now: int): (Service, Reply)
    requires q.Login?
  {
    var email := Normalize(q.email);
    var i := FindUser(m.users, email);
    if i == |m.users| || !PasswordMatches(q.password, m.users[i].password) then (m, Refused(InvalidCredentials))
    else StartOtp(m, email, if m.users[i].verified then ToLogin else ToRegister, q.draw, now)
  }

  function AskResetStep(m: Service, q: Request, now: int): (Service, Reply)
    requires q.AskReset?
  {
    var email := Normalize(q.email);
    if !IsEmail(email) then (m, Refused(InvalidEmail))
    else if FindUser(m.users, email) == |m.users| then (m, Refused(NoAccount))
    else StartOtp(m, email, ToReset, q.draw, now)
  }

  /** The checks both uses of a code begin with; None when the code stands. */
  function CheckOtp(otps: map<string, Otp>, nonce: string, code: string, reset: bool, now: int): Option<Refusal> {
    if nonce !in otps then Some(UnknownNonce)
    else
      var entry := otps[nonce];
      if entry.purpose.ToReset? != reset then Some(WrongPurpose)
      else if entry.used then Some(Replay)
      else if entry.expires < now then Some(OtpExpired)
      else if entry.code != Trim(code) then Some(BadCode)
      else None
  }

  function Burn(otps: map<string, Otp>, nonce: string): map<string, Otp>
    requires nonce in otps
  {
    otps[nonce := otps[nonce].(used := true)]
  }

  function ResetStep(m: Service, q: Request, now: int): (Service, Reply)
    requires q.Reset?
  {
    if q.nonce == "" || q.code == "" then (m, Refused(MissingFields))
    else
      var refusal := CheckOtp(m.otps, q.nonce, q.code, true, now);
      if refusal.Some? then (m, Refused(refusal.value))
      else if !StrongPassword(q.newPassword) then (m, Refused(WeakPassword))
      else
        var i := FindUser(m.users, m.otps[q.nonce].email);
        if i == |m.users| then (m, Refused(UserMissing))
        else
          var u := m.users[i].(password := Some(q.newPassword), verified := true);
          (m.(otps := Burn(m.otps, q.nonce), users := m.users[i := u], registry := LogoutAll(m.registry, u.id)), PasswordChanged)
  }

  function SignIn(m: Service, u: User, device: string, now: int, t: Tokens): (Service, Reply) {
    (m.(registry := Issue(m.registry, u.id, u.email, device, now, t.access, t.refresh)), SignedIn(u.id))
  }

  function VerifyStep(m: Service, q: Request, now: int): (Service, Reply)
    requires q.VerifyOtp?
  {
    if q.nonce == "" || q.code == "" || q.device == "" then (m, Refused(MissingFields))
    else
      var refusal := CheckOtp(m.otps, q.nonce, q.code, false, now);
      if refusal.Some? then (m, Refused(refusal.value))
      else
        var n := m.(otps := Burn(m.otps, q.nonce));
        var i := FindUser(m.users, m.otps[q.nonce].email);
        if i == |m.users| then (n, Refused(UserMissing))
        else
          var u := m.users[i].(verified := true);
          SignIn(n.(users := m.users[i := u]), u, q.device, now, q.tokens)
  }

  // ---- Providers, renewal ----

  /** The account an identity signs in to: the one linked to it, else the one with the email, else a new one. */
  function Account(users: seq<User>, identity: Identity, email: string, id: nat): (r: (seq<User>, nat))
    ensures r.1 < |r.0|
  {
    var i := FindIdentity(users, identity);
    var k := FindUser(users, email);
    if i < |users| then (users, i)
    else if k < |users| then (users, k)
    else (users + [User(id, email, None, true, [])], |users|)
  }

  function LinkIdentity(u: User, identity: Identity): User {
    u.(identities := if identity in u.identities then u.identities else u.identities + [identity], verified := true)
  }

  function ProviderStep(m: Service, q: Request, now: int): (Service, Reply)
    requires q.Provider?
  {
    var email := Normalize(q.email);
    if q.identity.provider != "google" && q.identity.provider != "microsoft" then (m, Refused(ProviderNotSupported))
    else if q.identity.subject == "" || q.device == "" || !IsEmail(email) || !q.emailVerified then
      (m, Refused(ProviderIdentityInvalid))
    else
      var (users, i) := Account(m.users, q.identity, email, q.id);
      var u := LinkIdentity(users[i], q.identity);
      SignIn(m.(users := users[i := u]), u, q.device, now, q.tokens)
  }

  /** The first session on the device, in the order they were made. */
  function FirstOn(sessions: seq<Session>, device: string): (i: nat)
    ensures i <= |sessions|
    ensures i < |sessions| ==> sessions[i].device == device
    ensures forall k :: 0 <= k < i ==> sessions[k].device != device
  {
    if sessions == [] || sessions[0].device == device then 0 else 1 + FirstOn(sessions[1..], device)
  }

  /** On reuse, only the user of the first session on the device is logged out. */
  function LogoutFirst(r: Registry, device: string): Registry {
    var i := FirstOn(r.sessions, device);
    if i < |r.sessions| then LogoutAll(r, r.sessions[i].user) else r
  }

  function RenewStep(m: Service, q: Request, now: int): (Service, Reply)
    requires q.Renew?
  {
    match CheckRefresh(m.registry, q.token, q.device, now)
    case Reuse => (m.(registry := LogoutFirst(m.registry, q.device)), Refused(RefreshReuse))
    case Unknown => (m, Refused(UnknownRefresh))
    case Revoked => (m, Refused(SessionRevoked))
    case Expired => (m, Refused(RefreshExpired))
    case WrongDevice => (m, Refused(DeviceBinding))
    case Good(s) =>
      var n := m.(registry := Spend(m.registry, s));
      var i := FindId(m.users, s.user);
      if i == |m.users| then (n, Refused(UserMissing)) else SignIn(n, m.users[i], q.device, now, q.tokens)
  }

  function Serve(m: Service, e: Event): (Service, Reply) {
    match e.request
    case Register(_, _, _, _) => RegisterStep(m, e.request, e.now)
    case Login(_, _, _) => LoginStep(m, e.request, e.now)
    case AskReset(_, _) => AskResetStep(m, e.request, e.now)
    case Reset(_, _, _) => ResetStep(m, e.request, e.now)
    case VerifyOtp(_, _, _, _) => VerifyStep(m, e.request, e.now)
    case Provider(_, _, _, _, _, _) => ProviderStep(m, e.request, e.now)
    case Renew(_, _, _) => RenewStep(m, e.request, e.now)
    case Logout(user) => (m.(registry := LogoutAll(m.registry, user)), LoggedOut)
  }

  function Step(m: Service, e: Event): Service { Serve(m, e).0 }

  function ReplyTo(m: Service, e: Event): Reply { Serve(m, e).1 }

  predicate NewTokens(r: Registry, t: Tokens) {
    t.access !in r.issued && t.refresh !in r.issued && t.access != t.refresh
  }

  predicate NewId(users: seq<User>, id: nat) { forall i :: 0 <= i < |users| ==> users[i].id != id }

  /** Time does not go back, and drawn nonces, tokens and account identifiers are new. */
  predicate Enabled(m: Service, clock: int, e: Event) {
    && clock <= e.now
    && match e.request
       case Register(_, _, id, d) => NewId(m.users, id) && d.nonce !in m.drawn
       case Login(_, _, d) => d.nonce !in m.drawn
       case AskReset(_, d) => d.nonce !in m.drawn
       case VerifyOtp(_, _, _, t) => NewTokens(m.registry, t)
       case Provider(_, _, _, _, id, t) => NewId(m.users, id) && NewTokens(m.registry, t)
       case Renew(_, _, t) => NewTokens(m.registry, t)
       case _ => true
  }

  // ---- What every step keeps ----

  /** Emails and identifiers name one account, and a linked identity belongs to one account. */
  ghost predicate UsersKept(users: seq<User>) {
    && (forall i, j :: 0 <= i < j < |users| ==> users[i].email != users[j].email && users[i].id != users[j].id)
    && (forall i, j, x :: 0 <= i < j < |users| && x in users[i].identities ==> x !in users[j].identities)
  }

  ghost predicate HasAccount(users: seq<User>, id: nat, email: string) {
    exists i :: 0 <= i < |users| && users[i].id == id && users[i].email == email
  }

  ghost predicate Owned(sessions: seq<Session>, users: seq<User>) {
    forall s <- sessions :: HasAccount(users, s.user, s.email)
  }

  ghost predicate HasEmail(users: seq<User>, email: string) {
    exists i :: 0 <= i < |users| && users[i].email == email
  }

  ghost predicate OtpsKept(otps: map<string, Otp>, users: seq<User>, drawn: set<string>) {
    forall n <- otps :: n in drawn && HasEmail(users, otps[n].email)
  }

  ghost predicate Inv(m: Service, clock: int) {
    && Kept(m.registry, clock)
    && UsersKept(m.users)
    && Owned(m.registry.sessions, m.users)
    && OtpsKept(m.otps, m.users, m.drawn)
  }

  /** Accounts stay, with their identifier and email. */
  ghost predicate UsersLast(users: seq<User>, users': seq<User>) {
    && |users| <= |users'|
    && forall i :: 0 <= i < |users| ==> users'[i].id == users[i].id && users'[i].email == users[i].email
  }

  /** Codes stay, as they were drawn, and a used one stays used. */
  ghost predicate OtpsLast(otps: map<string, Otp>, otps': map<string, Otp>) {
    forall n <- otps :: n in otps' && otps'[n].(used := false) == otps[n].(used := false) && (otps[n].used ==> otps'[n].used)
  }

  ghost predicate Follows(m: Service, m': Service) {
    && m.drawn <= m'.drawn
    && UsersLast(m.users, m'.users)
    && OtpsLast(m.otps, m'.otps)
    && Evolves(m.registry, m'.registry)
  }

  lemma FollowsSelf(m: Service)
    ensures Follows(m, m)
  {
  }

  lemma FollowsTransitive(a: Service, b: Service, c: Service)
    requires Follows(a, b) && Follows(b, c)
    ensures Follows(a, c)
  {
    EvolvesTransitive(a.registry, b.registry, c.registry);
    hide Evolves;
    assert forall n <- a.otps :: n in b.otps && n in c.otps;
  }

  lemma AccountsLast(users: seq<User>, users': seq<User>, sessions: seq<Session>, otps: map<string, Otp>, drawn: set<string>)
    requires UsersLast(users, users') && Owned(sessions, users) && OtpsKept(otps, users, drawn)
    ensures Owned(sessions, users') && OtpsKept(otps, users', drawn)
  {
    forall s <- sessions ensures HasAccount(users', s.user, s.email) {
      var i :| 0 <= i < |users| && users[i].id == s.user && users[i].email == s.email;
      assert users'[i].id == s.user;
    }
    forall n <- otps ensures HasEmail(users', otps[n].email) {
      var i :| 0 <= i < |users| && users[i].email == otps[n].email;
      assert users'[i].email == users[i].email;
    }
  }

  lemma StartOtpKeeps(m: Service, clock: int, email: string, purpose: Purpose, d: Draw, now: int)
    requires Inv(m, clock) && clock <= now && d.nonce !in m.drawn && HasEmail(m.users, email)
    ensures var n := StartOtp(m, email, purpose, d, now).0; Inv(n, now) && Follows(m, n)
  {
    LaterKeeps(m.registry, clock, now);
    hide Kept, UsersKept, HasEmail;
  }

  lemma RegisterKeeps(m: Service, clock: int, e: Event)
    requires Inv(m, clock) && Enabled(m, clock, e) && e.request.Register?
    ensures Inv(Step(m, e), e.now) && Follows(m, Step(m, e))
  {
    var q := e.request;
    var email := Normalize(q.email);
    LaterKeeps(m.registry, clock, e.now);
    FollowsSelf(m);
    hide Kept, IsEmail, StrongPassword, Normalize, Follows, StartOtp;
    if IsEmail(email) && StrongPassword(q.password) && FindUser(m.users, email) == |m.users| {
      var n := m.(users := m.users + [User(q.id, email, Some(q.password), false, [])]);
      AccountsLast(m.users, n.users, m.registry.sessions, m.otps, m.drawn);
      assert Follows(m, n) by { FollowsUsers(m, n.users); }
      assert n.users[|m.users|].email == email;
      StartOtpKeeps(n, e.now, email, ToRegister, q.draw, e.now);
      FollowsTransitive(m, n, Step(m, e));
    }
  }

  lemma FollowsUsers(m: Service, users: seq<User>)
    requires UsersLast(m.users, users)
    ensures Follows(m, m.(users := users))
  {
  }

  lemma MailKeeps(m: Service, clock: int, e: Event)
    requires Inv(m, clock) && Enabled(m, clock, e) && (e.request.Login? || e.request.AskReset?)
    ensures Inv(Step(m, e), e.now) && Follows(m, Step(m, e))
  {
    var email := Normalize(e.request.email);
    LaterKeeps(m.registry, clock, e.now);
    FollowsSelf(m);
    var i := FindUser(m.users, email);
    assert i < |m.users| ==> HasEmail(m.users, email);
    hide Kept, IsEmail, Normalize, Follows, StartOtp, UsersKept, Owned, OtpsKept, HasEmail;
    if i < |m.users| {
      StartOtpKeeps(m, clock, email, ToReset, e.request.draw, e.now);
      StartOtpKeeps(m, clock, email, ToLogin, e.request.draw, e.now);
      StartOtpKeeps(m, clock, email, ToRegister, e.request.draw, e.now);
    }
  }

  /** Setting an account's password or marking its email verified keeps the accounts. */
  lemma SetUserKeeps(users: seq<User>, i: nat, u: User)
    requires UsersKept(users) && i < |users| && u.id == users[i].id && u.email == users[i].email
    requires u.identities == users[i].identities
    ensures UsersKept(users[i := u]) && UsersLast(users, users[i := u])
  {
  }

  lemma ResetKeeps(m: Service, clock: int, e: Event)
    requires Inv(m, clock) && Enabled(m, clock, e) && e.request.Reset?
    ensures Inv(Step(m, e), e.now) && Follows(m, Step(m, e))
  {
    var q := e.request;
    LaterKeeps(m.registry, clock, e.now);
    FollowsSelf(m);
    hide Kept, StrongPassword, UsersKept, HasEmail, HasAccount, Trim, Evolves, UsersLast;
    if Serve(m, e).1.PasswordChanged? {
      var i := FindUser(m.users, m.otps[q.nonce].email);
      var u := m.users[i].(password := Some(q.newPassword), verified := true);
      SetUserKeeps(m.users, i, u);
      LogoutKeeps(m.registry, e.now, u.id);
      AccountsLast(m.users, m.users[i := u], m.registry.sessions, m.otps, m.drawn);
    }
  }

  /** Signing an account in adds one session of its own. */
  lemma SignInKeeps(m: Service, clock: int, i: nat, device: string, now: int, t: Tokens)
    requires Inv(m, clock) && clock <= now && i < |m.users| && NewTokens(m.registry, t)
    ensures var n := SignIn(m, m.users[i], device, now, t).0; Inv(n, now) && Follows(m, n)
  {
    var u := m.users[i];
    IssueKeeps(m.registry, clock, u.id, u.email, device, now, t.access, t.refresh);
    assert HasAccount(m.users, u.id, u.email);
    hide Kept, UsersKept, OtpsKept, HasAccount, Evolves;
  }

  lemma VerifyKeeps(m: Service, clock: int, e: Event)
    requires Inv(m, clock) && Enabled(m, clock, e) && e.request.VerifyOtp?
    ensures Inv(Step(m, e), e.now) && Follows(m, Step(m, e))
    ensures ReplyTo(m, e) != Refused(UserMissing)
  {
    var q := e.request;
    LaterKeeps(m.registry, clock, e.now);
    FollowsSelf(m);
    hide Kept, UsersKept, HasAccount, Trim, UsersLast, Evolves, SignIn, NewTokens;
    if !(q.nonce == "" || q.code == "" || q.device == "") && CheckOtp(m.otps, q.nonce, q.code, false, e.now).None? {
      var email := m.otps[q.nonce].email;
      var i := FindUser(m.users, email);
      assert HasEmail(m.users, email);
      assert i < |m.users|;
      var u := m.users[i].(verified := true);
      SetUserKeeps(m.users, i, u);
      AccountsLast(m.users, m.users[i := u], m.registry.sessions, m.otps, m.drawn);
      var n := m.(otps := Burn(m.otps, q.nonce), users := m.users[i := u]);
      assert Evolves(m.registry, m.registry) by { EvolvesSelf(m.registry); }
      assert Inv(n, e.now);
      SignInKeeps(n, e.now, i, q.device, e.now, q.tokens);
      FollowsTransitive(m, n, Step(m, e));
    }
  }

  lemma EvolvesSelf(r: Registry)
    ensures Evolves(r, r)
  {
  }

  /** Linking an identity to the account it is found by, or to one found by email, leaves it with one account. */
  lemma AccountKeeps(users: seq<User>, identity: Identity, email: string, id: nat)
    requires UsersKept(users) && NewId(users, id)
    ensures var (users', i) := Account(users, identity, email, id);
            var linked := users'[i := LinkIdentity(users'[i], identity)];
            UsersKept(linked) && UsersLast(users, linked)
  {
  }

  lemma ProviderKeeps(m: Service, clock: int, e: Event)
    requires Inv(m, clock) && Enabled(m, clock, e) && e.request.Provider?
    ensures Inv(Step(m, e), e.now) && Follows(m, Step(m, e))
  {
    var q := e.request;
    LaterKeeps(m.registry, clock, e.now);
    FollowsSelf(m);
    hide Kept, UsersKept, HasAccount, HasEmail, UsersLast, Evolves, SignIn, NewTokens, Account, LinkIdentity, Normalize, IsEmail, Follows;
    if !Serve(m, e).1.Refused? {
      var (users, i) := Account(m.users, q.identity, Normalize(q.email), q.id);
      var linked := users[i := LinkIdentity(users[i], q.identity)];
      AccountKeeps(m.users, q.identity, Normalize(q.email), q.id);
      AccountsLast(m.users, linked, m.registry.sessions, m.otps, m.drawn);
      var n := m.(users := linked);
      FollowsUsers(m, linked);
      SignInKeeps(n, e.now, i, q.device, e.now, q.tokens);
      FollowsTransitive(m, n, Step(m, e));
    }
  }

  lemma FollowsRegistry(m: Service, r: Registry)
    requires Evolves(m.registry, r)
    ensures Follows(m, m.(registry := r))
  {
  }

  lemma RenewKeeps(m: Service, clock: int, e: Event)
    requires Inv(m, clock) && Enabled(m, clock, e) && e.request.Renew?
    ensures Inv(Step(m, e), e.now) && Follows(m, Step(m, e))
    ensures ReplyTo(m, e) != Refused(UserMissing)
  {
    var q, r := e.request, m.registry;
    LaterKeeps(r, clock, e.now);
    FollowsSelf(m);
    var c := CheckRefresh(r, q.token, q.device, e.now);
    if c.Reuse? {
      ReuseKeeps(r, e.now, q.device);
      FollowsRegistry(m, LogoutFirst(r, q.device));
    } else if c.Good? {
      var s := c.session;
      assert s in r.sessions;
      SpendKeeps(r, e.now, s);
      var n := m.(registry := Spend(r, s));
      FollowsRegistry(m, n.registry);
      assert HasAccount(m.users, s.user, s.email);
      var i := FindId(m.users, s.user);
      assert i < |m.users|;
      hide Kept, Evolves;
      assert Inv(n, e.now);
      SignInKeeps(n, e.now, i, q.device, e.now, q.tokens);
      hide SignIn;
      FollowsTransitive(m, n, Step(m, e));
    }
    hide Kept, UsersKept, HasAccount, OtpsKept, Evolves, SignIn, CheckRefresh, LogoutFirst, Spend, Follows;
  }

  lemma ReuseKeeps(r: Registry, clock: int, device: string)
    requires Kept(r, clock)
    ensures Kept(LogoutFirst(r, device), clock) && Evolves(r, LogoutFirst(r, device))
    ensures forall s :: s in LogoutFirst(r, device).sessions ==> s in r.sessions
  {
    var i := FirstOn(r.sessions, device);
    if i < |r.sessions| { LogoutKeeps(r, clock, r.sessions[i].user); }
  }

  lemma StepKeeps(m: Service, clock: int, e: Event)
    requires Inv(m, clock) && Enabled(m, clock, e)
    ensures Inv(Step(m, e), e.now) && Follows(m, Step(m, e))
  {
    match e.request {
      case Register(_, _, _, _) => RegisterKeeps(m, clock, e);
      case Login(_, _, _) => MailKeeps(m, clock, e);
      case AskReset(_, _) => MailKeeps(m, clock, e);
      case Reset(_, _, _) => ResetKeeps(m, clock, e);
      case VerifyOtp(_, _, _, _) => VerifyKeeps(m, clock, e);
      case Provider(_, _, _, _, _, _) => ProviderKeeps(m, clock, e);
      case Renew(_, _, _) => RenewKeeps(m, clock, e);
      case Logout(user) =>
        LaterKeeps(m.registry, clock, e.now);
        LogoutKeeps(m.registry, e.now, user);
        FollowsRegistry(m, LogoutAll(m.registry, user));
    }
    hide Kept, UsersKept, Follows, HasAccount, OtpsKept;
  }

  // ---- Whole runs ----

  predicate Legal(m: Service, clock: int, es: seq<Event>)
    decreases |es|
  {
    es == [] || (Enabled(m, clock, es[0]) && Legal(Step(m, es[0]), es[0].now, es[1..]))
  }

  function Run(m: Service, es: seq<Event>): Service
    decreases |es|
  {
    if es == [] then m else Run(Step(m, es[0]), es[1..])
  }

  function Clock(clock: int, es: seq<Event>): int { if es == [] then clock else es[|es| - 1].now }

  lemma {:induction false} RunKeeps(m: Service, clock: int, es: seq<Event>)
    requires Inv(m, clock) && Legal(m, clock, es)
    ensures Inv(Run(m, es), Clock(clock, es)) && Follows(m, Run(m, es))
    decreases |es|
  {
    hide Inv, Step, Follows, Enabled;
    if es == [] {
      FollowsSelf(m);
    } else {
      var n := Step(m, es[0]);
      StepKeeps(m, clock, es[0]);
      RunKeeps(n, es[0].now, es[1..]);
      FollowsTransitive(m, n, Run(m, es));
      assert Clock(clock, es) == Clock(es[0].now, es[1..]);
    }
  }

  function Start(): Service { Service([], map[], Registry([], map[], {}, {}), {}) }

  /**
   In every run the access map and the refresh map hold the same sessions, spent refresh tokens are apart
   from live ones, every live session belongs to the account of its email, and an email, an identifier and
   a provider identity each belong to at most one account.
   */
  lemma Always(clock: int, es: seq<Event>)
    requires Legal(Start(), clock, es)
    ensures var m := Run(Start(), es);
            && SameSessions(m.registry.sessions, m.registry.byRefresh)
            && m.registry.retired !! m.registry.byRefresh.Keys
            && Owned(m.registry.sessions, m.users)
            && UsersKept(m.users)
  {
    RunKeeps(Start(), clock, es);
    hide Run, Legal, SameSessions, Owned, UsersKept;
  }

  /** Codes and sessions always find their account. */
  lemma NoUserMissing(m: Service, clock: int, e: Event)
    requires Inv(m, clock) && Enabled(m, clock, e)
    ensures ReplyTo(m, e) != Refused(UserMissing)
  {
    match e.request {
      case Reset(nonce, _, _) =>
        if nonce in m.otps {
          assert HasEmail(m.users, m.otps[nonce].email);
          assert FindUser(m.users, m.otps[nonce].email) < |m.users|;
        }
      case VerifyOtp(_, _, _, _) => VerifyKeeps(m, clock, e);
      case Renew(_, _, _) => RenewKeeps(m, clock, e);
      case _ =>
    }
    hide Kept, UsersKept, Trim, StrongPassword, CheckRefresh, IsEmail;
  }

  predicate UsesCode(e: Event, nonce: string) {
    (e.request.VerifyOtp? || e.request.Reset?) && e.request.nonce == nonce
  }

  /** A code works once: after it has signed in or changed a password, no later use of it does either. */
  lemma CodeWorksOnce(m: Service, clock: int, e: Event, es: seq<Event>, again: Event)
    requires Inv(m, clock) && Enabled(m, clock, e) && (e.request.VerifyOtp? || e.request.Reset?)
    requires !ReplyTo(m, e).Refused? && Legal(Step(m, e), e.now, es) && UsesCode(again, e.request.nonce)
    ensures ReplyTo(Run(Step(m, e), es), again) in {Refused(MissingFields), Refused(WrongPurpose), Refused(Replay)}
  {
    StepKeeps(m, clock, e);
    RunKeeps(Step(m, e), e.now, es);
    var n, t := e.request.nonce, Run(Step(m, e), es);
    UsedAfter(m, e);
    assert n in t.otps && t.otps[n].used;
    UsedIsRefused(t, again);
    hide Run, Legal, Inv, Step, ReplyTo, Follows;
  }

  lemma UsedAfter(m: Service, e: Event)
    requires (e.request.VerifyOtp? || e.request.Reset?) && !ReplyTo(m, e).Refused?
    ensures var n := e.request.nonce; n in Step(m, e).otps && Step(m, e).otps[n].used
  {
    hide Trim, StrongPassword, LogoutAll, Issue;
  }

  lemma UsedIsRefused(t: Service, again: Event)
    requires (again.request.VerifyOtp? || again.request.Reset?)
    requires again.request.nonce in t.otps && t.otps[again.request.nonce].used
    ensures ReplyTo(t, again) in {Refused(MissingFields), Refused(WrongPurpose), Refused(Replay)}
  {
    hide Trim, StrongPassword, LogoutAll, Issue;
  }

  /** A code keeps its purpose: one sent for a reset never signs in, and any other never changes a password. */
  lemma PurposesStayApart(m: Service, clock: int, nonce: string, es: seq<Event>, e: Event)
    requires Inv(m, clock) && Legal(m, clock, es) && nonce in m.otps && UsesCode(e, nonce)
    requires m.otps[nonce].purpose.ToReset? == e.request.VerifyOtp?
    ensures ReplyTo(Run(m, es), e) in {Refused(MissingFields), Refused(WrongPurpose)}
  {
    RunKeeps(m, clock, es);
    var t := Run(m, es);
    assert t.otps[nonce].purpose == m.otps[nonce].purpose;
    hide Run, Legal, Inv, Trim, StrongPassword, LogoutAll, Issue;
  }

  /** An account's password changes only on a reset code mailed to its email, unused and in time. */
  lemma PasswordChangesOnlyByCode(m: Service, e: Event, i: nat)
    requires i < |m.users| <= |Step(m, e).users|
    requires Step(m, e).users[i].password != m.users[i].password
    ensures e.request.Reset? && ReplyTo(m, e).PasswordChanged? && e.request.nonce in m.otps
    ensures var entry := m.otps[e.request.nonce];
            && entry.email == m.users[i].email && entry.purpose.ToReset? && !entry.used && e.now <= entry.expires
            && entry.code == Trim(e.request.code) && Step(m, e).users[i].password == Some(e.request.newPassword)
            && StrongPassword(e.request.newPassword)
  {
    if !e.request.Reset? { OthersKeepPasswords(m, e, i); }
    hide Trim, StrongPassword, LogoutAll, RegisterStep, LoginStep, AskResetStep, VerifyStep, ProviderStep, RenewStep;
  }

  lemma OthersKeepPasswords(m: Service, e: Event, i: nat)
    requires i < |m.users| <= |Step(m, e).users| && !e.request.Reset?
    ensures Step(m, e).users[i].password == m.users[i].password
  {
    hide Trim, StrongPassword, IsEmail, CheckRefresh, LogoutAll, Issue, Normalize, Spend, CheckOtp;
  }

  /** A refresh token renews once: ever after it is reuse, on any device. */
  lemma RefreshWorksOnce(m: Service, clock: int, e: Event, es: seq<Event>, again: Event)
    requires Inv(m, clock) && Enabled(m, clock, e) && e.request.Renew? && ReplyTo(m, e).SignedIn?
    requires Legal(Step(m, e), e.now, es) && again.request.Renew? && again.request.token == e.request.token
    ensures ReplyTo(Run(Step(m, e), es), again) == Refused(RefreshReuse)
  {
    StepKeeps(m, clock, e);
    RunKeeps(Step(m, e), e.now, es);
    assert e.request.token in Step(m, e).registry.retired by { hide UsersKept, OtpsKept; }
    RetiredForGood(Step(m, e).registry, Run(Step(m, e), es).registry, again.request.token, again.request.device, again.now);
    hide Run, Legal, Inv, Step;
  }

  /** The user a request signs out everywhere: by logout, or by a password reset. */
  function SignedOut(m: Service, e: Event): Option<nat> {
    match e.request
    case Logout(user) => Some(user)
    case Reset(nonce, _, _) =>
      if ReplyTo(m, e).PasswordChanged? then Some(m.users[FindUser(m.users, m.otps[nonce].email)].id) else None
    case _ => None
  }

  lemma SignedOutIs(m: Service, e: Event)
    requires SignedOut(m, e).Some?
    ensures Step(m, e).registry == LogoutAll(m.registry, SignedOut(m, e).value)
  {
    hide Trim, StrongPassword, LogoutAll;
  }

  /** No token drawn before a logout or a password reset opens a session of that user after it. */
  lemma SignOutIsFinal(m: Service, clock: int, e: Event, es: seq<Event>, token: Token, device: string, later: int)
    requires Inv(m, clock) && Enabled(m, clock, e) && SignedOut(m, e).Some? && token in m.registry.issued
    requires Legal(Step(m, e), e.now, es)
    ensures var (r, user) := (Run(Step(m, e), es).registry, SignedOut(m, e).value);
            && (Authorize(r, token, later).Authorized? ==> Authorize(r, token, later).user != user)
            && (CheckRefresh(r, token, device, later).Good? ==> CheckRefresh(r, token, device, later).session.user != user)
  {
    StepKeeps(m, clock, e);
    RunKeeps(Step(m, e), e.now, es);
    var r, user := Run(Step(m, e), es).registry, SignedOut(m, e).value;
    SignedOutIs(m, e);
    hide Run, Legal, Step, SignedOut, Authorize, CheckRefresh, Kept, Evolves;
    LogoutEnds(m.registry, clock, user, r, token, later);
    LogoutEndsRefresh(m.registry, clock, user, r, Clock(e.now, es), token, device, later);
  }

  ghost predicate OneUserOn(sessions: seq<Session>, device: string) {
    forall a <- sessions, b <- sessions :: a.device == device && b.device == device ==> a.user == b.user
  }

  /**
   Presenting a spent refresh token signs out the user of the oldest session on the device and nobody else.
   So the device is left without a session exactly when its sessions were all of one user.
   */
  lemma ReuseSignsOutOne(m: Service, clock: int, e: Event)
    requires Inv(m, clock) && Enabled(m, clock, e) && e.request.Renew? && e.request.token in m.registry.retired
    ensures ReplyTo(m, e) == Refused(RefreshReuse)
    ensures var (r, i) := (m.registry, FirstOn(m.registry.sessions, e.request.device));
            forall s :: s in Step(m, e).registry.sessions <==>
              s in r.sessions && (i < |r.sessions| ==> s.user != r.sessions[i].user)
    ensures (forall s :: s in Step(m, e).registry.sessions ==> s.device != e.request.device) <==>
              OneUserOn(m.registry.sessions, e.request.device)
  {
    hide Kept, UsersKept, OtpsKept, Owned;
    var device, before, after := e.request.device, m.registry.sessions, Step(m, e).registry.sessions;
    var i := FirstOn(before, device);
    if i < |before| {
      assert before[i] in before && before[i].device == device;
      forall a <- before, b <- before
        | (forall s :: s in after ==> s.device != device) && a.device == device && b.device == device
        ensures a.user == b.user
      {
        assert a !in after && b !in after;
      }
    }
  }

  // ---- What counts as an email and as a password ----

  predicate IsPart(p: string) { p != "" && forall k :: 0 <= k < |p| ==> p[k] != '@' && !IsSpace(p[k]) }

  lemma IsEmailIff(s: string)
    ensures IsEmail(s) <==> exists a, b, c :: IsPart(a) && IsPart(b) && IsPart(c) && s == a + "@" + b + "." + c
  {
    if IsEmail(s) {
      var at: nat, dot: nat :|
        && 1 <= at && at + 2 <= dot && dot + 1 < |s| && s[at] == '@' && s[dot] == '.'
        && forall k :: 0 <= k < |s| ==> !IsSpace(s[k]) && (s[k] == '@' ==> k == at);
      var a, b, c := s[..at], s[at + 1..dot], s[dot + 1..];
      assert s == a + "@" + b + "." + c;
      assert IsPart(a) && IsPart(b) && IsPart(c);
    }
    if a, b, c :| IsPart(a) && IsPart(b) && IsPart(c) && s == a + "@" + b + "." + c {
      EmailFrom(s, a, b, c);
    }
  }

  lemma EmailFrom(s: string, a: string, b: string, c: string)
    requires IsPart(a) && IsPart(b) && IsPart(c) && s == a + "@" + b + "." + c
    ensures IsEmail(s)
  {
    var at, dot := |a|, |a| + 1 + |b|;
    assert s[at] == '@' && s[dot] == '.';
    forall k | 0 <= k < |s| ensures !IsSpace(s[k]) && (s[k] == '@' ==> k == at) {
      assert s[k] == if k < at then a[k] else if k == at then '@' else if k < dot then b[k - at - 1] else if k == dot then '.' else c[k - dot - 1];
    }
  }

  /** Ten characters, of four kinds at least one each, and no white space. */
  lemma StrongPasswordIff(s: string)
    ensures StrongPassword(s) <==>
              && |s| >= 10
              && (exists c <- s :: 'A' <= c <= 'Z') && (exists c <- s :: 'a' <= c <= 'z') && (exists c <- s :: '0' <= c <= '9')
              && (exists c <- s :: !('A' <= c <= 'Z' || 'a' <= c <= 'z' || '0' <= c <= '9')) && forall c <- s :: !IsSpace(c)
  {
    HasIff(s, IsUpper);
    HasIff(s, IsLower);
    HasIff(s, IsDigit);
    HasIff(s, IsSymbol);
    HasIff(s, IsSpace);
  }

  lemma HasIff(s: string, p: char -> bool)
    ensures Has(s, p) <==> exists c <- s :: p(c)
  {
    if k :| 0 <= k < |s| && p(s[k]) { assert s[k] in s; }
  }

  // ---- Who is signed in, and by what ----

  /** A timely, unused code of the right kind, given as it was mailed, on the account it was mailed to. */
  ghost predicate GoodCode(m: Service, nonce: string, code: string, reset: bool, now: int, u: User) {
    && nonce != "" && code != "" && nonce in m.otps
    && var entry := m.otps[nonce];
       entry.purpose.ToReset? == reset && !entry.used && now <= entry.expires && entry.code == Trim(code)
       && u in m.users && u.email == entry.email
  }

  ghost predicate OpenedByCode(m: Service, e: Event, s: Session) {
    var q := e.request;
    && q.VerifyOtp? && q.device != ""
    && s == Opened(s.user, s.email, q.device, e.now, q.tokens.access, q.tokens.refresh)
    && exists u <- m.users :: GoodCode(m, q.nonce, q.code, false, e.now, u) && s.user == u.id && s.email == u.email
  }

  /** The account a verified provider identity belongs to: linked before, else of that email, else made for it. */
  ghost predicate IdentityOf(m: Service, q: Request, id: nat, email: string)
    requires q.Provider?
  {
    if exists u <- m.users :: q.identity in u.identities then exists u <- m.users :: q.identity in u.identities && u.id == id && u.email == email
    else email == Normalize(q.email) &&
         if exists u <- m.users :: u.email == email then exists u <- m.users :: u.email == email && u.id == id else id == q.id
  }

  ghost predicate VerifiedIdentity(q: Request)
    requires q.Provider?
  {
    q.identity.provider in {"google", "microsoft"} && q.identity.subject != "" && q.device != "" && q.emailVerified
    && IsEmail(Normalize(q.email))
  }

  ghost predicate OpenedByIdentity(m: Service, e: Event, s: Session) {
    var q := e.request;
    && q.Provider? && VerifiedIdentity(q) && IdentityOf(m, q, s.user, s.email)
    && s == Opened(s.user, s.email, q.device, e.now, q.tokens.access, q.tokens.refresh)
  }

  ghost predicate OpenedByRenewal(m: Service, e: Event, s: Session) {
    var q := e.request;
    && q.Renew?
    && s == Opened(s.user, s.email, q.device, e.now, q.tokens.access, q.tokens.refresh)
    && exists live <- m.registry.sessions ::
         live.refresh == q.token && live.device == q.device && e.now <= live.refreshExpires && s.user == live.user && s.email == live.email
  }

  ghost predicate Opens(m: Service, e: Event, s: Session) {
    OpenedByCode(m, e, s) || OpenedByIdentity(m, e, s) || OpenedByRenewal(m, e, s)
  }

  lemma UserIs(users: seq<User>, u: User)
    requires UsersKept(users) && u in users
    ensures FindUser(users, u.email) < |users| && users[FindUser(users, u.email)] == u
    ensures FindId(users, u.id) < |users| && users[FindId(users, u.id)] == u
  {
    var k :| 0 <= k < |users| && users[k] == u;
  }

  /**
   A code signs in exactly the account it was mailed to, and exactly when nonce, code and device are given, the
   nonce is on record for something other than a reset, unused and in time, and the code is the one mailed, white
   space around it aside. The code is then used up, the email verified, and the one session added; otherwise
   nothing changes.
   */
  lemma VerifyIff(m: Service, clock: int, e: Event, u: nat)
    requires Inv(m, clock) && Enabled(m, clock, e) && e.request.VerifyOtp?
    ensures ReplyTo(m, e) == SignedIn(u) <==> exists s :: OpenedByCode(m, e, s) && s.user == u
    ensures ReplyTo(m, e).SignedIn? ==>
              exists i, s :: 0 <= i < |m.users| && OpenedByCode(m, e, s) && m.users[i].id == s.user &&
                (var q, n := e.request, Step(m, e);
                 && n.users == m.users[i := m.users[i].(verified := true)]
                 && n.otps == m.otps[q.nonce := m.otps[q.nonce].(used := true)]
                 && n.registry.sessions == m.registry.sessions + [s] && n.drawn == m.drawn)
    ensures ReplyTo(m, e).Refused? ==> Step(m, e) == m
    ensures ReplyTo(m, e).SignedIn? || ReplyTo(m, e).Refused?
  {
    var q := e.request;
    hide Kept, UsersKept, HasAccount, HasEmail, Trim, IsEmail, Normalize;
    NoUserMissing(m, clock, e);
    if ReplyTo(m, e).SignedIn? {
      var i := FindUser(m.users, m.otps[q.nonce].email);
      var v := m.users[i];
      assert v in m.users && GoodCode(m, q.nonce, q.code, false, e.now, v);
      var s := Opened(v.id, v.email, q.device, e.now, q.tokens.access, q.tokens.refresh);
      assert OpenedByCode(m, e, s) && s.user == v.id;
    }
    if s :| OpenedByCode(m, e, s) && s.user == u {
      var w :| w in m.users && GoodCode(m, q.nonce, q.code, false, e.now, w) && s.user == w.id && s.email == w.email;
      UserIs(m.users, w);
    }
  }

  /** Why a code is refused: the first of the conditions that fails. */
  lemma VerifyRefusal(m: Service, clock: int, e: Event)
    requires Inv(m, clock) && Enabled(m, clock, e) && e.request.VerifyOtp?
    ensures var (q, r) := (e.request, ReplyTo(m, e));
            var given := q.nonce != "" && q.code != "" && q.device != "";
            && (r == Refused(MissingFields) <==> !given)
            && (r == Refused(UnknownNonce) <==> given && q.nonce !in m.otps)
            && (given && q.nonce in m.otps ==>
                  var entry := m.otps[q.nonce];
                  && (r == Refused(WrongPurpose) <==> entry.purpose.ToReset?)
                  && (r == Refused(Replay) <==> !entry.purpose.ToReset? && entry.used)
                  && (r == Refused(OtpExpired) <==> !entry.purpose.ToReset? && !entry.used && e.now > entry.expires)
                  && (r == Refused(BadCode) <==>
                        !entry.purpose.ToReset? && !entry.used && e.now <= entry.expires && entry.code != Trim(q.code)))
  {
    hide Kept, UsersKept, Trim;
    NoUserMissing(m, clock, e);
  }

  /** A password is changed exactly by a timely unused reset code and a strong new password, for the account it was mailed to. */
  lemma ResetIff(m: Service, clock: int, e: Event)
    requires Inv(m, clock) && Enabled(m, clock, e) && e.request.Reset?
    ensures ReplyTo(m, e).PasswordChanged? <==>
              StrongPassword(e.request.newPassword) && exists u <- m.users :: GoodCode(m, e.request.nonce, e.request.code, true, e.now, u)
    ensures ReplyTo(m, e).PasswordChanged? ==>
              exists i :: 0 <= i < |m.users| && GoodCode(m, e.request.nonce, e.request.code, true, e.now, m.users[i]) &&
                (var q, n := e.request, Step(m, e);
                 && n.users == m.users[i := m.users[i].(verified := true, password := Some(q.newPassword))]
                 && n.otps == m.otps[q.nonce := m.otps[q.nonce].(used := true)] && n.drawn == m.drawn
                 && forall s :: s in n.registry.sessions <==> s in m.registry.sessions && s.user != m.users[i].id)
    ensures ReplyTo(m, e).Refused? ==> Step(m, e) == m
    ensures ReplyTo(m, e).PasswordChanged? || ReplyTo(m, e).Refused?
    ensures ReplyTo(m, e) == Refused(WeakPassword) <==>
              !StrongPassword(e.request.newPassword) && exists u <- m.users :: GoodCode(m, e.request.nonce, e.request.code, true, e.now, u)
  {
    var q := e.request;
    hide Kept, UsersKept, HasAccount, Trim, StrongPassword;
    NoUserMissing(m, clock, e);
    if q.nonce in m.otps {
      var i := FindUser(m.users, m.otps[q.nonce].email);
      assert HasEmail(m.users, m.otps[q.nonce].email);
      assert i < |m.users| && m.users[i] in m.users;
      assert ReplyTo(m, e).PasswordChanged? || ReplyTo(m, e) == Refused(WeakPassword) ==>
               GoodCode(m, q.nonce, q.code, true, e.now, m.users[i]);
    }
  }

  /** A provider signs in exactly a verified identity, to the account that is its own. */
  lemma ProviderIff(m: Service, clock: int, e: Event, u: nat)
    requires Inv(m, clock) && Enabled(m, clock, e) && e.request.Provider?
    ensures ReplyTo(m, e) == SignedIn(u) <==> exists s :: OpenedByIdentity(m, e, s) && s.user == u
    ensures ReplyTo(m, e).SignedIn? ==>
              exists s :: OpenedByIdentity(m, e, s) && Step(m, e).registry.sessions == m.registry.sessions + [s]
                && exists v <- Step(m, e).users :: v.id == s.user && v.verified && e.request.identity in v.identities
                     && (forall w <- m.users :: if w.id == s.user then v.email == w.email && v.password == w.password else w in Step(m, e).users)
                     && (forall w <- Step(m, e).users :: w.id != s.user ==> w in m.users)
    ensures ReplyTo(m, e).Refused? ==> Step(m, e) == m
    ensures ReplyTo(m, e).SignedIn? || ReplyTo(m, e).Refused?
  {
    var q := e.request;
    hide Kept, HasAccount, HasEmail, IsEmail, Normalize;
    if VerifiedIdentity(q) {
      var (users, i) := Account(m.users, q.identity, Normalize(q.email), q.id);
      var linked := users[i := LinkIdentity(users[i], q.identity)];
      AccountIs(m.users, q);
      var s := Opened(users[i].id, users[i].email, q.device, e.now, q.tokens.access, q.tokens.refresh);
      assert OpenedByIdentity(m, e, s);
      assert linked[i] in linked && linked[i].id == s.user;
      OthersStay(m.users, q.identity, Normalize(q.email), q.id);
      hide UsersKept, Account, LinkIdentity;
    }
  }

  lemma OthersStay(users: seq<User>, identity: Identity, email: string, id: nat)
    requires UsersKept(users) && NewId(users, id)
    ensures var (users', i) := Account(users, identity, email, id);
            var v := LinkIdentity(users'[i], identity);
            var linked := users'[i := v];
            && v.id == users'[i].id && v.email == users'[i].email && v.verified && identity in v.identities
            && (forall w <- users :: if w.id == v.id then v.email == w.email && v.password == w.password else w in linked)
            && (forall w <- linked :: w.id != v.id ==> w in users)
  {
    var (users', i) := Account(users, identity, email, id);
    var linked := users'[i := LinkIdentity(users'[i], identity)];
    forall w | w in users && w.id != users'[i].id ensures w in linked {
      var k :| 0 <= k < |users| && users[k] == w;
      assert linked[k] == w;
    }
  }

  lemma AccountIs(users: seq<User>, q: Request)
    requires UsersKept(users) && q.Provider?
    ensures var (users', i) := Account(users, q.identity, Normalize(q.email), q.id);
            forall m: Service, id, email :: m.users == users ==>
              (IdentityOf(m, q, id, email) <==> id == users'[i].id && email == users'[i].email)
  {
    hide Normalize;
    var email := Normalize(q.email);
    var i, k := FindIdentity(users, q.identity), FindUser(users, email);
    if i < |users| {
      assert users[i] in users;
    } else if k < |users| {
      assert users[k] in users;
    }
  }

  /** A refresh token renews exactly the live session it belongs to, on its device and in time. */
  lemma RenewIff(m: Service, clock: int, e: Event, u: nat)
    requires Inv(m, clock) && Enabled(m, clock, e) && e.request.Renew?
    ensures ReplyTo(m, e) == SignedIn(u) <==> exists s :: OpenedByRenewal(m, e, s) && s.user == u
    ensures ReplyTo(m, e).SignedIn? ==>
              exists s :: OpenedByRenewal(m, e, s) && s in Step(m, e).registry.sessions &&
                forall x :: x in Step(m, e).registry.sessions <==> x == s || (x in m.registry.sessions && x.refresh != e.request.token)
    ensures ReplyTo(m, e) == Refused(RefreshReuse) <==> e.request.token in m.registry.retired
    ensures ReplyTo(m, e).Refused? && ReplyTo(m, e) != Refused(RefreshReuse) ==> Step(m, e) == m
    ensures ReplyTo(m, e).SignedIn? || ReplyTo(m, e).Refused?
  {
    hide Kept, UsersKept, OtpsKept, Owned, CheckRefresh, Spend, LogoutFirst, Issue;
    var q, r := e.request, m.registry;
    CheckRefreshIff(r, clock, q.token, q.device, e.now);
    NoUserMissing(m, clock, e);
    var c := CheckRefresh(r, q.token, q.device, e.now);
    if c.Good? {
      RenewGood(m, clock, e, c.session);
      var s := Opened(c.session.user, c.session.email, q.device, e.now, q.tokens.access, q.tokens.refresh);
      assert OpenedByRenewal(m, e, s);
    }
  }

  lemma RenewGood(m: Service, clock: int, e: Event, live: Session)
    requires Inv(m, clock) && Enabled(m, clock, e) && e.request.Renew?
    requires CheckRefresh(m.registry, e.request.token, e.request.device, e.now) == Good(live)
    ensures var (q, s) := (e.request, Opened(live.user, live.email, e.request.device, e.now, e.request.tokens.access, e.request.tokens.refresh));
            && ReplyTo(m, e) == SignedIn(live.user) && live in m.registry.sessions && s in Step(m, e).registry.sessions
            && forall x :: x in Step(m, e).registry.sessions <==> x == s || (x in m.registry.sessions && x.refresh != q.token)
  {
    hide UsersKept, OtpsKept, CheckRefresh, Spend;
    var r := m.registry;
    CheckRefreshIff(r, clock, e.request.token, e.request.device, e.now);
    assert HasAccount(m.users, live.user, live.email);
    var i :| 0 <= i < |m.users| && m.users[i].id == live.user && m.users[i].email == live.email;
    UserIs(m.users, m.users[i]);
    SpendEnds(r, clock, live);
    OneRefresh(r, clock, live);
  }

  lemma OneRefresh(r: Registry, clock: int, live: Session)
    requires Kept(r, clock) && live in r.sessions
    ensures forall x <- r.sessions :: x.refresh == live.refresh ==> x == live
  {
    hide OneToken;
  }

  // ---- When a code is mailed ----

  /** The code is on record for ten minutes, unused; nothing else changes but the accounts given. */
  ghost predicate Mailed(m: Service, users: seq<User>, n: Service, email: string, purpose: Purpose, d: Draw, now: int) {
    n == m.(users := users, otps := m.otps[d.nonce := Otp(email, purpose, d.code, now + 600_000, false)], drawn := m.drawn + {d.nonce})
  }

  ghost predicate NotMailed(m: Service, users: seq<User>, n: Service, d: Draw) {
    n == m.(users := users, drawn := m.drawn + {d.nonce})
  }

  /** Login mails a code exactly on the password the account has, for an account that has one. */
  lemma LoginIff(m: Service, clock: int, e: Event)
    requires Inv(m, clock) && Enabled(m, clock, e) && e.request.Login?
    ensures var (q, r, n) := (e.request, ReplyTo(m, e), Step(m, e));
            var right := exists u <- m.users :: u.email == Normalize(q.email) && u.password == Some(q.password);
            && (r == OtpSent(q.draw.nonce, ToLogin) <==>
                  q.draw.mailed && exists u <- m.users :: u.email == Normalize(q.email) && u.password == Some(q.password) && u.verified)
            && (r == OtpSent(q.draw.nonce, ToRegister) <==>
                  q.draw.mailed && exists u <- m.users :: u.email == Normalize(q.email) && u.password == Some(q.password) && !u.verified)
            && (r == Refused(OtpEmailFailed) <==> right && !q.draw.mailed)
            && (r == Refused(InvalidCredentials) <==> !right)
            && (r.OtpSent? ==> Mailed(m, m.users, n, Normalize(q.email), r.purpose, q.draw, e.now))
            && (r == Refused(OtpEmailFailed) ==> NotMailed(m, m.users, n, q.draw))
            && (!right ==> n == m)
  {
    var q := e.request;
    hide Kept, HasAccount, HasEmail, Normalize;
    var i := FindUser(m.users, Normalize(q.email));
    if i < |m.users| { assert m.users[i] in m.users; }
    if u :| u in m.users && u.email == Normalize(q.email) { UserIs(m.users, u); }
  }

  /** Registering opens an account exactly for a new valid email and a strong password, and mails it a code. */
  lemma RegisterIff(m: Service, clock: int, e: Event)
    requires Inv(m, clock) && Enabled(m, clock, e) && e.request.Register?
    ensures var (q, r, n) := (e.request, ReplyTo(m, e), Step(m, e));
            var email := Normalize(q.email);
            var users := m.users + [User(q.id, email, Some(q.password), false, [])];
            var taken := exists u <- m.users :: u.email == email;
            && (r == Refused(InvalidEmail) <==> !IsEmail(email))
            && (r == Refused(WeakPassword) <==> IsEmail(email) && !StrongPassword(q.password))
            && (r == Refused(EmailTaken) <==> IsEmail(email) && StrongPassword(q.password) && taken)
            && (r == OtpSent(q.draw.nonce, ToRegister) <==> IsEmail(email) && StrongPassword(q.password) && !taken && q.draw.mailed)
            && (r == Refused(OtpEmailFailed) <==> IsEmail(email) && StrongPassword(q.password) && !taken && !q.draw.mailed)
            && (r.OtpSent? ==> Mailed(m, users, n, email, ToRegister, q.draw, e.now))
            && (r == Refused(OtpEmailFailed) ==> NotMailed(m, users, n, q.draw))
            && (r.Refused? && r != Refused(OtpEmailFailed) ==> n == m)
  {
    var q := e.request;
    hide Kept, HasAccount, HasEmail, UsersKept, Normalize, IsEmail, StrongPassword;
    var i := FindUser(m.users, Normalize(q.email));
    if i < |m.users| { assert m.users[i] in m.users; }
  }

  /** A reset code is mailed exactly to the email of an account. */
  lemma AskResetIff(m: Service, clock: int, e: Event)
    requires Inv(m, clock) && Enabled(m, clock, e) && e.request.AskReset?
    ensures var (q, r, n) := (e.request, ReplyTo(m, e), Step(m, e));
            var email := Normalize(q.email);
            var known := exists u <- m.users :: u.email == email;
            && (r == Refused(InvalidEmail) <==> !IsEmail(email))
            && (r == Refused(NoAccount) <==> IsEmail(email) && !known)
            && (r == OtpSent(q.draw.nonce, ToReset) <==> IsEmail(email) && known && q.draw.mailed)
            && (r == Refused(OtpEmailFailed) <==> IsEmail(email) && known && !q.draw.mailed)
            && (r.OtpSent? ==> Mailed(m, m.users, n, email, ToReset, q.draw, e.now))
            && (r == Refused(OtpEmailFailed) ==> NotMailed(m, m.users, n, q.draw))
            && (r in {Refused(InvalidEmail), Refused(NoAccount)} ==> n == m)
  {
    var q := e.request;
    hide Kept, HasAccount, HasEmail, UsersKept, Normalize, IsEmail;
    var i := FindUser(m.users, Normalize(q.email));
    if i < |m.users| { assert m.users[i] in m.users; }
  }

  // ---- Every session was opened by one of the three ----

  /** At some event of the run the session was opened. */
  ghost predicate OpenedIn(m: Service, es: seq<Event>, s: Session)
    decreases |es|
  {
    es != [] && (Opens(m, es[0], s) || OpenedIn(Step(m, es[0]), es[1..], s))
  }

  lemma StepOpens(m: Service, clock: int, e: Event, s: Session)
    requires Inv(m, clock) && Enabled(m, clock, e) && s in Step(m, e).registry.sessions
    ensures s in m.registry.sessions || Opens(m, e, s)
  {
    hide Inv, OpenedByCode, OpenedByIdentity, OpenedByRenewal, Kept;
    match e.request {
      case VerifyOtp(_, _, _, _) => VerifyIff(m, clock, e, 0);
      case Provider(_, _, _, _, _, _) => ProviderIff(m, clock, e, 0);
      case Renew(_, _, _) =>
        RenewIff(m, clock, e, 0);
        if e.request.token in m.registry.retired { ReuseEndsOnly(m, clock, e); }
      case Reset(_, _, _) => ResetIff(m, clock, e);
      case Register(_, _, _, _) => RegisterIff(m, clock, e);
      case Login(_, _, _) => LoginIff(m, clock, e);
      case AskReset(_, _) => AskResetIff(m, clock, e);
      case Logout(user) =>
    }
  }

  lemma ReuseEndsOnly(m: Service, clock: int, e: Event)
    requires Inv(m, clock) && e.request.Renew? && e.request.token in m.registry.retired
    ensures forall s <- Step(m, e).registry.sessions :: s in m.registry.sessions
  {
    hide Kept;
    ReuseKeeps(m.registry, clock, e.request.device);
    hide LogoutFirst;
  }

  lemma {:induction false} RunOpens(m: Service, clock: int, es: seq<Event>, s: Session)
    requires Inv(m, clock) && Legal(m, clock, es) && s in Run(m, es).registry.sessions
    ensures s in m.registry.sessions || OpenedIn(m, es, s)
    decreases |es|
  {
    hide Inv, Step, Opens, Enabled;
    if es != [] {
      var n := Step(m, es[0]);
      StepKeeps(m, clock, es[0]);
      RunOpens(n, es[0].now, es[1..], s);
      if s in n.registry.sessions { StepOpens(m, clock, es[0], s); }
    }
  }

  /**
   Over whole runs: whatever an access token opens is a session that was opened by a good code, by a verified
   provider identity, or by renewing a live session, and for its user, email and device.
   */
  lemma TokensAreEarned(clock: int, es: seq<Event>, token: Token, now: int)
    requires Legal(Start(), clock, es)
    ensures var a := Authorize(Run(Start(), es).registry, token, now);
            a.Authorized? ==>
              exists s :: OpenedIn(Start(), es, s) && s.access == token && now <= s.accessExpires
                          && s.user == a.user && s.email == a.email && s.device == a.device
  {
    hide Legal, Run, OpenedIn, Kept;
    var r := Run(Start(), es).registry;
    StartKept(clock);
    RunKeeps(Start(), clock, es);
    AuthorizeIff(r, Clock(clock, es), token, now);
    var a := Authorize(r, token, now);
    if a.Authorized? {
      assert a == Authorized(a.user, a.email, a.device);
      var s :| s in r.sessions && s.access == token && now <= s.accessExpires && s.user == a.user && s.email == a.email && s.device == a.device;
      RunOpens(Start(), clock, es, s);
    }
  }

  lemma StartKept(clock: int)
    ensures Inv(Start(), clock)
  {
  }

  // ---- A second user outlives the sweep ----

  /** Two users sign in on one device, the second renews, and the spent token is presented again. */
  function SharedDevice(device: string, a: Identity, email: string, b: Identity, email': string): seq<Event> {
    [At(0, Provider(a, email, true, device, 1, Tokens(1, 2))),
     At(0, Provider(b, email', true, device, 2, Tokens(3, 4))),
     At(0, Renew(4, device, Tokens(5, 6))),
     At(0, Renew(4, device, Tokens(7, 8)))]
  }

  predicate MaySignIn(identity: Identity, email: string, device: string) {
    && identity.provider in {"google", "microsoft"} && identity.subject != "" && device != ""
    && IsEmail(Normalize(email))
  }

  lemma FirstSignIn(e: Event)
    requires e.request.Provider? && MaySignIn(e.request.identity, e.request.email, e.request.device)
    requires e.request.emailVerified
    ensures var q := e.request;
            Step(Start(), e) ==
              Service([User(q.id, Normalize(q.email), None, true, [q.identity])], map[],
                      Issue(Start().registry, q.id, Normalize(q.email), q.device, e.now, q.tokens.access, q.tokens.refresh), {})
  {
    hide Normalize, IsEmail, Issue;
    assert [] + [e.request.identity] == [e.request.identity];
  }

  lemma SecondSignIn(m: Service, e: Event)
    requires |m.users| == 1
    requires e.request.Provider? && MaySignIn(e.request.identity, e.request.email, e.request.device)
    requires e.request.emailVerified
    requires e.request.identity !in m.users[0].identities && m.users[0].email != Normalize(e.request.email)
    ensures var q := e.request;
            Step(m, e) ==
              m.(users := m.users + [User(q.id, Normalize(q.email), None, true, [q.identity])],
                 registry := Issue(m.registry, q.id, Normalize(q.email), q.device, e.now, q.tokens.access, q.tokens.refresh))
  {
    hide Normalize, IsEmail, Issue;
    assert [] + [e.request.identity] == [e.request.identity];
    assert FindIdentity(m.users, e.request.identity) == 1 && FindUser(m.users, Normalize(e.request.email)) == 1;
  }

  function NewSession(user: nat, email: string, device: string, t: Tokens): Session {
    Session(user, email, device, t.access, ACCESS_TTL, t.refresh, REFRESH_TTL, false)
  }

  /** The second user's session is replaced in the table, behind the first user's. */
  lemma SecondRenews(m: Service, first: Session, second: Session, t: Tokens)
    requires m.registry.sessions == [first, second] && first.access != second.access
    requires m.registry.byRefresh == map[first.refresh := first, second.refresh := second] && first.refresh != second.refresh
    requires m.registry.retired == {} && !second.revoked && second.refreshExpires == REFRESH_TTL
    requires |m.users| == 2 && m.users[0].id != second.user && m.users[1].id == second.user && m.users[1].email == second.email
    ensures var n := Step(m, At(0, Renew(second.refresh, second.device, t)));
            && n.users == m.users && n.registry.retired == {second.refresh}
            && n.registry.sessions == [first, NewSession(second.user, second.email, second.device, t)]
            && n.registry.issued == m.registry.issued + {t.access, t.refresh}
  {
    assert [first, second][1..] == [second] && [second][1..] == [];
    assert Except([second], second.access) == [];
    assert Except([first, second], second.access) == [first];
    assert CheckRefresh(m.registry, second.refresh, second.device, 0) == Good(second);
    assert FindId(m.users, second.user) == 1;
  }

  /** The spent token ends the session in front and leaves the one behind it. */
  lemma ReuseEndsTheFirst(m: Service, first: Session, other: Session, token: Token, t: Tokens)
    requires m.registry.sessions == [first, other] && first.user != other.user && token in m.registry.retired
    ensures var e := At(0, Renew(token, first.device, t));
            ReplyTo(m, e) == Refused(RefreshReuse) && Step(m, e).registry.sessions == [other]
  {
    assert FirstOn(m.registry.sessions, first.device) == 0;
    assert [first, other][1..] == [other] && [other][1..] == [];
    assert Others([other], first.user) == [other];
  }

  lemma OnlyOne(r: Registry, s: Session)
    requires r.sessions == [s] && !s.revoked && s.accessExpires >= 0
    ensures Authorize(r, s.access, 0) == Authorized(s.user, s.email, s.device)
    ensures forall access :: access != s.access ==> Authorize(r, access, 0) == Unauthorized
  {
    assert [s][1..] == [];
  }

  lemma LegalFour(m: Service, clock: int, es: seq<Event>)
    requires |es| == 4
    ensures var m1, m2 := Step(m, es[0]), Step(Step(m, es[0]), es[1]);
            var m3 := Step(m2, es[2]);
            && Run(m, es[..3]) == m3 && Run(m, es) == Step(m3, es[3])
            && (Legal(m, clock, es) <==>
                  && Enabled(m, clock, es[0]) && Enabled(m1, es[0].now, es[1])
                  && Enabled(m2, es[1].now, es[2]) && Enabled(m3, es[2].now, es[3]))
  {
    hide Step, Enabled;
    var m1 := Step(m, es[0]);
    var m2 := Step(m1, es[1]);
    var m3 := Step(m2, es[2]);
    assert es[1..] == [es[1], es[2], es[3]] && es[1..][1..] == [es[2], es[3]];
    assert es[..3][1..] == [es[1], es[2]] && [es[1], es[2]][1..] == [es[2]] && [es[2]][1..] == [];
    assert [es[2], es[3]][1..] == [es[3]] && [es[3]][1..] == [];
    assert Run(m2, [es[2]]) == m3;
    assert Run(m1, [es[1], es[2]]) == m3;
    assert Run(m3, [es[3]]) == Step(m3, es[3]);
    assert Run(m2, [es[2], es[3]]) == Step(m3, es[3]);
    assert Legal(m3, es[2].now, [es[3]]) <==> Enabled(m3, es[2].now, es[3]);
    assert Legal(m2, es[1].now, [es[2], es[3]]) <==> Enabled(m2, es[1].now, es[2]) && Enabled(m3, es[2].now, es[3]);
    assert Legal(m1, es[0].now, es[1..]) <==>
           Enabled(m1, es[0].now, es[1]) && Enabled(m2, es[1].now, es[2]) && Enabled(m3, es[2].now, es[3]);
  }

  /**
   Any two users can sign in on one device, one of them renew, and the spent token be presented again: the
   reuse is noticed, the other user is signed out, and the user whose token was reused stays signed in there.
   */
  lemma ReuseLeavesTheOther(device: string, a: Identity, email: string, b: Identity, email': string)
    requires MaySignIn(a, email, device) && MaySignIn(b, email', device)
    requires a != b && Normalize(email) != Normalize(email')
    ensures var es := SharedDevice(device, a, email, b, email');
            && Legal(Start(), 0, es)
            && ReplyTo(Run(Start(), es[..3]), es[3]) == Refused(RefreshReuse)
            && Authorize(Run(Start(), es).registry, 5, 0) == Authorized(2, Normalize(email'), device)
            && Authorize(Run(Start(), es).registry, 1, 0) == Unauthorized
  {
    hide Normalize, IsEmail, Step, Serve, MaySignIn;
    var es := SharedDevice(device, a, email, b, email');
    var first := NewSession(1, Normalize(email), device, Tokens(1, 2));
    var second := NewSession(2, Normalize(email'), device, Tokens(3, 4));
    FirstSignIn(es[0]);
    var m1 := Step(Start(), es[0]);
    SecondSignIn(m1, es[1]);
    var m2 := Step(m1, es[1]);
    assert m2.registry.sessions == [first, second];
    assert m2.registry.byRefresh == map[2 := first, 4 := second];
    SecondRenews(m2, first, second, Tokens(5, 6));
    var m3 := Step(m2, es[2]);
    var other := NewSession(2, Normalize(email'), device, Tokens(5, 6));
    ReuseEndsTheFirst(m3, first, other, 4, Tokens(7, 8));
    LegalFour(Start(), 0, es);
    OnlyOne(Step(m3, es[3]).registry, other);
    hide Run, Legal;
    assert m3.registry.issued == {1, 2} + {3, 4} + {5, 6};
    assert Enabled(Start(), 0, es[0]) && Enabled(m1, 0, es[1]) && Enabled(m2, 0, es[2]) && Enabled(m3, 0, es[3]);
  }

  /** Such users exist. */
  lemma TwoUsersMaySignIn()
    ensures var (a, b) := (Identity("google", "1"), Identity("google", "2"));
            && MaySignIn(a, "a@b.c", "d") && MaySignIn(b, "b@b.c", "d") && a != b
            && Normalize("a@b.c") != Normalize("b@b.c")
  {
    ShortEmail('a');
    ShortEmail('b');
    hide Normalize, IsEmail;
    assert ['a'] + "@b.c" == "a@b.c" && ['b'] + "@b.c" == "b@b.c";
  }

  lemma ShortEmail(c: char)
    requires c in "ab"
    ensures Normalize([c] + "@b.c") == [c] + "@b.c" && IsEmail([c] + "@b.c")
  {
    var s := [c] + "@b.c";
    assert Trim(s) == s;
    assert LowerAll(s) == s;
    assert s[1] == '@' && s[3] == '.';
    assert 1 <= 1 && 1 + 2 <= 3;
  }

  /** No access token is honoured longer than fifteen minutes after it was drawn. */
  lemma TokensExpire(m: Service, clock: int, es: seq<Event>, token: Token, later: int)
    requires Inv(m, clock) && Legal(m, clock, es) && token in m.registry.issued && later > clock + ACCESS_TTL
    ensures !Authorize(Run(m, es).registry, token, later).Authorized?
  {
    RunKeeps(m, clock, es);
    AccessExpires(m.registry, clock, Run(m, es).registry, token, later);
    hide Run, Legal, Authorize;
  }

  /** Normalizing is stable, so a stored email is found again by any spelling that normalizes to it. */
  lemma NormalizeIdempotent(email: string)
    ensures Normalize(Normalize(email)) == Normalize(email)
  {
    TrimLeftEnds(email);
    TrimRightEnds(TrimLeft(email));
    var t := Trim(email);
    var n := LowerAll(t);
    assert t != "" ==> t[0] == TrimLeft(email)[0];
    assert forall k :: 0 <= k < |n| ==> (IsSpace(n[k]) <==> IsSpace(t[k])) && Lower(n[k]) == n[k];
    assert TrimLeft(n) == n && TrimRight(n) == n;
    assert LowerAll(n) == n;
  }

  // ---- The service, in place ----

  class PasswordAuthService {
    var users: seq<User>
    var otps: map<string, Otp>
    const table: SessionTable
    ghost var drawn: set<string>

    ghost function State(): Service
      reads this, table
    {
      Service(users, otps, table.State(), drawn)
    }

    constructor ()
      ensures State() == Start() && fresh(table)
    {
      users, otps, drawn := [], map[], {};
      table := new SessionTable();
    }

    method SendOtp(email: string, purpose: Purpose, d: Draw, now: int) returns (reply: Reply)
      requires d.nonce !in otps
      modifies this`otps, this`drawn
      ensures (State(), reply) == StartOtp(old(State()), email, purpose, d, now)
    {
      drawn := drawn + {d.nonce};
      otps := otps[d.nonce := Otp(email, purpose, d.code, now + OTP_TTL, false)];
      if !d.mailed {
        otps := otps - {d.nonce};
        assert otps == old(otps);
        return Refused(OtpEmailFailed);
      }
      return OtpSent(d.nonce, purpose);
    }

    method RegisterUser(q: Request, now: int) returns (reply: Reply)
      requires q.Register? && q.draw.nonce !in otps
      modifies this
      ensures (State(), reply) == Serve(old(State()), At(now, q))
    {
      var email := Normalize(q.email);
      if !IsEmail(email) {
        return Refused(InvalidEmail);
      }
      if !StrongPassword(q.password) {
        return Refused(WeakPassword);
      }
      if FindUser(users, email) < |users| {
        return Refused(EmailTaken);
      }
      users := users + [User(q.id, email, Some(q.password), false, [])];
      reply := SendOtp(email, ToRegister, q.draw, now);
    }

    method LoginUser(q: Request, now: int) returns (reply: Reply)
      requires q.Login? && q.draw.nonce !in otps
      modifies this
      ensures (State(), reply) == Serve(old(State()), At(now, q))
    {
      var email := Normalize(q.email);
      var i := FindUser(users, email);
      if i == |users| {
        return Refused(InvalidCredentials);
      }
      if !PasswordMatches(q.password, users[i].password) {
        return Refused(InvalidCredentials);
      }
      reply := SendOtp(email, if users[i].verified then ToLogin else ToRegister, q.draw, now);
    }

    method RequestPasswordReset(q: Request, now: int) returns (reply: Reply)
      requires q.AskReset? && q.draw.nonce !in otps
      modifies this
      ensures (State(), reply) == Serve(old(State()), At(now, q))
    {
      var email := Normalize(q.email);
      if !IsEmail(email) {
        return Refused(InvalidEmail);
      }
      if FindUser(users, email) == |users| {
        return Refused(NoAccount);
      }
      reply := SendOtp(email, ToReset, q.draw, now);
    }

    method ResetPassword(q: Request, now: int) returns (reply: Reply)
      requires q.Reset?
      modifies this, table
      ensures (State(), reply) == Serve(old(State()), At(now, q))
    {
      if q.nonce == "" || q.code == "" {
        return Refused(MissingFields);
      }
      var refusal := CheckOtp(otps, q.nonce, q.code, true, now);
      if refusal.Some? {
        return Refused(refusal.value);
      }
      if !StrongPassword(q.newPassword) {
        return Refused(WeakPassword);
      }
      var i := FindUser(users, otps[q.nonce].email);
      if i == |users| {
        return Refused(UserMissing);
      }
      otps := otps[q.nonce := otps[q.nonce].(used := true)];
      users := users[i := users[i].(password := Some(q.newPassword), verified := true)];
      table.LogoutAllOf(users[i].id);
      return PasswordChanged;
    }

    method VerifyCode(q: Request, now: int) returns (reply: Reply)
      requires q.VerifyOtp?
      modifies this, table
      ensures (State(), reply) == Serve(old(State()), At(now, q))
    {
      if q.nonce == "" || q.code == "" || q.device == "" {
        return Refused(MissingFields);
      }
      var refusal := CheckOtp(otps, q.nonce, q.code, false, now);
      if refusal.Some? {
        return Refused(refusal.value);
      }
      otps := otps[q.nonce := otps[q.nonce].(used := true)];
      var i := FindUser(users, otps[q.nonce].email);
      if i == |users| {
        return Refused(UserMissing);
      }
      users := users[i := users[i].(verified := true)];
      table.IssueSession(users[i].id, users[i].email, q.device, now, q.tokens.access, q.tokens.refresh);
      return SignedIn(users[i].id);
    }

    method AuthenticateProvider(q: Request, now: int) returns (reply: Reply)
      requires q.Provider?
      modifies this, table
      ensures (State(), reply) == Serve(old(State()), At(now, q))
    {
      var email := Normalize(q.email);
      if q.identity.provider != "google" && q.identity.provider != "microsoft" {
        return Refused(ProviderNotSupported);
      }
      if q.identity.subject == "" || q.device == "" || !IsEmail(email) || !q.emailVerified {
        return Refused(ProviderIdentityInvalid);
      }
      var i := FindIdentity(users, q.identity);
      if i == |users| {
        i := FindUser(users, email);
      }
      if i == |users| {
        users := users + [User(q.id, email, None, true, [])];
      }
      var user := users[i];
      if q.identity !in user.identities {
        user := user.(identities := user.identities + [q.identity]);
      }
      users := users[i := user.(verified := true)];
      table.IssueSession(user.id, user.email, q.device, now, q.tokens.access, q.tokens.refresh);
      return SignedIn(user.id);
    }

    method RefreshSession(q: Request, now: int) returns (reply: Reply)
      requires q.Renew?
      modifies this, table
      ensures (State(), reply) == Serve(old(State()), At(now, q))
    {
      if q.token in table.retired {
        var k := FirstOn(table.sessions, q.device);
        if k < |table.sessions| {
          table.LogoutAllOf(table.sessions[k].user);
        }
        return Refused(RefreshReuse);
      }
      if q.token !in table.byRefresh {
        return Refused(UnknownRefresh);
      }
      var s := table.byRefresh[q.token];
      if s.revoked {
        return Refused(SessionRevoked);
      }
      if s.refreshExpires < now {
        return Refused(RefreshExpired);
      }
      if s.device != q.device {
        return Refused(DeviceBinding);
      }
      table.SpendSession(s);
      var i := FindId(users, s.user);
      if i == |users| {
        return Refused(UserMissing);
      }
      table.IssueSession(users[i].id, users[i].email, q.device, now, q.tokens.access, q.tokens.refresh);
      return SignedIn(users[i].id);
    }
  }
}
