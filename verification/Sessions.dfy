/**
 The session table both sign-in services keep: sessions in the order they were made, the same sessions by
 refresh token, and the refresh tokens already spent. Tokens are drawn fresh, and hashing is one-to-one,
 so a token stands for its own hash.
 */
module Sessions {
  import opened Text

  type Token = nat

  datatype Session = Session(
    user: nat,
    email: string,
    device: string,
    access: Token,
    accessExpires: int,
    refresh: Token,
    refreshExpires: int,
    revoked: bool)

  /** `issued` records every token ever drawn. */
  datatype Registry = Registry(
    sessions: seq<Session>,
    byRefresh: map<Token, Session>,
    retired: set<Token>,
    issued: set<Token>)

  const ACCESS_TTL: int := 15 * 60 * 1000
  const REFRESH_TTL: int := 30 * 24 * 60 * 60 * 1000

  datatype Check = Reuse | Unknown | Revoked | Expired | WrongDevice | Good(session: Session)

  datatype Authorization = Unauthorized | AccessExpired | Authorized(user: nat, email: string, device: string)

  function Find(sessions: seq<Session>, access: Token): (r: Option<Session>)
    ensures r.Some? ==> r.value in sessions && r.value.access == access
    ensures r.None? ==> forall s <- sessions :: s.access != access
  {
    if sessions == [] then None
    else if sessions[0].access == access then Some(sessions[0])
    else Find(sessions[1..], access)
  }

  function Authorize(r: Registry, access: Token, now: int): Authorization {
    match Find(r.sessions, access)
    case None => Unauthorized
    case Some(s) =>
      if s.revoked then Unauthorized
      else if s.accessExpires < now then AccessExpired
      else Authorized(s.user, s.email, s.device)
  }

  function CheckRefresh(r: Registry, token: Token, device: string, now: int): Check {
    if token in r.retired then Reuse
    else if token !in r.byRefresh then Unknown
    else
      var s := r.byRefresh[token];
      if s.revoked then Revoked
      else if s.refreshExpires < now then Expired
      else if s.device != device then WrongDevice
      else Good(s)
  }

  function Issue(r: Registry, user: nat, email: string, device: string, now: int, access: Token, refresh: Token): Registry {
    var s := Session(user, email, device, access, now + ACCESS_TTL, refresh, now + REFRESH_TTL, false);
    Registry(r.sessions + [s], r.byRefresh[refresh := s], r.retired, r.issued + {access, refresh})
  }

  /** The sessions of other users, in order. */
  function Others(sessions: seq<Session>, user: nat): (r: seq<Session>)
    ensures forall s :: s in r <==> s in sessions && s.user != user
  {
    if sessions == [] then []
    else (if sessions[0].user == user then [] else [sessions[0]]) + Others(sessions[1..], user)
  }

  function TokensOf(sessions: seq<Session>, user: nat): (r: set<Token>)
    ensures forall t :: t in r <==> exists s :: s in sessions && s.user == user && s.refresh == t
  {
    set s <- sessions | s.user == user :: s.refresh
  }

  function LogoutAll(r: Registry, user: nat): Registry {
    r.(sessions := Others(r.sessions, user), byRefresh := r.byRefresh - TokensOf(r.sessions, user))
  }

  function Except(sessions: seq<Session>, access: Token): (r: seq<Session>)
    ensures forall s :: s in r <==> s in sessions && s.access != access
  {
    if sessions == [] then []
    else (if sessions[0].access == access then [] else [sessions[0]]) + Except(sessions[1..], access)
  }

  /** A refresh token is retired together with the session it renews. */
  function Spend(r: Registry, s: Session): Registry {
    r.(sessions := Except(r.sessions, s.access), byRefresh := r.byRefresh - {s.refresh}, retired := r.retired + {s.refresh})
  }

  // ---- What every operation keeps ----

  /** The two maps hold the same sessions, none of them revoked. */
  ghost predicate SameSessions(sessions: seq<Session>, byRefresh: map<Token, Session>) {
    && (forall s <- sessions :: !s.revoked && s.refresh in byRefresh && byRefresh[s.refresh] == s)
    && (forall t <- byRefresh :: byRefresh[t] in sessions && byRefresh[t].refresh == t)
  }

  ghost predicate OneToken(sessions: seq<Session>) {
    forall i, j :: 0 <= i < j < |sessions| ==> sessions[i].access != sessions[j].access
  }

  ghost predicate AllIssued(r: Registry) {
    && (forall s <- r.sessions :: s.access in r.issued && s.refresh in r.issued)
    && r.retired <= r.issued
  }

  ghost predicate Timely(sessions: seq<Session>, clock: int) {
    forall s <- sessions :: s.accessExpires <= clock + ACCESS_TTL && s.refreshExpires <= clock + REFRESH_TTL
  }

  ghost predicate Kept(r: Registry, clock: int) {
    && SameSessions(r.sessions, r.byRefresh)
    && OneToken(r.sessions)
    && r.retired !! r.byRefresh.Keys
    && AllIssued(r)
    && Timely(r.sessions, clock)
  }

  /** How a table may come out of another: sessions end or are new, and nothing retired comes back. */
  ghost predicate Evolves(r: Registry, r': Registry) {
    && r.issued <= r'.issued && r.retired <= r'.retired
    && forall s <- r'.sessions :: s in r.sessions || (s.access !in r.issued && s.refresh !in r.issued)
  }

  lemma EvolvesTransitive(a: Registry, b: Registry, c: Registry)
    requires Evolves(a, b) && Evolves(b, c)
    ensures Evolves(a, c)
  {
  }

  lemma {:induction false} OthersOrdered(sessions: seq<Session>, user: nat)
    requires OneToken(sessions)
    ensures OneToken(Others(sessions, user))
  {
    if sessions != [] {
      OthersOrdered(sessions[1..], user);
      var rest := Others(sessions[1..], user);
      forall k | 0 <= k < |rest| ensures rest[k].access != sessions[0].access {
        assert rest[k] in sessions[1..];
      }
    }
  }

  lemma {:induction false} ExceptOrdered(sessions: seq<Session>, access: Token)
    requires OneToken(sessions)
    ensures OneToken(Except(sessions, access))
  {
    if sessions != [] {
      ExceptOrdered(sessions[1..], access);
      var rest := Except(sessions[1..], access);
      forall k | 0 <= k < |rest| ensures rest[k].access != sessions[0].access {
        assert rest[k] in sessions[1..];
      }
    }
  }

  lemma IssueKeeps(r: Registry, clock: int, user: nat, email: string, device: string, now: int, access: Token, refresh: Token)
    requires Kept(r, clock) && clock <= now && access !in r.issued && refresh !in r.issued
    ensures Kept(Issue(r, user, email, device, now, access, refresh), now)
    ensures Evolves(r, Issue(r, user, email, device, now, access, refresh))
  {
    var q := Issue(r, user, email, device, now, access, refresh);
    var s := q.sessions[|r.sessions|];
    assert forall x :: x in q.sessions <==> x in r.sessions || x == s;
  }

  lemma LaterKeeps(r: Registry, clock: int, now: int)
    requires Kept(r, clock) && clock <= now
    ensures Kept(r, now)
  {
  }

  lemma LogoutKeeps(r: Registry, clock: int, user: nat)
    requires Kept(r, clock)
    ensures Kept(LogoutAll(r, user), clock) && Evolves(r, LogoutAll(r, user))
  {
    OthersOrdered(r.sessions, user);
    var q := LogoutAll(r, user);
    forall s <- q.sessions ensures s.refresh in q.byRefresh {
      assert r.byRefresh[s.refresh] == s;
    }
    forall t <- q.byRefresh ensures q.byRefresh[t] in q.sessions {
      assert r.byRefresh[t] in r.sessions;
    }
  }

  lemma SpendKeeps(r: Registry, clock: int, s: Session)
    requires Kept(r, clock) && s in r.sessions
    ensures Kept(Spend(r, s), clock) && Evolves(r, Spend(r, s))
  {
    ExceptOrdered(r.sessions, s.access);
    var q := Spend(r, s);
    forall x <- q.sessions ensures x.refresh in q.byRefresh {
      assert r.byRefresh[x.refresh] == x && r.byRefresh[s.refresh] == s;
    }
    forall t <- q.byRefresh ensures q.byRefresh[t] in q.sessions {
      assert r.byRefresh[t] in r.sessions;
      assert r.byRefresh[t].refresh != s.refresh;
      DistinctAccess(r.sessions, r.byRefresh[t], s);
    }
  }

  lemma DistinctAccess(sessions: seq<Session>, a: Session, b: Session)
    requires OneToken(sessions) && a in sessions && b in sessions && a != b
    ensures a.access != b.access
  {
  }

  lemma SameAccess(sessions: seq<Session>, a: Session, b: Session)
    requires OneToken(sessions) && a in sessions && b in sessions && a.access == b.access
    ensures a == b
  {
  }

  // ---- What the tokens of a table are worth later ----

  lemma FindIs(r: Registry, clock: int, s: Session)
    requires Kept(r, clock) && s in r.sessions
    ensures Find(r.sessions, s.access) == Some(s)
  {
    SameAccess(r.sessions, Find(r.sessions, s.access).value, s);
  }

  /** The tokens of a new session work, for its own user and device, while they last. */
  lemma NewTokensWork(r: Registry, clock: int, user: nat, email: string, device: string, now: int, access: Token,
                      refresh: Token, later: int)
    requires Kept(r, clock) && clock <= now && access !in r.issued && refresh !in r.issued
    ensures var q := Issue(r, user, email, device, now, access, refresh);
            && Authorize(q, access, later) == (if later <= now + ACCESS_TTL then Authorized(user, email, device) else AccessExpired)
            && (CheckRefresh(q, refresh, device, later).Good? <==> later <= now + REFRESH_TTL)
  {
    IssueKeeps(r, clock, user, email, device, now, access, refresh);
    var q := Issue(r, user, email, device, now, access, refresh);
    var s := q.sessions[|r.sessions|];
    FindIs(q, now, s);
    hide Find, Kept, Evolves;
  }

  /** A token drawn earlier opens only a session that was already there then. */
  lemma EarlierAccess(r: Registry, r': Registry, token: Token, now: int)
    requires Evolves(r, r') && token in r.issued && !Authorize(r', token, now).Unauthorized?
    ensures var s := Find(r'.sessions, token); s.Some? && s.value in r.sessions && s.value.access == token
  {
  }

  lemma EarlierRefresh(r: Registry, r': Registry, clock: int, token: Token, device: string, now: int)
    requires Evolves(r, r') && Kept(r', clock) && token in r.issued && CheckRefresh(r', token, device, now).Good?
    ensures var s := CheckRefresh(r', token, device, now).session; s in r.sessions && s.refresh == token && s.device == device
  {
  }

  lemma RetiredForGood(r: Registry, r': Registry, token: Token, device: string, now: int)
    requires Evolves(r, r') && token in r.retired
    ensures CheckRefresh(r', token, device, now) == Reuse
  {
  }

  /** No session lives on after its user's logout. */
  lemma LogoutEnds(r: Registry, clock: int, user: nat, r': Registry, token: Token, now: int)
    requires Kept(r, clock) && Evolves(LogoutAll(r, user), r') && token in r.issued
    ensures Authorize(r', token, now).Authorized? ==> Authorize(r', token, now).user != user
  {
    if Authorize(r', token, now).Authorized? {
      EarlierAccess(LogoutAll(r, user), r', token, now);
    }
  }

  lemma LogoutEndsRefresh(r: Registry, clock: int, user: nat, r': Registry, clock': int, token: Token, device: string, now: int)
    requires Kept(r, clock) && Kept(r', clock') && Evolves(LogoutAll(r, user), r') && token in r.issued
    ensures CheckRefresh(r', token, device, now).Good? ==> CheckRefresh(r', token, device, now).session.user != user
  {
    if CheckRefresh(r', token, device, now).Good? {
      EarlierRefresh(LogoutAll(r, user), r', clock', token, device, now);
    }
  }

  /** An access token is honoured for fifteen minutes at most from when it is drawn. */
  lemma AccessExpires(r: Registry, clock: int, r': Registry, token: Token, now: int)
    requires Kept(r, clock) && Evolves(r, r') && token in r.issued && now > clock + ACCESS_TTL
    ensures !Authorize(r', token, now).Authorized?
  {
    if !Authorize(r', token, now).Unauthorized? {
      EarlierAccess(r, r', token, now);
    }
  }

  // ---- What the checks answer, told from the sessions alone ----

  /** An access token opens exactly a session of its own that is not past its time. */
  lemma AuthorizeIff(r: Registry, clock: int, access: Token, now: int)
    requires Kept(r, clock)
    ensures forall user, email, device :: Authorize(r, access, now) == Authorized(user, email, device) <==>
              exists s <- r.sessions :: s.access == access && now <= s.accessExpires && s.user == user && s.email == email && s.device == device
    ensures Authorize(r, access, now).AccessExpired? <==> exists s <- r.sessions :: s.access == access && s.accessExpires < now
    ensures Authorize(r, access, now).Unauthorized? <==> forall s <- r.sessions :: s.access != access
  {
    forall s | s in r.sessions && s.access == access ensures Find(r.sessions, access) == Some(s) {
      FindIs(r, clock, s);
    }
  }

  /** A refresh token is reuse once spent; otherwise what it is worth is told by the session it belongs to. */
  lemma CheckRefreshIff(r: Registry, clock: int, token: Token, device: string, now: int)
    requires Kept(r, clock)
    ensures CheckRefresh(r, token, device, now).Reuse? <==> token in r.retired
    ensures forall s :: CheckRefresh(r, token, device, now) == Good(s) <==>
              s in r.sessions && s.refresh == token && s.device == device && now <= s.refreshExpires
    ensures CheckRefresh(r, token, device, now).Expired? <==> exists s <- r.sessions :: s.refresh == token && s.refreshExpires < now
    ensures CheckRefresh(r, token, device, now).WrongDevice? <==>
              exists s <- r.sessions :: s.refresh == token && now <= s.refreshExpires && s.device != device
    ensures CheckRefresh(r, token, device, now).Unknown? <==> token !in r.retired && forall s <- r.sessions :: s.refresh != token
  {
    forall s | s in r.sessions && s.refresh == token ensures token in r.byRefresh && r.byRefresh[token] == s && token !in r.retired {
      assert s.refresh in r.byRefresh.Keys;
    }
  }

  /** Spending ends that one session, and no other. */
  lemma SpendEnds(r: Registry, clock: int, s: Session)
    requires Kept(r, clock) && s in r.sessions
    ensures forall x :: x in Spend(r, s).sessions <==> x in r.sessions && x != s
    ensures Spend(r, s).retired == r.retired + {s.refresh}
  {
    forall x | x in r.sessions && x != s ensures x.access != s.access { DistinctAccess(r.sessions, x, s); }
  }

  /** The session a pair of tokens opens. */
  function Opened(user: nat, email: string, device: string, now: int, access: Token, refresh: Token): (s: Session)
    ensures s.accessExpires - now == 900_000 && s.refreshExpires - now == 2_592_000_000
  {
    Session(user, email, device, access, now + ACCESS_TTL, refresh, now + REFRESH_TTL, false)
  }

  // ---- The table, in place ----

  lemma LoggedOutNone(user: nat)
    ensures Others([], user) == [] && TokensOf([], user) == {}
  {
  }

  lemma LoggedOutOne(all: seq<Session>, i: nat, user: nat)
    requires i < |all|
    ensures Others(all[..i + 1], user) == Others(all[..i], user) + (if all[i].user == user then [] else [all[i]])
    ensures TokensOf(all[..i + 1], user) == TokensOf(all[..i], user) + (if all[i].user == user then {all[i].refresh} else {})
  {
    assert all[..i + 1] == all[..i] + [all[i]];
    OthersSnoc(all[..i], all[i], user);
  }

  lemma {:induction false} OthersSnoc(sessions: seq<Session>, s: Session, user: nat)
    ensures Others(sessions + [s], user) == Others(sessions, user) + (if s.user == user then [] else [s])
  {
    if sessions != [] {
      assert (sessions + [s])[1..] == sessions[1..] + [s];
      OthersSnoc(sessions[1..], s, user);
    }
  }

  class SessionTable {
    var sessions: seq<Session>
    var byRefresh: map<Token, Session>
    var retired: set<Token>
    ghost var issued: set<Token>

    ghost function State(): Registry
      reads this
    {
      Registry(sessions, byRefresh, retired, issued)
    }

    constructor ()
      ensures State() == Registry([], map[], {}, {})
    {
      sessions, byRefresh, retired, issued := [], map[], {}, {};
    }

    method IssueSession(user: nat, email: string, device: string, now: int, access: Token, refresh: Token)
      modifies this
      ensures State() == Issue(old(State()), user, email, device, now, access, refresh)
    {
      var s := Session(user, email, device, access, now + ACCESS_TTL, refresh, now + REFRESH_TTL, false);
      sessions := sessions + [s];
      byRefresh := byRefresh[refresh := s];
      issued := issued + {access, refresh};
    }

    /** Removes the user's sessions from both maps while walking them. */
    method LogoutAllOf(user: nat)
      modifies this`sessions, this`byRefresh
      ensures State() == LogoutAll(old(State()), user)
    {
      hide Others, TokensOf;
      var all := sessions;
      var kept: seq<Session> := [];
      LoggedOutNone(user);
      for i := 0 to |all|
        invariant kept == Others(all[..i], user)
        invariant byRefresh == old(byRefresh) - TokensOf(all[..i], user)
        invariant State() == old(State()).(byRefresh := byRefresh)
      {
        LoggedOutOne(all, i, user);
        if all[i].user == user {
          byRefresh := byRefresh - {all[i].refresh};
        } else {
          kept := kept + [all[i]];
        }
      }
      assert all[..|all|] == all;
      sessions := kept;
    }

    method SpendSession(s: Session)
      modifies this`sessions, this`byRefresh, this`retired
      ensures State() == Spend(old(State()), s)
    {
      retired := retired + {s.refresh};
      byRefresh := byRefresh - {s.refresh};
      sessions := Except(sessions, s.access);
    }
  }
}
