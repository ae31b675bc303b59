/** The guarantees of the session machine, each over every run from an empty system. */
module SessionTheorems {
  import opened Wrappers
  import opened Clock
  import opened TokenDenylist
  import opened Session
  import opened SessionSafety

  /** The state after a run that began with no user at `start`. */
  function Reached(start: nat, cfg: Config, es: seq<Event>): State { Run(Start(start, cfg), es) }

  lemma ReachedInv(start: nat, cfg: Config, es: seq<Event>)
    ensures Inv(Reached(start, cfg, es))
  {
    RunKeeps(Start(start, cfg), es);
  }

  /** Whose sessions the request ends, when it succeeds. */
  function Ends(s: State, c: Call): Option<UserId> {
    match c
    case ChangePassword(u, _, _) => Some(u)
    case ResetPassword(t, _) => if t in s.issued then Some(s.issued[t].sub) else None
    case Deactivate(u) => Some(u)
    case SetStatus(_, u, active, _) => if active then None else Some(u)
    case _ => None
  }

  predicate Accepted(s: State, t: TokenId) { Request(s, Authenticate(t)).1.Principal? }

  // ------------------------------------------------------------ access tokens

  lemma CoveredIsRefused(s: State, t: TokenId)
    requires Inv(s) && t in s.issued && (s.issued[t].kind == AccessToken ==> Covered(s, s.issued[t]))
    ensures !Accepted(s, t)
  {
    assert TokenOk(s, t);
  }

  /** Account calls touch neither markers nor rows and hand out no session. */
  lemma AccountCallsAreQuiet(s: State, c: Call)
    requires c.Register? || c.CreateStaff? || c.InstallAdmin? || c.SendLink? || c.SendResetLink? || c.VerifyEmail?
    ensures var (s', reply) := Request(s, c); s'.markers == s.markers && s'.rows == s.rows && !reply.Tokens?
  {
  }

  /** An ending call that succeeds marks the user and revokes their rows; one that fails does neither. */
  ghost predicate EndsOrNothing(s: State, c: Call) {
    var (s', reply) := Request(s, c);
    && !reply.Tokens? && s'.issued == s.issued && s'.now == s.now
    && if reply.Done? && Ends(s, c).Some? then
         && s'.markers == AfterRevoke(s.markers, Ends(s, c).value, MarkerSeconds(s.cfg), s.now)
         && s'.rows == AllRevoked(s.rows, Ends(s, c).value, s.now)
       else s'.markers == s.markers && s'.rows == s.rows
  }

  lemma PasswordCallsEnd(s: State, c: Call)
    requires c.ChangePassword? || c.ResetPassword?
    ensures EndsOrNothing(s, c)
  {
    match c
    case ChangePassword(u, current, password) => assert Serve(s, c) == ChangePasswordCall(s, u, current, password);
    case ResetPassword(t, password) => assert Serve(s, c) == ResetPasswordCall(s, t, password);
  }

  lemma DeactivationEnds(s: State, c: Call)
    requires c.Deactivate?
    ensures EndsOrNothing(s, c)
  {
    assert Serve(s, c) == DeactivateCall(s, c.user);
  }

  lemma StatusCallEnds(s: State, c: Call)
    requires c.SetStatus?
    ensures EndsOrNothing(s, c)
  {
    SetStatusOutcome(s, c);
    assert Serve(s, c) == SetStatusCall(s, c.actor, c.user, c.active, c.password);
  }

  lemma EndingCalls(s: State, c: Call)
    requires c.ChangePassword? || c.ResetPassword? || c.Deactivate? || c.SetStatus?
    ensures EndsOrNothing(s, c)
  {
    match c
    case Deactivate(_) => DeactivationEnds(s, c);
    case SetStatus(_, _, _, _) => StatusCallEnds(s, c);
    case _ => PasswordCallsEnd(s, c);
  }

  lemma EndCovers(s: State, c: Call, u: UserId)
    requires Inv(s) && Request(s, c).1.Done? && Ends(s, c) == Some(u)
    ensures NoSession(Request(s, c).0, u)
  {
    var s' := Request(s, c).0;
    EndingCalls(s, c);
    forall t | t in s'.issued && s'.issued[t].kind == AccessToken && s'.issued[t].sub == u
      ensures Covered(s', s'.issued[t])
    {
      assert TokenOk(s, t);
    }
  }

  /** Once a password change, a reset or a deactivation has succeeded, no access token the user
      held is accepted again, whatever happens to the marker afterwards. */
  lemma RevokedForever(start: nat, cfg: Config, past: seq<Event>, c: Call, future: seq<Event>, t: TokenId)
    requires var s := Reached(start, cfg, past);
             Request(s, c).1.Done? && t in s.issued && Ends(s, c) == Some(s.issued[t].sub)
    ensures !Accepted(Run(Request(Reached(start, cfg, past), c).0, future), t)
  {
    var s := Reached(start, cfg, past);
    ReachedInv(start, cfg, past);
    RequestKeeps(s, c);
    EndCovers(s, c, s.issued[t].sub);
    RunKeeps(Request(s, c).0, future);
    CoveredIsRefused(Run(Request(s, c).0, future), t);
  }

  /** An inactive user never has a usable session, though acceptance never reads the user row. */
  lemma InactiveHasNoSession(start: nat, cfg: Config, es: seq<Event>, u: UserId)
    requires u in Reached(start, cfg, es).users && !Reached(start, cfg, es).users[u].active
    ensures var s := Reached(start, cfg, es);
            && (forall t | t in s.rows && s.rows[t].user == u :: !Live(s, t))
            && (forall t | t in s.issued && s.issued[t].sub == u :: !Accepted(s, t))
  {
    var s := Reached(start, cfg, es);
    ReachedInv(start, cfg, es);
    forall t | t in s.issued && s.issued[t].sub == u ensures !Accepted(s, t) {
      CoveredIsRefused(s, t);
    }
  }

  /** Whether a request puts a new marker on the user: the calls above, and a replayed refresh token. */
  predicate Marks(s: State, c: Call, u: UserId) {
    || (Ends(s, c) == Some(u) && Request(s, c).1.Done?)
    || (c.Refresh? && Request(s, c).1 == Refused(RevokedOrUnknown) && s.issued[c.token].sub == u)
  }

  predicate NeverMarks(s: State, es: seq<Event>, u: UserId)
    decreases |es|
  {
    es == [] || ((es[0].Do? ==> !Marks(s, es[0].call, u)) && NeverMarks(Next(s, es[0]), es[1..], u))
  }

  ghost predicate Unmarked(s: State, c: Claims) {
    c.sub in s.markers ==> s.markers[c.sub].cutoff < c.iat
  }

  predicate SameMarker(s: State, s': State, u: UserId) {
    u in s'.markers ==> u in s.markers && s'.markers[u] == s.markers[u]
  }

  lemma SessionCallsMark(s: State, c: Call, u: UserId)
    requires (c.Login? || c.Refresh? || c.Logout? || c.Authenticate?) && !Marks(s, c, u)
    ensures SameMarker(s, Request(s, c).0, u)
  {
    match c
    case Login(email, password, gate) => LoginOutcome(s, c);
    case Refresh(t) => RefreshOutcome(s, c);
    case Logout(t) => assert Serve(s, c) == LogoutCall(s, t);
    case Authenticate(t) => assert Serve(s, c) == AuthenticateCall(s, t);
  }

  lemma MarkersOnlyWhenMarked(s: State, e: Event, u: UserId)
    requires e.Do? ==> !Marks(s, e.call, u)
    ensures SameMarker(s, Next(s, e), u)
  {
    if e.Do? {
      var c := e.call;
      if c.ChangePassword? || c.ResetPassword? || c.Deactivate? || c.SetStatus? {
        EndingCalls(s, c);
      } else if c.Login? || c.Refresh? || c.Logout? || c.Authenticate? {
        SessionCallsMark(s, c, u);
      } else {
        AccountCallsAreQuiet(s, c);
      }
    }
  }

  /** A token of a later second than its user's last revocation works until it expires: the
      denylist never refuses it, and the inclusive cutoff costs only the revocation's own second. */
  lemma {:induction false} LaterTokensSurvive(s: State, es: seq<Event>, t: TokenId)
    requires Inv(s) && t in s.issued && s.issued[t].kind == AccessToken && Unmarked(s, s.issued[t])
    requires NeverMarks(s, es, s.issued[t].sub)
    ensures Accepted(Run(s, es), t) <==> Run(s, es).now < s.issued[t].exp * SECOND
    decreases |es|
  {
    if es != [] {
      MarkersOnlyWhenMarked(s, es[0], s.issued[t].sub);
      RunKeeps(s, [es[0]]);
      assert Run(s, [es[0]]) == Run(Next(s, es[0]), []);
      LaterTokensSurvive(Next(s, es[0]), es[1..], t);
    }
  }

  // ------------------------------------------------------------ refresh tokens

  predicate RowRevoked(s: State, t: TokenId) { t in s.rows && s.rows[t].revokedAt.Some? }

  lemma RotationRevokes(s: State, t: TokenId)
    requires TokensOk(s) && Request(s, Refresh(t)).1.Tokens?
    ensures RowRevoked(Request(s, Refresh(t)).0, t)
  {
    assert TokenOk(s, t);
  }

  lemma RevokedIsNotRotated(s: State, t: TokenId)
    requires RowRevoked(s, t)
    ensures !Request(s, Refresh(t)).1.Tokens?
  {
  }

  lemma RevokedStays(s: State, es: seq<Event>, t: TokenId)
    requires Inv(s) && RowRevoked(s, t)
    ensures RowRevoked(Run(s, es), t)
  {
    RunKeeps(s, es);
  }

  /** A refresh token is rotated at most once in any run. */
  lemma RotatedOnce(start: nat, cfg: Config, past: seq<Event>, t: TokenId, future: seq<Event>)
    requires Request(Reached(start, cfg, past), Refresh(t)).1.Tokens?
    ensures !Request(Run(Request(Reached(start, cfg, past), Refresh(t)).0, future), Refresh(t)).1.Tokens?
  {
    var s := Reached(start, cfg, past);
    ReachedInv(start, cfg, past);
    RequestKeeps(s, Refresh(t));
    RotationRevokes(s, t);
    RevokedStays(Request(s, Refresh(t)).0, future, t);
    RevokedIsNotRotated(Run(Request(s, Refresh(t)).0, future), t);
  }

  /** Reuse detection fires exactly for a presentable refresh token whose row was revoked: mere
      expiry never reaches it, since a JWT expires no later than its row. A live row always
      belongs to an active user, so the "user gone" branch behind it is never taken. */
  lemma ReuseMeansRevoked(start: nat, cfg: Config, es: seq<Event>, t: TokenId)
    requires var s := Reached(start, cfg, es); Decodes(s, t) && s.issued[t].kind == RefreshToken
    ensures var s := Reached(start, cfg, es);
            && t in s.rows
            && (Request(s, Refresh(t)).1 == Refused(RevokedOrUnknown) <==> s.rows[t].revokedAt.Some?)
            && Request(s, Refresh(t)).1 != Refused(UserNotActive)
  {
    var s := Reached(start, cfg, es);
    ReachedInv(start, cfg, es);
    assert TokenOk(s, t);
  }

  lemma ReplayIsServed(s: State, t: TokenId)
    requires Request(s, Refresh(t)).1 == Refused(RevokedOrUnknown)
    ensures Decodes(s, t)
    ensures Serve(s, Refresh(t)).0 == EndSessions(s, s.issued[t].sub)
    ensures Request(s, Refresh(t)).0 == s.(markers := EndSessions(s, s.issued[t].sub).markers)
  {
  }

  /** What a replay commits. The service ends every session of the user, but the request fails,
      so the row revocations are rolled back and only the denylist marker stays: access tokens
      die, refresh tokens live exactly as before. */
  lemma ReplayCommits(start: nat, cfg: Config, es: seq<Event>, t: TokenId)
    requires Request(Reached(start, cfg, es), Refresh(t)).1 == Refused(RevokedOrUnknown)
    ensures var s := Reached(start, cfg, es);
            var u, served, committed := s.issued[t].sub, Serve(s, Refresh(t)).0, Request(s, Refresh(t)).0;
            && LiveTokens(served, u) == {}
            && LiveTokens(committed, u) == LiveTokens(s, u)
            && (forall a | a in s.issued && s.issued[a].sub == u :: !Accepted(committed, a))
  {
    var s := Reached(start, cfg, es);
    var u, committed := s.issued[t].sub, Request(s, Refresh(t)).0;
    ReachedInv(start, cfg, es);
    RequestKeeps(s, Refresh(t));
    ReplayIsServed(s, t);
    EndedHasNoSession(s, u);
    assert LiveTokens(EndSessions(s, u), u) == {};
    forall a | a in s.issued && s.issued[a].sub == u ensures !Accepted(committed, a) {
      MarkedIsRefused(s, committed, a);
    }
  }

  lemma MarkedIsRefused(s: State, committed: State, a: TokenId)
    requires Inv(s) && Inv(committed) && a in s.issued && committed.issued == s.issued
    requires committed.markers == EndSessions(s, s.issued[a].sub).markers
    ensures !Accepted(committed, a)
  {
    assert TokenOk(s, a);
    CoveredIsRefused(committed, a);
  }

  function LiveTokens(s: State, u: UserId): set<TokenId> {
    set t | t in s.rows && s.rows[t].user == u && Live(s, t)
  }

  /** Successful logins since the user's sessions were last ended, `n` of them before the run. */
  function Logins(s: State, es: seq<Event>, u: UserId, n: nat): nat
    decreases |es|
  {
    if es == [] then n else Logins(Next(s, es[0]), es[1..], u, LoginsAfter(s, es[0], u, n))
  }

  function LoginsAfter(s: State, e: Event, u: UserId, n: nat): nat {
    if e.Tick? then n else
      var reply := Request(s, e.call).1;
      if e.call.Login? && reply.Tokens? && reply.user == u then n + 1
      else if reply.Done? && Ends(s, e.call) == Some(u) then 0
      else n
  }

  lemma FewerLive(s: State, s': State, u: UserId, gained: set<TokenId>)
    requires LiveTokens(s', u) <= LiveTokens(s, u) + gained
    ensures |LiveTokens(s', u)| <= |LiveTokens(s, u)| + |gained|
  {
    Contained(LiveTokens(s', u), LiveTokens(s, u) + gained);
  }

  lemma {:induction false} Contained(a: set<TokenId>, b: set<TokenId>)
    requires a <= b
    ensures |a| <= |b|
  {
    if a != {} {
      var x :| x in a;
      Contained(a - {x}, b - {x});
    }
  }

  lemma LoginGains(s: State, c: Call, u: UserId)
    requires c.Login?
    ensures var (s', reply) := Request(s, c);
            LiveTokens(s', u) <=
              LiveTokens(s, u) + if reply.Tokens? && reply.user == u then {reply.refresh} else {}
  {
    LoginOutcome(s, c);
  }

  lemma RefreshGains(s: State, c: Call, u: UserId)
    requires Inv(s) && c.Refresh?
    ensures var (s', reply) := Request(s, c);
            if reply.Tokens? && reply.user == u
            then c.token in LiveTokens(s, u) && LiveTokens(s', u) <= LiveTokens(s, u) - {c.token} + {reply.refresh}
            else LiveTokens(s', u) <= LiveTokens(s, u)
  {
    if Request(s, c).1.Tokens? {
      assert TokenOk(s, c.token);
    }
  }

  lemma OtherCallsGainNothing(s: State, c: Call, u: UserId)
    requires !c.Login? && !c.Refresh?
    ensures !Request(s, c).1.Tokens? && LiveTokens(Request(s, c).0, u) <= LiveTokens(s, u)
  {
    match c
    case Logout(t) => assert Serve(s, c) == LogoutCall(s, t);
    case Authenticate(t) => assert Serve(s, c) == AuthenticateCall(s, t);
    case _ =>
      if c.ChangePassword? || c.ResetPassword? || c.Deactivate? || c.SetStatus? {
        EndingCalls(s, c);
      } else {
        AccountCallsAreQuiet(s, c);
      }
  }

  /** Refreshing is one out, one in: a user's live refresh tokens never outnumber the successful
      logins since the last time all sessions were ended. */
  lemma {:induction false} LiveTokensBounded(s: State, es: seq<Event>, u: UserId, n: nat)
    requires Inv(s) && |LiveTokens(s, u)| <= n
    ensures |LiveTokens(Run(s, es), u)| <= Logins(s, es, u, n)
    decreases |es|
  {
    if es != [] {
      var s' := Next(s, es[0]);
      RunKeeps(s, [es[0]]);
      assert Run(s, [es[0]]) == Run(s', []);
      LiveStep(s, es[0], u);
      LiveTokensBounded(s', es[1..], u, LoginsAfter(s, es[0], u, n));
    }
  }

  lemma LiveStep(s: State, e: Event, u: UserId)
    requires Inv(s)
    ensures |LiveTokens(Next(s, e), u)| <= LoginsAfter(s, e, u, |LiveTokens(s, u)|)
  {
    var s' := Next(s, e);
    if e.Tick? {
      FewerLive(s, s', u, {});
    } else {
      var c, reply := e.call, Request(s, e.call).1;
      if c.Login? {
        LoginGains(s, c, u);
        FewerLive(s, s', u, if reply.Tokens? && reply.user == u then {reply.refresh} else {});
      } else if c.Refresh? {
        RefreshGains(s, c, u);
        if reply.Tokens? && reply.user == u {
          Contained(LiveTokens(s', u), LiveTokens(s, u) - {c.token} + {reply.refresh});
        } else {
          FewerLive(s, s', u, {});
        }
      } else if reply.Done? && Ends(s, c) == Some(u) {
        EndCovers(s, c, u);
        assert LiveTokens(s', u) == {};
      } else {
        OtherCallsGainNothing(s, c, u);
        FewerLive(s, s', u, {});
      }
    }
  }

  // ------------------------------------------------------------ password-reset tokens

  ghost predicate Stale(s: State, t: TokenId) {
    && t in s.issued && s.issued[t].kind == ResetToken
    && s.issued[t].sub in s.users && s.users[s.issued[t].sub].hash != s.issued[t].pwf
  }

  lemma StaleStays(s: State, s': State, t: TokenId)
    requires Inv(s) && Stale(s, t) && Later(s, s')
    ensures Stale(s', t)
  {
    assert TokenOk(s, t);
  }

  function HashOf(s: State, u: UserId): Option<Hash> {
    if u in s.users then s.users[u].hash else None
  }

  /** Any change of a password, by whichever request, kills every reset token minted before it. */
  lemma PasswordChangeKillsResetTokens(start: nat, cfg: Config, past: seq<Event>, c: Call,
                                       future: seq<Event>, t: TokenId, password: string)
    requires var s := Reached(start, cfg, past);
             && t in s.issued && s.issued[t].kind == ResetToken
             && HashOf(Request(s, c).0, s.issued[t].sub) != HashOf(s, s.issued[t].sub)
    ensures !Request(Run(Request(Reached(start, cfg, past), c).0, future), ResetPassword(t, password)).1.Done?
  {
    var s := Reached(start, cfg, past);
    var s' := Request(s, c).0;
    ReachedInv(start, cfg, past);
    RequestKeeps(s, c);
    ChangedIsStale(s, s', t);
    RunKeeps(s', future);
    StaleStays(s', Run(s', future), t);
    StaleIsRefused(Run(s', future), t, password);
  }

  lemma ChangedIsStale(s: State, s': State, t: TokenId)
    requires Inv(s) && Later(s, s') && t in s.issued && s.issued[t].kind == ResetToken
    requires HashOf(s', s.issued[t].sub) != HashOf(s, s.issued[t].sub)
    ensures Stale(s', t)
  {
    assert TokenOk(s, t);
  }

  lemma StaleIsRefused(s: State, t: TokenId, password: string)
    requires Stale(s, t)
    ensures !Request(s, ResetPassword(t, password)).1.Done?
  {
    assert Serve(s, ResetPassword(t, password)) == ResetPasswordCall(s, t, password);
  }

  /** A reset token succeeds at most once. */
  lemma ResetTokenOnce(start: nat, cfg: Config, past: seq<Event>, t: TokenId, first: string,
                       future: seq<Event>, second: string)
    requires Request(Reached(start, cfg, past), ResetPassword(t, first)).1.Done?
    ensures !Request(Run(Request(Reached(start, cfg, past), ResetPassword(t, first)).0, future),
                     ResetPassword(t, second)).1.Done?
  {
    var s := Reached(start, cfg, past);
    ReachedInv(start, cfg, past);
    PasswordChangeKillsResetTokens(start, cfg, past, ResetPassword(t, first), future, t, second);
  }
}
