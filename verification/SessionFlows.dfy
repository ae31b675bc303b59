/** Flows that span two requests: what a login, a logout and a reset are worth to the next one. */
module SessionFlows {
  import opened Wrappers
  import opened Clock
  import opened TokenDenylist
  import opened Session
  import opened SessionSafety
  import opened SessionTheorems
  import opened SessionAnswers
  import LoginThrottle

  // ------------------------------------------------------------ logout

  /** The token can no longer be refreshed: it is no refresh token, or its row is revoked or past. */
  ghost predicate Spent(s: State, t: TokenId) {
    && t in s.issued
    && (s.issued[t].kind == RefreshToken ==>
          t in s.rows && (s.rows[t].revokedAt.Some? || s.rows[t].expiresAt <= s.now))
  }

  lemma LogoutSpends(s: State, t: TokenId)
    requires Inv(s) && t in s.issued
    ensures Spent(Request(s, Logout(t)).0, t)
  {
    assert TokenOk(s, t);
  }

  lemma SpentStays(s: State, es: seq<Event>, t: TokenId)
    requires Inv(s) && Spent(s, t)
    ensures Spent(Run(s, es), t)
  {
    RunKeeps(s, es);
  }

  lemma SpentIsNotRotated(s: State, t: TokenId)
    requires Spent(s, t)
    ensures !Request(s, Refresh(t)).1.Tokens?
  {
  }

  /** After a logout the presented token is never rotated again, whatever it was and whatever follows. */
  lemma LoggedOutNeverRefreshes(start: nat, cfg: Config, past: seq<Event>, t: TokenId, future: seq<Event>)
    requires t in Reached(start, cfg, past).issued
    ensures !Request(Run(Request(Reached(start, cfg, past), Logout(t)).0, future), Refresh(t)).1.Tokens?
  {
    var s := Reached(start, cfg, past);
    ReachedInv(start, cfg, past);
    RequestKeeps(s, Logout(t));
    LogoutSpends(s, t);
    SpentStays(Request(s, Logout(t)).0, future, t);
    SpentIsNotRotated(Run(Request(s, Logout(t)).0, future), t);
  }

  // ------------------------------------------------------------ login

  /** A live marker of the very second a token would be issued in. */
  predicate MarkedThisSecond(s: State, u: UserId) {
    u in s.markers && s.now < s.markers[u].deadline && s.markers[u].cutoff == Sec(s.now)
  }

  lemma IssuedIsAccepted(s: State, u: UserId)
    requires MarkersOk(s) && s.cfg.accessMinutes > 0
    ensures Accepted(Issued(s, u), s.nextToken) <==> !MarkedThisSecond(s, u)
  {
    var s' := Issued(s, u);
    var c := s'.issued[s.nextToken];
    assert c == Claims(AccessToken, u, Sec(s.now), Sec(s.now) + AccessSeconds(s.cfg), None);
    assert s.now < (Sec(s.now) + 1) * SECOND <= c.exp * SECOND;
  }

  /** A login's access token is accepted at once, unless the user's sessions were ended in the very
      same second: the cutoff is inclusive, so such a login yields a token that never works. */
  lemma FreshLoginIsAccepted(start: nat, cfg: Config, es: seq<Event>, email: string, password: string, gate: Gate)
    requires cfg.accessMinutes > 0
    requires Request(Reached(start, cfg, es), Login(email, password, gate)).1.Tokens?
    ensures var s := Reached(start, cfg, es);
            var (s', reply) := Request(s, Login(email, password, gate));
            Accepted(s', reply.access) <==> !MarkedThisSecond(s, reply.user)
  {
    var s := Reached(start, cfg, es);
    ReachedInv(start, cfg, es);
    CfgStays(start, cfg, es);
    var c := Login(email, password, gate);
    LoginOutcome(s, c);
    var (served, reply) := LoginCall(s, email, password, gate);
    var logged := LoggedIn(s, reply.user, served.throttle);
    IssuedIsAccepted(logged, reply.user);
  }

  lemma CfgStays(start: nat, cfg: Config, es: seq<Event>)
    ensures Reached(start, cfg, es).cfg == cfg
  {
    RunKeeps(Start(start, cfg), es);
  }

  // ------------------------------------------------------------ accounts and their emails

  /** What a call may do to the user table: keep emails and portals, or add accounts of known portals
      under emails of their own. */
  ghost predicate AccountsKept(s: State, s': State) {
    && s'.cfg == s.cfg
    && (forall e | e in s.emails :: e in s'.emails && s'.emails[e] == s.emails[e])
    && (forall u | u in s'.users ::
          || (u in s.users && s'.users[u].portal == s.users[u].portal && s'.users[u].email == s.users[u].email)
          || (s'.users[u].portal in s.cfg.portals
              && s'.users[u].email in s'.emails && s'.emails[s'.users[u].email] == u))
  }

  lemma ChangeKeepsAccounts(s: State, s': State, u: UserId)
    requires OthersKept(s, s', u)
    requires u in s.users ==> s'.users[u].portal == s.users[u].portal && s'.users[u].email == s.users[u].email
    ensures AccountsKept(s, s')
  {
  }

  lemma JoinKeepsAccounts(s: State, s': State, user: User)
    requires UsersOk(s) && Joined(s, s', user) && user.portal in s.cfg.portals && user.email !in s.emails
    ensures AccountsKept(s, s')
  {
  }

  lemma SessionCallsKeepAccounts(s: State, c: Call)
    requires UsersOk(s) && (c.Login? || c.Refresh? || c.Logout? || c.Authenticate?)
    ensures AccountsKept(s, Request(s, c).0)
  {
    match c
    case Login(email, password, gate) =>
      LoginOutcome(s, c);
      if Request(s, c).1.Tokens? { LoginIsGranted(s, email, password, gate); }
    case Refresh(_) => RefreshOutcome(s, c);
    case Logout(t) => LogoutDoes(s, t);
    case Authenticate(t) => assert Serve(s, c) == AuthenticateCall(s, t);
  }

  lemma PasswordCallsKeepAccounts(s: State, c: Call)
    requires c.ChangePassword? || c.ResetPassword?
    ensures AccountsKept(s, Request(s, c).0)
  {
    match c
    case ChangePassword(u, current, password) =>
      ChangePasswordDoes(s, u, current, password);
      if Request(s, c).1 == Done { ChangeKeepsAccounts(s, Request(s, c).0, u); }
    case ResetPassword(t, password) =>
      ResetPasswordDoes(s, t, password);
      if Request(s, c).1 == Done { ChangeKeepsAccounts(s, Request(s, c).0, s.issued[t].sub); }
  }

  lemma StatusCallsKeepAccounts(s: State, c: Call)
    requires c.Deactivate? || c.SetStatus? || c.VerifyEmail?
    ensures AccountsKept(s, Request(s, c).0)
  {
    match c
    case Deactivate(u) =>
      DeactivateDoes(s, u);
      ChangeKeepsAccounts(s, Request(s, c).0, u);
    case SetStatus(actor, u, active, password) =>
      SetStatusDoes(s, actor, u, active, password);
      if Request(s, c).1 == Done { ChangeKeepsAccounts(s, Request(s, c).0, u); }
    case VerifyEmail(t) =>
      VerifyEmailDoes(s, t);
      if Request(s, c).1 == Done { ChangeKeepsAccounts(s, Request(s, c).0, s.issued[t].sub); }
  }

  lemma RegisterKeepsAccounts(s: State, c: Call)
    requires UsersOk(s) && c.Register?
    ensures AccountsKept(s, Request(s, c).0)
  {
    RegisterAnswers(s, c.email, c.password, c.gate);
    var (s', reply) := Request(s, c);
    if reply == Done {
      if c.email in s.emails {
        RegisterKnown(s, c.email, c.password, c.gate);
        if s' != s { ChangeKeepsAccounts(s, s', s.emails[c.email]); }
      } else {
        RegisterNew(s, c.email, c.password, c.gate);
        JoinKeepsAccounts(s, s', s'.users[s.nextUser]);
      }
    }
  }

  lemma StaffCallsKeepAccounts(s: State, c: Call)
    requires UsersOk(s) && (c.CreateStaff? || c.InstallAdmin?)
    ensures AccountsKept(s, Request(s, c).0)
  {
    var s' := Request(s, c).0;
    match c
    case CreateStaff(email, password, active, role) =>
      CreateStaffDoes(s, email, password, active, role);
      if s' != s { JoinKeepsAccounts(s, s', s'.users[s.nextUser]); }
    case InstallAdmin(email, password, role) =>
      InstallAdminDoes(s, email, password, role);
      if s' != s { JoinKeepsAccounts(s, s', s'.users[s.nextUser]); }
  }

  lemma CallKeepsAccounts(s: State, c: Call)
    requires UsersOk(s)
    ensures AccountsKept(s, Request(s, c).0)
  {
    match c
    case Login(_, _, _) => SessionCallsKeepAccounts(s, c);
    case Refresh(_) => SessionCallsKeepAccounts(s, c);
    case Logout(_) => SessionCallsKeepAccounts(s, c);
    case Authenticate(_) => SessionCallsKeepAccounts(s, c);
    case ChangePassword(_, _, _) => PasswordCallsKeepAccounts(s, c);
    case ResetPassword(_, _) => PasswordCallsKeepAccounts(s, c);
    case Deactivate(_) => StatusCallsKeepAccounts(s, c);
    case SetStatus(_, _, _, _) => StatusCallsKeepAccounts(s, c);
    case VerifyEmail(_) => StatusCallsKeepAccounts(s, c);
    case Register(_, _, _) => RegisterKeepsAccounts(s, c);
    case CreateStaff(_, _, _, _) => StaffCallsKeepAccounts(s, c);
    case InstallAdmin(_, _, _) => StaffCallsKeepAccounts(s, c);
    case SendLink(u) => LinksDo(s, u);
    case SendResetLink(u) => LinksDo(s, u);
  }

  lemma {:induction false} RunKeepsAccounts(s: State, es: seq<Event>)
    requires Inv(s) && AccountsOk(s)
    ensures AccountsOk(Run(s, es))
    decreases |es|
  {
    if es != [] {
      if es[0].Do? {
        CallKeepsAccounts(s, es[0].call);
        RequestKeeps(s, es[0].call);
      } else {
        TickKeeps(s, es[0].elapsed);
      }
      RunKeepsAccounts(Next(s, es[0]), es[1..]);
    }
  }

  lemma ReachedAccounts(start: nat, cfg: Config, es: seq<Event>)
    ensures AccountsOk(Reached(start, cfg, es)) && Inv(Reached(start, cfg, es))
  {
    ReachedInv(start, cfg, es);
    RunKeepsAccounts(Start(start, cfg), es);
  }

  /** Who gets in, in every reachable state: a login that passes the gate and meets no lock is granted
      exactly when some verified, active account has that email and password, and then opens a session
      of that account. */
  lemma WhoLogsIn(start: nat, cfg: Config, es: seq<Event>, email: string, password: string, gate: Gate)
    ensures var s := Reached(start, cfg, es);
            var (s', reply) := Request(s, Login(email, password, gate));
            && (reply.Tokens? <==>
                  Admitted(s, email, gate) && exists u :: Right(s, u, email, password) && s.users[u].verified)
            && (reply.Tokens? ==>
                  && Right(s, reply.user, email, password) && s.users[reply.user].verified
                  && reply.portal == s.users[reply.user].portal
                  && reply.mustChange == s.users[reply.user].mustChange
                  && SessionOpened(s, s', reply))
  {
    var s := Reached(start, cfg, es);
    ReachedAccounts(start, cfg, es);
    LoginAnswers(s, email, password, gate);
    if Request(s, Login(email, password, gate)).1.Tokens? { LoginOpens(s, email, password, gate); }
  }

  /** An account once created never fails to log in or refresh for want of its portal. */
  lemma PortalsNeverMissing(start: nat, cfg: Config, es: seq<Event>, c: Call)
    requires c.Login? || c.Refresh?
    ensures Request(Reached(start, cfg, es), c).1 != Refused(NotConfigured)
  {
    ReachedAccounts(start, cfg, es);
  }

  // ------------------------------------------------------------ sign-up, link, login

  /** The way in of a candidate: after registering under a new email the password is right and the account
      unverified; the link sent to it verifies it; then the login is granted, as that account. */
  lemma SignUpThenLogin(start: nat, cfg: Config, es: seq<Event>, email: string, password: string, gate: Gate)
    requires var s := Reached(start, cfg, es);
             && email !in s.emails && (gate == Off || gate == Success) && Admitted(s, email, gate)
             && Request(s, Register(email, password, gate)).1 == Done
    ensures var s := Reached(start, cfg, es);
            var joined := Request(s, Register(email, password, gate)).0;
            var u := s.nextUser;
            var linked := Request(joined, SendLink(u)).0;
            var (verified, reply) := Request(linked, VerifyEmail(joined.nextToken));
            && Request(joined, Login(email, password, gate)).1 == Refused(EmailNotVerified)
            && reply == Done
            && Request(verified, Login(email, password, gate)).1.Tokens?
            && Request(verified, Login(email, password, gate)).1.user == u
  {
    var s := Reached(start, cfg, es);
    ReachedAccounts(start, cfg, es);
    RegisterAnswers(s, email, password, gate);
    RegisterNew(s, email, password, gate);
    var register := Register(email, password, gate);
    var joined, u := Request(s, register).0, s.nextUser;
    RequestKeeps(s, register);
    CallKeepsAccounts(s, register);
    RegisterIsSilent(s, email, password, gate);
    assert Right(joined, u, email, password) && !joined.users[u].verified;
    LoginAnswers(joined, email, password, gate);
    LinkVerifies(joined, u);
    var linked := Request(joined, SendLink(u)).0;
    var verified := Request(linked, VerifyEmail(joined.nextToken)).0;
    RequestKeeps(joined, SendLink(u));
    CallKeepsAccounts(joined, SendLink(u));
    RequestKeeps(linked, VerifyEmail(joined.nextToken));
    CallKeepsAccounts(linked, VerifyEmail(joined.nextToken));
    LoginAnswers(verified, email, password, gate);
    assert Right(verified, u, email, password) && verified.users[u].verified;
    OneAccount(verified, u, email, password);
    if Request(verified, Login(email, password, gate)).1.Tokens? {
      LoginOpens(verified, email, password, gate);
      OneAccount(verified, Request(verified, Login(email, password, gate)).1.user, email, password);
    }
  }

  lemma RegisterIsSilent(s: State, email: string, password: string, gate: Gate)
    ensures Request(s, Register(email, password, gate)).0.throttle == s.throttle
  {
    assert Serve(s, Register(email, password, gate)) == RegisterCall(s, email, password, gate);
  }

  /** A link that was just sent verifies its unverified account and changes nothing else. */
  lemma LinkVerifies(s: State, u: UserId)
    requires u in s.users && !s.users[u].verified
    ensures var linked := Request(s, SendLink(u)).0;
            var (verified, reply) := Request(linked, VerifyEmail(s.nextToken));
            && reply == Done && verified.throttle == s.throttle && OthersKept(s, verified, u)
            && verified.users[u] == s.users[u].(active := true, verified := true)
  {
    LinksDo(s, u);
    var linked := Request(s, SendLink(u)).0;
    assert Decodes(linked, s.nextToken);
    VerifyEmailDoes(linked, s.nextToken);
    assert Serve(linked, VerifyEmail(s.nextToken)) == VerifyEmailCall(linked, s.nextToken);
  }

  // ------------------------------------------------------------ reset, then login

  lemma ResetLeaves(s: State, t: TokenId, password: string)
    requires Request(s, ResetPassword(t, password)).1.Done?
    ensures var (s', u) := (Request(s, ResetPassword(t, password)).0, s.issued[t].sub);
            && s'.emails == s.emails && s'.now == s.now && u in s.users
            && s'.users == s.users[u := s'.users[u]] && s'.users[u].active && s'.users[u].email == s.users[u].email
            && s'.users[u].verified == s.users[u].verified && s'.users[u].portal == s.users[u].portal && s'.cfg == s.cfg
            && s'.users[u].hash.Some? && s'.users[u].hash.value.password == password
            && LoginThrottle.Wait(s'.throttle, s.users[u].email, s.now).None?
  {
    assert Serve(s, ResetPassword(t, password)) == ResetPasswordCall(s, t, password);
  }

  /** Right after a reset the account is open, even if the throttle had locked it: a login of a
      verified user that passes the anti-bot gate succeeds exactly with the new password. */
  lemma LoginAfterReset(start: nat, cfg: Config, past: seq<Event>, t: TokenId, password: string,
                        email: string, attempt: string, gate: Gate)
    requires var s := Reached(start, cfg, past);
             && Request(s, ResetPassword(t, password)).1.Done?
             && ByEmail(s, email) == Some(s.issued[t].sub) && s.users[s.issued[t].sub].verified && gate != Failed
    ensures var s := Reached(start, cfg, past);
            var s' := Request(s, ResetPassword(t, password)).0;
            Request(s', Login(email, attempt, gate)).1.Tokens? <==> attempt == password
  {
    var s := Reached(start, cfg, past);
    ReachedInv(start, cfg, past);
    ReachedAccounts(start, cfg, past);
    ResetLeaves(s, t, password);
    var s' := Request(s, ResetPassword(t, password)).0;
    assert s.users[s.issued[t].sub].email == email;
    assert ByEmail(s', email) == ByEmail(s, email);
    assert Serve(s', Login(email, attempt, gate)) == LoginCall(s', email, attempt, gate);
  }
}
