/** What each request answers and what it stores, call by call: who is let in, as whom, and which
    columns of which row change. */
module SessionAnswers {
  import opened Wrappers
  import opened Clock
  import opened TokenDenylist
  import opened Session
  import opened SessionSafety
  import opened SessionTheorems
  import LoginThrottle

  // ------------------------------------------------------------ tables

  /** Every account but `u` is as it was, and no account appeared or lost its email. */
  ghost predicate OthersKept(s: State, s': State, u: UserId) {
    && s'.emails == s.emails && s'.users.Keys == s.users.Keys && s'.cfg == s.cfg && s'.now == s.now
    && forall v | v in s.users && v != u :: s'.users[v] == s.users[v]
  }

  /** One new account, under the next id and the given email. */
  ghost predicate Joined(s: State, s': State, user: User) {
    && s'.users.Keys == s.users.Keys + {s.nextUser} && s'.users[s.nextUser] == user
    && (forall v | v in s.users && v != s.nextUser :: s'.users[v] == s.users[v])
    && s'.emails.Keys == s.emails.Keys + {user.email} && s'.emails[user.email] == s.nextUser
    && (forall e | e in s.emails && e != user.email :: s'.emails[e] == s.emails[e])
    && s'.cfg == s.cfg && s'.now == s.now
  }

  /** One new token with the given claims, under an unused id. */
  ghost predicate Minted(s: State, s': State, t: TokenId, c: Claims) {
    && s'.issued.Keys == s.issued.Keys + {t} && s'.issued[t] == c
    && forall a | a in s.issued && a != t :: s'.issued[a] == s.issued[a]
  }

  /** An access token, and a refresh token with its live row, for the user and for no one else. */
  ghost predicate SessionOpened(s: State, s': State, reply: Reply) {
    && reply.Tokens? && reply.access != reply.refresh
    && s'.issued.Keys == s.issued.Keys + {reply.access, reply.refresh}
    && s'.issued[reply.access]
       == Claims(AccessToken, reply.user, Sec(s.now), Sec(s.now) + 60 * s.cfg.accessMinutes, None)
    && s'.issued[reply.refresh]
       == Claims(RefreshToken, reply.user, Sec(s.now), Sec(s.now) + 86_400 * s.cfg.refreshDays, None)
    && reply.refresh in s'.rows
    && s'.rows[reply.refresh] == Row(reply.user, s.now + 86_400 * s.cfg.refreshDays * SECOND, None)
  }

  // ------------------------------------------------------------ login

  /** The credentials are those of the account. */
  predicate Right(s: State, u: UserId, email: string, password: string) {
    && u in s.users && s.users[u].email == email && s.users[u].active
    && s.users[u].hash.Some? && s.users[u].hash.value.password == password
  }

  /** Emails lead to their account, and every account is reached by its own. */
  ghost predicate AccountsOk(s: State) {
    && (forall u | u in s.users :: s.users[u].portal in s.cfg.portals)
    && (forall u | u in s.users :: s.users[u].email in s.emails && s.emails[s.users[u].email] == u)
  }

  /** What the look-up by email gives. */
  predicate Found(s: State, u: UserId, email: string, password: string) {
    && ByEmail(s, email) == Some(u) && u in s.users && s.users[u].email == email
    && s.users[u].hash.Some? && s.users[u].hash.value.password == password
  }

  lemma OneAccount(s: State, u: UserId, email: string, password: string)
    requires AccountsOk(s)
    ensures Right(s, u, email, password) <==> Found(s, u, email, password)
  {
  }

  /** The gate lets the login through and no lock is on. */
  predicate Admitted(s: State, email: string, gate: Gate) {
    gate != Failed && LoginThrottle.Wait(s.throttle, email, s.now).None?
  }

  /** Which answer a login gets. */
  lemma LoginAnswers(s: State, email: string, password: string, gate: Gate)
    requires UsersOk(s) && AccountsOk(s)
    ensures var reply := Request(s, Login(email, password, gate)).1;
            && (reply == Refused(CaptchaFailed) <==> gate == Failed)
            && (forall w: nat :: reply == Refused(AccountLocked(w)) <==>
                  gate != Failed && LoginThrottle.Wait(s.throttle, email, s.now) == Some(w))
            && (reply == Refused(InvalidCredentials) <==>
                  Admitted(s, email, gate) && forall u :: !Right(s, u, email, password))
            && (reply == Refused(EmailNotVerified) <==>
                  Admitted(s, email, gate) && exists u :: Right(s, u, email, password) && !s.users[u].verified)
            && (reply.Tokens? <==>
                  Admitted(s, email, gate) && exists u :: Right(s, u, email, password) && s.users[u].verified)
  {
    assert Serve(s, Login(email, password, gate)) == LoginCall(s, email, password, gate);
    forall u ensures Right(s, u, email, password) <==> Found(s, u, email, password) {
      OneAccount(s, u, email, password);
    }
    var found := ByEmail(s, email);
    if found.Some? { assert Right(s, found.value, email, password) <==> Found(s, found.value, email, password); }
  }

  /** Rows are only added. */
  ghost predicate RowsKept(s: State, s': State) { forall t | t in s.rows :: t in s'.rows && s'.rows[t] == s.rows[t] }

  lemma IssuedOpens(s: State, reply: Reply)
    requires TokensOk(s) && reply.Tokens? && reply.access == s.nextToken && reply.refresh == s.nextToken + 1
    ensures SessionOpened(s, Issued(s, reply.user), reply) && RowsKept(s, Issued(s, reply.user))
    ensures reply.access !in s.issued && reply.refresh !in s.issued
  {
    TokensBelow(s);
  }

  /** The credentials behind a granted login, and the reply. */
  lemma LoginIsGranted(s: State, email: string, password: string, gate: Gate)
    requires UsersOk(s) && Request(s, Login(email, password, gate)).1.Tokens?
    ensures var (s', reply) := Request(s, Login(email, password, gate));
            var u := reply.user;
            && Right(s, u, email, password) && s.users[u].verified
            && reply.portal == s.users[u].portal && reply.mustChange == s.users[u].mustChange
            && reply.access == s.nextToken && reply.refresh == s.nextToken + 1
            && s' == Issued(LoggedIn(s, u, s'.throttle), u)
  {
    assert Serve(s, Login(email, password, gate)) == LoginCall(s, email, password, gate);
  }

  /** Whose tokens a login hands out: those of the verified account with that email and password. Only that
      account's time of login changes. */
  lemma LoginOpens(s: State, email: string, password: string, gate: Gate)
    requires UsersOk(s) && TokensOk(s) && Request(s, Login(email, password, gate)).1.Tokens?
    ensures var (s', reply) := Request(s, Login(email, password, gate));
            var u := reply.user;
            && Right(s, u, email, password) && s.users[u].verified
            && reply.portal == s.users[u].portal && reply.mustChange == s.users[u].mustChange
            && SessionOpened(s, s', reply) && reply.access !in s.issued && reply.refresh !in s.issued
            && RowsKept(s, s') && s'.markers == s.markers
            && OthersKept(s, s', u) && s'.users[u] == s.users[u].(lastLogin := Some(s.now))
  {
    LoginIsGranted(s, email, password, gate);
    var (s', reply) := Request(s, Login(email, password, gate));
    var logged := LoggedIn(s, reply.user, s'.throttle);
    assert TokensOk(logged) by { forall t | t in logged.issued ensures TokenOk(logged, t) { assert TokenOk(s, t); } }
    IssuedOpens(logged, reply);
  }

  // ------------------------------------------------------------ refresh, logout, authentication

  /** When a refresh is granted, and the reply. */
  lemma RefreshIsGranted(s: State, t: TokenId)
    ensures var (s', reply) := Request(s, Refresh(t));
            && (reply.Tokens? <==>
                  && Decodes(s, t) && s.issued[t].kind == RefreshToken && Live(s, t)
                  && ActiveUser(s, s.issued[t].sub) && s.users[s.issued[t].sub].portal in s.cfg.portals)
            && (reply.Tokens? ==>
                  && reply.user == s.issued[t].sub && reply.portal == s.users[reply.user].portal
                  && reply.mustChange == s.users[reply.user].mustChange
                  && reply.access == s.nextToken && reply.refresh == s.nextToken + 1
                  && s' == Issued(RevokeRow(s, t), reply.user))
  {
    assert Serve(s, Refresh(t)) == RefreshCall(s, t);
  }

  /** A refresh is granted exactly for an unexpired refresh token with a live row of an active user of a
      seeded portal, and then opens a session of that very user in exchange for the row. */
  lemma RefreshOpens(s: State, t: TokenId)
    requires TokensOk(s) && MarkersOk(s)
    ensures var (s', reply) := Request(s, Refresh(t));
            && (reply.Tokens? <==>
                  && Decodes(s, t) && s.issued[t].kind == RefreshToken && Live(s, t)
                  && ActiveUser(s, s.issued[t].sub) && s.users[s.issued[t].sub].portal in s.cfg.portals)
            && (reply.Tokens? ==>
                  && reply.user == s.issued[t].sub && reply.portal == s.users[reply.user].portal
                  && reply.mustChange == s.users[reply.user].mustChange
                  && SessionOpened(s, s', reply) && reply.access !in s.issued && reply.refresh !in s.issued
                  && t in s'.rows && s'.rows[t] == s.rows[t].(revokedAt := Some(s.now))
                  && (forall r | r in s.rows && r != t :: r in s'.rows && s'.rows[r] == s.rows[r])
                  && s'.users == s.users && s'.emails == s.emails && s'.markers == s.markers)
  {
    RefreshIsGranted(s, t);
    if Request(s, Refresh(t)).1.Tokens? {
      RevokeRowTables(s, t);
      IssuedOpens(RevokeRow(s, t), Request(s, Refresh(t)).1);
    }
  }

  /** A logout revokes the presented token's live row and changes nothing else. */
  lemma LogoutDoes(s: State, t: TokenId)
    ensures var (s', reply) := Request(s, Logout(t));
            && reply == Done
            && s' == s.(rows := s'.rows) && s'.rows.Keys == s.rows.Keys
            && (forall r | r in s.rows ::
                  s'.rows[r] == if r == t && Live(s, t) then s.rows[r].(revokedAt := Some(s.now)) else s.rows[r])
  {
    assert Serve(s, Logout(t)) == LogoutCall(s, t);
  }

  /** A request is authenticated as the subject of an unexpired access token that no live marker covers,
      and as nobody else. */
  lemma AuthenticatedAs(s: State, t: TokenId, u: UserId)
    ensures Request(s, Authenticate(t)).1 == Principal(u) <==>
            && t in s.issued && s.issued[t].kind == AccessToken && s.issued[t].sub == u
            && s.now < s.issued[t].exp * SECOND
            && !(u in s.markers && s.now < s.markers[u].deadline && s.issued[t].iat <= s.markers[u].cutoff)
    ensures Request(s, Authenticate(t)).1.Principal? || Request(s, Authenticate(t)).1 == Refused(Unauthorized)
  {
    assert Serve(s, Authenticate(t)) == AuthenticateCall(s, t);
  }

  /** Login and authentication joined: in any later state, whoever is authenticated by the access token of a
      login is the account whose email and password were presented. */
  lemma LoginAuthenticatesItself(start: nat, cfg: Config, past: seq<Event>, email: string, password: string,
                                 gate: Gate, future: seq<Event>, u: UserId)
    requires Request(Reached(start, cfg, past), Login(email, password, gate)).1.Tokens?
    ensures var s := Reached(start, cfg, past);
            var (s', reply) := Request(s, Login(email, password, gate));
            Request(Run(s', future), Authenticate(reply.access)).1 == Principal(u) ==>
              Right(s, u, email, password) && s.users[u].verified
  {
    var s := Reached(start, cfg, past);
    ReachedInv(start, cfg, past);
    LoginOpens(s, email, password, gate);
    RequestKeeps(s, Login(email, password, gate));
    var (s', reply) := Request(s, Login(email, password, gate));
    RunKeeps(s', future);
    AuthenticatedAs(Run(s', future), reply.access, u);
  }

  /** The same for a refresh: the new access token authenticates the user of the presented refresh token. */
  lemma RefreshAuthenticatesItself(start: nat, cfg: Config, past: seq<Event>, t: TokenId, future: seq<Event>, u: UserId)
    requires Request(Reached(start, cfg, past), Refresh(t)).1.Tokens?
    ensures var s := Reached(start, cfg, past);
            var (s', reply) := Request(s, Refresh(t));
            Request(Run(s', future), Authenticate(reply.access)).1 == Principal(u) ==>
              t in s.issued && s.issued[t].sub == u
  {
    var s := Reached(start, cfg, past);
    ReachedInv(start, cfg, past);
    RefreshOpens(s, t);
    RequestKeeps(s, Refresh(t));
    var (s', reply) := Request(s, Refresh(t));
    RunKeeps(s', future);
    AuthenticatedAs(Run(s', future), reply.access, u);
  }

  // ------------------------------------------------------------ passwords

  /** The user's password is the new one under a fresh salt and no change is pending; nothing else of the
      account changed, and no other account did. */
  ghost predicate PasswordSet(s: State, s': State, u: UserId, password: string) {
    && u in s.users && OthersKept(s, s', u) && s'.nextSalt == s.nextSalt + 1
    && var a := s.users[u];
       s'.users[u] == User(a.email, Some(Hash(password, s.nextSalt)), a.portal, a.role, a.verified, a.active,
                           false, a.lastLogin)
  }

  /** A change needs the current password and a different new one. */
  lemma ChangePasswordDoes(s: State, u: UserId, current: string, password: string)
    ensures var (s', reply) := Request(s, ChangePassword(u, current, password));
            var knows := ActiveUser(s, u) && s.users[u].hash.Some? && s.users[u].hash.value.password == current;
            && (reply == Done <==> knows && password != current)
            && (reply == Refused(SamePassword) <==> knows && password == current)
            && (reply == Refused(InvalidCredentials) <==> !knows)
            && (if reply == Done then PasswordSet(s, s', u, password) else s' == s)
  {
    assert Serve(s, ChangePassword(u, current, password)) == ChangePasswordCall(s, u, current, password);
  }

  /** A reset needs an unexpired reset token minted against the password of today. */
  lemma ResetPasswordDoes(s: State, t: TokenId, password: string)
    ensures var (s', reply) := Request(s, ResetPassword(t, password));
            var named := Decodes(s, t) && s.issued[t].kind == ResetToken && ActiveUser(s, s.issued[t].sub)
                         && s.users[s.issued[t].sub].hash.Some?;
            && (reply == Done <==> named && s.issued[t].pwf == s.users[s.issued[t].sub].hash)
            && (reply == Refused(LinkUsed) <==> named && s.issued[t].pwf != s.users[s.issued[t].sub].hash)
            && (reply == Refused(InvalidToken) <==> !named)
            && (if reply == Done then PasswordSet(s, s', s.issued[t].sub, password) else s' == s)
            && (forall e | !(reply == Done && e == s.users[s.issued[t].sub].email) ::
                  LoginThrottle.Wait(s'.throttle, e, s.now) == LoginThrottle.Wait(s.throttle, e, s.now))
  {
    assert Serve(s, ResetPassword(t, password)) == ResetPasswordCall(s, t, password);
  }

  // ------------------------------------------------------------ status

  lemma DeactivateDoes(s: State, u: UserId)
    ensures var (s', reply) := Request(s, Deactivate(u));
            && reply == Done && OthersKept(s, s', u)
            && (u in s.users ==> s'.users[u] == s.users[u].(active := false))
  {
    assert Serve(s, Deactivate(u)) == DeactivateCall(s, u);
  }

  /** An admin switches a user on or off, except themselves off. Switching on re-hashes the password exactly
      for a user who was off and never used the first one. */
  lemma SetStatusDoes(s: State, actor: UserId, u: UserId, active: bool, password: string)
    ensures var (s', reply) := Request(s, SetStatus(actor, u, active, password));
            && (reply == Refused(SelfDeactivation) <==> !active && u == actor)
            && (reply == Refused(UserNotFound) <==> (active || u != actor) && u !in s.users)
            && (reply == Done <==> (active || u != actor) && u in s.users)
            && (reply != Done ==> s' == s)
            && (reply == Done ==>
                  && OthersKept(s, s', u)
                  && s'.users[u].active == active
                  && s'.users[u] == s.users[u].(active := s'.users[u].active, hash := s'.users[u].hash)
                  && s'.users[u].hash ==
                     if active && !s.users[u].active && s.users[u].mustChange && s.users[u].lastLogin.None?
                     then Some(Hash(password, s.nextSalt)) else s.users[u].hash)
  {
    SetStatusOutcome(s, SetStatus(actor, u, active, password));
    assert Serve(s, SetStatus(actor, u, active, password)) == SetStatusCall(s, actor, u, active, password);
  }

  // ------------------------------------------------------------ accounts

  /** A registration needs the gate and the portal; one that is refused changes nothing. */
  lemma RegisterAnswers(s: State, email: string, password: string, gate: Gate)
    requires UsersOk(s)
    ensures var (s', reply) := Request(s, Register(email, password, gate));
            && (reply == Refused(CaptchaFailed) <==> gate == Failed || gate == Unavailable)
            && (reply == Done ==> Candidate in s.cfg.portals)
            && (reply.Refused? ==> s' == s)
  {
    assert Serve(s, Register(email, password, gate)) == RegisterCall(s, email, password, gate);
  }

  /** An unknown email becomes a new, active but unverified candidate with the candidate role. */
  lemma RegisterNew(s: State, email: string, password: string, gate: Gate)
    requires UsersOk(s) && (gate == Off || gate == Success) && Candidate in s.cfg.portals && email !in s.emails
    ensures var (s', reply) := Request(s, Register(email, password, gate));
            if s.cfg.candidateRole.Some? then
              && reply == Done
              && Joined(s, s', User(email, Some(Hash(password, s.nextSalt)), Candidate, s.cfg.candidateRole.value,
                                    false, true, false, None))
            else s' == s && reply == Refused(NotConfigured)
  {
    assert Serve(s, Register(email, password, gate)) == RegisterCall(s, email, password, gate);
  }

  /** A closed candidate account gets the new password and stays closed; an unfinished sign-up is left
      alone; any other account of the email is a conflict. */
  lemma RegisterKnown(s: State, email: string, password: string, gate: Gate)
    requires UsersOk(s) && (gate == Off || gate == Success) && Candidate in s.cfg.portals && email in s.emails
    ensures var (s', reply) := Request(s, Register(email, password, gate));
            var u := s.emails[email];
            var a := s.users[u];
            if a.portal == Candidate && !a.active then
              && reply == Done && OthersKept(s, s', u)
              && s'.users[u] == User(a.email, Some(Hash(password, s.nextSalt)), Candidate, a.role, a.verified,
                                     false, a.mustChange, a.lastLogin)
            else
              s' == s && reply == if a.portal == Candidate && !a.verified then Done else Refused(EmailExists)
  {
    assert Serve(s, Register(email, password, gate)) == RegisterCall(s, email, password, gate);
  }

  /** A staff account is verified, must change its password, and has the role asked for. */
  lemma CreateStaffDoes(s: State, email: string, password: string, active: bool, role: RoleId)
    ensures var (s', reply) := Request(s, CreateStaff(email, password, active, role));
            && (reply == Refused(RoleNotFound) <==> role !in s.cfg.roles)
            && (reply == Refused(EmailExists) <==> role in s.cfg.roles && email in s.emails)
            && (reply == Done <==> role in s.cfg.roles && email !in s.emails && Staff in s.cfg.portals)
            && (if reply == Done
                then Joined(s, s', User(email, Some(Hash(password, s.nextSalt)), Staff, role, true, active, true, None))
                else s' == s)
  {
    assert Serve(s, CreateStaff(email, password, active, role)) == CreateStaffCall(s, email, password, active, role);
  }

  /** The bootstrap's account is verified, active, and keeps its password; an existing one is left alone. */
  lemma InstallAdminDoes(s: State, email: string, password: string, role: RoleId)
    ensures var (s', reply) := Request(s, InstallAdmin(email, password, role));
            && (reply == Done <==> Staff in s.cfg.portals)
            && (if reply == Done && email !in s.emails
                then Joined(s, s', User(email, Some(Hash(password, s.nextSalt)), Staff, role, true, true, false, None))
                else s' == s)
  {
    assert Serve(s, InstallAdmin(email, password, role)) == InstallAdminCall(s, email, password, role);
  }

  /** A link works exactly for an unexpired verification token of an account that is not both active and
      verified, and makes it both. */
  lemma VerifyEmailDoes(s: State, t: TokenId)
    ensures var (s', reply) := Request(s, VerifyEmail(t));
            var named := Decodes(s, t) && s.issued[t].kind == VerificationToken && s.issued[t].sub in s.users;
            var used := named && s.users[s.issued[t].sub].active && s.users[s.issued[t].sub].verified;
            && (reply == Refused(InvalidToken) <==> !named)
            && (reply == Refused(LinkUsed) <==> used)
            && (reply == Done <==> named && !used)
            && (if reply == Done
                then OthersKept(s, s', s.issued[t].sub)
                     && s'.users[s.issued[t].sub] == s.users[s.issued[t].sub].(active := true, verified := true)
                else s' == s)
  {
    assert Serve(s, VerifyEmail(t)) == VerifyEmailCall(s, t);
  }

  /** Links name the user they were asked for. A reset link carries today's password and lasts an hour, and
      is minted for active users with a password only. */
  lemma LinksDo(s: State, u: UserId)
    ensures var (s', reply) := Request(s, SendLink(u));
            && (reply == Done <==> u in s.users) && s' == s.(issued := s'.issued, nextToken := s'.nextToken)
            && if u in s.users
               then Minted(s, s', s.nextToken, Claims(VerificationToken, u, Sec(s.now), Sec(s.now) + 86_400, None))
               else s' == s
    ensures var (s', reply) := Request(s, SendResetLink(u));
            && reply == Done && s' == s.(issued := s'.issued, nextToken := s'.nextToken)
            && if ActiveUser(s, u) && s.users[u].hash.Some?
               then Minted(s, s', s.nextToken, Claims(ResetToken, u, Sec(s.now), Sec(s.now) + 3600, s.users[u].hash))
               else s' == s
  {
    assert Serve(s, SendLink(u)) == SendLinkCall(s, u);
    assert Serve(s, SendResetLink(u)) == SendResetLinkCall(s, u);
  }

  // ------------------------------------------------------------ other people's sessions

  /** Rows and marker of the user are as they were. */
  ghost predicate SessionsSpared(s: State, s': State, v: UserId) {
    && (forall t | t in s.rows && s.rows[t].user == v :: t in s'.rows && s'.rows[t] == s.rows[t])
    && (forall t | t in s'.rows && s'.rows[t].user == v :: t in s.rows)
    && (v in s.markers <==> v in s'.markers) && (v in s.markers ==> s'.markers[v] == s.markers[v])
  }

  /** Ending one user's sessions spares everyone else's. */
  lemma EndingSparesOthers(s: State, c: Call, v: UserId)
    requires (c.ChangePassword? || c.ResetPassword? || c.Deactivate? || c.SetStatus?) && Ends(s, c) != Some(v)
    ensures SessionsSpared(s, Request(s, c).0, v)
  {
    EndingCalls(s, c);
  }

  /** A replayed refresh token marks the user it names and nobody else. */
  lemma ReplaySparesOthers(s: State, t: TokenId, v: UserId)
    requires Request(s, Refresh(t)).1 == Refused(RevokedOrUnknown) && s.issued[t].sub != v
    ensures SessionsSpared(s, Request(s, Refresh(t)).0, v)
  {
    ReplayIsServed(s, t);
  }

  /** What ending a user's sessions writes: every live row of theirs is revoked now, and their marker covers
      this second and lasts for the access-token lifetime and a minute. */
  lemma EndingWrites(s: State, c: Call, u: UserId)
    requires (c.ChangePassword? || c.ResetPassword? || c.Deactivate? || c.SetStatus?)
    requires Request(s, c).1.Done? && Ends(s, c) == Some(u)
    ensures var s' := Request(s, c).0;
            && s'.issued == s.issued && s'.rows.Keys == s.rows.Keys
            && (forall t | t in s.rows ::
                  s'.rows[t] == if s.rows[t].user == u && s.rows[t].revokedAt.None? && s.now < s.rows[t].expiresAt
                                then Row(u, s.rows[t].expiresAt, Some(s.now)) else s.rows[t])
            && u in s'.markers
            && s'.markers[u] == Marker(Sec(s.now), s.now + (60 * s.cfg.accessMinutes + 60) * SECOND)
  {
    EndingCalls(s, c);
  }
}
