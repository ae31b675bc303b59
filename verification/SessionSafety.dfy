/** What every run of the session machine keeps, and which credentials can ever be used again. */
module SessionSafety {
  import opened Wrappers
  import opened Clock
  import opened TokenDenylist
  import opened Session
  import LoginThrottle

  // ------------------------------------------------------------ the invariant

  ghost predicate TokenOk(s: State, t: TokenId)
    requires t in s.issued
  {
    var c := s.issued[t];
    && t < s.nextToken && c.sub in s.users && c.iat <= Sec(s.now)
    && (c.kind == AccessToken ==> c.exp == c.iat + AccessSeconds(s.cfg))
    && (c.kind == RefreshToken ==>
          t in s.rows && s.rows[t].user == c.sub && c.exp * SECOND <= s.rows[t].expiresAt)
    && (c.kind == ResetToken ==> c.pwf.Some? && c.pwf.value.salt < s.nextSalt)
  }

  ghost predicate TokensOk(s: State) {
    && (forall t | t in s.issued :: TokenOk(s, t))
    && (forall t | t in s.rows :: t in s.issued && s.issued[t].kind == RefreshToken)
  }

  /** A marker outlives every token it covers. */
  ghost predicate MarkersOk(s: State) {
    forall u | u in s.markers ::
      && s.markers[u].cutoff <= Sec(s.now)
      && (s.markers[u].cutoff + MarkerSeconds(s.cfg)) * SECOND <= s.markers[u].deadline
  }

  ghost predicate UsersOk(s: State) {
    && (forall u | u in s.users ::
          u < s.nextUser && (s.users[u].hash.Some? ==> s.users[u].hash.value.salt < s.nextSalt))
    && (forall e | e in s.emails :: s.emails[e] in s.users && s.users[s.emails[e]].email == e)
  }

  /** Expired, or under its user's marker: `get_current_user` refuses such a token for ever. */
  ghost predicate Covered(s: State, c: Claims) {
    || s.now >= c.exp * SECOND
    || (c.sub in s.markers && c.iat <= s.markers[c.sub].cutoff)
  }

  ghost predicate NoSession(s: State, u: UserId) {
    && (forall t | t in s.rows && s.rows[t].user == u :: !Live(s, t))
    && (forall t | t in s.issued && s.issued[t].kind == AccessToken && s.issued[t].sub == u :: Covered(s, s.issued[t]))
  }

  ghost predicate InactiveOk(s: State) {
    forall u | u in s.users && !s.users[u].active :: NoSession(s, u)
  }

  ghost predicate Inv(s: State) {
    TokensOk(s) && MarkersOk(s) && UsersOk(s) && InactiveOk(s)
  }

  // ------------------------------------------------------------ what no step undoes

  ghost predicate TokensStay(s: State, s': State) {
    && (forall t | t in s.issued :: t in s'.issued && s'.issued[t] == s.issued[t])
    && (forall t | t in s.rows ::
          t in s'.rows && s'.rows[t].user == s.rows[t].user && s'.rows[t].expiresAt == s.rows[t].expiresAt)
    && (forall t | t in s.rows && s.rows[t].revokedAt.Some? :: s'.rows[t].revokedAt.Some?)
  }

  ghost predicate CoverStays(s: State, s': State) {
    forall t | t in s.issued && s.issued[t].kind == AccessToken && Covered(s, s.issued[t]) :: Covered(s', s.issued[t])
  }

  /** A password either stays as it is or becomes one with a fresh salt. */
  ghost predicate HashesFresh(s: State, s': State) {
    && s.nextSalt <= s'.nextSalt
    && forall u | u in s.users ::
         u in s'.users &&
         (s'.users[u].hash == s.users[u].hash || (s'.users[u].hash.Some? && s'.users[u].hash.value.salt >= s.nextSalt))
  }

  ghost predicate Later(s: State, s': State) {
    && s.now <= s'.now && s.cfg == s'.cfg && s.nextToken <= s'.nextToken
    && TokensStay(s, s') && CoverStays(s, s') && HashesFresh(s, s')
  }

  /** What one request must establish. Compared with `true`, the conjunction stays one proof goal; bare,
      it would be split into the dozen quantifiers below it at every use. */
  ghost predicate Keeps(s: State, s': State) {
    (Inv(s') && Later(s, s')) == true
  }

  /** Once expired or marked, always so: a marker is deleted only after the last token it covers
      has expired, and is overwritten only by a later one. */
  lemma CoverSurvives(s: State, s': State)
    requires TokensOk(s) && MarkersOk(s) && s.cfg == s'.cfg && s.now <= s'.now
    requires forall u | u in s.markers ::
               || (u in s'.markers && s.markers[u].cutoff <= s'.markers[u].cutoff)
               || (u !in s'.markers && s.markers[u].deadline <= s'.now)
    ensures CoverStays(s, s')
  {
    forall t | t in s.issued && s.issued[t].kind == AccessToken && Covered(s, s.issued[t])
      ensures Covered(s', s.issued[t])
    {
      assert TokenOk(s, t);
    }
  }

  lemma EndedHasNoSession(s: State, u: UserId)
    requires TokensOk(s)
    ensures NoSession(EndSessions(s, u), u)
  {
    var s' := EndSessions(s, u);
    forall t | t in s'.issued && s'.issued[t].kind == AccessToken && s'.issued[t].sub == u
      ensures Covered(s', s'.issued[t])
    {
      assert TokenOk(s, t);
    }
  }

  // ------------------------------------------------------------ one step keeps the invariant

  lemma NoSessionStays(s: State, s': State, u: UserId)
    requires NoSession(s, u) && Later(s, s')
    requires forall t | t in s'.rows && t !in s.rows :: s'.rows[t].user != u
    requires forall t | t in s'.issued && t !in s.issued && s'.issued[t].kind == AccessToken :: s'.issued[t].sub != u
    ensures NoSession(s', u)
  {
    forall t | t in s'.rows && s'.rows[t].user == u ensures !Live(s', t) {
      assert !Live(s, t);
    }
    forall t | t in s'.issued && s'.issued[t].kind == AccessToken && s'.issued[t].sub == u
      ensures Covered(s', s'.issued[t])
    {
      assert Covered(s, s.issued[t]);
    }
  }

  /** Steps that hand out no refresh or access token and may only switch users on. */
  lemma QuietStep(s: State, s': State)
    requires Inv(s) && Later(s, s') && TokensOk(s') && MarkersOk(s') && UsersOk(s')
    requires s'.rows.Keys == s.rows.Keys
    requires forall t | t in s'.issued && t !in s.issued :: s'.issued[t].kind != AccessToken
    requires forall u | u in s'.users && !s'.users[u].active :: u !in s.users || !s.users[u].active
    ensures Inv(s')
  {
    forall u | u in s'.users && !s'.users[u].active ensures NoSession(s', u) {
      if u in s.users {
        NoSessionStays(s, s', u);
      } else {
        assert forall t | t in s.issued :: TokenOk(s, t);
      }
    }
  }

  lemma EndTables(s: State, u: UserId)
    requires TokensOk(s) && MarkersOk(s)
    ensures TokensOk(EndSessions(s, u)) && MarkersOk(EndSessions(s, u)) && CoverStays(s, EndSessions(s, u))
  {
    TokensUntouched(s, EndSessions(s, u));
    CoverSurvives(s, EndSessions(s, u));
  }

  lemma EndIsLater(s: State, u: UserId)
    requires TokensOk(s) && MarkersOk(s)
    ensures Later(s, EndSessions(s, u))
  {
    EndTables(s, u);
  }

  lemma EndKeeps(s: State, u: UserId)
    requires TokensOk(s) && MarkersOk(s) && UsersOk(s)
    requires forall v | v in s.users && !s.users[v].active && v != u :: NoSession(s, v)
    ensures Keeps(s, EndSessions(s, u))
  {
    var s' := EndSessions(s, u);
    EndTables(s, u);
    EndIsLater(s, u);
    EndedHasNoSession(s, u);
    forall v | v in s'.users && !s'.users[v].active ensures NoSession(s', v) {
      if v != u { NoSessionStays(s, s', v); }
    }
  }

  /** Ids at or above the counter are unused. */
  lemma TokensBelow(s: State)
    requires TokensOk(s)
    ensures forall t | t in s.issued || t in s.rows :: t < s.nextToken
  {
    forall t | t in s.issued ensures t < s.nextToken { assert TokenOk(s, t); }
  }

  lemma IssuedTokensOk(s: State, u: UserId)
    requires TokensOk(s) && u in s.users
    ensures TokensOk(Issued(s, u))
  {
    var s' := Issued(s, u);
    forall t | t in s'.issued ensures TokenOk(s', t) {
      if t in s.issued { assert TokenOk(s, t); }
    }
  }

  lemma IssuedIsLater(s: State, u: UserId)
    requires TokensOk(s) && MarkersOk(s)
    ensures Later(s, Issued(s, u))
  {
    TokensBelow(s);
    CoverSurvives(s, Issued(s, u));
  }

  lemma IssueKeeps(s: State, u: UserId)
    requires Inv(s) && ActiveUser(s, u)
    ensures Keeps(s, Issued(s, u))
  {
    var s' := Issued(s, u);
    IssuedTokensOk(s, u);
    IssuedIsLater(s, u);
    forall v | v in s'.users && !s'.users[v].active ensures NoSession(s', v) {
      NoSessionStays(s, s', v);
    }
  }

  lemma MintKeeps(s: State, kind: Kind, u: UserId, seconds: nat, pwf: Option<Hash>)
    requires Inv(s) && u in s.users && kind in {VerificationToken, ResetToken}
    requires kind == ResetToken ==> pwf.Some? && pwf == s.users[u].hash
    ensures Keeps(s, Mint(s, kind, u, seconds, pwf))
  {
    var s' := Mint(s, kind, u, seconds, pwf);
    assert TokensOk(s') by {
      forall t | t in s'.issued ensures TokenOk(s', t) {
        if t in s.issued { assert TokenOk(s, t); }
      }
    }
    assert TokensStay(s, s') by {
      forall t | t in s.issued ensures t < s.nextToken { assert TokenOk(s, t); }
    }
    CoverSurvives(s, s');
    QuietStep(s, s');
  }

  /** Any change of users, markers, throttle and rows that leaves tokens alone. */
  lemma TokensUntouched(s: State, s': State)
    requires TokensOk(s) && s'.issued == s.issued && s'.cfg == s.cfg && s'.nextToken == s.nextToken
    requires s.now <= s'.now && s.nextSalt <= s'.nextSalt && s.users.Keys <= s'.users.Keys
    requires s'.rows.Keys == s.rows.Keys
    requires forall t | t in s.rows :: s'.rows[t].user == s.rows[t].user && s'.rows[t].expiresAt == s.rows[t].expiresAt
    ensures TokensOk(s')
  {
    assert Sec(s.now) <= Sec(s'.now);
    forall t | t in s'.issued ensures TokenOk(s', t) { assert TokenOk(s, t); }
  }

  lemma UserChangeIsLater(s: State, u: UserId, user: User, salts: nat)
    requires TokensOk(s) && MarkersOk(s) && u in s.users && salts >= s.nextSalt
    requires user.hash == s.users[u].hash || (user.hash.Some? && s.nextSalt <= user.hash.value.salt < salts)
    ensures Later(s, s.(users := s.users[u := user], nextSalt := salts))
  {
    CoverSurvives(s, s.(users := s.users[u := user], nextSalt := salts));
  }

  lemma UserChangeKeeps(s: State, u: UserId, user: User, salts: nat)
    requires Inv(s) && u in s.users && user.email == s.users[u].email && (user.active || !s.users[u].active)
    requires salts >= s.nextSalt
    requires user.hash == s.users[u].hash || (user.hash.Some? && s.nextSalt <= user.hash.value.salt < salts)
    ensures Keeps(s, s.(users := s.users[u := user], nextSalt := salts))
  {
    var s' := s.(users := s.users[u := user], nextSalt := salts);
    TokensUntouched(s, s');
    UserChangeIsLater(s, u, user, salts);
    QuietStep(s, s');
  }

  lemma AddUserKeeps(s: State, email: string, password: string, portal: Portal, role: RoleId, active: bool,
                     mustChange: bool)
    requires Inv(s) && email !in s.emails
    ensures Keeps(s, AddUser(s, email, password, portal, role, active, mustChange))
  {
    var s' := AddUser(s, email, password, portal, role, active, mustChange);
    TokensUntouched(s, s');
    CoverSurvives(s, s');
    QuietStep(s, s');
  }

  /** A new password, the flags of the row as given, and the end of every session. */
  lemma PasswordAndEndKeeps(s: State, u: UserId, user: User, salts: nat)
    requires Inv(s) && u in s.users && user.email == s.users[u].email && salts >= s.nextSalt
    requires user.hash == s.users[u].hash || (user.hash.Some? && s.nextSalt <= user.hash.value.salt < salts)
    ensures var s' := EndSessions(s.(users := s.users[u := user], nextSalt := salts), u); Keeps(s, s')
  {
    var changed := s.(users := s.users[u := user], nextSalt := salts);
    TokensUntouched(s, changed);
    UserChangeIsLater(s, u, user, salts);
    forall v | v in changed.users && !changed.users[v].active && v != u ensures NoSession(changed, v) {
      NoSessionStays(s, changed, v);
    }
    EndKeeps(changed, u);
    LaterTransitive(s, changed, EndSessions(changed, u));
  }

  lemma LaterTransitive(a: State, b: State, c: State)
    requires Later(a, b) && Later(b, c)
    ensures Later(a, c)
  {
  }

  lemma LaterReflexive(s: State)
    ensures Later(s, s)
  {
  }

  lemma ThrottleKeeps(s: State, throttle: LoginThrottle.Memory)
    requires Inv(s)
    ensures Keeps(s, s.(throttle := throttle))
  {
    var s' := s.(throttle := throttle);
    TokensUntouched(s, s');
    CoverSurvives(s, s');
    QuietStep(s, s');
  }

  /** Expired markers dropped, or new ones set: what the denylist does outside a transaction. */
  lemma MarkersKeep(s: State, markers: Markers)
    requires Inv(s) && MarkersOk(s.(markers := markers))
    requires forall u | u in s.markers ::
               || (u in markers && s.markers[u].cutoff <= markers[u].cutoff)
               || (u !in markers && s.markers[u].deadline <= s.now)
    ensures Keeps(s, s.(markers := markers))
  {
    var s' := s.(markers := markers);
    TokensUntouched(s, s');
    CoverSurvives(s, s');
    QuietStep(s, s');
  }

  lemma TickKeeps(s: State, elapsed: nat)
    requires Inv(s)
    ensures Keeps(s, Next(s, Tick(elapsed)))
  {
    var s' := Next(s, Tick(elapsed));
    TokensUntouched(s, s');
    CoverSurvives(s, s');
    QuietStep(s, s');
  }

  lemma RevokeRowTables(s: State, t: TokenId)
    requires TokensOk(s) && MarkersOk(s) && t in s.rows
    ensures TokensOk(RevokeRow(s, t)) && CoverStays(s, RevokeRow(s, t))
  {
    TokensUntouched(s, RevokeRow(s, t));
    CoverSurvives(s, RevokeRow(s, t));
  }

  lemma RevokeRowIsLater(s: State, t: TokenId)
    requires TokensOk(s) && MarkersOk(s) && t in s.rows
    ensures Later(s, RevokeRow(s, t))
  {
    RevokeRowTables(s, t);
  }

  lemma RevokeRowKeeps(s: State, t: TokenId)
    requires Inv(s) && t in s.rows
    ensures Keeps(s, RevokeRow(s, t))
  {
    RevokeRowTables(s, t);
    RevokeRowIsLater(s, t);
    QuietStep(s, RevokeRow(s, t));
  }

  lemma LoggedInKeeps(s: State, u: UserId, throttle: LoginThrottle.Memory)
    requires Inv(s) && ActiveUser(s, u)
    ensures Keeps(s, LoggedIn(s, u, throttle))
  {
    var user := s.users[u].(lastLogin := Some(s.now));
    var changed := s.(users := s.users[u := user], nextSalt := s.nextSalt);
    UserChangeKeeps(s, u, user, s.nextSalt);
    ThrottleKeeps(changed, throttle);
    assert LoggedIn(s, u, throttle) == changed.(throttle := throttle);
    LaterTransitive(s, changed, LoggedIn(s, u, throttle));
  }

  lemma LoggedInAndIssuedKeeps(s: State, u: UserId, throttle: LoginThrottle.Memory)
    requires Inv(s) && ActiveUser(s, u)
    ensures Keeps(s, Issued(LoggedIn(s, u, throttle), u))
  {
    var logged := LoggedIn(s, u, throttle);
    LoggedInKeeps(s, u, throttle);
    IssueKeeps(logged, u);
    LaterTransitive(s, logged, Issued(logged, u));
  }

  /** A login either issues tokens to an active user or changes the throttle alone. */
  lemma LoginOutcome(s: State, c: Call)
    requires c.Login?
    ensures var (served, reply) := LoginCall(s, c.email, c.password, c.gate);
            if reply.Tokens?
            then && ActiveUser(s, reply.user)
                 && Request(s, c).0 == Issued(LoggedIn(s, reply.user, served.throttle), reply.user)
            else Request(s, c).0 == s.(throttle := served.throttle)
  {
  }

  lemma LoginKeeps(s: State, c: Call)
    requires Inv(s) && c.Login?
    ensures Keeps(s, Request(s, c).0)
  {
    var (served, reply) := LoginCall(s, c.email, c.password, c.gate);
    LoginOutcome(s, c);
    if reply.Tokens? {
      LoggedInAndIssuedKeeps(s, reply.user, served.throttle);
    } else {
      ThrottleKeeps(s, served.throttle);
    }
  }

  /** A refresh either rotates a live row of an active user or changes the markers alone. */
  lemma RefreshOutcome(s: State, c: Call)
    requires c.Refresh?
    ensures var (served, reply) := RefreshCall(s, c.token);
            if reply.Tokens?
            then && ActiveUser(s, reply.user) && Live(s, c.token)
                 && Request(s, c).0 == Issued(RevokeRow(s, c.token), reply.user)
            else Request(s, c).0 == s.(markers := served.markers)
  {
  }

  lemma EndMarkersKeep(s: State, u: UserId)
    requires Inv(s)
    ensures Keeps(s, s.(markers := EndSessions(s, u).markers))
  {
    MarkersKeep(s, EndSessions(s, u).markers);
  }

  lemma RefreshServes(s: State, t: TokenId)
    ensures RefreshCall(s, t).0.markers ==
            if RefreshCall(s, t).1 == Refused(RevokedOrUnknown) then EndSessions(s, s.issued[t].sub).markers
            else s.markers
  {
  }

  lemma RefreshMarkers(s: State, c: Call)
    requires Inv(s) && c.Refresh?
    ensures Keeps(s, s.(markers := RefreshCall(s, c.token).0.markers))
  {
    RefreshServes(s, c.token);
    if RefreshCall(s, c.token).1 == Refused(RevokedOrUnknown) {
      EndMarkersKeep(s, s.issued[c.token].sub);
    } else {
      LaterReflexive(s);
      assert s.(markers := s.markers) == s;
    }
  }

  lemma RotationKeeps(s: State, t: TokenId, u: UserId)
    requires Inv(s) && t in s.rows && ActiveUser(s, u)
    ensures Keeps(s, Issued(RevokeRow(s, t), u))
  {
    var rotated := RevokeRow(s, t);
    RevokeRowKeeps(s, t);
    IssueKeeps(rotated, u);
    LaterTransitive(s, rotated, Issued(rotated, u));
  }

  lemma RefreshKeeps(s: State, c: Call)
    requires Inv(s) && c.Refresh?
    ensures Keeps(s, Request(s, c).0)
  {
    RefreshOutcome(s, c);
    if RefreshCall(s, c.token).1.Tokens? {
      RotationKeeps(s, c.token, RefreshCall(s, c.token).1.user);
    } else {
      RefreshMarkers(s, c);
    }
  }

  lemma NewPasswordKeeps(s: State, u: UserId, password: string)
    requires Inv(s) && u in s.users
    ensures Keeps(s, NewPassword(s, u, password))
  {
    var user := s.users[u].(hash := Some(Hash(password, s.nextSalt)), mustChange := false);
    var s' := NewPassword(s, u, password);
    PasswordAndEndKeeps(s, u, user, s.nextSalt + 1);
    assert s' == EndSessions(s.(users := s.users[u := user], nextSalt := s.nextSalt + 1), u);
  }

  lemma ChangePasswordKeeps(s: State, c: Call)
    requires Inv(s) && c.ChangePassword?
    ensures Keeps(s, Request(s, c).0)
  {
    var (s', reply) := ChangePasswordCall(s, c.user, c.current, c.password);
    if reply.Done? {
      NewPasswordKeeps(s, c.user, c.password);
      assert Request(s, c).0 == s';
    } else {
      assert Request(s, c).0 == s;
      LaterReflexive(s);
    }
  }

  /** A reset either sets a new password and lifts the lock, or changes nothing. */
  lemma ResetOutcome(s: State, c: Call)
    requires c.ResetPassword?
    ensures var (s', reply) := Request(s, c);
            if reply.Done?
            then && c.token in s.issued && s.issued[c.token].sub in s.users
                 && s' == NewPassword(s, s.issued[c.token].sub, c.password).(throttle := s'.throttle)
            else s' == s
  {
    assert Serve(s, c) == ResetPasswordCall(s, c.token, c.password);
  }

  lemma ResetPasswordKeeps(s: State, c: Call)
    requires Inv(s) && c.ResetPassword?
    ensures Keeps(s, Request(s, c).0)
  {
    ResetOutcome(s, c);
    var (s', reply) := Request(s, c);
    if reply.Done? {
      var changed := NewPassword(s, s.issued[c.token].sub, c.password);
      NewPasswordKeeps(s, s.issued[c.token].sub, c.password);
      ThrottleKeeps(changed, s'.throttle);
      LaterTransitive(s, changed, s');
    } else {
      LaterReflexive(s);
    }
  }

  /** The row and the salt counter after an admin switches a user on. */
  function SwitchedOn(s: State, u: UserId, password: string): (User, nat)
    requires u in s.users
  {
    var user := s.users[u].(active := true);
    if !s.users[u].active && user.mustChange && user.lastLogin.None?
    then (user.(hash := Some(Hash(password, s.nextSalt))), s.nextSalt + 1) else (user, s.nextSalt)
  }

  lemma SetStatusOutcome(s: State, c: Call)
    requires c.SetStatus?
    ensures var (s', reply) := Request(s, c);
            if !reply.Done? then s' == s
            else && c.user in s.users
                 && if c.active then
                      var (user, salts) := SwitchedOn(s, c.user, c.password);
                      s' == s.(users := s.users[c.user := user], nextSalt := salts)
                    else
                      s' == EndSessions(s.(users := s.users[c.user := s.users[c.user].(active := false)],
                                           nextSalt := s.nextSalt), c.user)
  {
    assert Serve(s, c) == SetStatusCall(s, c.actor, c.user, c.active, c.password);
  }

  lemma SetStatusKeeps(s: State, c: Call)
    requires Inv(s) && c.SetStatus?
    ensures Keeps(s, Request(s, c).0)
  {
    SetStatusOutcome(s, c);
    if !Request(s, c).1.Done? {
      LaterReflexive(s);
    } else if c.active {
      var (user, salts) := SwitchedOn(s, c.user, c.password);
      UserChangeKeeps(s, c.user, user, salts);
    } else {
      PasswordAndEndKeeps(s, c.user, s.users[c.user].(active := false), s.nextSalt);
    }
  }

  lemma DeactivateKeeps(s: State, c: Call)
    requires Inv(s) && c.Deactivate?
    ensures Keeps(s, Request(s, c).0)
  {
    if ActiveUser(s, c.user) {
      PasswordAndEndKeeps(s, c.user, s.users[c.user].(active := false), s.nextSalt);
    } else {
      EndKeeps(s, c.user);
    }
  }

  lemma RegisterKeeps(s: State, c: Call)
    requires Inv(s) && c.Register?
    ensures Keeps(s, Request(s, c).0)
  {
    var s' := Request(s, c).0;
    if s' == s {
      LaterReflexive(s);
    } else if c.email !in s.emails {
      var role := s.cfg.candidateRole.value;
      AddUserKeeps(s, c.email, c.password, Candidate, role, true, false);
      assert s' == AddUser(s, c.email, c.password, Candidate, role, true, false);
    } else {
      var u := s.emails[c.email];
      assert s' == SetPassword(s, u, c.password);
      UserChangeKeeps(s, u, s'.users[u], s'.nextSalt);
      assert s' == s.(users := s.users[u := s'.users[u]], nextSalt := s'.nextSalt);
    }
  }

  lemma LinkKeeps(s: State, c: Call)
    requires Inv(s) && (c.SendLink? || c.SendResetLink?)
    ensures Keeps(s, Request(s, c).0)
  {
    if c.SendLink? && c.user in s.users {
      MintKeeps(s, VerificationToken, c.user, 24 * 3600, None);
    }
    if c.SendResetLink? && ActiveUser(s, c.user) && s.users[c.user].hash.Some? {
      MintKeeps(s, ResetToken, c.user, 3600, s.users[c.user].hash);
    }
  }

  lemma VerifyKeeps(s: State, c: Call)
    requires Inv(s) && c.VerifyEmail?
    ensures Keeps(s, Request(s, c).0)
  {
    var (s', reply) := VerifyEmailCall(s, c.token);
    if reply.Done? {
      var u := s.issued[c.token].sub;
      UserChangeKeeps(s, u, s.users[u].(active := true, verified := true), s.nextSalt);
    }
  }

  lemma LogoutKeeps(s: State, c: Call)
    requires Inv(s) && c.Logout?
    ensures Keeps(s, Request(s, c).0)
  {
    if Live(s, c.token) { RevokeRowKeeps(s, c.token); } else { LaterReflexive(s); }
  }

  lemma AuthenticateKeeps(s: State, c: Call)
    requires Inv(s) && c.Authenticate?
    ensures Keeps(s, Request(s, c).0)
  {
    var served := AuthenticateCall(s, c.token).0;
    MarkersKeep(s, served.markers);
    assert Request(s, c).0 == s.(markers := served.markers);
  }

  lemma CreateStaffKeeps(s: State, c: Call)
    requires Inv(s) && c.CreateStaff?
    ensures Keeps(s, Request(s, c).0)
  {
    if Request(s, c).1.Done? {
      AddUserKeeps(s, c.email, c.password, Staff, c.role, c.active, true);
    } else {
      LaterReflexive(s);
    }
  }

  lemma InstallAdminKeeps(s: State, c: Call)
    requires Inv(s) && c.InstallAdmin?
    ensures Keeps(s, Request(s, c).0)
  {
    if Staff in s.cfg.portals && c.email !in s.emails {
      AddUserKeeps(s, c.email, c.password, Staff, c.role, true, false);
    } else {
      LaterReflexive(s);
    }
  }

  lemma RequestKeeps(s: State, c: Call)
    requires Inv(s)
    ensures Keeps(s, Request(s, c).0)
  {
    match c
    case Login(_, _, _) => LoginKeeps(s, c);
    case Refresh(_) => RefreshKeeps(s, c);
    case Logout(_) => LogoutKeeps(s, c);
    case ChangePassword(_, _, _) => ChangePasswordKeeps(s, c);
    case ResetPassword(_, _) => ResetPasswordKeeps(s, c);
    case Deactivate(_) => DeactivateKeeps(s, c);
    case SetStatus(_, _, _, _) => SetStatusKeeps(s, c);
    case Authenticate(_) => AuthenticateKeeps(s, c);
    case Register(_, _, _) => RegisterKeeps(s, c);
    case CreateStaff(_, _, _, _) => CreateStaffKeeps(s, c);
    case InstallAdmin(_, _, _) => InstallAdminKeeps(s, c);
    case VerifyEmail(_) => VerifyKeeps(s, c);
    case SendLink(_) => LinkKeeps(s, c);
    case SendResetLink(_) => LinkKeeps(s, c);
  }

  lemma {:induction false} RunKeeps(s: State, es: seq<Event>)
    requires Inv(s)
    ensures Inv(Run(s, es)) && Later(s, Run(s, es))
    decreases |es|
  {
    if es != [] {
      var s' := Next(s, es[0]);
      match es[0] {
        case Tick(d) => TickKeeps(s, d);
        case Do(c) => RequestKeeps(s, c);
      }
      RunKeeps(s', es[1..]);
      LaterTransitive(s, s', Run(s', es[1..]));
    }
  }
}
