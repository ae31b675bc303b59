/** The authentication service as it runs: repositories, denylist and throttle updated in place,
    each call proved against its meaning in `Session`. */
module AuthServices {
  import opened Wrappers
  import opened Clock
  import opened Session
  import opened SessionSafety
  import opened TokenDenylist
  import Throttle = LoginThrottle

  class RefreshTokenRepository {
    var rows: map<TokenId, Row>

    constructor ()
      ensures rows == map[]
    {
      rows := map[];
    }

    method GetValidByHash(t: TokenId, now: nat) returns (found: bool)
      ensures found == (t in rows && LiveRow(rows[t], now))
    {
      found := t in rows && rows[t].revokedAt.None? && rows[t].expiresAt > now;
    }

    method Add(t: TokenId, row: Row)
      modifies this
      ensures rows == old(rows)[t := row]
    {
      rows := rows[t := row];
    }

    method Revoke(t: TokenId, now: nat)
      requires t in rows
      modifies this
      ensures rows == old(rows)[t := old(rows)[t].(revokedAt := Some(now))]
    {
      rows := rows[t := rows[t].(revokedAt := Some(now))];
    }

    method RevokeAllByUserId(u: UserId, now: nat)
      modifies this
      ensures rows == AllRevoked(old(rows), u, now)
    {
      var pending := set t | t in rows && rows[t].user == u && rows[t].revokedAt.None? && rows[t].expiresAt > now;
      while pending != {}
        invariant rows.Keys == old(rows).Keys
        invariant pending <= rows.Keys
        invariant forall t | t in rows ::
                    rows[t] == if t in pending then old(rows)[t] else AllRevoked(old(rows), u, now)[t]
        invariant forall t | t in pending :: old(rows)[t].user == u && LiveRow(old(rows)[t], now)
      {
        var t :| t in pending;
        rows := rows[t := rows[t].(revokedAt := Some(now))];
        pending := pending - {t};
      }
    }
  }

  class AuthService {
    const refreshTokens: RefreshTokenRepository
    const denylist: InMemoryTokenDenylist
    const throttle: Throttle.InMemoryLoginThrottle
    const cfg: Config
    var clock: nat
    var users: map<UserId, User>
    var emails: map<string, UserId>
    var issued: map<TokenId, Claims>
    var nextUser: UserId
    var nextToken: TokenId
    var nextSalt: nat

    ghost function View(): State
      reads this, refreshTokens, denylist, throttle
    {
      State(clock, users, emails, refreshTokens.rows, issued, denylist.cutoffs, throttle.View(),
            nextUser, nextToken, nextSalt, cfg)
    }

    constructor (start: nat, cfg: Config)
      ensures View() == Start(start, cfg) && Inv(View())
    {
      this.refreshTokens := new RefreshTokenRepository();
      this.denylist := new InMemoryTokenDenylist();
      this.throttle := new Throttle.InMemoryLoginThrottle();
      this.cfg := cfg;
      clock, users, emails, issued := start, map[], map[], map[];
      nextUser, nextToken, nextSalt := 0, 0, 0;
    }

    method Tick(elapsed: nat)
      modifies this
      ensures View() == Next(old(View()), Event.Tick(elapsed))
      ensures old(Inv(View())) ==> Inv(View()) && Later(old(View()), View())
    {
      ghost var s := View();
      clock := clock + elapsed;
      assert View() == Next(s, Event.Tick(elapsed));
      if Inv(s) { TickKeeps(s, elapsed); }
    }

    method Mint(kind: Kind, sub: UserId, seconds: nat, pwf: Option<Hash>) returns (t: TokenId)
      modifies this
      ensures View() == Session.Mint(old(View()), kind, sub, seconds, pwf) && t == old(nextToken)
    {
      t := nextToken;
      issued := issued[t := Claims(kind, sub, Sec(clock), Sec(clock) + seconds, pwf)];
      nextToken := nextToken + 1;
    }

    method HashPassword(password: string) returns (h: Hash)
      modifies this`nextSalt
      ensures h == Hash(password, old(nextSalt)) && nextSalt == old(nextSalt) + 1
    {
      h := Hash(password, nextSalt);
      nextSalt := nextSalt + 1;
    }

    method RevokeAccessTokens(u: UserId)
      modifies denylist
      ensures denylist.cutoffs == AfterRevoke(old(denylist.cutoffs), u, MarkerSeconds(cfg), clock)
    {
      var ttl := cfg.accessMinutes * 60 + 60;
      denylist.RevokeUser(u, ttl, clock);
    }

    method GetByEmail(email: string) returns (found: Option<UserId>)
      ensures found == ByEmail(View(), email)
    {
      if email !in emails {
        return None;
      }
      var u := emails[email];
      if u !in users || !users[u].active {
        return None;
      }
      return Some(u);
    }

    method IssueTokens(u: UserId) returns (reply: Reply)
      requires u in users
      modifies this, refreshTokens
      ensures (View(), reply) == Session.IssueTokens(old(View()), u)
    {
      if users[u].portal !in cfg.portals {
        return Refused(NotConfigured);
      }
      var access := Mint(AccessToken, u, cfg.accessMinutes * 60, None);
      var refresh := Mint(RefreshToken, u, cfg.refreshDays * 86_400, None);
      refreshTokens.Add(refresh, Row(u, clock + cfg.refreshDays * 86_400 * SECOND, None));
      return Tokens(u, access, refresh, users[u].portal, users[u].mustChange);
    }

    method Login(email: string, password: string, gate: Gate) returns (reply: Reply)
      modifies this, refreshTokens, throttle
      ensures (View(), reply) == LoginCall(old(View()), email, password, gate)
    {
      if gate == Failed {
        return Refused(CaptchaFailed);
      }
      var locked := throttle.LockedFor(email, clock);
      if locked.Some? {
        return Refused(AccountLocked(locked.value));
      }
      var found := GetByEmail(email);
      if found.None? || users[found.value].hash.None? {
        throttle.RecordFailure(email, clock);
        return Refused(InvalidCredentials);
      }
      var u := found.value;
      if users[u].hash.value.password != password {
        throttle.RecordFailure(email, clock);
        return Refused(InvalidCredentials);
      }
      if !users[u].verified {
        return Refused(EmailNotVerified);
      }
      throttle.Reset(email);
      users := users[u := users[u].(lastLogin := Some(clock))];
      reply := IssueTokens(u);
    }

    method Refresh(t: TokenId) returns (reply: Reply)
      modifies this, refreshTokens, denylist
      ensures (View(), reply) == RefreshCall(old(View()), t)
    {
      if t !in issued || issued[t].exp * SECOND <= clock || issued[t].kind != RefreshToken {
        return Refused(NotARefreshToken);
      }
      var u := issued[t].sub;
      var stored := refreshTokens.GetValidByHash(t, clock);
      if !stored {
        refreshTokens.RevokeAllByUserId(u, clock);
        RevokeAccessTokens(u);
        return Refused(RevokedOrUnknown);
      }
      if u !in users || !users[u].active {
        return Refused(UserNotActive);
      }
      refreshTokens.Revoke(t, clock);
      reply := IssueTokens(u);
    }

    method Logout(t: TokenId) returns (reply: Reply)
      modifies refreshTokens
      ensures (View(), reply) == LogoutCall(old(View()), t)
    {
      var stored := refreshTokens.GetValidByHash(t, clock);
      if stored {
        refreshTokens.Revoke(t, clock);
      }
      return Done;
    }

    method InsertUser(email: string, password: string, portal: Portal, role: RoleId, active: bool, mustChange: bool)
      modifies this
      ensures View() == AddUser(old(View()), email, password, portal, role, active, mustChange)
    {
      var h := HashPassword(password);
      users := users[nextUser := User(email, Some(h), portal, role, portal == Staff, active, mustChange, None)];
      emails := emails[email := nextUser];
      nextUser := nextUser + 1;
    }

    method RegisterCandidate(email: string, password: string, gate: Gate) returns (reply: Reply)
      modifies this
      ensures (View(), reply) == RegisterCall(old(View()), email, password, gate)
    {
      if gate == Failed || gate == Unavailable {
        return Refused(CaptchaFailed);
      }
      if Candidate !in cfg.portals {
        return Refused(NotConfigured);
      }
      if email in emails && emails[email] in users {
        var u := emails[email];
        if !users[u].active && users[u].portal == Candidate {
          var h := HashPassword(password);
          users := users[u := users[u].(hash := Some(h))];
          return Done;
        }
        if !users[u].verified && users[u].portal == Candidate {
          return Done;
        }
        return Refused(EmailExists);
      }
      if cfg.candidateRole.None? {
        return Refused(NotConfigured);
      }
      InsertUser(email, password, Candidate, cfg.candidateRole.value, true, false);
      return Done;
    }

    method CreateStaff(email: string, password: string, active: bool, role: RoleId) returns (reply: Reply)
      modifies this
      ensures (View(), reply) == CreateStaffCall(old(View()), email, password, active, role)
    {
      if role !in cfg.roles {
        return Refused(RoleNotFound);
      }
      if email in emails {
        return Refused(EmailExists);
      }
      if Staff !in cfg.portals {
        return Refused(NotConfigured);
      }
      InsertUser(email, password, Staff, role, active, true);
      return Done;
    }

    /** The account part of the bootstrap command. */
    method InstallAdmin(email: string, password: string, role: RoleId) returns (reply: Reply)
      modifies this
      ensures (View(), reply) == InstallAdminCall(old(View()), email, password, role)
    {
      if Staff !in cfg.portals {
        return Refused(NotConfigured);
      }
      if email !in emails {
        InsertUser(email, password, Staff, role, true, false);
      }
      return Done;
    }

    method SendLink(u: UserId) returns (reply: Reply)
      modifies this
      ensures (View(), reply) == SendLinkCall(old(View()), u)
    {
      if u !in users {
        return Refused(UserNotFound);
      }
      var _ := Mint(VerificationToken, u, 24 * 3600, None);
      return Done;
    }

    method SendResetLink(u: UserId) returns (reply: Reply)
      modifies this
      ensures (View(), reply) == SendResetLinkCall(old(View()), u)
    {
      if u in users && users[u].active && users[u].hash.Some? {
        var _ := Mint(ResetToken, u, 3600, users[u].hash);
      }
      return Done;
    }

    method VerifyEmail(t: TokenId) returns (reply: Reply)
      modifies this
      ensures (View(), reply) == VerifyEmailCall(old(View()), t)
    {
      if t !in issued || issued[t].exp * SECOND <= clock || issued[t].kind != VerificationToken {
        return Refused(InvalidToken);
      }
      var u := issued[t].sub;
      if u !in users {
        return Refused(InvalidToken);
      }
      if !users[u].active {
        users := users[u := users[u].(active := true, verified := true)];
        return Done;
      }
      if users[u].verified {
        return Refused(LinkUsed);
      }
      users := users[u := users[u].(verified := true)];
      assert users[u] == old(users[u]).(active := true, verified := true);
      return Done;
    }

    method StorePassword(u: UserId, password: string)
      requires u in users
      modifies this, refreshTokens, denylist
      ensures View() == NewPassword(old(View()), u, password)
    {
      var h := HashPassword(password);
      users := users[u := users[u].(hash := Some(h), mustChange := false)];
      refreshTokens.RevokeAllByUserId(u, clock);
      RevokeAccessTokens(u);
    }

    method ChangePassword(u: UserId, current: string, password: string) returns (reply: Reply)
      modifies this, refreshTokens, denylist
      ensures (View(), reply) == ChangePasswordCall(old(View()), u, current, password)
    {
      if u !in users || !users[u].active || users[u].hash.None? {
        return Refused(InvalidCredentials);
      }
      if users[u].hash.value.password != current {
        return Refused(InvalidCredentials);
      }
      if users[u].hash.value.password == password {
        return Refused(SamePassword);
      }
      StorePassword(u, password);
      return Done;
    }

    method ResetPassword(t: TokenId, password: string) returns (reply: Reply)
      modifies this, refreshTokens, denylist, throttle
      ensures (View(), reply) == ResetPasswordCall(old(View()), t, password)
    {
      if t !in issued || issued[t].exp * SECOND <= clock || issued[t].kind != ResetToken {
        return Refused(InvalidToken);
      }
      var u := issued[t].sub;
      if u !in users || !users[u].active || users[u].hash.None? {
        return Refused(InvalidToken);
      }
      if issued[t].pwf != users[u].hash {
        return Refused(LinkUsed);
      }
      var email := users[u].email;
      StorePassword(u, password);
      throttle.Reset(email);
      return Done;
    }

    method DeactivateUser(u: UserId) returns (reply: Reply)
      modifies this, refreshTokens, denylist
      ensures (View(), reply) == DeactivateCall(old(View()), u)
    {
      if u in users && users[u].active {
        users := users[u := users[u].(active := false)];
      }
      refreshTokens.RevokeAllByUserId(u, clock);
      RevokeAccessTokens(u);
      return Done;
    }

    method UpdateUserStatus(actor: UserId, u: UserId, active: bool, password: string) returns (reply: Reply)
      modifies this, refreshTokens, denylist
      ensures (View(), reply) == SetStatusCall(old(View()), actor, u, active, password)
    {
      if !active && u == actor {
        return Refused(SelfDeactivation);
      }
      if u !in users {
        return Refused(UserNotFound);
      }
      var resend := active && !users[u].active && users[u].mustChange && users[u].lastLogin.None?;
      users := users[u := users[u].(active := active)];
      if resend {
        var h := HashPassword(password);
        users := users[u := users[u].(hash := Some(h))];
      }
      if !active {
        refreshTokens.RevokeAllByUserId(u, clock);
        RevokeAccessTokens(u);
      }
      return Done;
    }

    method GetCurrentUser(t: TokenId) returns (reply: Reply)
      modifies denylist
      ensures (View(), reply) == AuthenticateCall(old(View()), t)
    {
      if t !in issued || issued[t].exp * SECOND <= clock || issued[t].kind != AccessToken {
        return Refused(Unauthorized);
      }
      var revoked := denylist.IsUserRevoked(issued[t].sub, issued[t].iat, clock);
      return if revoked then Refused(Unauthorized) else Principal(issued[t].sub);
    }

    method Dispatch(c: Call) returns (reply: Reply)
      modifies this, refreshTokens, denylist, throttle
      ensures (View(), reply) == Serve(old(View()), c)
    {
      match c
      case Login(email, password, gate) => reply := Login(email, password, gate);
      case Refresh(t) => reply := Refresh(t);
      case Logout(t) => reply := Logout(t);
      case Register(email, password, gate) => reply := RegisterCandidate(email, password, gate);
      case CreateStaff(email, password, active, role) => reply := CreateStaff(email, password, active, role);
      case InstallAdmin(email, password, role) => reply := InstallAdmin(email, password, role);
      case SendLink(u) => reply := SendLink(u);
      case SendResetLink(u) => reply := SendResetLink(u);
      case VerifyEmail(t) => reply := VerifyEmail(t);
      case ChangePassword(u, current, password) => reply := ChangePassword(u, current, password);
      case ResetPassword(t, password) => reply := ResetPassword(t, password);
      case Deactivate(u) => reply := DeactivateUser(u);
      case SetStatus(actor, u, active, password) => reply := UpdateUserStatus(actor, u, active, password);
      case Authenticate(t) => reply := GetCurrentUser(t);
    }

    /** One request in its own transaction: committed on success, rolled back on any failure. Either
        way the invariant holds on, and no revoked, expired or covered credential comes back. */
    method Handle(c: Call) returns (reply: Reply)
      modifies this, refreshTokens, denylist, throttle
      ensures (View(), reply) == Request(old(View()), c)
      ensures old(Inv(View())) ==> Inv(View()) && Later(old(View()), View())
    {
      ghost var s := View();
      var users0, emails0, rows0 := users, emails, refreshTokens.rows;
      reply := Dispatch(c);
      if reply.Refused? {
        users, emails, refreshTokens.rows := users0, emails0, rows0;
      }
      assert View() == Request(s, c).0;
      if Inv(s) { RequestKeeps(s, c); }
    }
  }
}
