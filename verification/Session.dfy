/** Sessions and credentials: what each request does to users, refresh-token rows, issued JWTs,
    the denylist and the login throttle. A JWT is known by its `jti`; decoding one means that it
    was issued and has not reached its `exp`. */
module Session {
  import opened Wrappers
  import opened Clock
  import opened TokenDenylist
  import Throttle = LoginThrottle

  type TokenId = nat

  /** A salted password hash; `salt` is fresh in every hash ever made. */
  datatype Hash = Hash(password: string, salt: nat)

  datatype Portal = Staff | Candidate

  type RoleId = nat

  /** `role` is the role linked when the account was created. */
  datatype User = User(email: string, hash: Option<Hash>, portal: Portal, role: RoleId, verified: bool,
                       active: bool, mustChange: bool, lastLogin: Option<nat>)

  datatype Kind = AccessToken | RefreshToken | VerificationToken | ResetToken

  /** `iat` and `exp` are whole seconds; `pwf` stands for the password fingerprint and is the
      hash it was computed from. */
  datatype Claims = Claims(kind: Kind, sub: UserId, iat: nat, exp: nat, pwf: Option<Hash>)

  datatype Row = Row(user: UserId, expiresAt: nat, revokedAt: Option<nat>)

  /** Lifetimes, and the seed rows the service looks up: portals, active roles, the candidate role. */
  datatype Config = Config(accessMinutes: nat, refreshDays: nat, portals: set<Portal>, roles: set<RoleId>,
                           candidateRole: Option<RoleId>)

  /** `emails` is the unique index on the normalised address, over active and inactive users. */
  datatype State = State(
    now: nat, users: map<UserId, User>, emails: map<string, UserId>, rows: map<TokenId, Row>,
    issued: map<TokenId, Claims>, markers: Markers, throttle: Throttle.Memory,
    nextUser: UserId, nextToken: TokenId, nextSalt: nat, cfg: Config)

  function Start(now: nat, cfg: Config): State {
    State(now, map[], map[], map[], map[], map[], Throttle.EMPTY, 0, 0, 0, cfg)
  }

  datatype Gate = Off | Success | Failed | Unavailable

  datatype Call =
    | Login(email: string, password: string, gate: Gate)
    | Refresh(token: TokenId)
    | Logout(token: TokenId)
    | Register(email: string, password: string, gate: Gate)
    | CreateStaff(email: string, password: string, active: bool, role: RoleId)
    | InstallAdmin(email: string, password: string, role: RoleId)
    | SendLink(user: UserId)
    | SendResetLink(user: UserId)
    | VerifyEmail(token: TokenId)
    | ChangePassword(user: UserId, current: string, password: string)
    | ResetPassword(token: TokenId, password: string)
    | Deactivate(user: UserId)
    | SetStatus(actor: UserId, user: UserId, active: bool, password: string)
    | Authenticate(token: TokenId)

  datatype Error =
    | CaptchaFailed | AccountLocked(wait: nat) | InvalidCredentials | EmailNotVerified
    | NotARefreshToken | RevokedOrUnknown | UserNotActive | InvalidToken | LinkUsed
    | SamePassword | EmailExists | SelfDeactivation | UserNotFound | Unauthorized
    | RoleNotFound | NotConfigured

  datatype Reply =
    | Tokens(user: UserId, access: TokenId, refresh: TokenId, portal: Portal, mustChange: bool)
    | Done
    | Principal(user: UserId)
    | Refused(error: Error)

  function AccessSeconds(cfg: Config): nat { cfg.accessMinutes * 60 }

  function RefreshSeconds(cfg: Config): nat { cfg.refreshDays * 86_400 }

  function MarkerSeconds(cfg: Config): nat { AccessSeconds(cfg) + 60 }

  // ------------------------------------------------------------ building blocks

  predicate Decodes(s: State, t: TokenId) {
    t in s.issued && s.now < s.issued[t].exp * SECOND
  }

  predicate LiveRow(r: Row, now: nat) { r.revokedAt.None? && r.expiresAt > now }

  predicate Live(s: State, t: TokenId) { t in s.rows && LiveRow(s.rows[t], s.now) }

  predicate ActiveUser(s: State, u: UserId) { u in s.users && s.users[u].active }

  function ByEmail(s: State, email: string): Option<UserId> {
    if email in s.emails && ActiveUser(s, s.emails[email]) then Some(s.emails[email]) else None
  }

  function Mint(s: State, kind: Kind, sub: UserId, seconds: nat, pwf: Option<Hash>): State {
    s.(issued := s.issued[s.nextToken := Claims(kind, sub, Sec(s.now), Sec(s.now) + seconds, pwf)],
       nextToken := s.nextToken + 1)
  }

  /** An access token, a refresh token, and the row of the latter. */
  function Issued(s: State, u: UserId): State {
    var a := Mint(s, AccessToken, u, AccessSeconds(s.cfg), None);
    var r := Mint(a, RefreshToken, u, RefreshSeconds(s.cfg), None);
    r.(rows := r.rows[a.nextToken := Row(u, s.now + RefreshSeconds(s.cfg) * SECOND, None)])
  }

  function IssueTokens(s: State, u: UserId): (State, Reply)
    requires u in s.users
  {
    if s.users[u].portal !in s.cfg.portals then (s, Refused(NotConfigured))
    else (Issued(s, u), Tokens(u, s.nextToken, s.nextToken + 1, s.users[u].portal, s.users[u].mustChange))
  }

  function RevokeRow(s: State, t: TokenId): State
    requires t in s.rows
  {
    s.(rows := s.rows[t := s.rows[t].(revokedAt := Some(s.now))])
  }

  function AllRevoked(rows: map<TokenId, Row>, u: UserId, now: nat): map<TokenId, Row> {
    map t | t in rows ::
      if rows[t].user == u && LiveRow(rows[t], now) then rows[t].(revokedAt := Some(now)) else rows[t]
  }

  /** Revokes every live refresh row of the user and marks every access token issued so far. */
  function EndSessions(s: State, u: UserId): State {
    s.(rows := AllRevoked(s.rows, u, s.now), markers := AfterRevoke(s.markers, u, MarkerSeconds(s.cfg), s.now))
  }

  function SetPassword(s: State, u: UserId, password: string): State
    requires u in s.users
  {
    s.(users := s.users[u := s.users[u].(hash := Some(Hash(password, s.nextSalt)))], nextSalt := s.nextSalt + 1)
  }

  /** What a successful change or reset does to the user: a new hash, no pending change, no session. */
  function NewPassword(s: State, u: UserId, password: string): State
    requires u in s.users
  {
    var user := s.users[u].(hash := Some(Hash(password, s.nextSalt)), mustChange := false);
    EndSessions(s.(users := s.users[u := user], nextSalt := s.nextSalt + 1), u)
  }

  /** Staff accounts are born verified. */
  function AddUser(s: State, email: string, password: string, portal: Portal, role: RoleId, active: bool,
                   mustChange: bool): State {
    var user := User(email, Some(Hash(password, s.nextSalt)), portal, role, portal == Staff, active, mustChange, None);
    s.(users := s.users[s.nextUser := user], emails := s.emails[email := s.nextUser],
       nextUser := s.nextUser + 1, nextSalt := s.nextSalt + 1)
  }

  // ------------------------------------------------------------ the service calls

  function LoginCall(s: State, email: string, password: string, gate: Gate): (State, Reply) {
    if gate == Failed then (s, Refused(CaptchaFailed)) else
    var asked := s.(throttle := Throttle.AfterAsking(s.throttle, email, s.now));
    var wait := Throttle.Wait(s.throttle, email, s.now);
    if wait.Some? then (asked, Refused(AccountLocked(wait.value))) else
    var found := ByEmail(s, email);
    if found.None? || s.users[found.value].hash.None? || s.users[found.value].hash.value.password != password
    then (asked.(throttle := Throttle.AfterFailure(asked.throttle, email, s.now)), Refused(InvalidCredentials))
    else if !s.users[found.value].verified then (asked, Refused(EmailNotVerified))
    else
      IssueTokens(LoggedIn(s, found.value, Throttle.AfterReset(asked.throttle, email)), found.value)
  }

  function LoggedIn(s: State, u: UserId, throttle: Throttle.Memory): State
    requires u in s.users
  {
    s.(throttle := throttle, users := s.users[u := s.users[u].(lastLogin := Some(s.now))])
  }

  function RefreshCall(s: State, t: TokenId): (State, Reply) {
    if !Decodes(s, t) || s.issued[t].kind != RefreshToken then (s, Refused(NotARefreshToken))
    else if !Live(s, t) then (EndSessions(s, s.issued[t].sub), Refused(RevokedOrUnknown))
    else if !ActiveUser(s, s.issued[t].sub) then (s, Refused(UserNotActive))
    else IssueTokens(RevokeRow(s, t), s.issued[t].sub)
  }

  function LogoutCall(s: State, t: TokenId): (State, Reply) {
    (if Live(s, t) then RevokeRow(s, t) else s, Done)
  }

  function RegisterCall(s: State, email: string, password: string, gate: Gate): (State, Reply) {
    if gate == Failed || gate == Unavailable then (s, Refused(CaptchaFailed))
    else if Candidate !in s.cfg.portals then (s, Refused(NotConfigured))
    else if email in s.emails && s.emails[email] in s.users then
      var u := s.emails[email];
      if s.users[u].portal == Candidate && !s.users[u].active then (SetPassword(s, u, password), Done)
      else if s.users[u].portal == Candidate && !s.users[u].verified then (s, Done)
      else (s, Refused(EmailExists))
    else if s.cfg.candidateRole.None? then (s, Refused(NotConfigured))
    else (AddUser(s, email, password, Candidate, s.cfg.candidateRole.value, true, false), Done)
  }

  function CreateStaffCall(s: State, email: string, password: string, active: bool, role: RoleId): (State, Reply) {
    if role !in s.cfg.roles then (s, Refused(RoleNotFound))
    else if email in s.emails then (s, Refused(EmailExists))
    else if Staff !in s.cfg.portals then (s, Refused(NotConfigured))
    else (AddUser(s, email, password, Staff, role, active, true), Done)
  }

  /** What the bootstrap command does to the accounts: an existing one is left as it is, a new one is active
      and keeps its password. */
  function InstallAdminCall(s: State, email: string, password: string, role: RoleId): (State, Reply) {
    if Staff !in s.cfg.portals then (s, Refused(NotConfigured))
    else if email in s.emails then (s, Done)
    else (AddUser(s, email, password, Staff, role, true, false), Done)
  }

  function SendLinkCall(s: State, u: UserId): (State, Reply) {
    if u !in s.users then (s, Refused(UserNotFound)) else (Mint(s, VerificationToken, u, 24 * 3600, None), Done)
  }

  function SendResetLinkCall(s: State, u: UserId): (State, Reply) {
    if !ActiveUser(s, u) || s.users[u].hash.None? then (s, Done)
    else (Mint(s, ResetToken, u, 3600, s.users[u].hash), Done)
  }

  function VerifyEmailCall(s: State, t: TokenId): (State, Reply) {
    if !Decodes(s, t) || s.issued[t].kind != VerificationToken || s.issued[t].sub !in s.users
        then (s, Refused(InvalidToken))
    else
      var u := s.issued[t].sub;
      if s.users[u].active && s.users[u].verified then (s, Refused(LinkUsed))
      else (s.(users := s.users[u := s.users[u].(active := true, verified := true)]), Done)
  }

  function ChangePasswordCall(s: State, u: UserId, current: string, password: string): (State, Reply) {
    if !ActiveUser(s, u) || s.users[u].hash.None? || s.users[u].hash.value.password != current
    then (s, Refused(InvalidCredentials))
    else if s.users[u].hash.value.password == password then (s, Refused(SamePassword))
    else (NewPassword(s, u, password), Done)
  }

  function ResetPasswordCall(s: State, t: TokenId, password: string): (State, Reply) {
    if !Decodes(s, t) || s.issued[t].kind != ResetToken then (s, Refused(InvalidToken)) else
    var u := s.issued[t].sub;
    if !ActiveUser(s, u) || s.users[u].hash.None? then (s, Refused(InvalidToken))
    else if s.issued[t].pwf != s.users[u].hash then (s, Refused(LinkUsed))
    else
      (NewPassword(s, u, password).(throttle := Throttle.AfterReset(s.throttle, s.users[u].email)), Done)
  }

  function DeactivateCall(s: State, u: UserId): (State, Reply) {
    var off := if ActiveUser(s, u) then s.(users := s.users[u := s.users[u].(active := false)]) else s;
    (EndSessions(off, u), Done)
  }

  /** A reactivated user who never used the first invitation gets a fresh password by email. */
  function SetStatusCall(s: State, actor: UserId, u: UserId, active: bool, password: string): (State, Reply) {
    if !active && u == actor then (s, Refused(SelfDeactivation))
    else if u !in s.users then (s, Refused(UserNotFound))
    else
      var user := s.users[u];
      var resend := active && !user.active && user.mustChange && user.lastLogin.None?;
      var flagged := s.(users := s.users[u := user.(active := active)]);
      var sent := if resend then SetPassword(flagged, u, password) else flagged;
      (if active then sent else EndSessions(sent, u), Done)
  }

  /** The check behind every authenticated route; it never reads the user row. */
  function AuthenticateCall(s: State, t: TokenId): (State, Reply) {
    if !Decodes(s, t) || s.issued[t].kind != AccessToken then (s, Refused(Unauthorized)) else
    var c := s.issued[t];
    var s' := s.(markers := AfterCheck(s.markers, c.sub, s.now));
    (s', if Revoked(s.markers, c.sub, c.iat, s.now) then Refused(Unauthorized) else Principal(c.sub))
  }

  function Serve(s: State, c: Call): (State, Reply) {
    match c
    case Login(email, password, gate) => LoginCall(s, email, password, gate)
    case Refresh(t) => RefreshCall(s, t)
    case Logout(t) => LogoutCall(s, t)
    case Register(email, password, gate) => RegisterCall(s, email, password, gate)
    case CreateStaff(email, password, active, role) => CreateStaffCall(s, email, password, active, role)
    case InstallAdmin(email, password, role) => InstallAdminCall(s, email, password, role)
    case SendLink(u) => SendLinkCall(s, u)
    case SendResetLink(u) => SendResetLinkCall(s, u)
    case VerifyEmail(t) => VerifyEmailCall(s, t)
    case ChangePassword(u, current, password) => ChangePasswordCall(s, u, current, password)
    case ResetPassword(t, password) => ResetPasswordCall(s, t, password)
    case Deactivate(u) => DeactivateCall(s, u)
    case SetStatus(actor, u, active, password) => SetStatusCall(s, actor, u, active, password)
    case Authenticate(t) => AuthenticateCall(s, t)
  }

  /** A request that fails rolls its database writes back; the denylist and the throttle live
      outside the transaction and keep theirs. */
  function Request(s: State, c: Call): (State, Reply) {
    var (s', reply) := Serve(s, c);
    (if reply.Refused? then s'.(users := s.users, emails := s.emails, rows := s.rows) else s', reply)
  }

  datatype Event = Tick(elapsed: nat) | Do(call: Call)

  function Next(s: State, e: Event): State {
    match e
    case Tick(d) => s.(now := s.now + d)
    case Do(c) => Request(s, c).0
  }

  function Run(s: State, es: seq<Event>): State
    decreases |es|
  {
    if es == [] then s else Run(Next(s, es[0]), es[1..])
  }
}
