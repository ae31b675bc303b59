/** Two short runs that reach the surprising cases of the session machine. */
module SessionWitnesses {
  import opened Wrappers
  import opened Clock
  import opened TokenDenylist
  import opened Session
  import opened SessionSafety
  import opened SessionTheorems
  import LoginThrottle

  /** Fifteen-minute access tokens, seven-day refresh tokens, one portal and one role. */
  function OneRole(): Config { Config(15, 7, {Staff}, {0}, None) }

  function SignUp(): Event { Do(CreateStaff("ana", "first", true, 0)) }

  function SignIn(password: string): Event { Do(Login("ana", password, Off)) }

  function Ana(password: string, salt: nat, mustChange: bool, lastLogin: Option<nat>): User {
    User("ana", Some(Hash(password, salt)), Staff, 0, true, true, mustChange, lastLogin)
  }

  function SignedUp(): State {
    Start(0, OneRole()).(users := map[0 := Ana("first", 0, true, None)], emails := map["ana" := 0],
                         nextUser := 1, nextSalt := 1)
  }

  lemma SignUpWorks()
    ensures Next(Start(0, OneRole()), SignUp()) == SignedUp()
  {
  }

  lemma RunTwo(s: State, a: Event, b: Event)
    ensures Run(s, [a, b]) == Next(Next(s, a), b)
  {
    assert [a, b][1..] == [b] && [b][1..] == [];
    assert Run(Next(s, a), [b]) == Run(Next(Next(s, a), b), []);
  }

  lemma RunThree(s: State, a: Event, b: Event, c: Event)
    ensures Run(s, [a, b, c]) == Next(Next(Next(s, a), b), c)
  {
    assert [a, b, c][1..] == [b, c];
    RunTwo(Next(s, a), b, c);
  }

  /** Signed up and logged in: access token 0, refresh token 1. */
  function SignedIn(): State {
    var s := SignedUp();
    Issued(s.(users := map[0 := Ana("first", 0, true, Some(0))]), 0)
  }

  lemma SignInIsServed()
    ensures LoginCall(SignedUp(), "ana", "first", Off) == (SignedIn(), Tokens(0, 0, 1, Staff, true))
  {
    var s := SignedUp();
    assert ByEmail(s, "ana") == Some(0);
    assert LoginThrottle.AfterReset(s.throttle, "ana") == s.throttle;
    assert LoggedIn(s, 0, s.throttle) == s.(users := map[0 := Ana("first", 0, true, Some(0))]);
  }

  lemma SignInWorks()
    ensures Next(SignedUp(), SignIn("first")) == SignedIn()
  {
    SignInIsServed();
    assert Serve(SignedUp(), Login("ana", "first", Off)) == LoginCall(SignedUp(), "ana", "first", Off);
  }

  /** Token 1 rotated into access token 2 and refresh token 3. */
  function Rotated(): State { Issued(RevokeRow(SignedIn(), 1), 0) }

  lemma RotationWorks()
    ensures Next(SignedIn(), Do(Refresh(1))) == Rotated()
    ensures Live(Rotated(), 3) && Rotated().rows[3].user == 0 && Rotated().rows[1].revokedAt.Some?
    ensures Decodes(Rotated(), 1) && Rotated().issued[1].kind == RefreshToken && Rotated().issued[1].sub == 0
  {
    var s := SignedIn();
    assert s.rows == map[1 := Row(0, RefreshSeconds(s.cfg) * SECOND, None)];
    assert s.issued[1] == Claims(RefreshToken, 0, 0, RefreshSeconds(s.cfg), None);
    assert Decodes(s, 1) && Live(s, 1) && ActiveUser(s, 0);
    assert Serve(s, Refresh(1)) == RefreshCall(s, 1);
  }

  /** A replay does not kill the family: after sign-up, login, rotation and a replay of the rotated
      token, the rotated-to refresh token is still live. */
  lemma ReplayLeavesFamilyAlive()
    ensures var s := Reached(0, OneRole(), [SignUp(), SignIn("first"), Do(Refresh(1))]);
            var (committed, reply) := Request(s, Refresh(1));
            reply == Refused(RevokedOrUnknown) && 3 in LiveTokens(committed, 0)
  {
    var es := [SignUp(), SignIn("first"), Do(Refresh(1))];
    SignUpWorks();
    SignInWorks();
    RotationWorks();
    RunThree(Start(0, OneRole()), SignUp(), SignIn("first"), Do(Refresh(1)));
    var s := Rotated();
    assert Serve(s, Refresh(1)) == RefreshCall(s, 1);
    ReplayIsServed(s, 1);
  }

  function Change(): Call { ChangePassword(0, "first", "second") }

  /** Ana's state after the change, all in second 0. */
  lemma ChangeWorks()
    ensures var s := Next(SignedUp(), Do(Change()));
            && s == NewPassword(SignedUp(), 0, "second")
            && s.users == map[0 := Ana("second", 1, false, None)] && ByEmail(s, "ana") == Some(0)
            && MarkedNow(s, 0) && s.now == 0 && s.throttle == LoginThrottle.EMPTY && s.cfg == OneRole()
  {
    assert Serve(SignedUp(), Change()) == ChangePasswordCall(SignedUp(), 0, "first", "second");
  }

  predicate MarkedNow(s: State, u: UserId) {
    u in s.markers && s.markers[u].cutoff == Sec(s.now) && s.now < s.markers[u].deadline
  }

  lemma LoginIssues(s: State)
    requires s.users == map[0 := Ana("second", 1, false, None)] && ByEmail(s, "ana") == Some(0)
    requires s.now == 0 && s.throttle == LoginThrottle.EMPTY && s.cfg == OneRole()
    ensures var (s', reply) := Request(s, Login("ana", "second", Off));
            && reply.Tokens? && s'.markers == s.markers && s'.now == s.now && reply.access in s'.issued
            && s'.issued[reply.access].sub == 0 && s'.issued[reply.access].iat == 0
  {
    assert Serve(s, Login("ana", "second", Off)) == LoginCall(s, "ana", "second", Off);
  }

  lemma MarkedNowIsRefused(s: State, t: TokenId)
    requires t in s.issued && MarkedNow(s, s.issued[t].sub) && s.issued[t].iat == Sec(s.now)
    ensures !Accepted(s, t)
  {
    assert Serve(s, Authenticate(t)) == AuthenticateCall(s, t);
  }

  /** Password changed and logged in again in the same second: the login succeeds, and its access
      token is refused. */
  lemma LoginInTheSecondOfAChange()
    ensures var s := Reached(0, OneRole(), [SignUp(), Do(Change())]);
            var (s', reply) := Request(s, Login("ana", "second", Off));
            reply.Tokens? && !Accepted(s', reply.access)
  {
    SignUpWorks();
    RunTwo(Start(0, OneRole()), SignUp(), Do(Change()));
    ChangeWorks();
    var s := Next(SignedUp(), Do(Change()));
    LoginIssues(s);
    MarkedNowIsRefused(Request(s, Login("ana", "second", Off)).0, Request(s, Login("ana", "second", Off)).1.access);
  }
}
