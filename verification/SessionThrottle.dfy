/** The throttle's bounds for the service itself: over every run of requests, how many logins of one
    email can be answered with "wrong credentials" before something clears its counter. */
module SessionThrottle {
  import opened Wrappers
  import opened Clock
  import opened Session
  import opened LoginThrottle

  // ------------------------------------------------------------ what a request tells the throttle

  /** How a login that passes the anti-bot gate is judged. */
  function Judged(s: State, email: string, password: string): Outcome {
    var found := ByEmail(s, email);
    if found.None? || s.users[found.value].hash.None? || s.users[found.value].hash.value.password != password
    then Wrong
    else if !s.users[found.value].verified then Unverified
    else Right
  }

  /** The attempt the throttle sees, if the request is one. */
  function Reported(s: State, c: Session.Call): Option<Attempt> {
    match c
    case Login(email, password, gate) =>
      if gate == Failed then None else Some(Attempt(email, s.now, Judged(s, email, password)))
    case ResetPassword(t, password) =>
      if Request(s, c).1.Done? && s.issued[t].sub in s.users
      then Some(Attempt(s.users[s.issued[t].sub].email, s.now, PasswordReset)) else None
    case _ => None
  }

  predicate AnsweredWrong(s: State, c: Session.Call, email: string) {
    c.Login? && c.email == email && Request(s, c).1 == Refused(InvalidCredentials)
  }

  /** The service and the throttle model agree on every login. */
  lemma LoginIsAttempt(s: State, c: Session.Call)
    requires c.Login?
    ensures Request(s, c).0.now == s.now
    ensures Request(s, c).0.throttle ==
            if Reported(s, c).Some? then AfterAttempt(s.throttle, Reported(s, c).value) else s.throttle
  {
    assert Serve(s, c) == Session.LoginCall(s, c.email, c.password, c.gate);
  }

  lemma WrongIsRecorded(s: State, c: Session.Call)
    requires c.Login?
    ensures Request(s, c).1 == Refused(InvalidCredentials) <==>
            Reported(s, c).Some? && Records(s.throttle, Reported(s, c).value)
  {
    assert Serve(s, c) == Session.LoginCall(s, c.email, c.password, c.gate);
  }

  lemma ResetIsAttempt(s: State, c: Session.Call)
    requires c.ResetPassword?
    ensures Request(s, c).0.now == s.now
    ensures Request(s, c).0.throttle ==
            if Reported(s, c).Some? then AfterAttempt(s.throttle, Reported(s, c).value) else s.throttle
  {
    assert Serve(s, c) == ResetPasswordCall(s, c.token, c.password);
  }

  lemma PasswordChangesAreSilent(s: State, c: Session.Call)
    requires c.ChangePassword? || c.Deactivate? || c.SetStatus?
    ensures Request(s, c).0.throttle == s.throttle && Request(s, c).0.now == s.now
  {
  }

  lemma TokenCallsAreSilent(s: State, c: Session.Call)
    requires c.Refresh? || c.Logout? || c.Authenticate? || c.VerifyEmail? || c.SendLink? || c.SendResetLink?
    ensures Request(s, c).0.throttle == s.throttle && Request(s, c).0.now == s.now
  {
  }

  lemma SignUpsAreSilent(s: State, c: Session.Call)
    requires c.Register? || c.CreateStaff? || c.InstallAdmin?
    ensures Request(s, c).0.throttle == s.throttle && Request(s, c).0.now == s.now
  {
  }

  lemma RequestIsAttempt(s: State, c: Session.Call)
    ensures Request(s, c).0.throttle ==
            if Reported(s, c).Some? then AfterAttempt(s.throttle, Reported(s, c).value) else s.throttle
    ensures Request(s, c).0.now == s.now && (Reported(s, c).Some? ==> Reported(s, c).value.at == s.now)
    ensures forall email :: AnsweredWrong(s, c, email) <==>
              Reported(s, c).Some? && Reported(s, c).value.key == email && Records(s.throttle, Reported(s, c).value)
  {
    match c
    case Login(_, _, _) =>
      LoginIsAttempt(s, c);
      WrongIsRecorded(s, c);
    case ResetPassword(_, _) => ResetIsAttempt(s, c);
    case ChangePassword(_, _, _) => PasswordChangesAreSilent(s, c);
    case Deactivate(_) => PasswordChangesAreSilent(s, c);
    case SetStatus(_, _, _, _) => PasswordChangesAreSilent(s, c);
    case Register(_, _, _) => SignUpsAreSilent(s, c);
    case CreateStaff(_, _, _, _) => SignUpsAreSilent(s, c);
    case InstallAdmin(_, _, _) => SignUpsAreSilent(s, c);
    case _ => TokenCallsAreSilent(s, c);
  }

  // ------------------------------------------------------------ runs

  /** Instants at which a login of the email was answered with "wrong credentials", oldest first. */
  function WrongAnswers(s: State, es: seq<Event>, email: string): seq<nat>
    decreases |es|
  {
    if es == [] then [] else
      WrongAnswer(s, es[0], email) + WrongAnswers(Next(s, es[0]), es[1..], email)
  }

  /** The request clears the email's counter and lock: right credentials with no lock on, or a reset. */
  predicate Clears(s: State, c: Session.Call, email: string) {
    && Reported(s, c).Some? && Reported(s, c).value.key == email
    && (Reported(s, c).value.outcome == PasswordReset
        || (Reported(s, c).value.outcome == Right && !Locked(s.throttle, email, s.now)))
  }

  predicate NeverClears(s: State, es: seq<Event>, email: string)
    decreases |es|
  {
    es == [] || (!(es[0].Do? && Clears(s, es[0].call, email)) && NeverClears(Next(s, es[0]), es[1..], email))
  }

  /** Neither a counter nor a lock: the state at the start, and right after a clearing request. */
  predicate Fresh(m: Memory, email: string) { email !in m.failures && email !in m.locks }

  predicate SameFor(m: Memory, n: Memory, email: string) {
    && (email in m.failures <==> email in n.failures)
        && (email in m.failures ==> m.failures[email] == n.failures[email])
    && (email in m.locks <==> email in n.locks) && (email in m.locks ==> m.locks[email] == n.locks[email])
  }

  lemma SameAfter(m: Memory, n: Memory, a: Attempt, email: string)
    requires SameFor(m, n, email)
    ensures a.key == email ==> SameFor(AfterAttempt(m, a), AfterAttempt(n, a), email)
    ensures a.key == email ==> (Records(m, a) <==> Records(n, a))
    ensures a.key != email ==> SameFor(m, AfterAttempt(n, a), email)
  {
  }

  /** One attempt, whatever its email: the trace of the email grows by it or stays. */
  lemma TraceGrows(past: seq<Attempt>, n: Memory, a: Attempt, email: string) returns (more: seq<Attempt>)
    requires EndsBy(past, email, a.at) && SameFor(Play(past), n, email)
    requires a.key == email ==> a.outcome != PasswordReset && (a.outcome == Right ==> Locked(n, email, a.at))
    ensures EndsBy(more, email, a.at) && SameFor(Play(more), AfterAttempt(n, a), email)
    ensures Recorded(more, email) == Recorded(past, email) + if a.key == email && Records(n, a) then [a.at] else []
  {
    SameAfter(Play(past), n, a, email);
    more := past;
    if a.key == email && a.outcome != Right {
      EndsByMore(past, a);
      Extended(past, a);
      more := past + [a];
    }
  }

  lemma RequestGrows(s: State, c: Session.Call, email: string, past: seq<Attempt>) returns (more: seq<Attempt>)
    requires EndsBy(past, email, s.now) && SameFor(Play(past), s.throttle, email) && !Clears(s, c, email)
    ensures EndsBy(more, email, s.now) && SameFor(Play(more), Request(s, c).0.throttle, email)
    ensures Recorded(more, email) == Recorded(past, email) + if AnsweredWrong(s, c, email) then [s.now] else []
  {
    RequestIsAttempt(s, c);
    if Reported(s, c).Some? {
      more := TraceGrows(past, s.throttle, Reported(s, c).value, email);
    } else {
      more := past;
    }
  }

  lemma EndsLater(trace: seq<Attempt>, email: string, at: nat, later: nat)
    requires EndsBy(trace, email, at) && at <= later
    ensures EndsBy(trace, email, later)
  {
  }

  lemma TimeOfNext(s: State, e: Event)
    ensures Next(s, e).now == s.now + if e.Tick? then e.elapsed else 0
    ensures e.Tick? ==> Next(s, e).throttle == s.throttle
  {
    if e.Do? { RequestIsAttempt(s, e.call); }
  }

  /** The trace ends no later than the state and leaves the email as the state's throttle has it. */
  predicate Tracks(trace: seq<Attempt>, s: State, email: string) {
    EndsBy(trace, email, s.now) && SameFor(Play(trace), s.throttle, email)
  }

  /** The answer an event adds. */
  function WrongAnswer(s: State, e: Event, email: string): seq<nat> {
    if e.Do? && AnsweredWrong(s, e.call, email) then [s.now] else []
  }

  lemma EventGrows(s: State, e: Event, email: string, past: seq<Attempt>) returns (more: seq<Attempt>)
    requires Tracks(past, s, email) && !(e.Do? && Clears(s, e.call, email))
    ensures Tracks(more, Next(s, e), email) && Recorded(more, email) == Recorded(past, email) + WrongAnswer(s, e, email)
  {
    TimeOfNext(s, e);
    more := past;
    if e.Do? {
      more := RequestGrows(s, e.call, email, past);
    }
    EndsLater(more, email, s.now, Next(s, e).now);
  }

  /** The email's attempts of a run, as a trace of the throttle. */
  lemma {:induction false} RunIsTrace(s: State, es: seq<Event>, email: string, past: seq<Attempt>)
    returns (trace: seq<Attempt>)
    requires Tracks(past, s, email) && NeverClears(s, es, email)
    ensures InOrder(trace) && LoginThrottle.NeverClears(trace, email)
    ensures Recorded(trace, email) == Recorded(past, email) + WrongAnswers(s, es, email)
    decreases |es|
  {
    if es == [] {
      trace := past;
    } else {
      var s' := Next(s, es[0]);
      var more := EventGrows(s, es[0], email, past);
      trace := RunIsTrace(s', es[1..], email, more);
      Regroup(Recorded(past, email), WrongAnswer(s, es[0], email), WrongAnswers(s', es[1..], email));
    }
  }

  lemma Regroup(a: seq<nat>, b: seq<nat>, c: seq<nat>)
    ensures (a + b) + c == a + (b + c)
  {
  }

  lemma FreshTrace(s: State, es: seq<Event>, email: string) returns (trace: seq<Attempt>)
    requires Fresh(s.throttle, email) && NeverClears(s, es, email)
    ensures InOrder(trace) && LoginThrottle.NeverClears(trace, email)
            && Recorded(trace, email) == WrongAnswers(s, es, email)
  {
    trace := RunIsTrace(s, es, email, []);
    assert Recorded([], email) + WrongAnswers(s, es, email) == WrongAnswers(s, es, email);
  }

  /** Over every run in which nothing clears the email's counter, from any state in which it has none:
      at most `5 * (T / 900 + 1)` logins are answered with "wrong credentials" in the T seconds from
      the first such answer. */
  lemma WrongAnswersFromFirst(s: State, es: seq<Event>, email: string, seconds: nat)
    requires Fresh(s.throttle, email) && NeverClears(s, es, email)
    ensures AtMostFivePer(WrongAnswers(s, es, email), seconds, FAILURE_WINDOW_SECONDS)
  {
    var trace := FreshTrace(s, es, email);
    FailuresFromFirst(trace, email, seconds);
  }

  /** And at most eight in any half-open fifteen minutes. */
  lemma WrongAnswersInAnyWindow(s: State, es: seq<Event>, email: string, start: nat)
    requires Fresh(s.throttle, email) && NeverClears(s, es, email)
    ensures AtMostEightIn(WrongAnswers(s, es, email), start, FAILURE_WINDOW_SECONDS)
  {
    var trace := FreshTrace(s, es, email);
    FailuresInAnyWindow(trace, email, start);
  }

  /** The bounds start again at the beginning of every run and after every request that clears. */
  lemma FreshAfterClearing(s: State, c: Session.Call, email: string)
    requires Clears(s, c, email)
    ensures Fresh(Request(s, c).0.throttle, email)
  {
    RequestIsAttempt(s, c);
  }
}
