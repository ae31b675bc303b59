/** The consent log: rows are only ever appended or marked revoked, and at most one row per user
    and kind is active. */
module Consents {
  import opened Wrappers

  type UserId = nat

  datatype Kind = TermsPrivacy | Marketing

  /** A refusal is a row accepted and revoked at the same instant. */
  datatype Consent = Consent(user: UserId, kind: Kind, acceptedAt: nat, revokedAt: Option<nat>,
                             source: string, revokedSource: Option<string>)

  type Log = seq<Consent>

  predicate ActiveRow(c: Consent, u: UserId, k: Kind) { c.user == u && c.kind == k && c.revokedAt.None? }

  predicate EverDecided(log: Log, u: UserId, k: Kind) {
    exists i :: 0 <= i < |log| && log[i].user == u && log[i].kind == k
  }

  predicate CurrentlyActive(log: Log, u: UserId, k: Kind) {
    exists i :: 0 <= i < |log| && ActiveRow(log[i], u, k)
  }

  /** The partial unique index. */
  predicate AtMostOneActive(log: Log) {
    forall i, j | 0 <= i < j < |log| ::
      log[i].revokedAt.None? && log[j].revokedAt.None? ==> log[i].user != log[j].user || log[i].kind != log[j].kind
  }

  function Revoked(log: Log, u: UserId, k: Kind, source: Option<string>, now: nat): (r: Log)
    ensures |r| == |log|
  {
    seq(|log|, i requires 0 <= i < |log| =>
      if ActiveRow(log[i], u, k) then log[i].(revokedAt := Some(now), revokedSource := source) else log[i])
  }

  function Granted(log: Log, u: UserId, k: Kind, source: string, now: nat): Log {
    Revoked(log, u, k, Some(source), now) + [Consent(u, k, now, None, source, None)]
  }

  function RefusalRecorded(log: Log, u: UserId, k: Kind, source: string, now: nat): Log {
    log + [Consent(u, k, now, Some(now), source, None)]
  }

  // ------------------------------------------------------------ the steps

  /** `next` is the first user id not registered yet. */
  datatype State = State(log: Log, next: UserId)

  datatype Step =
    | Register(marketing: bool)
    | ReturnAfterClosing(user: UserId)
    | PutMarketing(user: UserId, subscribed: bool, source: string)
    | CloseAccount(user: UserId)

  function AfterPut(log: Log, u: UserId, subscribed: bool, source: string, now: nat): Log {
    if subscribed then Granted(log, u, Marketing, source, now)
    else if CurrentlyActive(log, u, Marketing) then Revoked(log, u, Marketing, Some(source), now)
    else RefusalRecorded(log, u, Marketing, source, now)
  }

  function AfterRegister(log: Log, u: UserId, marketing: bool, now: nat): Log {
    var terms := Granted(log, u, TermsPrivacy, "registration", now);
    if marketing then Granted(terms, u, Marketing, "registration", now) else terms
  }

  function Next(s: State, e: Step, now: nat): State {
    match e
    case Register(marketing) => State(AfterRegister(s.log, s.next, marketing, now), s.next + 1)
    case ReturnAfterClosing(u) =>
      if u < s.next then s.(log := Granted(s.log, u, TermsPrivacy, "registration", now)) else s
    case PutMarketing(u, subscribed, source) => s.(log := AfterPut(s.log, u, subscribed, source, now))
    case CloseAccount(u) => s.(log := Revoked(s.log, u, Marketing, Some("account_close"), now))
  }

  datatype Timed = Timed(step: Step, at: nat)

  function Run(s: State, run: seq<Timed>): State
    decreases |run|
  {
    if run == [] then s else Run(Next(s, run[0].step, run[0].at), run[1..])
  }

  // ------------------------------------------------------------ the invariants

  /** Rows are never removed, rewritten or un-revoked. */
  predicate Extends(old': Log, new': Log) {
    && |old'| <= |new'|
    && forall i | 0 <= i < |old'| ::
         if old'[i].revokedAt.Some? then new'[i] == old'[i]
         else new'[i] == old'[i].(revokedAt := new'[i].revokedAt, revokedSource := new'[i].revokedSource)
  }

  /** Exactly one active row of the kind. */
  predicate OneActive(log: Log, u: UserId, k: Kind) { AtMostOneActive(log) && CurrentlyActive(log, u, k) }

  predicate Inv(s: State) {
    AtMostOneActive(s.log) && forall u: UserId | u < s.next :: CurrentlyActive(s.log, u, TermsPrivacy)
  }

  lemma RevokedFacts(log: Log, u: UserId, k: Kind, source: Option<string>, now: nat)
    requires AtMostOneActive(log)
    ensures var r := Revoked(log, u, k, source, now);
            && AtMostOneActive(r) && Extends(log, r) && !CurrentlyActive(r, u, k)
            && (forall v: UserId, m | (v, m) != (u, k) :: CurrentlyActive(r, v, m) <==> CurrentlyActive(log, v, m))
  {
    var r := Revoked(log, u, k, source, now);
    forall v: UserId, m | (v, m) != (u, k) ensures CurrentlyActive(r, v, m) <==> CurrentlyActive(log, v, m) {
      assert forall i | 0 <= i < |log| :: ActiveRow(r[i], v, m) <==> ActiveRow(log[i], v, m);
    }
  }

  /** What a revocation writes: the instant and its source, on the active row of that user and kind. */
  lemma RevokeWrites(log: Log, u: UserId, k: Kind, source: Option<string>, now: nat)
    ensures var r := Revoked(log, u, k, source, now);
            |r| == |log| && forall i | 0 <= i < |log| ::
              r[i] == if log[i].user == u && log[i].kind == k && log[i].revokedAt.None?
                      then Consent(u, k, log[i].acceptedAt, Some(now), log[i].source, source) else log[i]
  {
  }

  /** What a grant writes: the same on the old row, and a new active row of its own source and instant. */
  lemma GrantWrites(log: Log, u: UserId, k: Kind, source: string, now: nat)
    ensures var r := Granted(log, u, k, source, now);
            && |r| == |log| + 1 && r[|log|] == Consent(u, k, now, None, source, None)
            && forall i | 0 <= i < |log| ::
                 r[i] == if log[i].user == u && log[i].kind == k && log[i].revokedAt.None?
                         then Consent(u, k, log[i].acceptedAt, Some(now), log[i].source, Some(source)) else log[i]
  {
    RevokeWrites(log, u, k, Some(source), now);
  }

  /** What a marketing PUT writes: a grant, the end of a subscription, or a refusal, by the request and by
      what was active. */
  lemma PutWrites(log: Log, u: UserId, subscribed: bool, source: string, now: nat)
    ensures var r := AfterPut(log, u, subscribed, source, now);
            var subscribedBefore := exists i :: 0 <= i < |log| && log[i].user == u && log[i].kind == Marketing
                                                && log[i].revokedAt.None?;
            && (subscribed ==> |r| == |log| + 1 && r[|log|] == Consent(u, Marketing, now, None, source, None))
            && (!subscribed && subscribedBefore ==> |r| == |log|)
            && (!subscribed && !subscribedBefore ==>
                  r == log + [Consent(u, Marketing, now, Some(now), source, None)])
            && forall i | 0 <= i < |log| ::
                 r[i] == if log[i].user == u && log[i].kind == Marketing && log[i].revokedAt.None?
                         then Consent(u, Marketing, log[i].acceptedAt, Some(now), log[i].source, Some(source))
                         else log[i]
  {
    RevokeWrites(log, u, Marketing, Some(source), now);
    GrantWrites(log, u, Marketing, source, now);
    forall i | 0 <= i < |log| && log[i].user == u && log[i].kind == Marketing && log[i].revokedAt.None?
      ensures CurrentlyActive(log, u, Marketing)
    {
      assert ActiveRow(log[i], u, Marketing);
    }
  }

  lemma AppendedRow(log: Log, c: Consent)
    ensures var r := log + [c];
            && Extends(log, r) && EverDecided(r, c.user, c.kind)
            && (forall v: UserId, m :: CurrentlyActive(r, v, m) <==> CurrentlyActive(log, v, m) || ActiveRow(c, v, m))
  {
    var r := log + [c];
    assert r[|log|] == c;
    forall v: UserId, m ensures CurrentlyActive(r, v, m) <==> CurrentlyActive(log, v, m) || ActiveRow(c, v, m) {
      assert forall i | 0 <= i < |log| :: r[i] == log[i];
      if CurrentlyActive(log, v, m) {
        var i :| 0 <= i < |log| && ActiveRow(log[i], v, m);
        assert ActiveRow(r[i], v, m);
      }
    }
  }

  lemma AppendedFacts(log: Log, c: Consent)
    requires AtMostOneActive(log) && (c.revokedAt.None? ==> !CurrentlyActive(log, c.user, c.kind))
    ensures var r := log + [c];
            && AtMostOneActive(r) && Extends(log, r) && EverDecided(r, c.user, c.kind)
            && (forall v: UserId, m :: CurrentlyActive(r, v, m) <==> CurrentlyActive(log, v, m) || ActiveRow(c, v, m))
  {
    AppendedRow(log, c);
    forall i | 0 <= i < |log| && c.revokedAt.None? && log[i].revokedAt.None?
      ensures log[i].user != c.user || log[i].kind != c.kind
    {
      assert !ActiveRow(log[i], c.user, c.kind);
    }
  }

  lemma GrantedFacts(log: Log, u: UserId, k: Kind, source: string, now: nat)
    requires AtMostOneActive(log)
    ensures var r := Granted(log, u, k, source, now);
            && OneActive(r, u, k) && Extends(log, r) && EverDecided(r, u, k)
            && (forall v: UserId, m | (v, m) != (u, k) :: CurrentlyActive(r, v, m) <==> CurrentlyActive(log, v, m))
  {
    RevokedFacts(log, u, k, Some(source), now);
    AppendedFacts(Revoked(log, u, k, Some(source), now), Consent(u, k, now, None, source, None));
    ExtendsTransitive(log, Revoked(log, u, k, Some(source), now), Granted(log, u, k, source, now));
  }

  lemma ExtendsTransitive(a: Log, b: Log, c: Log)
    requires Extends(a, b) && Extends(b, c)
    ensures Extends(a, c)
  {
  }

  lemma DecidedIsMonotone(a: Log, b: Log, u: UserId, k: Kind)
    requires Extends(a, b) && EverDecided(a, u, k)
    ensures EverDecided(b, u, k)
  {
    var i :| 0 <= i < |a| && a[i].user == u && a[i].kind == k;
    assert b[i].user == u;
  }

  /** Every marketing PUT ends with subscribed as requested and decided true, and touches no other
      kind; it appends a row unless it ends a subscription. */
  lemma PutDoesAsAsked(log: Log, u: UserId, subscribed: bool, source: string, now: nat)
    requires AtMostOneActive(log)
    ensures var r := AfterPut(log, u, subscribed, source, now);
            && (CurrentlyActive(r, u, Marketing) <==> subscribed) && EverDecided(r, u, Marketing)
            && AtMostOneActive(r) && Extends(log, r)
            && (forall v: UserId, m | (v, m) != (u, Marketing) ::
                  CurrentlyActive(r, v, m) <==> CurrentlyActive(log, v, m))
            && |r| == |log| + if !subscribed && CurrentlyActive(log, u, Marketing) then 0 else 1
  {
    var r := AfterPut(log, u, subscribed, source, now);
    if subscribed {
      GrantedFacts(log, u, Marketing, source, now);
    } else if CurrentlyActive(log, u, Marketing) {
      RevokedFacts(log, u, Marketing, Some(source), now);
      var i :| 0 <= i < |log| && ActiveRow(log[i], u, Marketing);
      assert r[i].user == u && r[i].kind == Marketing;
    } else {
      AppendedFacts(log, Consent(u, Marketing, now, Some(now), source, None));
    }
  }

  lemma RegisterFacts(log: Log, u: UserId, marketing: bool, now: nat)
    requires AtMostOneActive(log)
    ensures var r := AfterRegister(log, u, marketing, now);
            && AtMostOneActive(r) && Extends(log, r) && CurrentlyActive(r, u, TermsPrivacy)
            && (forall v: UserId | v != u ::
                  CurrentlyActive(r, v, TermsPrivacy) <==> CurrentlyActive(log, v, TermsPrivacy))
            && (CurrentlyActive(r, u, Marketing) <==> marketing || CurrentlyActive(log, u, Marketing))
  {
    GrantedFacts(log, u, TermsPrivacy, "registration", now);
    if marketing {
      var terms := Granted(log, u, TermsPrivacy, "registration", now);
      GrantedFacts(terms, u, Marketing, "registration", now);
      ExtendsTransitive(log, terms, AfterRegister(log, u, marketing, now));
    }
  }

  /** Closing an account ends its marketing consent and no other; coming back renews the terms. */
  lemma ClosingAndReturning(s: State, u: UserId, now: nat)
    requires Inv(s) && u < s.next
    ensures var closed := Next(s, CloseAccount(u), now);
            && !CurrentlyActive(closed.log, u, Marketing) && closed.next == s.next
            && (forall v: UserId, m | (v, m) != (u, Marketing) ::
                  CurrentlyActive(closed.log, v, m) <==> CurrentlyActive(s.log, v, m))
    ensures var back := Next(s, ReturnAfterClosing(u), now);
            && |back.log| == |s.log| + 1 && back.next == s.next
            && back.log[|s.log|] == Consent(u, TermsPrivacy, now, None, "registration", None)
            && (forall v: UserId, m | (v, m) != (u, TermsPrivacy) ::
                  CurrentlyActive(back.log, v, m) <==> CurrentlyActive(s.log, v, m))
  {
    RevokedFacts(s.log, u, Marketing, Some("account_close"), now);
    GrantedFacts(s.log, u, TermsPrivacy, "registration", now);
    GrantWrites(s.log, u, TermsPrivacy, "registration", now);
  }

  lemma StepKeeps(s: State, e: Step, now: nat)
    requires Inv(s)
    ensures Inv(Next(s, e, now)) && Extends(s.log, Next(s, e, now).log)
  {
    match e
    case Register(marketing) => RegisterFacts(s.log, s.next, marketing, now);
    case ReturnAfterClosing(u) => if u < s.next { GrantedFacts(s.log, u, TermsPrivacy, "registration", now); }
    case PutMarketing(u, subscribed, source) => PutDoesAsAsked(s.log, u, subscribed, source, now);
    case CloseAccount(u) => RevokedFacts(s.log, u, Marketing, Some("account_close"), now);
  }

  lemma {:induction false} RunKeeps(s: State, run: seq<Timed>)
    requires Inv(s)
    ensures Inv(Run(s, run)) && Extends(s.log, Run(s, run).log) && s.next <= Run(s, run).next
    decreases |run|
  {
    if run != [] {
      var s' := Next(s, run[0].step, run[0].at);
      StepKeeps(s, run[0].step, run[0].at);
      RunKeeps(s', run[1..]);
      ExtendsTransitive(s.log, s'.log, Run(s', run[1..]).log);
    }
  }

  /** Over every run from an empty log: one active row at most per user and kind; the log only
      grows; what was decided stays decided; and everyone who registered holds exactly one active
      terms row, even after closing the account. */
  lemma LogIsSound(before: seq<Timed>, after: seq<Timed>, u: UserId, k: Kind)
    ensures var s := Run(State([], 0), before);
            var s' := Run(s, after);
            && AtMostOneActive(s'.log) && Extends(s.log, s'.log)
            && (EverDecided(s.log, u, k) ==> EverDecided(s'.log, u, k))
            && (u < s.next ==> OneActive(s'.log, u, TermsPrivacy))
  {
    var s := Run(State([], 0), before);
    RunKeeps(State([], 0), before);
    RunKeeps(s, after);
    if EverDecided(s.log, u, k) {
      DecidedIsMonotone(s.log, Run(s, after).log, u, k);
    }
  }

  // ------------------------------------------------------------ the repository as it runs

  class ConsentsRepository {
    var rows: Log

    constructor ()
      ensures rows == []
    {
      rows := [];
    }

    method HasEverDecided(u: UserId, k: Kind) returns (r: bool)
      ensures r <==> EverDecided(rows, u, k)
    {
      r := exists i :: 0 <= i < |rows| && rows[i].user == u && rows[i].kind == k;
    }

    method IsCurrentlyActive(u: UserId, k: Kind) returns (r: bool)
      ensures r <==> CurrentlyActive(rows, u, k)
    {
      r := exists i :: 0 <= i < |rows| && ActiveRow(rows[i], u, k);
    }

    method Revoke(u: UserId, k: Kind, source: Option<string>, now: nat) returns (revoked: bool)
      requires AtMostOneActive(rows)
      modifies this
      ensures rows == Revoked(old(rows), u, k, source, now)
      ensures revoked <==> CurrentlyActive(old(rows), u, k)
    {
      for i := 0 to |rows|
        invariant rows == old(rows) && forall j | 0 <= j < i :: !ActiveRow(rows[j], u, k)
      {
        if ActiveRow(rows[i], u, k) {
          rows := rows[i := rows[i].(revokedAt := Some(now), revokedSource := source)];
          return true;
        }
      }
      return false;
    }

    method Grant(u: UserId, k: Kind, source: string, now: nat)
      requires AtMostOneActive(rows)
      modifies this
      ensures rows == Granted(old(rows), u, k, source, now)
    {
      var _ := Revoke(u, k, Some(source), now);
      rows := rows + [Consent(u, k, now, None, source, None)];
    }

    /** The user has decided from now on, and what is active stays as it was. */
    method RecordRefusal(u: UserId, k: Kind, source: string, now: nat)
      modifies this
      ensures rows == RefusalRecorded(old(rows), u, k, source, now)
      ensures EverDecided(rows, u, k) && Extends(old(rows), rows)
      ensures forall v: UserId, m :: CurrentlyActive(rows, v, m) <==> CurrentlyActive(old(rows), v, m)
    {
      AppendedRow(rows, Consent(u, k, now, Some(now), source, None));
      rows := rows + [Consent(u, k, now, Some(now), source, None)];
    }

    /** The consents of a registration: terms always, marketing only when the box was ticked. */
    method Register(u: UserId, marketing: bool, now: nat)
      requires AtMostOneActive(rows)
      modifies this
      ensures rows == AfterRegister(old(rows), u, marketing, now)
    {
      GrantedFacts(rows, u, TermsPrivacy, "registration", now);
      Grant(u, TermsPrivacy, "registration", now);
      if marketing {
        Grant(u, Marketing, "registration", now);
      }
    }

    /** The marketing toggle; answers what the log then says. */
    method UpdateMarketingConsent(u: UserId, subscribed: bool, source: string, now: nat)
      returns (decided: bool, active: bool)
      requires AtMostOneActive(rows)
      modifies this
      ensures rows == AfterPut(old(rows), u, subscribed, source, now) && AtMostOneActive(rows)
      ensures decided && active == subscribed
    {
      PutDoesAsAsked(rows, u, subscribed, source, now);
      if subscribed {
        Grant(u, Marketing, source, now);
      } else {
        var current := IsCurrentlyActive(u, Marketing);
        if current {
          var _ := Revoke(u, Marketing, Some(source), now);
        } else {
          RecordRefusal(u, Marketing, source, now);
        }
      }
      decided := HasEverDecided(u, Marketing);
      active := IsCurrentlyActive(u, Marketing);
    }
  }
}
