/** Interview scheduling: no interviewer is double-booked, and an offer is confirmed at most once.
    Instants are UTC clock readings. */
module Interviews {
  import opened Wrappers

  type Id = nat

  /** An ISO-8601 stamp as parsed: unreadable, without an offset, or with one. */
  datatype Stamp = Unreadable | Naive(t: nat) | Aware(t: nat)

  datatype Slot = Slot(start: Stamp, end: Stamp)

  datatype Interview = Interview(
    application: Id, stage: Id, interviewer: Id, scheduledAt: Option<nat>, endsAt: Option<nat>, status: Id,
    scheduler: Id, offered: seq<Slot>, expiresAt: Option<nat>, active: bool)

  /** Catalog ids of the interview statuses and of the two schedulers, when seeded. */
  datatype Statuses = Statuses(offered: Option<Id>, confirmed: Option<Id>, cancelled: Option<Id>,
                               hr: Option<Id>, candidate: Option<Id>)

  /** `owner` resolves an application to its candidate's user; `applications`, `stages`, `known` and
      `people` are the active applications, stages, parameters and users a reference may name. */
  datatype State = State(
    rows: map<Id, Interview>, next: Id, statuses: Statuses,
    applications: set<Id>, owner: map<Id, Id>, stages: set<Id>, known: set<Id>, people: set<Id>)

  /** A PATCH field: absent, or sent (possibly as null). */
  datatype Sent<T> = Absent | Value(v: Option<T>)

  /** Stored without slots and stored with an empty list are the same offer. */
  datatype Patch = Patch(stage: Sent<Id>, interviewer: Sent<Id>, scheduledAt: Sent<nat>, endsAt: Sent<nat>,
                         status: Sent<Id>, scheduler: Sent<Id>, offered: Sent<seq<Slot>>)

  datatype Call =
    | Create(interview: Interview)
    | Invite(application: Id, stage: Id, interviewer: Id, slots: seq<Slot>)
    | Update(id: Id, patch: Patch)
    | Delete(id: Id)
    | Confirm(id: Id, user: Id, chosen: Slot)

  datatype Error =
    | NotFound | Invalid | UnknownReference | DoubleBooking | MultipleResults | OfferClosed | NullColumn

  datatype Reply = Done(id: Id) | Refused(error: Error)

  const OFFER_EXPIRY: nat := 7 * 86_400 * 1_000_000

  // ------------------------------------------------------------ bookings

  predicate Cancelled(s: State, i: Interview) { s.statuses.cancelled == Some(i.status) }

  predicate Booked(s: State, i: Interview) {
    i.active && i.scheduledAt.Some? && i.endsAt.Some? && !Cancelled(s, i)
  }

  predicate Overlaps(i: Interview, start: nat, end: nat)
    requires i.scheduledAt.Some? && i.endsAt.Some?
  {
    i.scheduledAt.value < end && i.endsAt.value > start
  }

  /** The rows the double-booking query returns. */
  function Conflicts(s: State, interviewer: Id, start: nat, end: nat, exclude: Option<Id>): set<Id> {
    set i | i in s.rows && Booked(s, s.rows[i]) && s.rows[i].interviewer == interviewer
            && Overlaps(s.rows[i], start, end) && exclude != Some(i)
  }

  /** One conflicting row is a double booking; finding two is a failure of the query itself. */
  function BookingError(conflicts: set<Id>): Option<Error> {
    if conflicts == {} then None else Some(if |conflicts| == 1 then DoubleBooking else MultipleResults)
  }

  predicate Clash(a: Interview, b: Interview)
    requires a.scheduledAt.Some? && a.endsAt.Some? && b.scheduledAt.Some? && b.endsAt.Some?
  {
    a.interviewer == b.interviewer && Overlaps(a, b.scheduledAt.value, b.endsAt.value)
  }

  /** No two bookings of one interviewer overlap. */
  predicate Disjoint(s: State) {
    forall i, j | i in s.rows && j in s.rows && i != j && Booked(s, s.rows[i]) && Booked(s, s.rows[j]) ::
      !Clash(s.rows[i], s.rows[j])
  }

  // ------------------------------------------------------------ the calls

  predicate Resolves(s: State, i: Interview) {
    && i.application in s.applications && i.stage in s.stages && i.interviewer in s.people
    && i.status in s.known && i.scheduler in s.known
  }

  /** A reference that is sent, and not as null, must name something. */
  predicate SentResolves(sent: Sent<Id>, among: set<Id>) {
    sent.Value? && sent.v.Some? ==> sent.v.value in among
  }

  function CreateCall(s: State, i: Interview): (State, Reply)
    requires i.scheduledAt.Some? && i.endsAt.Some?
  {
    if i.endsAt.value <= i.scheduledAt.value then (s, Refused(Invalid))
    else if !Resolves(s, i) then (s, Refused(UnknownReference))
    else
      var taken := BookingError(Conflicts(s, i.interviewer, i.scheduledAt.value, i.endsAt.value, None));
      if taken.Some? then (s, Refused(taken.value))
      else (s.(rows := s.rows[s.next := i.(active := true)], next := s.next + 1), Done(s.next))
  }

  function InviteCall(s: State, application: Id, stage: Id, interviewer: Id,
                      slots: seq<Slot>, now: nat): (State, Reply) {
    if application !in s.applications || stage !in s.stages || interviewer !in s.people
       || s.statuses.offered.None? || s.statuses.hr.None?
    then (s, Refused(UnknownReference))
    else
      var i := Interview(application, stage, interviewer, None, None, s.statuses.offered.value,
                         s.statuses.hr.value, slots, Some(now + OFFER_EXPIRY), true);
      (s.(rows := s.rows[s.next := i], next := s.next + 1), Done(s.next))
  }

  function Or<T>(f: Sent<T>, current: Option<T>): Option<T> {
    match f
    case Absent => current
    case Value(v) => v
  }

  /** The patch sends a time or an interviewer, so bookings are checked when both times are set. */
  predicate Rechecks(p: Patch) { p.scheduledAt.Value? || p.endsAt.Value? || p.interviewer.Value? }

  /** No column that must hold a value is set to null. */
  predicate NoNulls(p: Patch) {
    && p.stage != Value(None) && p.interviewer != Value(None)
    && p.status != Value(None) && p.scheduler != Value(None)
  }

  function Now<T>(f: Sent<T>, current: T): T
    requires f != Value(None)
  {
    Or(f, Some(current)).value
  }

  function Patched(i: Interview, p: Patch): Interview
    requires NoNulls(p)
  {
    i.(stage := Now(p.stage, i.stage), interviewer := Now(p.interviewer, i.interviewer),
       status := Now(p.status, i.status),
       scheduler := Now(p.scheduler, i.scheduler), scheduledAt := Or(p.scheduledAt, i.scheduledAt),
       endsAt := Or(p.endsAt, i.endsAt), offered := SlotsAfter(p.offered, i.offered))
  }

  function SlotsAfter(f: Sent<seq<Slot>>, current: seq<Slot>): seq<Slot> {
    match f
    case Absent => current
    case Value(None) => []
    case Value(Some(slots)) => slots
  }

  function UpdateCall(s: State, id: Id, p: Patch): (State, Reply) {
    if id !in s.rows || !s.rows[id].active then (s, Refused(NotFound)) else
    var i := s.rows[id];
    var start, end := Or(p.scheduledAt, i.scheduledAt), Or(p.endsAt, i.endsAt);
    var interviewer := Or(p.interviewer, Some(i.interviewer));
    if start.Some? && end.Some? && end.value <= start.value then (s, Refused(Invalid)) else
    var taken := if Rechecks(p) && start.Some? && end.Some? && interviewer.Some?
                 then BookingError(Conflicts(s, interviewer.value, start.value, end.value, Some(id))) else None;
    if taken.Some? then (s, Refused(taken.value))
    else if !(SentResolves(p.stage, s.stages) && SentResolves(p.interviewer, s.people)
              && SentResolves(p.status, s.known) && SentResolves(p.scheduler, s.known))
    then (s, Refused(UnknownReference))
    else if !NoNulls(p) then (s, Refused(NullColumn))
    else (s.(rows := s.rows[id := Patched(i, p)]), Done(id))
  }

  function DeleteCall(s: State, id: Id): (State, Reply) {
    if id !in s.rows || !s.rows[id].active then (s, Refused(NotFound))
    else (s.(rows := s.rows[id := s.rows[id].(active := false)]), Done(id))
  }

  /** What `get_offer_for_candidate` answers. */
  function OfferError(s: State, id: Id, user: Id, now: nat): Option<Error> {
    if id !in s.rows || !s.rows[id].active then Some(NotFound) else
    var i := s.rows[id];
    if i.application !in s.owner || s.owner[i.application] != user then Some(NotFound)
    else if s.statuses.offered != Some(i.status) then Some(OfferClosed)
    else if i.scheduledAt.Some? then Some(OfferClosed)
    else if i.expiresAt.Some? && i.expiresAt.value < now then Some(OfferClosed)
    else None
  }

  /** What `list_offers_for_candidate` returns. */
  function OpenOffers(s: State, user: Id, now: nat): set<Id> {
    if s.statuses.offered.None? then {} else
      set i | i in s.rows && s.rows[i].application in s.owner && s.owner[s.rows[i].application] == user
              && s.rows[i].status == s.statuses.offered.value && s.rows[i].scheduledAt.None?
              && s.rows[i].active && (s.rows[i].expiresAt.None? || s.rows[i].expiresAt.value >= now)
  }

  /** A stamp stored without an offset is read as UTC. */
  predicate Names(stamp: Stamp, t: nat) { !stamp.Unreadable? && stamp.t == t }

  predicate Offered(slots: seq<Slot>, start: nat, end: nat) {
    exists k :: 0 <= k < |slots| && Names(slots[k].start, start) && Names(slots[k].end, end)
  }

  /** The row of a confirmed offer. */
  function Confirmed(s: State, i: Interview, start: nat, end: nat): Interview
    requires s.statuses.confirmed.Some? && s.statuses.candidate.Some?
  {
    i.(scheduledAt := Some(start), endsAt := Some(end), status := s.statuses.confirmed.value,
       scheduler := s.statuses.candidate.value)
  }

  function ConfirmCall(s: State, id: Id, user: Id, chosen: Slot, now: nat): (State, Reply) {
    var closed := OfferError(s, id, user, now);
    if closed.Some? then (s, Refused(closed.value))
    else if !chosen.start.Aware? || !chosen.end.Aware? || chosen.start.t < now then (s, Refused(Invalid))
    else
      var i, start, end := s.rows[id], chosen.start.t, chosen.end.t;
      var taken := BookingError(Conflicts(s, i.interviewer, start, end, Some(id)));
      if !Offered(i.offered, start, end) then (s, Refused(Invalid))
      else if taken.Some? then (s, Refused(taken.value))
      else if s.statuses.confirmed.None? || s.statuses.candidate.None? then (s, Refused(UnknownReference))
      else
        var booked := Confirmed(s, i, start, end);
        (s.(rows := s.rows[id := booked]), Done(id))
  }

  predicate WellTyped(c: Call) { c.Create? ==> c.interview.scheduledAt.Some? && c.interview.endsAt.Some? }

  function Step(s: State, c: Call, now: nat): (State, Reply)
    requires WellTyped(c)
  {
    match c
    case Create(i) => CreateCall(s, i)
    case Invite(application, stage, interviewer, slots) => InviteCall(s, application, stage, interviewer, slots, now)
    case Update(id, p) => UpdateCall(s, id, p)
    case Delete(id) => DeleteCall(s, id)
    case Confirm(id, user, chosen) => ConfirmCall(s, id, user, chosen, now)
  }

  datatype Timed = Timed(call: Call, at: nat)

  predicate AllTyped(run: seq<Timed>) { forall k | 0 <= k < |run| :: WellTyped(run[k].call) }

  function Run(s: State, run: seq<Timed>): State
    requires AllTyped(run)
    decreases |run|
  {
    if run == [] then s else Run(Step(s, run[0].call, run[0].at).0, run[1..])
  }

  // ------------------------------------------------------------ no double booking

  predicate FreshIds(s: State) { forall i | i in s.rows :: i < s.next }

  /** The update takes a booked-again row out of the cancelled status without being re-checked. */
  predicate RevivesUnchecked(s: State, id: Id, p: Patch)
    requires id in s.rows
  {
    Cancelled(s, s.rows[id]) && p.status.Value? && p.status.v != s.statuses.cancelled && !Rechecks(p)
  }

  /** The bookings an unchecked revival would run into: the query `update` leaves out. */
  function StoredConflicts(s: State, id: Id): set<Id>
    requires id in s.rows
  {
    var i := s.rows[id];
    if i.scheduledAt.Some? && i.endsAt.Some?
    then Conflicts(s, i.interviewer, i.scheduledAt.value, i.endsAt.value, Some(id)) else {}
  }

  lemma BookingKeepsDisjoint(s: State, id: Id, i: Interview)
    requires Disjoint(s)
    requires Booked(s, i) ==> Conflicts(s, i.interviewer, i.scheduledAt.value, i.endsAt.value, Some(id)) == {}
    ensures Disjoint(s.(rows := s.rows[id := i]))
  {
    if Booked(s, i) {
      var taken := Conflicts(s, i.interviewer, i.scheduledAt.value, i.endsAt.value, Some(id));
      forall j | j in s.rows && j != id && Booked(s, s.rows[j]) ensures !Clash(s.rows[j], i) {
        assert j !in taken;
      }
    }
  }

  lemma ConflictMeansClash(s: State, id: Id, i: Interview)
    requires Booked(s, i) && Conflicts(s, i.interviewer, i.scheduledAt.value, i.endsAt.value, Some(id)) != {}
    ensures !Disjoint(s.(rows := s.rows[id := i]))
  {
    var s' := s.(rows := s.rows[id := i]);
    var j :| j in Conflicts(s, i.interviewer, i.scheduledAt.value, i.endsAt.value, Some(id));
    assert s'.rows[j] == s.rows[j] && Clash(s'.rows[j], s'.rows[id]);
  }

  /** The booking check refuses nothing more than it must: a well-formed interview that is not born
      cancelled is accepted exactly when adding it leaves the calendar disjoint. */
  lemma CreateAcceptsIffDisjoint(s: State, i: Interview)
    requires Disjoint(s) && FreshIds(s) && i.scheduledAt.Some? && i.endsAt.Some?
    requires i.scheduledAt.value < i.endsAt.value && !Cancelled(s, i)
    requires Resolves(s, i)
    ensures CreateCall(s, i).1.Done? <==> Disjoint(s.(rows := s.rows[s.next := i.(active := true)]))
  {
    var taken := Conflicts(s, i.interviewer, i.scheduledAt.value, i.endsAt.value, None);
    assert taken == Conflicts(s, i.interviewer, i.scheduledAt.value, i.endsAt.value, Some(s.next));
    if taken == {} {
      BookingKeepsDisjoint(s, s.next, i.(active := true));
    } else {
      ConflictMeansClash(s, s.next, i.(active := true));
    }
  }

  /** The same for a confirmation of an open offer for an offered slot that has not begun. */
  lemma ConfirmAcceptsIffDisjoint(s: State, id: Id, user: Id, chosen: Slot, now: nat)
    requires Disjoint(s) && id in OpenOffers(s, user, now) && chosen.start.Aware? && chosen.end.Aware?
    requires now <= chosen.start.t && Offered(s.rows[id].offered, chosen.start.t, chosen.end.t)
    requires s.statuses.confirmed.Some? && s.statuses.candidate.Some? && s.statuses.confirmed != s.statuses.cancelled
    ensures ConfirmCall(s, id, user, chosen, now).1.Done? <==>
            Disjoint(s.(rows := s.rows[id := Confirmed(s, s.rows[id], chosen.start.t, chosen.end.t)]))
  {
    var i := Confirmed(s, s.rows[id], chosen.start.t, chosen.end.t);
    ListedIffAccepted(s, user, now, id);
    var taken := Conflicts(s, i.interviewer, chosen.start.t, chosen.end.t, Some(id));
    if taken == {} {
      BookingKeepsDisjoint(s, id, i);
    } else {
      ConflictMeansClash(s, id, i);
    }
  }

  /** An accepted update keeps bookings disjoint exactly when it is not an unchecked revival onto
      a window that has meanwhile been given away. */
  lemma UpdateKeepsDisjointIff(s: State, id: Id, p: Patch)
    requires Disjoint(s) && UpdateCall(s, id, p).1.Done?
    ensures Disjoint(UpdateCall(s, id, p).0) <==> !(RevivesUnchecked(s, id, p) && StoredConflicts(s, id) != {})
  {
    var i, i' := s.rows[id], Patched(s.rows[id], p);
    var s' := UpdateCall(s, id, p).0;
    if RevivesUnchecked(s, id, p) && StoredConflicts(s, id) != {} {
      var j :| j in StoredConflicts(s, id);
      assert s'.rows[j] == s.rows[j] && Clash(s'.rows[j], s'.rows[id]);
    } else {
      if Booked(s, i') && !Rechecks(p) {
        if RevivesUnchecked(s, id, p) {
          assert Conflicts(s, i'.interviewer, i'.scheduledAt.value, i'.endsAt.value, Some(id))
             == StoredConflicts(s, id);
        } else {
          assert Booked(s, i);
          forall j | j in s.rows && j != id && Booked(s, s.rows[j])
            ensures j !in Conflicts(s, i'.interviewer, i'.scheduledAt.value, i'.endsAt.value, Some(id))
          {
            assert !Clash(s.rows[j], i);
          }
        }
      }
      BookingKeepsDisjoint(s, id, i');
      assert s' == s.(rows := s.rows[id := i']);
    }
  }

  function NoInterviews(): State {
    State(map[], 0, Statuses(Some(1), Some(2), Some(3), Some(4), Some(5)), {0}, map[0 := 0], {0}, {1, 2, 3, 4, 5}, {7})
  }

  function Meeting(status: Id): Interview { Interview(0, 0, 7, Some(10), Some(20), status, 4, [], None, true) }

  function StatusPatch(status: Id): Patch { Patch(Absent, Absent, Absent, Absent, Value(Some(status)), Absent, Absent) }

  function Taken(s: State, t: Timed): State
    requires WellTyped(t.call)
  {
    Step(s, t.call, t.at).0
  }

  lemma RunFour(s: State, run: seq<Timed>)
    requires |run| == 4 && AllTyped(run)
    ensures Run(s, run) == Taken(Taken(Taken(Taken(s, run[0]), run[1]), run[2]), run[3])
  {
    var three := run[1..];
    var two := three[1..];
    var one := two[1..];
    assert three[0] == run[1] && two[0] == run[2] && one[0] == run[3] && one[1..] == [];
    var x := Taken(s, run[0]);
    var y := Taken(x, run[1]);
    var z := Taken(y, run[2]);
    assert Run(s, run) == Run(x, three) == Run(y, two) == Run(z, one) == Run(Taken(z, run[3]), []);
  }

  /** From the empty calendar: book an hour, cancel it, give it away, restore the cancelled booking's
      status. The interviewer is double-booked. */
  lemma RevivalDoubleBooks() returns (run: seq<Timed>)
    ensures AllTyped(run) && Disjoint(NoInterviews()) && !Disjoint(Run(NoInterviews(), run))
  {
    var book, cancel, restore := Create(Meeting(2)), Update(0, StatusPatch(3)), Update(0, StatusPatch(2));
    run := [Timed(book, 0), Timed(cancel, 0), Timed(book, 0), Timed(restore, 0)];
    var s0 := NoInterviews();
    assert Conflicts(s0, 7, 10, 20, None) == {};
    var s1 := Step(s0, book, 0).0;
    assert s1.rows == map[0 := Meeting(2)];
    var s2 := Step(s1, cancel, 0).0;
    assert s2.rows == map[0 := Meeting(3)];
    assert Conflicts(s2, 7, 10, 20, None) == {};
    var s3 := Step(s2, book, 0).0;
    assert s3.rows == map[0 := Meeting(3), 1 := Meeting(2)];
    var s4 := Step(s3, restore, 0).0;
    assert s4.rows == map[0 := Meeting(2), 1 := Meeting(2)];
    assert Clash(s4.rows[0], s4.rows[1]);
    RunFour(s0, run);
  }

  lemma CreateKeepsDisjoint(s: State, i: Interview)
    requires Disjoint(s) && FreshIds(s) && i.scheduledAt.Some? && i.endsAt.Some?
    ensures Disjoint(CreateCall(s, i).0)
  {
    if CreateCall(s, i).1.Done? {
      assert Conflicts(s, i.interviewer, i.scheduledAt.value, i.endsAt.value, Some(s.next))
          == Conflicts(s, i.interviewer, i.scheduledAt.value, i.endsAt.value, None);
      BookingKeepsDisjoint(s, s.next, i.(active := true));
    }
  }

  /** An accepted update that revives a cancelled booking, unchecked, onto a window given away. */
  predicate RevivesIntoConflict(s: State, c: Call) {
    c.Update? && UpdateCall(s, c.id, c.patch).1.Done? && RevivesUnchecked(s, c.id, c.patch)
        && StoredConflicts(s, c.id) != {}
  }

  /** One call of any kind keeps bookings disjoint exactly when it is no such update. */
  lemma StepKeepsDisjointIff(s: State, c: Call, now: nat)
    requires WellTyped(c) && Disjoint(s) && FreshIds(s)
    ensures Disjoint(Step(s, c, now).0) <==> !RevivesIntoConflict(s, c)
    ensures FreshIds(Step(s, c, now).0)
  {
    var (s', reply) := Step(s, c, now);
    if reply.Done? {
      match c
      case Create(i) => CreateKeepsDisjoint(s, i);
      case Invite(_, _, _, _) => BookingKeepsDisjoint(s, s.next, s'.rows[s.next]);
      case Update(id, p) => UpdateKeepsDisjointIff(s, id, p);
      case Delete(id) => BookingKeepsDisjoint(s, id, s'.rows[id]);
      case Confirm(id, user, chosen) => BookingKeepsDisjoint(s, id, s'.rows[id]);
    }
  }

  predicate NeverRevivesIntoConflict(s: State, run: seq<Timed>)
    requires AllTyped(run)
    decreases |run|
  {
    run == [] || (!RevivesIntoConflict(s, run[0].call) && NeverRevivesIntoConflict(Taken(s, run[0]), run[1..]))
  }

  /** Disjoint in every state the run passes through. */
  predicate DisjointThroughout(s: State, run: seq<Timed>)
    requires AllTyped(run)
    decreases |run|
  {
    Disjoint(s) && (run == [] || DisjointThroughout(Taken(s, run[0]), run[1..]))
  }

  /** Over every run of creates, invitations, updates, confirmations, deletions and cancellations,
      bookings stay disjoint all along if and only if no cancelled booking is revived, unchecked,
      onto a window given away meanwhile. */
  lemma {:induction false} DisjointThroughoutIff(s: State, run: seq<Timed>)
    requires AllTyped(run) && Disjoint(s) && FreshIds(s)
    ensures DisjointThroughout(s, run) <==> NeverRevivesIntoConflict(s, run)
    decreases |run|
  {
    if run != [] {
      StepKeepsDisjointIff(s, run[0].call, run[0].at);
      if Disjoint(Taken(s, run[0])) { DisjointThroughoutIff(Taken(s, run[0]), run[1..]); }
    }
  }

  /** No update takes a row out of the cancelled status without sending a time or an interviewer. */
  predicate NoUncheckedRevival(s: State, run: seq<Timed>)
    requires AllTyped(run)
    decreases |run|
  {
    run == [] ||
    (&& (run[0].call.Update? && run[0].call.id in s.rows ==> !RevivesUnchecked(s, run[0].call.id, run[0].call.patch))
     && NoUncheckedRevival(Taken(s, run[0]), run[1..]))
  }

  /** In particular over every run without an unchecked revival. */
  lemma {:induction false} RunKeepsDisjoint(s: State, run: seq<Timed>)
    requires AllTyped(run) && Disjoint(s) && FreshIds(s) && NoUncheckedRevival(s, run)
    ensures Disjoint(Run(s, run)) && FreshIds(Run(s, run))
    decreases |run|
  {
    if run != [] {
      StepKeepsDisjointIff(s, run[0].call, run[0].at);
      RunKeepsDisjoint(Taken(s, run[0]), run[1..]);
    }
  }

  /** In terms of time: two bookings of one interviewer never share an instant. */
  lemma NoSharedInstant(s: State, i: Id, j: Id, t: nat)
    requires Disjoint(s) && i in s.rows && j in s.rows && i != j
    requires Booked(s, s.rows[i]) && Booked(s, s.rows[j]) && s.rows[i].interviewer == s.rows[j].interviewer
    ensures !(s.rows[i].scheduledAt.value <= t < s.rows[i].endsAt.value
              && s.rows[j].scheduledAt.value <= t < s.rows[j].endsAt.value)
  {
    assert !Clash(s.rows[i], s.rows[j]);
  }

  // ------------------------------------------------------------ offers

  /** A candidate sees an offer exactly when it could be confirmed at that instant. */
  lemma ListedIffAccepted(s: State, user: Id, now: nat, id: Id)
    ensures id in OpenOffers(s, user, now) <==> OfferError(s, id, user, now).None?
  {
  }

  /** A confirmed time is one of the offered slots and not in the past. */
  lemma ConfirmedTimeWasOffered(s: State, id: Id, user: Id, chosen: Slot, now: nat)
    requires ConfirmCall(s, id, user, chosen, now).1.Done?
    ensures var i := ConfirmCall(s, id, user, chosen, now).0.rows[id];
            && i.scheduledAt.Some? && i.endsAt.Some? && now <= i.scheduledAt.value
            && Offered(s.rows[id].offered, i.scheduledAt.value, i.endsAt.value)
            && id in OpenOffers(s, user, now)
            && s.statuses.confirmed == Some(i.status)
  {
  }

  /** The offer can no longer be confirmed by anyone. */
  predicate Closed(s: State, id: Id) {
    id in s.rows && (s.rows[id].scheduledAt.Some? || !s.rows[id].active)
  }

  predicate NeverUpdates(run: seq<Timed>, id: Id) {
    forall k | 0 <= k < |run| :: !(run[k].call.Update? && run[k].call.id == id)
  }

  lemma {:induction false} ClosedStays(s: State, run: seq<Timed>, id: Id)
    requires AllTyped(run) && FreshIds(s) && Closed(s, id) && NeverUpdates(run, id)
    ensures Closed(Run(s, run), id)
    decreases |run|
  {
    if run != [] {
      ClosedStays(Step(s, run[0].call, run[0].at).0, run[1..], id);
    }
  }

  /** Without an HR update of it, an offer is confirmed at most once. */
  lemma ConfirmedOnce(s: State, id: Id, user: Id, chosen: Slot, now: nat,
                      run: seq<Timed>, user': Id, chosen': Slot, later: nat)
    requires AllTyped(run) && FreshIds(s) && NeverUpdates(run, id)
    requires ConfirmCall(s, id, user, chosen, now).1.Done?
    ensures ConfirmCall(Run(ConfirmCall(s, id, user, chosen, now).0, run), id, user', chosen', later).1.Refused?
  {
    ClosedStays(ConfirmCall(s, id, user, chosen, now).0, run, id);
  }

  // ------------------------------------------------------------ the service as it runs

  class InterviewService {
    var rows: map<Id, Interview>
    var next: Id
    const statuses: Statuses
    const applications: set<Id>
    const owner: map<Id, Id>
    const stages: set<Id>
    const known: set<Id>
    const people: set<Id>

    ghost function View(): State
      reads this
    {
      State(rows, next, statuses, applications, owner, stages, known, people)
    }

    constructor (empty: State)
      requires empty.rows == map[] && empty.next == 0
      ensures View() == empty
    {
      statuses, applications, owner := empty.statuses, empty.applications, empty.owner;
      stages, known, people, rows, next := empty.stages, empty.known, empty.people, map[], 0;
    }

    method AssertNoDoubleBooking(interviewer: Id, start: nat, end: nat, exclude: Option<Id>)
      returns (taken: Option<Error>)
      ensures taken == BookingError(Conflicts(View(), interviewer, start, end, exclude))
    {
      var conflicts :=
        set i | i in rows && rows[i].interviewer == interviewer && rows[i].active
                && rows[i].scheduledAt.Some? && rows[i].endsAt.Some?
                && rows[i].scheduledAt.value < end && rows[i].endsAt.value > start
                && statuses.cancelled != Some(rows[i].status) && exclude != Some(i);
      assert conflicts == Conflicts(View(), interviewer, start, end, exclude);
      if conflicts == {} {
        return None;
      }
      return Some(if |conflicts| == 1 then DoubleBooking else MultipleResults);
    }

    method Insert(i: Interview)
      modifies this
      ensures View() == old(View()).(rows := old(rows)[old(next) := i], next := old(next) + 1)
    {
      rows := rows[next := i];
      next := next + 1;
    }

    method Create(i: Interview) returns (reply: Reply)
      requires i.scheduledAt.Some? && i.endsAt.Some?
      modifies this
      ensures (View(), reply) == CreateCall(old(View()), i)
    {
      if i.endsAt.value <= i.scheduledAt.value {
        return Refused(Invalid);
      }
      if i.application !in applications || i.stage !in stages || i.interviewer !in people {
        return Refused(UnknownReference);
      }
      if i.status !in known || i.scheduler !in known {
        return Refused(UnknownReference);
      }
      var taken := AssertNoDoubleBooking(i.interviewer, i.scheduledAt.value, i.endsAt.value, None);
      if taken.Some? {
        return Refused(taken.value);
      }
      Insert(i.(active := true));
      return Done(next - 1);
    }

    method CreateInvite(application: Id, stage: Id, interviewer: Id, slots: seq<Slot>, now: nat) returns (reply: Reply)
      modifies this
      ensures (View(), reply) == InviteCall(old(View()), application, stage, interviewer, slots, now)
    {
      if application !in applications || stage !in stages || interviewer !in people {
        return Refused(UnknownReference);
      }
      if statuses.offered.None? || statuses.hr.None? {
        return Refused(UnknownReference);
      }
      Insert(Interview(application, stage, interviewer, None, None, statuses.offered.value, statuses.hr.value, slots,
                       Some(now + OFFER_EXPIRY), true));
      return Done(next - 1);
    }

    method Update(id: Id, p: Patch) returns (reply: Reply)
      modifies this
      ensures (View(), reply) == UpdateCall(old(View()), id, p)
    {
      if id !in rows || !rows[id].active {
        return Refused(NotFound);
      }
      var i := rows[id];
      var start, end := Or(p.scheduledAt, i.scheduledAt), Or(p.endsAt, i.endsAt);
      var interviewer := Or(p.interviewer, Some(i.interviewer));
      if start.Some? && end.Some? && end.value <= start.value {
        return Refused(Invalid);
      }
      if Rechecks(p) && start.Some? && end.Some? && interviewer.Some? {
        var taken := AssertNoDoubleBooking(interviewer.value, start.value, end.value, Some(id));
        if taken.Some? {
          return Refused(taken.value);
        }
      }
      if !SentResolves(p.stage, stages) || !SentResolves(p.interviewer, people) {
        return Refused(UnknownReference);
      }
      if !SentResolves(p.status, known) || !SentResolves(p.scheduler, known) {
        return Refused(UnknownReference);
      }
      if !NoNulls(p) {
        return Refused(NullColumn);
      }
      rows := rows[id := i.(stage := Now(p.stage, i.stage), interviewer := interviewer.value,
                            status := Now(p.status, i.status), scheduler := Now(p.scheduler, i.scheduler),
                            scheduledAt := start, endsAt := end, offered := SlotsAfter(p.offered, i.offered))];
      return Done(id);
    }

    method Delete(id: Id) returns (reply: Reply)
      modifies this
      ensures (View(), reply) == DeleteCall(old(View()), id)
    {
      if id !in rows || !rows[id].active {
        return Refused(NotFound);
      }
      rows := rows[id := rows[id].(active := false)];
      return Done(id);
    }

    method GetOffer(id: Id, user: Id, now: nat) returns (closed: Option<Error>)
      ensures closed == OfferError(View(), id, user, now)
    {
      if id !in rows || !rows[id].active {
        return Some(NotFound);
      }
      var i := rows[id];
      if i.application !in owner || owner[i.application] != user {
        return Some(NotFound);
      }
      if statuses.offered != Some(i.status) || i.scheduledAt.Some? {
        return Some(OfferClosed);
      }
      if i.expiresAt.Some? && i.expiresAt.value < now {
        return Some(OfferClosed);
      }
      return None;
    }

    method ConfirmSlot(id: Id, user: Id, chosen: Slot, now: nat) returns (reply: Reply)
      modifies this
      ensures (View(), reply) == ConfirmCall(old(View()), id, user, chosen, now)
    {
      var closed := GetOffer(id, user, now);
      if closed.Some? {
        return Refused(closed.value);
      }
      if !chosen.start.Aware? || !chosen.end.Aware? || chosen.start.t < now {
        return Refused(Invalid);
      }
      var i, start, end := rows[id], chosen.start.t, chosen.end.t;
      var matched := false;
      for k := 0 to |i.offered|
        invariant !matched && !Offered(i.offered[..k], start, end)
      {
        var slot := i.offered[k];
        if slot.start.Unreadable? || slot.end.Unreadable? {
          continue;
        }
        if slot.start.t == start && slot.end.t == end {
          matched := true;
          break;
        }
      }
      assert i.offered[..|i.offered|] == i.offered;
      if !matched {
        return Refused(Invalid);
      }
      var taken := AssertNoDoubleBooking(i.interviewer, start, end, Some(id));
      if taken.Some? {
        return Refused(taken.value);
      }
      if statuses.confirmed.None? || statuses.candidate.None? {
        return Refused(UnknownReference);
      }
      rows := rows[id := i.(scheduledAt := Some(start), endsAt := Some(end), status := statuses.confirmed.value,
                            scheduler := statuses.candidate.value)];
      return Done(id);
    }
  }
}
