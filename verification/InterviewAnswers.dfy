/** What each interview call stores, column by column, and what an invited candidate then sees. */
module InterviewAnswers {
  import opened Wrappers
  import opened Interviews

  /** One new row under the next id; every other row is as it was. */
  ghost predicate Added(s: State, s': State, i: Interview) {
    && s'.rows.Keys == s.rows.Keys + {s.next} && s'.rows[s.next] == i && s'.next == s.next + 1
    && (forall j | j in s.rows && j != s.next :: s'.rows[j] == s.rows[j])
    && s' == s.(rows := s'.rows, next := s'.next)
  }

  /** One row may have changed; no row appeared. */
  ghost predicate Touched(s: State, s': State, id: Id) {
    && s'.rows.Keys == s.rows.Keys && id in s.rows
    && (forall j | j in s.rows && j != id :: s'.rows[j] == s.rows[j])
    && s' == s.(rows := s'.rows)
  }

  /** A creation stores what was sent, as an active row, after all its references resolved. */
  lemma CreateStores(s: State, i: Interview)
    requires i.scheduledAt.Some? && i.endsAt.Some?
    ensures var (s', reply) := CreateCall(s, i);
            if reply.Done? then
              && reply == Done(s.next) && Added(s, s', i.(active := true))
              && i.scheduledAt.value < i.endsAt.value && Resolves(s, i)
            else s' == s
    ensures var reply := CreateCall(s, i).1;
            && (reply == Refused(Invalid) <==> i.endsAt.value <= i.scheduledAt.value)
            && (reply == Refused(UnknownReference) <==> i.scheduledAt.value < i.endsAt.value && !Resolves(s, i))
  {
  }

  /** The offer can be taken by the user at that time: an active, undecided offer of an application of
      theirs, not past its expiry. */
  predicate Open(s: State, id: Id, user: Id, now: nat) {
    && id in s.rows && s.rows[id].active
    && s.rows[id].application in s.owner && s.owner[s.rows[id].application] == user
    && s.statuses.offered == Some(s.rows[id].status) && s.rows[id].scheduledAt.None?
    && (s.rows[id].expiresAt.Some? ==> now <= s.rows[id].expiresAt.value)
  }

  /** Listing and looking up an offer follow the same rule. */
  lemma OpenIsListedAndAccepted(s: State, id: Id, user: Id, now: nat)
    ensures id in OpenOffers(s, user, now) <==> Open(s, id, user, now)
    ensures OfferError(s, id, user, now).None? <==> Open(s, id, user, now)
    ensures OfferError(s, id, user, now) == Some(NotFound) <==>
            !(id in s.rows && s.rows[id].active
              && s.rows[id].application in s.owner && s.owner[s.rows[id].application] == user)
  {
  }

  /** An invitation is answered with success exactly when everything it names exists; the candidate then
      sees it, with the slots sent, for seven days and not longer. */
  lemma InvitedCandidateSeesTheOffer(s: State, application: Id, stage: Id, interviewer: Id, slots: seq<Slot>, now: nat,
                                     user: Id, later: nat)
    requires application in s.owner && s.owner[application] == user && now <= later
    ensures var (s', reply) := InviteCall(s, application, stage, interviewer, slots, now);
            && (reply.Done? <==>
                  && application in s.applications && stage in s.stages && interviewer in s.people
                  && s.statuses.offered.Some? && s.statuses.hr.Some?)
            && (if reply.Done? then
                  && reply == Done(s.next)
                  && Added(s, s', Interview(application, stage, interviewer, None, None, s.statuses.offered.value,
                                            s.statuses.hr.value, slots, Some(now + 7 * 24 * 3600 * 1_000_000), true))
                  && (s.next in OpenOffers(s', user, later) <==> later <= now + 7 * 24 * 3600 * 1_000_000)
                else s' == s && reply == Refused(UnknownReference))
  {
    var (s', reply) := InviteCall(s, application, stage, interviewer, slots, now);
    OpenIsListedAndAccepted(s', s.next, user, later);
  }

  /** The column after a patch: what was sent, or what was there. */
  function After<T>(sent: Sent<T>, current: T): T {
    if sent.Value? && sent.v.Some? then sent.v.value else current
  }

  function AfterNullable<T>(sent: Sent<T>, current: Option<T>): Option<T> {
    if sent.Value? then sent.v else current
  }

  /** An accepted update stores exactly what was sent, keeps the rest, and touches no other row. */
  lemma UpdateStores(s: State, id: Id, p: Patch)
    ensures var (s', reply) := UpdateCall(s, id, p);
            if reply.Done? then
              && reply == Done(id) && Touched(s, s', id) && s.rows[id].active && Proper(s, s.rows[id], p)
              && var i, i' := s.rows[id], s'.rows[id];
                 && i'.scheduledAt == AfterNullable(p.scheduledAt, i.scheduledAt)
                 && i'.endsAt == AfterNullable(p.endsAt, i.endsAt)
                 && i'.interviewer == After(p.interviewer, i.interviewer) && i'.status == After(p.status, i.status)
                 && i'.stage == After(p.stage, i.stage) && i'.scheduler == After(p.scheduler, i.scheduler)
                 && i'.offered == (if p.offered == Value(None) then [] else After(p.offered, i.offered))
                 && i'.application == i.application && i'.expiresAt == i.expiresAt && i'.active
            else s' == s
    ensures UpdateCall(s, id, p).1 == Refused(NotFound) <==> !(id in s.rows && s.rows[id].active)
  {
  }

  /** The window an update would leave, if it leaves both ends. */
  predicate Backwards(i: Interview, p: Patch) {
    var start, end := AfterNullable(p.scheduledAt, i.scheduledAt), AfterNullable(p.endsAt, i.endsAt);
    start.Some? && end.Some? && end.value <= start.value
  }

  /** Nulls, references and the window are in order. */
  predicate Proper(s: State, i: Interview, p: Patch) {
    && !Backwards(i, p) && NoNulls(p)
    && (p.stage.Value? ==> p.stage.v.value in s.stages) && (p.interviewer.Value? ==> p.interviewer.v.value in s.people)
    && (p.status.Value? ==> p.status.v.value in s.known) && (p.scheduler.Value? ==> p.scheduler.v.value in s.known)
  }

  /** A patch that sends neither a time nor an interviewer is not checked against the calendar: in order, it
      is always accepted. */
  lemma UncheckedUpdateIsAccepted(s: State, id: Id, p: Patch)
    requires id in s.rows && s.rows[id].active && Proper(s, s.rows[id], p)
    requires p.scheduledAt.Absent? && p.endsAt.Absent? && p.interviewer.Absent?
    ensures UpdateCall(s, id, p).1.Done?
  {
  }

  /** A rescheduling in order, of an interview that is not cancelled and ends up with both times, is accepted
      exactly when the calendar with the moved row is disjoint. */
  lemma UpdateAcceptsIffDisjoint(s: State, id: Id, p: Patch)
    requires Disjoint(s) && id in s.rows && s.rows[id].active && Proper(s, s.rows[id], p)
    requires p.scheduledAt.Value? || p.endsAt.Value? || p.interviewer.Value?
    requires Booked(s, Patched(s.rows[id], p))
    ensures UpdateCall(s, id, p).1.Done? <==> Disjoint(s.(rows := s.rows[id := Patched(s.rows[id], p)]))
  {
    var i' := Patched(s.rows[id], p);
    if Conflicts(s, i'.interviewer, i'.scheduledAt.value, i'.endsAt.value, Some(id)) == {} {
      BookingKeepsDisjoint(s, id, i');
    } else {
      ConflictMeansClash(s, id, i');
    }
  }

  /** A deletion switches an active row off and touches nothing else. */
  lemma DeleteStores(s: State, id: Id)
    ensures var (s', reply) := DeleteCall(s, id);
            && (reply.Done? <==> id in s.rows && s.rows[id].active)
            && if reply.Done? then Touched(s, s', id) && s'.rows[id] == s.rows[id].(active := false) else s' == s
  {
  }

  /** A confirmation is refused unless the offer is open for the user and the slot is fully zoned, not begun
      and offered; it stores the slot, the confirmed status and the candidate as scheduler. */
  lemma ConfirmStores(s: State, id: Id, user: Id, chosen: Slot, now: nat)
    ensures var (s', reply) := ConfirmCall(s, id, user, chosen, now);
            if reply.Done? then
              && reply == Done(id) && Open(s, id, user, now)
              && chosen.start.Aware? && chosen.end.Aware? && now <= chosen.start.t
              && Offered(s.rows[id].offered, chosen.start.t, chosen.end.t)
              && Touched(s, s', id) && s.statuses.confirmed.Some? && s.statuses.candidate.Some?
              && s'.rows[id] == s.rows[id].(scheduledAt := Some(chosen.start.t), endsAt := Some(chosen.end.t),
                                            status := s.statuses.confirmed.value,
                                            scheduler := s.statuses.candidate.value)
            else s' == s
  {
    OpenIsListedAndAccepted(s, id, user, now);
  }

  /** From invitation to booking: an invited candidate who picks an offered, future slot within the week
      gets it exactly when the interviewer is free then, and the booking is what they picked. */
  lemma InvitationLeadsToBooking(s: State, application: Id, stage: Id, interviewer: Id, slots: seq<Slot>, now: nat,
                                 user: Id, k: nat, later: nat)
    requires Disjoint(s) && FreshIds(s) && InviteCall(s, application, stage, interviewer, slots, now).1.Done?
    requires application in s.owner && s.owner[application] == user && k < |slots|
    requires slots[k].start.Aware? && slots[k].end.Aware?
    requires now <= later <= now + OFFER_EXPIRY && later <= slots[k].start.t
    requires s.statuses.confirmed.Some? && s.statuses.candidate.Some? && s.statuses.confirmed != s.statuses.cancelled
    ensures var s1 := InviteCall(s, application, stage, interviewer, slots, now).0;
            var (s2, reply) := ConfirmCall(s1, s.next, user, slots[k], later);
            && (reply.Done? <==> Conflicts(s, interviewer, slots[k].start.t, slots[k].end.t, None) == {})
            && (reply.Done? ==>
                  && s2.rows[s.next].interviewer == interviewer && s2.rows[s.next].application == application
                  && s2.rows[s.next].scheduledAt == Some(slots[k].start.t)
                  && s2.rows[s.next].endsAt == Some(slots[k].end.t))
  {
    InvitedCandidateSeesTheOffer(s, application, stage, interviewer, slots, now, user, later);
    var s1 := InviteCall(s, application, stage, interviewer, slots, now).0;
    OpenIsListedAndAccepted(s1, s.next, user, later);
    ConfirmStores(s1, s.next, user, slots[k], later);
    var start, end := slots[k].start.t, slots[k].end.t;
    assert Names(slots[k].start, start) && Names(slots[k].end, end);
    assert Offered(s1.rows[s.next].offered, start, end);
    var before := Conflicts(s, interviewer, start, end, None);
    var after := Conflicts(s1, interviewer, start, end, Some(s.next));
    forall i ensures i in after <==> i in before { }
    assert after == before;
  }
}
