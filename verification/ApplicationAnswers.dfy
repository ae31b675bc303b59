/** What each call on the board stores, column by column, and which stage an application stands on after
    a run. */
module ApplicationAnswers {
  import opened Wrappers
  import opened Applications
  import ProcessStages

  /** One row may have changed; no row appeared, and nothing else moved. */
  ghost predicate Touched(s: State, s': State, id: Id) {
    && id in s.rows && s'.rows.Keys == s.rows.Keys && s' == s.(rows := s'.rows)
    && forall j | j in s.rows && j != id :: s'.rows[j] == s.rows[j]
  }

  // ------------------------------------------------------------ moves

  /** The move clears the stage of an application that is not rejected yet. */
  predicate MovesOut(s: State, a: Application, p: Patch) {
    p.stage.Value? && p.stage.v.None? && s.statuses.rejected.Some? && s.statuses.rejected != Some(a.status)
  }

  /** The move ends the application's way over the board: off it, or onto a hiring stage. */
  predicate Terminal(s: State, p: Patch) {
    p.stage.Value? && (p.stage.v.None? || (p.stage.v.value in s.stages && s.stages[p.stage.v.value].finalPositive))
  }

  /** What an accepted update stores. The stage is the one sent; the stage a rejection takes an application
      from is remembered and nothing else is; the sub-status goes with a terminal move; a reason is stored
      when sent; identity and analysis stay. */
  lemma UpdateStores(s: State, id: Id, p: Patch)
    ensures var (s', reply) := UpdateCall(s, id, p);
            if reply.Done? then
              && reply == Done({id}) && Touched(s, s', id) && s.rows[id].active
              && var a, a' := s.rows[id], s'.rows[id];
                 && a'.stage == (if p.stage.Value? then p.stage.v else a.stage)
                 && a'.rejectedAt == (if MovesOut(s, a, p) then a.stage else a.rejectedAt)
                 && a'.subStatus == (if Terminal(s, p) then None
                                     else if p.subStatus.Value? then p.subStatus.v else a.subStatus)
                 && a'.reason == (if p.reason.Value? then p.reason.v else a.reason)
                 && a'.vacancy == a.vacancy && a'.candidate == a.candidate && a'.salary == a.salary
                 && a'.analysis == a.analysis && a'.active
            else s' == s
  {
  }

  /** The status an accepted update leaves: rejected off the board, hired on a hiring stage, active again
      when a hired application comes back, otherwise as sent or as it was. */
  lemma UpdateSetsStatus(s: State, id: Id, p: Patch)
    requires Seeded(s.statuses) && UpdateCall(s, id, p).1.Done?
    ensures var (a, a') := (s.rows[id], UpdateCall(s, id, p).0.rows[id]);
            var onHiring := p.stage.Value? && p.stage.v.Some? && Terminal(s, p);
            var onOpen := p.stage.Value? && p.stage.v.Some? && !Terminal(s, p);
            && (MovesOut(s, a, p) ==> s.statuses.rejected == Some(a'.status))
            && (onHiring ==> s.statuses.hired == Some(a'.status))
            && (onOpen && s.statuses.hired == Some(a.status) ==> s.statuses.active == Some(a'.status))
            && (!MovesOut(s, a, p) && !onHiring && !(onOpen && s.statuses.hired == Some(a.status)) ==>
                  if p.status.Value? then p.status.v == Some(a'.status) else a'.status == a.status)
  {
  }

  /** A rejection by hand has a reason, a move stays inside the process of the vacancy, and what is sent names
      something. */
  lemma MovesAreJustified(s: State, id: Id, p: Patch)
    requires UpdateCall(s, id, p).1.Done?
    ensures var (a, a') := (s.rows[id], UpdateCall(s, id, p).0.rows[id]);
            && (MovesOut(s, a, p) ==> a'.reason.Some? && a'.reason.value != "")
            && (p.stage.Value? && p.stage.v.Some? ==>
                  && p.stage.v.value in s.stages && s.stages[p.stage.v.value].active
                  && a.vacancy in s.vacancies && s.vacancies[a.vacancy].active
                  && s.vacancies[a.vacancy].process == Some(s.stages[p.stage.v.value].process))
            && (p.status.Value? && p.status.v.Some? ==> p.status.v.value in s.parameters)
            && (p.subStatus.Value? && p.subStatus.v.Some? ==> p.subStatus.v.value in s.parameters)
  {
  }

  /** The ordinary move: to an active stage of the same process, alone, it is always accepted and puts the
      application there. */
  lemma PlainMoveIsAccepted(s: State, id: Id, to: Id)
    requires id in s.rows && s.rows[id].active && to in s.stages && s.stages[to].active
    requires s.rows[id].vacancy in s.vacancies && s.vacancies[s.rows[id].vacancy].active
    requires s.vacancies[s.rows[id].vacancy].process == Some(s.stages[to].process)
    ensures var (s', reply) := UpdateCall(s, id, Patch(Absent, Value(Some(to)), Absent, Absent));
            reply == Done({id}) && s'.rows[id].stage == Some(to)
  {
  }

  // ------------------------------------------------------------ creation, deletion, closing

  /** The stage a new application starts on. */
  ghost predicate StartsOn(s: State, d: New, stage: Option<Id>) {
    && d.vacancy in s.vacancies
    && if stage.Some? then HasFirst(s.stages, s.vacancies[d.vacancy].process, stage.value)
       else forall i :: !HasFirst(s.stages, s.vacancies[d.vacancy].process, i)
  }

  /** What an accepted creation stores: for a new pair of vacancy and candidate a new row with what was sent,
      for a withdrawn one its row again with the marks of its earlier life cleared. */
  lemma CreateStores(s: State, d: New, portal: bool)
    ensures var (s', reply) := CreateCall(s, d, portal);
            var pair := (d.vacancy, d.candidate);
            var status := if portal then s.statuses.active else Some(d.status);
            if !reply.Done? then s' == s
            else if pair in s.pairs && s.pairs[pair] in s.rows then
              var id := s.pairs[pair];
              var a, a' := s.rows[id], s'.rows[id];
              && reply == Done({id}) && Touched(s, s', id) && !a.active && a'.active
              && StartsOn(s, d, a'.stage) && Some(a'.status) == status && a'.salary == Some(d.salary)
              && a'.subStatus == None && a'.rejectedAt == None && a'.analysis == None
              && a'.vacancy == a.vacancy && a'.candidate == a.candidate && a'.reason == a.reason
            else
              && reply == Done({s.next}) && s'.next == s.next + 1
              && s'.rows.Keys == s.rows.Keys + {s.next} && s'.pairs.Keys == s.pairs.Keys + {pair}
              && s'.pairs[pair] == s.next
              && (forall j | j in s.rows && j != s.next :: s'.rows[j] == s.rows[j])
              && (forall q | q in s.pairs && q != pair :: s'.pairs[q] == s.pairs[q])
              && var a' := s'.rows[s.next];
                 && a'.vacancy == d.vacancy && a'.candidate == d.candidate && StartsOn(s, d, a'.stage)
                 && a'.subStatus == d.subStatus && Some(a'.status) == status && a'.salary == Some(d.salary)
                 && a'.rejectedAt == None && a'.reason == None && a'.analysis == None && a'.active
  {
  }

  /** Which answer a creation gets. Candidates only see published vacancies, and a pair that is already active
      is a duplicate. */
  lemma CreateAnswers(s: State, d: New, portal: bool)
    ensures var reply := CreateCall(s, d, portal).1;
            var known := && d.vacancy in s.vacancies && s.vacancies[d.vacancy].active
                         && (portal ==> s.vacancies[d.vacancy].published && s.statuses.active.Some?)
                         && d.candidate in s.candidates && d.status in s.parameters
                         && (d.stage.Some? ==> d.stage.value in s.stages && s.stages[d.stage.value].active)
                         && (d.subStatus.Some? ==> d.subStatus.value in s.parameters);
            var pair := (d.vacancy, d.candidate);
            var taken := pair in s.pairs && s.pairs[pair] in s.rows && s.rows[s.pairs[pair]].active;
            && (reply == Refused(UnknownReference) <==> !known)
            && (reply == Refused(Duplicate) <==> known && taken)
            && (reply.Done? <==> known && !taken)
  {
  }

  lemma DeleteStores(s: State, id: Id)
    ensures var (s', reply) := DeleteCall(s, id);
            && (reply.Done? <==> id in s.rows && s.rows[id].active)
            && if reply.Done? then Touched(s, s', id) && s'.rows[id] == s.rows[id].(active := false) else s' == s
  {
  }

  /** Closing a vacancy rejects exactly its active applications that are neither hired nor rejected, and
      reports exactly those. */
  lemma AutoRejectStores(s: State, v: Id, why: string, i: Id)
    requires i in s.rows
    ensures var (s', reply) := AutoRejectCall(s, v, why);
            var a := s.rows[i];
            var open := a.active && a.vacancy == v
                        && s.statuses.hired != Some(a.status) && s.statuses.rejected != Some(a.status);
            && s'.rows.Keys == s.rows.Keys && s' == s.(rows := s'.rows)
            && (i in reply.changed <==> open)
            && s'.rows[i] ==
               if open then Application(a.vacancy, a.candidate, None, None, a.stage,
                                        if s.statuses.rejected.Some? then s.statuses.rejected.value else a.status,
                                        Some(why), a.analysis, a.salary, true)
               else a
  {
  }

  // ------------------------------------------------------------ the stage after a run

  /** Where the application stands after one accepted call, if it stood on `current`. */
  ghost function StageAfter(s: State, c: Call, i: Id, current: Option<Id>): Option<Id> {
    if !Step(s, c).1.Done? || i !in Step(s, c).1.changed then current else
    match c
    case Create(d, _) => FirstStage(s.stages, if d.vacancy in s.vacancies then s.vacancies[d.vacancy].process else None)
    case Update(_, p) => if p.stage.Value? then p.stage.v else current
    case Delete(_) => current
    case AutoReject(_, _) => None
  }

  ghost function StageAfterRun(s: State, run: seq<Call>, i: Id, current: Option<Id>): Option<Id>
    decreases |run|
  {
    if run == [] then current else StageAfterRun(Step(s, run[0]).0, run[1..], i, StageAfter(s, run[0], i, current))
  }

  lemma StepMoves(s: State, c: Call, i: Id)
    ensures var s' := Step(s, c).0;
            i in s'.rows ==>
              s'.rows[i].stage == StageAfter(s, c, i, if i in s.rows then s.rows[i].stage else None)
    ensures i in s.rows ==> i in Step(s, c).0.rows
  {
    match c
    case Create(d, portal) => CreateStores(s, d, portal);
    case Update(id, p) => UpdateStores(s, id, p);
    case Delete(id) => DeleteStores(s, id);
    case AutoReject(v, why) => if i in s.rows { AutoRejectStores(s, v, why, i); }
  }

  /** After every run an application stands where the last accepted call on it put it: on the stage it was
      moved to, on no stage after a rejection, on the first stage after applying again. */
  lemma {:induction false} StageFollowsMoves(s: State, run: seq<Call>, i: Id)
    requires i in s.rows
    ensures i in Run(s, run).rows && Run(s, run).rows[i].stage == StageAfterRun(s, run, i, s.rows[i].stage)
    decreases |run|
  {
    if run != [] {
      StepMoves(s, run[0], i);
      StageFollowsMoves(Step(s, run[0]).0, run[1..], i);
    }
  }
}
