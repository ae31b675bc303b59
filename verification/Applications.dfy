/** The Kanban board: how an application's stage and its overall status move together. */
module Applications {
  import opened Wrappers
  import ProcessStages

  type Id = nat

  type Stages = ProcessStages.Table

  datatype Application = Application(
    vacancy: Id, candidate: Id, stage: Option<Id>, subStatus: Option<Id>, rejectedAt: Option<Id>,
    status: Id, reason: Option<string>, analysis: Option<string>, salary: Option<int>, active: bool)

  datatype Vacancy = Vacancy(process: Option<Id>, active: bool, published: bool)

  /** Catalog ids of the overall statuses, when seeded. */
  datatype Statuses = Statuses(active: Option<Id>, hired: Option<Id>, rejected: Option<Id>)

  /** `pairs` is the unique index on vacancy and candidate, over active and inactive rows. */
  datatype State = State(
    rows: map<Id, Application>, pairs: map<(Id, Id), Id>, next: Id,
    vacancies: map<Id, Vacancy>, candidates: set<Id>, stages: Stages, parameters: set<Id>, statuses: Statuses)

  datatype Sent<T> = Absent | Value(v: Option<T>)

  datatype New = New(vacancy: Id, candidate: Id, status: Id, stage: Option<Id>, subStatus: Option<Id>, salary: int)

  datatype Patch = Patch(status: Sent<Id>, stage: Sent<Id>, subStatus: Sent<Id>, reason: Sent<string>)

  datatype Call =
    | Create(data: New, portal: bool)
    | Update(id: Id, patch: Patch)
    | Delete(id: Id)
    | AutoReject(vacancy: Id, why: string)

  datatype Error = NotFound | UnknownReference | Duplicate | ReasonRequired | NullColumn

  datatype Reply = Done(changed: set<Id>) | Refused(error: Error)

  // ------------------------------------------------------------ queries

  predicate ActiveStage(stages: Stages, i: Id) { i in stages && stages[i].active }

  predicate Final(stages: Stages, i: Id) { i in stages && stages[i].finalPositive }

  predicate OnFinal(stages: Stages, stage: Option<Id>) { stage.Some? && Final(stages, stage.value) }

  predicate Known(ids: set<Id>, r: Option<Id>) { r.Some? ==> r.value in ids }

  predicate KnownStage(stages: Stages, r: Option<Id>) { r.Some? ==> ActiveStage(stages, r.value) }

  predicate ActiveVacancy(s: State, v: Id) { v in s.vacancies && s.vacancies[v].active }

  predicate HasFirst(stages: Stages, p: Option<Id>, i: Id) { p.Some? && ProcessStages.IsFirst(stages, p.value, i) }

  /** The lowest-ordered active stage of the process, if it has any. */
  ghost function FirstStage(stages: Stages, p: Option<Id>): Option<Id> {
    if exists i :: HasFirst(stages, p, i) then var i :| HasFirst(stages, p, i); Some(i) else None
  }

  // ------------------------------------------------------------ the calls

  ghost function CreateCall(s: State, d: New, portal: bool): (State, Reply) {
    if !ActiveVacancy(s, d.vacancy) || (portal && !s.vacancies[d.vacancy].published) then (s, Refused(UnknownReference))
    else if d.candidate !in s.candidates || !KnownStage(s.stages, d.stage) || !Known(s.parameters, d.subStatus)
            || d.status !in s.parameters || (portal && s.statuses.active.None?)
    then (s, Refused(UnknownReference))
    else
      var first := FirstStage(s.stages, s.vacancies[d.vacancy].process);
      var status := if portal then s.statuses.active.value else d.status;
      var pair := (d.vacancy, d.candidate);
      if pair in s.pairs && s.pairs[pair] in s.rows then
        var id := s.pairs[pair];
        if s.rows[id].active then (s, Refused(Duplicate))
        else (s.(rows := s.rows[id := Resurrected(s.rows[id], d, first, status)]), Done({id}))
      else
        var added := Application(d.vacancy, d.candidate, first, d.subStatus,
                                None, status, None, None, Some(d.salary), true);
        (s.(rows := s.rows[s.next := added], pairs := s.pairs[pair := s.next], next := s.next + 1), Done({s.next}))
  }

  function Resurrected(a: Application, d: New, first: Option<Id>, status: Id): Application {
    a.(active := true, stage := first, status := status, salary := Some(d.salary),
       subStatus := None, rejectedAt := None, analysis := None)
  }

  /** The fields every rejection sets, whoever triggers it. */
  function Rejected(a: Application, reason: string, rejected: Option<Id>): Application {
    a.(rejectedAt := a.stage, stage := None, subStatus := None, reason := Some(reason),
       status := if rejected.Some? then rejected.value else a.status)
  }

  /** The status after the terminal-transition matrix, `None` when a null would be stored. */
  function NextStatus(s: State, a: Application, p: Patch): Option<Id> {
    var sent := if p.status.Value? then p.status.v else Some(a.status);
    if p.stage.Absent? then sent
    else if p.stage.v.None? then
      if Rejects(s, a, p) then s.statuses.rejected else sent
    else if Final(s.stages, p.stage.v.value) && s.statuses.hired.Some? then s.statuses.hired
    else if !Final(s.stages, p.stage.v.value) && Some(a.status) == s.statuses.hired && s.statuses.active.Some?
    then s.statuses.active
    else sent
  }

  /** Clearing the stage of an application that is not rejected yet. */
  predicate Rejects(s: State, a: Application, p: Patch) {
    p.stage == Value(None) && s.statuses.rejected.Some? && Some(a.status) != s.statuses.rejected
  }

  predicate ClearsSubStatus(s: State, p: Patch) {
    p.stage.Value? && (p.stage.v.None? || Final(s.stages, p.stage.v.value))
  }

  function UpdateCall(s: State, id: Id, p: Patch): (State, Reply) {
    if id !in s.rows || !s.rows[id].active then (s, Refused(NotFound)) else
    var a := s.rows[id];
    if (p.stage.Value? && !KnownStage(s.stages, p.stage.v))
       || (p.subStatus.Value? && !Known(s.parameters, p.subStatus.v))
       || (p.status.Value? && !Known(s.parameters, p.status.v))
    then (s, Refused(UnknownReference))
    else if p.stage.Value? && p.stage.v.Some?
            && (!ActiveVacancy(s, a.vacancy)
                || Some(s.stages[p.stage.v.value].process) != s.vacancies[a.vacancy].process)
    then (s, Refused(UnknownReference))
    else if Rejects(s, a, p) && (p.reason.Absent? || p.reason.v.None? || p.reason.v.value == "")
    then (s, Refused(ReasonRequired))
    else
      var status := NextStatus(s, a, p);
      if status.None? then (s, Refused(NullColumn)) else
      var moved := a.(stage := if p.stage.Value? then p.stage.v else a.stage,
                      subStatus := if ClearsSubStatus(s, p) then None
                                   else if p.subStatus.Value? then p.subStatus.v else a.subStatus,
                      rejectedAt := if Rejects(s, a, p) then a.stage else a.rejectedAt,
                      reason := if p.reason.Value? then p.reason.v else a.reason,
                      status := status.value);
      (s.(rows := s.rows[id := moved]), Done({id}))
  }

  function DeleteCall(s: State, id: Id): (State, Reply) {
    if id !in s.rows || !s.rows[id].active then (s, Refused(NotFound))
    else (s.(rows := s.rows[id := s.rows[id].(active := false)]), Done({id}))
  }

  /** Active, of the vacancy, and neither hired nor already rejected. */
  predicate Dangling(s: State, v: Id, i: Id) {
    && i in s.rows && s.rows[i].active && s.rows[i].vacancy == v
    && s.statuses.hired != Some(s.rows[i].status) && s.statuses.rejected != Some(s.rows[i].status)
  }

  function AutoRejectCall(s: State, v: Id, why: string): (State, Reply) {
    (s.(rows := map i | i in s.rows ::
                  if Dangling(s, v, i) then Rejected(s.rows[i], why, s.statuses.rejected) else s.rows[i]),
     Done(set i | i in s.rows && Dangling(s, v, i)))
  }

  ghost function Step(s: State, c: Call): (State, Reply) {
    match c
    case Create(d, portal) => CreateCall(s, d, portal)
    case Update(id, p) => UpdateCall(s, id, p)
    case Delete(id) => DeleteCall(s, id)
    case AutoReject(v, why) => AutoRejectCall(s, v, why)
  }

  ghost function Run(s: State, run: seq<Call>): State
    decreases |run|
  {
    if run == [] then s else Run(Step(s, run[0]).0, run[1..])
  }

  // ------------------------------------------------------------ hired exactly on a final stage

  predicate Seeded(st: Statuses) {
    && st.active.Some? && st.hired.Some? && st.rejected.Some?
    && st.active != st.hired && st.active != st.rejected && st.hired != st.rejected
  }

  predicate Consistent(s: State, a: Application) {
    a.active ==> (s.statuses.hired == Some(a.status) <==> OnFinal(s.stages, a.stage))
  }

  predicate AllConsistent(s: State) { forall i | i in s.rows :: Consistent(s, s.rows[i]) }

  /** A status sent by hand agrees with the stage, or is overruled by the matrix. */
  predicate SentStatusFits(s: State, a: Application, p: Patch) {
    || p.status.Absent?
    || match p.stage
       case Absent => p.status.v == s.statuses.hired <==> OnFinal(s.stages, a.stage)
       case Value(None) => p.status.v != s.statuses.hired || Some(a.status) != s.statuses.rejected
       case Value(Some(st)) => p.status.v != s.statuses.hired ||
                                Final(s.stages, st) || Some(a.status) == s.statuses.hired
  }

  /** An accepted update leaves a consistent application consistent exactly when the status it
      sends, if any, fits; one that sends no status always does. */
  lemma UpdateKeepsConsistentIff(s: State, id: Id, p: Patch)
    requires Seeded(s.statuses) && UpdateCall(s, id, p).1.Done? && Consistent(s, s.rows[id])
    ensures Consistent(s, UpdateCall(s, id, p).0.rows[id]) <==> SentStatusFits(s, s.rows[id], p)
  {
  }

  /** The status a creation stores agrees with the first stage of the vacancy's process. */
  ghost predicate CreatedStatusFits(s: State, d: New, portal: bool)
    requires d.vacancy in s.vacancies
  {
    var status := if portal then s.statuses.active else Some(d.status);
    OnFinal(s.stages, FirstStage(s.stages, s.vacancies[d.vacancy].process)) <==> status == s.statuses.hired
  }

  /** A creation or resurrection leaves the board consistent exactly when the status it stores fits:
      staff may send any status, and the first stage decides which one is right. */
  lemma CreateKeepsConsistentIff(s: State, d: New, portal: bool)
    requires AllConsistent(s) && CreateCall(s, d, portal).1.Done?
    ensures AllConsistent(CreateCall(s, d, portal).0) <==> CreatedStatusFits(s, d, portal)
  {
    var (s', reply) := CreateCall(s, d, portal);
    var id :| id in reply.changed;
    assert s'.rows == s.rows[id := s'.rows[id]];
    assert AllConsistent(s') <==> Consistent(s', s'.rows[id]);
  }

  /** What keeps the board consistent, call by call. */
  ghost predicate Fits(s: State, c: Call) {
    Step(s, c).1.Done? ==>
      match c
      case Create(d, portal) => CreatedStatusFits(s, d, portal)
      case Update(id, p) => SentStatusFits(s, s.rows[id], p)
      case _ => true
  }

  lemma StepKeepsConsistentIff(s: State, c: Call)
    requires Seeded(s.statuses) && AllConsistent(s)
    ensures AllConsistent(Step(s, c).0) <==> Fits(s, c)
    ensures Step(s, c).0.stages == s.stages && Step(s, c).0.statuses == s.statuses
    ensures Step(s, c).0.vacancies == s.vacancies
  {
    match c
    case Create(d, portal) => if CreateCall(s, d, portal).1.Done? { CreateKeepsConsistentIff(s, d, portal); }
    case Update(id, p) =>
      var (s', reply) := UpdateCall(s, id, p);
      if reply.Done? {
        UpdateKeepsConsistentIff(s, id, p);
        assert s'.rows == s.rows[id := s'.rows[id]];
      }
    case _ =>
  }

  ghost predicate FitsThroughout(s: State, run: seq<Call>)
    decreases |run|
  {
    run == [] || (Fits(s, run[0]) && FitsThroughout(Step(s, run[0]).0, run[1..]))
  }

  ghost predicate ConsistentThroughout(s: State, run: seq<Call>)
    decreases |run|
  {
    AllConsistent(s) && (run == [] || ConsistentThroughout(Step(s, run[0]).0, run[1..]))
  }

  /** Over every run at all, active applications are hired exactly on a final-positive stage in every
      state passed through, if and only if every accepted status sent by hand fits. */
  lemma {:induction false} ConsistentThroughoutIff(s: State, run: seq<Call>)
    requires Seeded(s.statuses) && AllConsistent(s)
    ensures ConsistentThroughout(s, run) <==> FitsThroughout(s, run)
    decreases |run|
  {
    if run != [] {
      StepKeepsConsistentIff(s, run[0]);
      if AllConsistent(Step(s, run[0]).0) { ConsistentThroughoutIff(Step(s, run[0]).0, run[1..]); }
    }
  }

  /** In such a run, with stage flags fixed, an active application ends up hired exactly when its
      current stage is final-positive. */
  lemma {:induction false} HiredIffOnFinalStage(s: State, run: seq<Call>, i: Id)
    requires Seeded(s.statuses) && AllConsistent(s) && FitsThroughout(s, run)
    ensures var s' := Run(s, run);
            i in s'.rows && s'.rows[i].active ==>
              (s.statuses.hired == Some(s'.rows[i].status) <==> OnFinal(s.stages, s'.rows[i].stage))
    decreases |run|
  {
    if run == [] {
      assert i in s.rows ==> Consistent(s, s.rows[i]);
    } else {
      StepKeepsConsistentIff(s, run[0]);
      HiredIffOnFinalStage(Step(s, run[0]).0, run[1..], i);
    }
  }

  ghost predicate FirstStageNotFinal(s: State) {
    forall p, i | HasFirst(s.stages, p, i) :: !Final(s.stages, i)
  }

  /** Created with any status but hired, and moved without a status by hand. */
  predicate PlainMove(s: State, c: Call) {
    && (c.Create? && !c.portal ==> s.statuses.hired != Some(c.data.status))
    && (c.Update? ==> c.patch.status.Absent?)
  }

  /** When first stages are not final, every run of plain board moves qualifies. */
  lemma {:induction false} PlainMovesFit(s: State, run: seq<Call>)
    requires Seeded(s.statuses) && FirstStageNotFinal(s) && AllConsistent(s)
    requires forall k | 0 <= k < |run| :: PlainMove(s, run[k])
    ensures FitsThroughout(s, run)
    decreases |run|
  {
    if run != [] {
      assert Fits(s, run[0]);
      StepKeepsConsistentIff(s, run[0]);
      PlainMovesFit(Step(s, run[0]).0, run[1..]);
    }
  }

  /** A rejected application leaves the rejected status by a move exactly when the new stage is
      final-positive: put back on any other stage, it stays rejected. */
  lemma RejectedStaysRejected(s: State, id: Id, p: Patch)
    requires Seeded(s.statuses) && UpdateCall(s, id, p).1.Done? && p.status.Absent?
    requires s.statuses.rejected == Some(s.rows[id].status)
    ensures s.statuses.rejected == Some(UpdateCall(s, id, p).0.rows[id].status)
       <==> !(p.stage.Value? && OnFinal(s.stages, p.stage.v))
  {
  }

  // ------------------------------------------------------------ closing a vacancy, applying again

  /** Closing a vacancy leaves each of its active applications hired and untouched, or rejected
      with the stage it had reached remembered; everything else is untouched. */
  lemma AutoRejectSettles(s: State, v: Id, why: string, i: Id)
    requires Seeded(s.statuses) && i in s.rows
    ensures var (s', reply) := AutoRejectCall(s, v, why);
            var a, a' := s.rows[i], s'.rows[i];
            && (a.active && a.vacancy == v ==>
                  || (s.statuses.hired == Some(a'.status) && a' == a)
                  || s.statuses.rejected == Some(a'.status))
            && (a' != a ==>
                  i in reply.changed && a'.stage == None && a'.rejectedAt == a.stage && a'.reason == Some(why))
            && (!(a.active && a.vacancy == v) ==> a' == a)
  {
  }

  /** Repeating it transitions nothing exactly when the catalog knows the rejected status or there
      was nothing to reject; with the status known the second call changes no row either. */
  lemma AutoRejectTwiceIff(s: State, v: Id, why: string, again: string)
    requires s.statuses.rejected.Some? ==> s.statuses.rejected != s.statuses.hired
    ensures var (s', first) := AutoRejectCall(s, v, why);
            var (s'', second) := AutoRejectCall(s', v, again);
            && (second.changed == {} <==> s.statuses.rejected.Some? || first.changed == {})
            && (s.statuses.rejected.Some? ==> s'' == s')
  {
    var (s', first) := AutoRejectCall(s, v, why);
    var (s'', second) := AutoRejectCall(s', v, again);
    if s.statuses.rejected.Some? {
      assert forall i | i in s'.rows :: !Dangling(s', v, i);
      assert s''.rows == s'.rows;
    } else {
      assert forall i | i in s.rows :: Dangling(s', v, i) <==> Dangling(s, v, i);
      assert second.changed == first.changed;
    }
  }

  /** Applying again after withdrawing reuses the row: it restarts at the first stage with the
      rejection mark, the sub-status and the analysis cleared. The old rejection reason survives. */
  lemma ResurrectionRestarts(s: State, d: New, portal: bool)
    requires CreateCall(s, d, portal).1.Done? && (d.vacancy, d.candidate) in s.pairs
    requires s.pairs[(d.vacancy, d.candidate)] in s.rows
    ensures var id := s.pairs[(d.vacancy, d.candidate)];
            var a, s' := s.rows[id], CreateCall(s, d, portal).0;
            var a' := s'.rows[id];
            && !a.active && a'.active && s'.rows.Keys == s.rows.Keys
            && a'.stage == FirstStage(s.stages, s.vacancies[d.vacancy].process)
            && a'.rejectedAt == None && a'.subStatus == None && a'.analysis == None
            && (portal ==> Some(a'.status) == s.statuses.active)
            && a'.reason == a.reason
  {
  }

  // ------------------------------------------------------------ concrete boards

  /** One published vacancy whose process has an initial and a hired stage; statuses 1, 2 and 3 mean
      active, hired and rejected; nobody has applied. */
  function EmptyBoard(): State {
    var stages := map[0 := ProcessStages.Stage(0, 1, 1, true, false, true),
                      1 := ProcessStages.Stage(0, 2, 9999, false, true, true)];
    State(map[], map[], 0, map[0 := Vacancy(Some(0), true, true)], {0}, stages, {1, 2, 3},
          Statuses(Some(1), Some(2), Some(3)))
  }

  function Apply(status: Id): New { New(0, 0, status, None, None, 0) }

  function Applied(status: Id): Application {
    Application(0, 0, Some(0), None, None, status, None, None, Some(0), true) }

  /** The board with that one application. */
  function BoardWith(a: Application): State { EmptyBoard().(rows := map[0 := a], pairs := map[(0, 0) := 0], next := 1) }

  lemma FirstOfBoard()
    ensures FirstStage(EmptyBoard().stages, Some(0)) == Some(0)
  {
    assert HasFirst(EmptyBoard().stages, Some(0), 0);
  }

  lemma FirstApplication(status: Id, portal: bool)
    requires status in {1, 2, 3} && (portal ==> status == 1)
    ensures Step(EmptyBoard(), Create(Apply(status), portal)) == (BoardWith(Applied(status)), Done({0}))
  {
    FirstOfBoard();
  }

  lemma RunTwo(s: State, a: Call, b: Call)
    ensures Run(s, [a, b]) == Step(Step(s, a).0, b).0
  {
    assert [a, b][1..] == [b] && [b][1..] == [];
    var x := Step(s, a).0;
    assert Run(x, [b]) == Run(Step(x, b).0, []);
  }

  lemma RunFour(s: State, a: Call, b: Call, c: Call, d: Call)
    ensures Run(s, [a, b, c, d]) == Step(Step(Step(Step(s, a).0, b).0, c).0, d).0
  {
    assert [a, b, c, d][1..] == [b, c, d] && [b, c, d][1..] == [c, d];
    var x := Step(s, a).0;
    assert Run(x, [b, c, d]) == Run(Step(x, b).0, [c, d]);
    RunTwo(Step(x, b).0, c, d);
  }

  lemma OneRowDecides(a: Application)
    requires !Consistent(BoardWith(a), a)
    ensures !AllConsistent(BoardWith(a))
  {
    assert BoardWith(a).rows[0] == a;
  }

  /** Staff may create an application as hired while it stands on the initial stage. */
  lemma StaffCreatesHired()
    ensures AllConsistent(EmptyBoard())
    ensures !AllConsistent(Step(EmptyBoard(), Create(Apply(2), false)).0)
  {
    FirstApplication(2, false);
    OneRowDecides(Applied(2));
  }

  /** A patch may set the hired status on the initial stage. */
  lemma PatchSetsHired()
    ensures var sent := Patch(Value(Some(2)), Absent, Absent, Absent);
            !AllConsistent(Run(EmptyBoard(), [Create(Apply(1), true), Update(0, sent)]))
  {
    var sent := Patch(Value(Some(2)), Absent, Absent, Absent);
    FirstApplication(1, true);
    RunTwo(EmptyBoard(), Create(Apply(1), true), Update(0, sent));
    var hired := Applied(1).(status := 2);
    var s' := UpdateCall(BoardWith(Applied(1)), 0, sent).0;
    assert s'.rows == map[0 := hired];
    assert s' == BoardWith(hired);
    OneRowDecides(hired);
  }

  function Reject(why: string): Call { Update(0, Patch(Absent, Value(None), Absent, Value(Some(why)))) }

  function RejectedOnce(why: string): Application {
    Applied(1).(stage := None, rejectedAt := Some(0), status := 3, reason := Some(why))
  }

  lemma RejectionOnBoard(why: string)
    requires why != ""
    ensures Step(BoardWith(Applied(1)), Reject(why)).0 == BoardWith(RejectedOnce(why))
  {
    var s' := Step(BoardWith(Applied(1)), Reject(why)).0;
    assert s'.rows[0] == RejectedOnce(why);
    assert s'.rows == map[0 := RejectedOnce(why)];
  }

  /** Apply, be rejected, be moved back to the initial stage: the application is on a stage again and
      still rejected. */
  lemma RejectedOnAStage()
    ensures var back := Update(0, Patch(Absent, Value(Some(0)), Absent, Absent));
            var s := Step(Run(EmptyBoard(), [Create(Apply(1), true), Reject("late")]), back).0;
            0 in s.rows && s.rows[0].stage == Some(0) && s.statuses.rejected == Some(s.rows[0].status)
  {
    FirstApplication(1, true);
    RejectionOnBoard("late");
    RunTwo(EmptyBoard(), Create(Apply(1), true), Reject("late"));
  }

  /** Apply, be rejected, withdraw, apply again: the new application carries the old reason. */
  lemma ReasonSurvives()
    ensures var s := Run(EmptyBoard(), [Create(Apply(1), true), Reject("late"), Delete(0), Create(Apply(1), true)]);
            0 in s.rows && s.rows[0] == Applied(1).(reason := Some("late"))
  {
    FirstApplication(1, true);
    RejectionOnBoard("late");
    RunFour(EmptyBoard(), Create(Apply(1), true), Reject("late"), Delete(0), Create(Apply(1), true));
    FirstOfBoard();
    var withdrawn := BoardWith(RejectedOnce("late").(active := false));
    assert Step(BoardWith(RejectedOnce("late")), Delete(0)).0.rows == withdrawn.rows;
  }

  // ------------------------------------------------------------ the service as it runs

  class ApplicationService {
    var rows: map<Id, Application>
    var pairs: map<(Id, Id), Id>
    var next: Id
    const vacancies: map<Id, Vacancy>
    const candidates: set<Id>
    const stages: Stages
    const parameters: set<Id>
    const statuses: Statuses

    ghost function View(): State
      reads this
    {
      State(rows, pairs, next, vacancies, candidates, stages, parameters, statuses)
    }

    constructor (vacancies: map<Id, Vacancy>, candidates: set<Id>, stages: Stages,
                 parameters: set<Id>, statuses: Statuses)
      ensures View() == State(map[], map[], 0, vacancies, candidates, stages, parameters, statuses)
    {
      this.vacancies, this.candidates, this.stages := vacancies, candidates, stages;
      this.parameters, this.statuses := parameters, statuses;
      rows, pairs, next := map[], map[], 0;
    }

    /** The query orders by `order` and takes one row. */
    method FirstStageId(p: Option<Id>) returns (first: Option<Id>)
      requires ProcessStages.UniqueStages(stages)
      ensures first == FirstStage(stages, p)
    {
      if p.None? {
        return None;
      }
      first := None;
      var todo := stages.Keys;
      while todo != {}
        invariant todo <= stages.Keys
        invariant first.Some? ==> first.value in stages && ProcessStages.Active(stages, p.value, first.value)
        invariant forall j | j in stages.Keys - todo && ProcessStages.Active(stages, p.value, j) ::
                    first.Some? && stages[first.value].order <= stages[j].order
      {
        var i :| i in todo;
        todo := todo - {i};
        if stages[i].active && stages[i].process == p.value
           && (first.None? || stages[i].order < stages[first.value].order) {
          first := Some(i);
        }
      }
      if first.Some? {
        assert HasFirst(stages, p, first.value);
      }
    }

    method Create(d: New, portal: bool) returns (reply: Reply)
      requires ProcessStages.UniqueStages(stages)
      modifies this
      ensures (View(), reply) == CreateCall(old(View()), d, portal)
    {
      if d.vacancy !in vacancies || !vacancies[d.vacancy].active {
        return Refused(UnknownReference);
      }
      var vacancy := vacancies[d.vacancy];
      if portal && !vacancy.published {
        return Refused(UnknownReference);
      }
      if d.candidate !in candidates || !KnownStage(stages, d.stage) || !Known(parameters, d.subStatus)
         || d.status !in parameters {
        return Refused(UnknownReference);
      }
      var first := FirstStageId(vacancy.process);
      if portal && statuses.active.None? {
        return Refused(UnknownReference);
      }
      var status := if portal then statuses.active.value else d.status;
      var pair := (d.vacancy, d.candidate);
      if pair in pairs && pairs[pair] in rows {
        var id := pairs[pair];
        if rows[id].active {
          return Refused(Duplicate);
        }
        rows := rows[id := rows[id].(active := true, stage := first, status := status, salary := Some(d.salary),
                                     subStatus := None, rejectedAt := None, analysis := None)];
        return Done({id});
      }
      rows := rows[next := Application(d.vacancy, d.candidate, first, d.subStatus, None, status, None, None,
                                       Some(d.salary), true)];
      pairs := pairs[pair := next];
      next := next + 1;
      return Done({next - 1});
    }

    method Update(id: Id, p: Patch) returns (reply: Reply)
      modifies this
      ensures (View(), reply) == UpdateCall(old(View()), id, p)
    {
      if id !in rows || !rows[id].active {
        return Refused(NotFound);
      }
      var a := rows[id];
      if p.stage.Value? && !KnownStage(stages, p.stage.v) {
        return Refused(UnknownReference);
      }
      if (p.subStatus.Value? && !Known(parameters, p.subStatus.v))
          || (p.status.Value? && !Known(parameters, p.status.v)) {
        return Refused(UnknownReference);
      }
      if p.stage.Value? && p.stage.v.Some? {
        if a.vacancy !in vacancies || !vacancies[a.vacancy].active
           || Some(stages[p.stage.v.value].process) != vacancies[a.vacancy].process {
          return Refused(UnknownReference);
        }
      }
      var status := if p.status.Value? then p.status.v else Some(a.status);
      var stage := if p.stage.Value? then p.stage.v else a.stage;
      var subStatus := if p.subStatus.Value? then p.subStatus.v else a.subStatus;
      var reason := if p.reason.Value? then p.reason.v else a.reason;
      var rejectedAt := a.rejectedAt;
      if p.stage.Value? {
        if p.stage.v.None? {
          if Some(a.status) != statuses.rejected && statuses.rejected.Some? {
            if p.reason.Absent? || p.reason.v.None? || p.reason.v.value == "" {
              return Refused(ReasonRequired);
            }
            rejectedAt := a.stage;
            status := statuses.rejected;
          }
          subStatus := None;
        } else if stages[p.stage.v.value].finalPositive {
          if statuses.hired.Some? {
            status := statuses.hired;
          }
          subStatus := None;
        } else if Some(a.status) == statuses.hired && statuses.active.Some? {
          status := statuses.active;
        }
      }
      if status.None? {
        return Refused(NullColumn);
      }
      rows := rows[id := a.(stage := stage, subStatus := subStatus, rejectedAt := rejectedAt, reason := reason,
                            status := status.value)];
      return Done({id});
    }

    method Delete(id: Id) returns (reply: Reply)
      modifies this
      ensures (View(), reply) == DeleteCall(old(View()), id)
    {
      if id !in rows || !rows[id].active {
        return Refused(NotFound);
      }
      rows := rows[id := rows[id].(active := false)];
      return Done({id});
    }

    method AutoRejectForVacancy(v: Id, why: string) returns (reply: Reply)
      modifies this`rows
      ensures (View(), reply) == AutoRejectCall(old(View()), v, why)
    {
      ghost var s := View();
      var table, changed := rows, {};
      var todo := set i | i in table && table[i].active && table[i].vacancy == v
                      && statuses.hired != Some(table[i].status);
      while todo != {}
        invariant todo <= s.rows.Keys && changed <= s.rows.Keys && changed !! todo
        invariant forall i | i in s.rows :: Dangling(s, v, i) <==>
                  i in changed || (i in todo && Some(s.rows[i].status) != statuses.rejected)
        invariant table.Keys == s.rows.Keys
        invariant forall i | i in table ::
                    table[i] == if i in changed then Rejected(s.rows[i], why, statuses.rejected) else s.rows[i]
      {
        var i :| i in todo;
        todo := todo - {i};
        if statuses.rejected.Some? && table[i].status == statuses.rejected.value {
          continue;
        }
        table := table[i := Rejected(table[i], why, statuses.rejected)];
        changed := changed + {i};
      }
      rows := table;
      assert rows == AutoRejectCall(s, v, why).0.rows;
      assert changed == AutoRejectCall(s, v, why).1.changed;
      return Done(changed);
    }
  }
}
