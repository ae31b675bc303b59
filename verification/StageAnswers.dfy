/** What each call on processes and their stages stores, column by column, and when it is accepted. */
module StageAnswers {
  import opened Wrappers
  import opened ProcessStages

  /** One stage row may have changed; nothing else did. */
  ghost predicate StageTouched(s: State, s': State, id: Id) {
    && id in s.rows && s'.rows.Keys == s.rows.Keys && s' == s.(rows := s'.rows)
    && forall j | j in s.rows && j != id :: s'.rows[j] == s.rows[j]
  }

  /** One process row may have changed; nothing else did. */
  ghost predicate ProcessTouched(s: State, s': State, p: Id) {
    && p in s.processes && s'.processes.Keys == s.processes.Keys && s' == s.(processes := s'.processes)
    && forall q | q in s.processes && q != p :: s'.processes[q] == s.processes[q]
  }

  // ------------------------------------------------------------ processes

  /** A creation stores the process as sent, active, with exactly two stages of its own. */
  lemma CreateProcessStores(s: State, company: Id, department: Id, name: string)
    requires Inv(s)
    ensures var (s', reply) := CreateProcessCall(s, company, department, name);
            if reply.Done? then
              && reply == Done(s.nextProcess)
              && company in s.catalog.companies && department in s.catalog.departments
              && s.catalog.applicants.Some? && s.catalog.offer.Some?
              && s'.processes.Keys == s.processes.Keys + {s.nextProcess}
              && s'.processes[s.nextProcess] == Process(company, department, name, true)
              && (forall p | p in s.processes :: s'.processes[p] == s.processes[p])
              && s'.rows.Keys == s.rows.Keys + {s.next, s.next + 1}
              && s'.rows[s.next] == Stage(s.nextProcess, s.catalog.applicants.value, 1, true, false, true)
              && s'.rows[s.next + 1] == Stage(s.nextProcess, s.catalog.offer.value, 9999, false, true, true)
              && (forall i | i in s.rows :: s'.rows[i] == s.rows[i])
              && s'.catalog == s.catalog
            else s' == s
  {
  }

  /** An update stores what was sent and keeps the rest. */
  lemma UpdateProcessStores(s: State, p: Id, c: ProcessPatch)
    ensures var (s', reply) := UpdateProcessCall(s, p, c);
            if reply.Done? then
              && reply == Done(p) && ProcessTouched(s, s', p)
              && var r, r' := s.processes[p], s'.processes[p];
                 && (if c.company.Value? then c.company.v == Some(r'.company) else r'.company == r.company)
                 && (if c.department.Value? then c.department.v == Some(r'.department)
                     else r'.department == r.department)
                 && (if c.name.Value? then c.name.v == Some(r'.name) else r'.name == r.name)
                 && (if c.active.Value? then c.active.v == Some(r'.active) else r'.active == r.active)
                 && (c.company.Value? || c.department.Value? ==>
                       r'.company in s.catalog.companies && r'.department in s.catalog.departments)
            else s' == s
    ensures UpdateProcessCall(s, p, c).1 == Refused(NotFound) <==> p !in s.processes
  {
  }

  /** A deletion switches the process off unless it is in use. */
  lemma DeleteProcessStores(s: State, p: Id, inUse: bool)
    ensures var (s', reply) := DeleteProcessCall(s, p, inUse);
            && (reply.Done? <==> p in s.processes && !inUse)
            && (reply == Refused(InUse) <==> p in s.processes && inUse)
            && if reply.Done? then ProcessTouched(s, s', p) && s'.processes[p] == s.processes[p].(active := false)
               else s' == s
  {
  }

  // ------------------------------------------------------------ stages

  /** An accepted stage is stored as sent: active, custom, with its parameter, order and flag. */
  lemma AddStageStores(s: State, p: Id, parameter: Id, order: int, final: bool)
    ensures var (s', reply) := AddStageCall(s, p, parameter, order, final);
            if reply.Done? then
              && reply == Done(s.next) && s'.rows.Keys == s.rows.Keys + {s.next} && s'.next == s.next + 1
              && s'.rows[s.next].process == p && s'.rows[s.next].parameter == parameter
              && s'.rows[s.next].order == order && s'.rows[s.next].finalPositive == final
              && !s'.rows[s.next].initial && s'.rows[s.next].active
              && (forall j | j in s.rows && j != s.next :: s'.rows[j] == s.rows[j])
              && s' == s.(rows := s'.rows, next := s'.next)
            else s' == s
  {
  }

  /** Which answer an add gets: an unknown process or parameter, a taken stage, an order the column cannot hold,
      a taken order, or success. */
  lemma AddStageAnswers(s: State, p: Id, parameter: Id, order: int, final: bool)
    ensures var reply := AddStageCall(s, p, parameter, order, final).1;
            var known := p in s.processes && s.processes[p].active && parameter in s.catalog.stageParameters;
            var stageTaken := exists i :: i in s.rows && Active(s.rows, p, i) && s.rows[i].parameter == parameter;
            var orderTaken := exists i :: i in s.rows && Active(s.rows, p, i) && s.rows[i].order == order;
            && (reply == Refused(UnknownReference) <==> !known)
            && (reply == Refused(OutOfRange) <==> known && !stageTaken && order > 2_147_483_647)
            && (reply == Refused(Duplicate) <==> known && (stageTaken || (orderTaken && order <= 2_147_483_647)))
            && (reply.Done? <==> known && !stageTaken && !orderTaken && order <= 2_147_483_647)
  {
    var sameStage, sameOrder := ByStage(s.rows, p, parameter, None), ByOrder(s.rows, p, order, None);
    forall i | i in s.rows && Active(s.rows, p, i) && s.rows[i].parameter == parameter ensures i in sameStage {}
    forall i | i in s.rows && Active(s.rows, p, i) && s.rows[i].order == order ensures i in sameOrder {}
    if i :| i in sameStage { assert Active(s.rows, p, i); }
    if i :| i in sameOrder { assert Active(s.rows, p, i); }
  }

  /** The stage a call would add. */
  function Custom(p: Id, parameter: Id, order: int, final: bool): Stage {
    Stage(p, parameter, order, false, final, true)
  }

  /** An add with known references and an order the column can hold is accepted exactly when the table with
      the new row has distinct orders and stages. */
  lemma AddAcceptsIffUnique(s: State, p: Id, parameter: Id, order: int, final: bool)
    requires Inv(s) && ActiveProcess(s, p) && parameter in s.catalog.stageParameters && order <= MAX_ORDER
    ensures AddStageCall(s, p, parameter, order, final).1.Done? <==>
            UniqueStages(s.rows[s.next := Custom(p, parameter, order, final)])
  {
    NoneExcluded(s.rows, p, parameter, order, s.next);
    UniqueIff(s.rows, s.next, Custom(p, parameter, order, final));
  }

  lemma UniqueIff(rows: Table, id: Id, r: Stage)
    requires UniqueStages(rows) && r.active
    ensures UniqueStages(rows[id := r]) <==>
            ByStage(rows, r.process, r.parameter, Some(id)) == {} && ByOrder(rows, r.process, r.order, Some(id)) == {}
  {
    var rows' := rows[id := r];
    var sameStage := ByStage(rows, r.process, r.parameter, Some(id));
    var sameOrder := ByOrder(rows, r.process, r.order, Some(id));
    if sameStage == {} && sameOrder == {} {
      RowChangeKeepsUnique(rows, id, r);
    } else {
      var j :| j in sameStage || j in sameOrder;
      assert j in rows' && id in rows' && j != id && rows'[j] == rows[j] && rows'[id] == r;
      assert rows'[j].active && rows'[j].process == r.process;
    }
  }

  /** An update stores what was sent, keeps the rest, and only ever touches a custom stage. */
  lemma UpdateStageStores(s: State, id: Id, p: Patch)
    ensures var (s', reply) := UpdateStageCall(s, id, p);
            if reply.Done? then
              && reply == Done(id) && StageTouched(s, s', id)
              && var r, r' := s.rows[id], s'.rows[id];
                 && r.active && !r.initial && !r.finalPositive
                 && (p.parameter.Value? ==> r'.parameter in s.catalog.stageParameters)
                 && (if p.parameter.Value? then p.parameter.v == Some(r'.parameter) else r'.parameter == r.parameter)
                 && (if p.order.Value? then p.order.v == Some(r'.order) else r'.order == r.order)
                 && (if p.finalPositive.Value? then p.finalPositive.v == Some(r'.finalPositive)
                     else !r'.finalPositive)
                 && r'.process == r.process && !r'.initial && r'.active
            else s' == s
    ensures UpdateStageCall(s, id, p).1 == Refused(NotFound) <==> !(id in s.rows && s.rows[id].active)
    ensures UpdateStageCall(s, id, p).1 == Refused(Protected) <==>
            id in s.rows && s.rows[id].active && (s.rows[id].initial || s.rows[id].finalPositive)
  {
  }

  /** The row a patch without nulls would leave. */
  function Reordered(r: Stage, p: Patch): Stage
    requires p.parameter != Value(None) && p.order != Value(None) && p.finalPositive != Value(None)
  {
    r.(parameter := if p.parameter.Value? then p.parameter.v.value else r.parameter,
       order := if p.order.Value? then p.order.v.value else r.order,
       finalPositive := if p.finalPositive.Value? then p.finalPositive.v.value else r.finalPositive)
  }

  /** An update of a custom stage, without nulls, with a known parameter and an order the column can hold, is
      accepted exactly when the changed table has distinct orders and stages. */
  lemma UpdateAcceptsIffUnique(s: State, id: Id, p: Patch)
    requires Inv(s) && id in s.rows && s.rows[id].active && !s.rows[id].initial && !s.rows[id].finalPositive
    requires p.parameter != Value(None) && p.order != Value(None) && p.finalPositive != Value(None)
    requires p.parameter.Value? ==> p.parameter.v.value in s.catalog.stageParameters
    requires p.order.Value? ==> p.order.v.value <= MAX_ORDER
    ensures UpdateStageCall(s, id, p).1.Done? <==> UniqueStages(s.rows[id := Reordered(s.rows[id], p)])
  {
    var r, r' := s.rows[id], Reordered(s.rows[id], p);
    UniqueIff(s.rows, id, r');
    if !p.parameter.Value? && !p.order.Value? {
      forall j | j in s.rows && j != id && Active(s.rows, r.process, j)
        ensures s.rows[j].order != r'.order && s.rows[j].parameter != r'.parameter {}
      assert ByStage(s.rows, r.process, r'.parameter, Some(id)) == {};
      assert ByOrder(s.rows, r.process, r'.order, Some(id)) == {};
    }
  }

  /** A deletion switches a custom, unused stage off. */
  lemma DeleteStageStores(s: State, id: Id, inUse: bool)
    ensures var (s', reply) := DeleteStageCall(s, id, inUse);
            var found := id in s.rows && s.rows[id].active;
            var fixed := found && (s.rows[id].initial || s.rows[id].finalPositive);
            && (reply == Refused(NotFound) <==> !found) && (reply == Refused(Protected) <==> fixed)
            && (reply == Refused(InUse) <==> found && !fixed && inUse)
            && (reply.Done? <==> found && !fixed && !inUse)
            && if reply.Done? then StageTouched(s, s', id) && s'.rows[id] == s.rows[id].(active := false) else s' == s
  {
  }
}
