/** The ordered stages of a hiring process: two seeded backbone stages and the custom ones
    between them, under two uniqueness rules over the active rows. */
module ProcessStages {
  import opened Wrappers

  type Id = nat

  datatype Stage = Stage(process: Id, parameter: Id, order: int, initial: bool, finalPositive: bool, active: bool)

  type Table = map<Id, Stage>

  datatype Process = Process(company: Id, department: Id, name: string, active: bool)

  /** What requests may refer to. `stageParameters` are the active catalog entries of type 'stage';
      `applicants` and `offer` the two the backbone is seeded from, when the catalog holds them. */
  datatype Catalog = Catalog(
    companies: set<Id>, departments: set<Id>, stageParameters: set<Id>, applicants: Option<Id>, offer: Option<Id>)

  datatype State = State(rows: Table, next: Id, processes: map<Id, Process>, nextProcess: Id, catalog: Catalog)

  const FINAL_STAGE_ORDER := 9999

  /** The column holds four-byte integers. */
  const MAX_ORDER := 2_147_483_647

  datatype Sent<T> = Absent | Value(v: Option<T>)

  datatype Patch = Patch(parameter: Sent<Id>, order: Sent<int>, finalPositive: Sent<bool>)

  datatype ProcessPatch = ProcessPatch(company: Sent<Id>, department: Sent<Id>, name: Sent<string>, active: Sent<bool>)

  /** Orders are at least 1: the request schema refuses anything else. */
  predicate PatchOk(p: Patch) { p.order.Value? && p.order.v.Some? ==> p.order.v.value >= 1 }

  datatype Call =
    | CreateProcess(company: Id, department: Id, name: string)
    | UpdateProcess(process: Id, changes: ProcessPatch)
    | DeleteProcess(process: Id, inUse: bool)
    | AddStage(process: Id, parameter: Id, order: int, finalPositive: bool)
    | UpdateStage(id: Id, patch: Patch)
    | DeleteStage(id: Id, inUse: bool)

  predicate CallOk(c: Call) {
    && (c.AddStage? ==> c.order >= 1)
    && (c.UpdateStage? ==> PatchOk(c.patch))
  }

  datatype Error =
    | NotFound | UnknownReference | Duplicate | MultipleResults | UniqueViolation | OutOfRange
    | Protected | InUse | NullColumn

  datatype Reply = Done(id: Id) | Refused(error: Error)

  // ------------------------------------------------------------ queries

  predicate Active(rows: Table, p: Id, i: Id) { i in rows && rows[i].active && rows[i].process == p }

  function ByStage(rows: Table, p: Id, parameter: Id, exclude: Option<Id>): set<Id> {
    set i | i in rows && Active(rows, p, i) && rows[i].parameter == parameter && exclude != Some(i)
  }

  function ByOrder(rows: Table, p: Id, order: int, exclude: Option<Id>): set<Id> {
    set i | i in rows && Active(rows, p, i) && rows[i].order == order && exclude != Some(i)
  }

  /** The lowest-ordered active stage of a process. */
  predicate IsFirst(rows: Table, p: Id, i: Id) {
    Active(rows, p, i) && forall j | j in rows && Active(rows, p, j) :: rows[i].order <= rows[j].order
  }

  // ------------------------------------------------------------ the calls

  predicate ActiveProcess(s: State, p: Id) { p in s.processes && s.processes[p].active }

  /** The active processes `find_duplicate` finds. */
  function Twins(s: State, company: Id, department: Id, name: string, exclude: Option<Id>): set<Id> {
    set p | p in s.processes && s.processes[p].active
            && s.processes[p].company == company && s.processes[p].department == department
            && s.processes[p].name == name && exclude != Some(p)
  }

  /** Every process with that key, active or not: the unique constraint of the table covers them all. */
  function Holders(s: State, company: Id, department: Id, name: string, exclude: Option<Id>): set<Id> {
    set p | p in s.processes
            && s.processes[p].company == company && s.processes[p].department == department
            && s.processes[p].name == name && exclude != Some(p)
  }

  /** One duplicate is an answer, two are a failure of the query. */
  function TwinError(twins: set<Id>): Option<Error> {
    if twins == {} then None else Some(if |twins| == 1 then Duplicate else MultipleResults)
  }

  function CreateProcessCall(s: State, company: Id, department: Id, name: string): (State, Reply) {
    if company !in s.catalog.companies || department !in s.catalog.departments then (s, Refused(UnknownReference)) else
    var taken := TwinError(Twins(s, company, department, name, None));
    if taken.Some? then (s, Refused(taken.value))
    else if Holders(s, company, department, name, None) != {} then (s, Refused(UniqueViolation))
    else if s.catalog.applicants.None? || s.catalog.offer.None? then (s, Refused(UnknownReference))
    else (Seeded(s, Process(company, department, name, true)), Done(s.nextProcess))
  }

  /** The new process with its two fixed stages. */
  function Seeded(s: State, process: Process): State
    requires s.catalog.applicants.Some? && s.catalog.offer.Some?
  {
    var p := s.nextProcess;
    var first := Stage(p, s.catalog.applicants.value, 1, true, false, true);
    var last := Stage(p, s.catalog.offer.value, FINAL_STAGE_ORDER, false, true, true);
    s.(rows := s.rows[s.next := first][s.next + 1 := last], next := s.next + 2,
       processes := s.processes[p := process], nextProcess := p + 1)
  }

  predicate SendsKey(c: ProcessPatch) { c.company.Value? || c.department.Value? || c.name.Value? }

  /** A duplicate is looked for only when the company, the department or the name is sent. */
  function UpdateProcessCall(s: State, p: Id, c: ProcessPatch): (State, Reply) {
    if p !in s.processes then (s, Refused(NotFound)) else
    var r := s.processes[p];
    var company, department := Or(c.company, r.company), Or(c.department, r.department);
    var name, active := Or(c.name, r.name), Or(c.active, r.active);
    if company.None? || department.None? then (s, Refused(UnknownReference))
    else if (c.company.Value? || c.department.Value?)
            && (company.value !in s.catalog.companies || department.value !in s.catalog.departments)
    then (s, Refused(UnknownReference))
    else
      var taken := if SendsKey(c) && name.Some?
                   then TwinError(Twins(s, company.value, department.value, name.value, Some(p))) else None;
      if taken.Some? then (s, Refused(taken.value))
      else if name.None? || active.None? then (s, Refused(NullColumn))
      else if Holders(s, company.value, department.value, name.value, Some(p)) != {} then (s, Refused(UniqueViolation))
      else (s.(processes := s.processes[p := Process(company.value, department.value, name.value, active.value)]),
            Done(p))
  }

  function DeleteProcessCall(s: State, p: Id, inUse: bool): (State, Reply) {
    if p !in s.processes then (s, Refused(NotFound))
    else if inUse then (s, Refused(InUse))
    else (s.(processes := s.processes[p := s.processes[p].(active := false)]), Done(p))
  }

  /** What `_assert_unique` answers: a taken stage, an order the column cannot hold, or a taken order. */
  function StageError(rows: Table, p: Id, parameter: Id, order: Option<int>, exclude: Option<Id>): Option<Error> {
    if ByStage(rows, p, parameter, exclude) != {} then Some(Duplicate)
    else if order.None? then None
    else if order.value > MAX_ORDER then Some(OutOfRange)
    else if ByOrder(rows, p, order.value, exclude) != {} then Some(Duplicate)
    else None
  }

  function AddStageCall(s: State, p: Id, parameter: Id, order: int, finalPositive: bool): (State, Reply) {
    if !ActiveProcess(s, p) || parameter !in s.catalog.stageParameters then (s, Refused(UnknownReference))
    else if StageError(s.rows, p, parameter, Some(order), None).Some?
    then (s, Refused(StageError(s.rows, p, parameter, Some(order), None).value))
    else (s.(rows := s.rows[s.next := Stage(p, parameter, order, false, finalPositive, true)], next := s.next + 1),
          Done(s.next))
  }

  function Or<T>(f: Sent<T>, current: T): Option<T> {
    match f
    case Absent => Some(current)
    case Value(v) => v
  }

  function UpdateStageCall(s: State, id: Id, p: Patch): (State, Reply) {
    if id !in s.rows || !s.rows[id].active then (s, Refused(NotFound)) else
    var r := s.rows[id];
    var parameter, order := Or(p.parameter, r.parameter), Or(p.order, r.order);
    var final := Or(p.finalPositive, r.finalPositive);
    if r.initial || r.finalPositive then (s, Refused(Protected))
    else if p.parameter.Value? && (parameter.None? || parameter.value !in s.catalog.stageParameters)
        then (s, Refused(UnknownReference))
    else if (p.parameter.Value? || p.order.Value?)
            && StageError(s.rows, r.process, parameter.value, order, Some(id)).Some?
    then (s, Refused(StageError(s.rows, r.process, parameter.value, order, Some(id)).value))
    else if order.None? || final.None? then (s, Refused(NullColumn))
    else (s.(rows := s.rows[id := r.(parameter := parameter.value, order := order.value,
                                     finalPositive := final.value)]),
          Done(id))
  }

  function DeleteStageCall(s: State, id: Id, inUse: bool): (State, Reply) {
    if id !in s.rows || !s.rows[id].active then (s, Refused(NotFound))
    else if s.rows[id].initial || s.rows[id].finalPositive then (s, Refused(Protected))
    else if inUse then (s, Refused(InUse))
    else (s.(rows := s.rows[id := s.rows[id].(active := false)]), Done(id))
  }

  function Step(s: State, c: Call): (State, Reply) {
    match c
    case CreateProcess(company, department, name) => CreateProcessCall(s, company, department, name)
    case UpdateProcess(p, changes) => UpdateProcessCall(s, p, changes)
    case DeleteProcess(p, inUse) => DeleteProcessCall(s, p, inUse)
    case AddStage(p, parameter, order, final) => AddStageCall(s, p, parameter, order, final)
    case UpdateStage(id, patch) => UpdateStageCall(s, id, patch)
    case DeleteStage(id, inUse) => DeleteStageCall(s, id, inUse)
  }

  function Run(s: State, run: seq<Call>): State
    decreases |run|
  {
    if run == [] then s else Run(Step(s, run[0]).0, run[1..])
  }

  // ------------------------------------------------------------ what every run keeps

  predicate UniqueStages(rows: Table) {
    forall i, j | i in rows && j in rows && i != j && rows[i].active && rows[j].active
                  && rows[i].process == rows[j].process ::
      rows[i].order != rows[j].order && rows[i].parameter != rows[j].parameter
  }

  predicate Inv(s: State) {
    && UniqueStages(s.rows)
    && (forall i | i in s.rows && s.rows[i].active :: 1 <= s.rows[i].order <= MAX_ORDER)
    && (forall i | i in s.rows :: i < s.next && s.rows[i].process < s.nextProcess)
    && (forall p | p in s.processes :: p < s.nextProcess)
    && SeedsDistinct(s.catalog)
  }

  /** Two codes of the catalog are two entries: its table is unique on type and code. */
  predicate SeedsDistinct(c: Catalog) { c.applicants.Some? ==> c.applicants != c.offer }

  /** The two seeded rows of a process, active and as they were inserted. */
  predicate Backbone(s: State, p: Id, first: Id, last: Id) {
    && s.catalog.applicants.Some? && s.catalog.offer.Some?
    && first in s.rows && s.rows[first] == Stage(p, s.catalog.applicants.value, 1, true, false, true)
    && last in s.rows && s.rows[last] == Stage(p, s.catalog.offer.value, FINAL_STAGE_ORDER, false, true, true)
  }

  lemma RowChangeKeepsUnique(rows: Table, id: Id, r: Stage)
    requires UniqueStages(rows)
    requires r.active ==> ByStage(rows, r.process, r.parameter, Some(id)) == {}
    requires r.active ==> ByOrder(rows, r.process, r.order, Some(id)) == {}
    ensures UniqueStages(rows[id := r])
  {
    if r.active {
      forall j | j in rows && j != id && rows[j].active && rows[j].process == r.process
        ensures rows[j].order != r.order && rows[j].parameter != r.parameter
      {
        assert j !in ByStage(rows, r.process, r.parameter, Some(id));
        assert j !in ByOrder(rows, r.process, r.order, Some(id));
      }
    }
  }

  lemma NoneExcluded(rows: Table, p: Id, parameter: Id, order: int, id: Id)
    requires id !in rows
    ensures ByStage(rows, p, parameter, Some(id)) == ByStage(rows, p, parameter, None)
    ensures ByOrder(rows, p, order, Some(id)) == ByOrder(rows, p, order, None)
  {
  }

  lemma SeededKeeps(s: State, process: Process)
    requires Inv(s) && s.catalog.applicants.Some? && s.catalog.offer.Some?
    ensures Inv(Seeded(s, process))
    ensures Backbone(Seeded(s, process), s.nextProcess, s.next, s.next + 1)
    ensures IsLast(Seeded(s, process).rows, s.nextProcess, s.next + 1)
  {
    var s' := Seeded(s, process);
    var a, b := s.next, s.next + 1;
    RowChangeKeepsUnique(s.rows, a, s'.rows[a]);
    RowChangeKeepsUnique(s.rows[a := s'.rows[a]], b, s'.rows[b]);
  }

  lemma UpdateStageKeeps(s: State, id: Id, p: Patch)
    requires Inv(s) && PatchOk(p)
    ensures Inv(UpdateStageCall(s, id, p).0)
  {
    if UpdateStageCall(s, id, p).1.Done? {
      var r, r' := s.rows[id], UpdateStageCall(s, id, p).0.rows[id];
      if !p.parameter.Value? && !p.order.Value? {
        forall j | j in s.rows && j != id && Active(s.rows, r.process, j)
          ensures s.rows[j].order != r'.order && s.rows[j].parameter != r'.parameter {}
        assert ByStage(s.rows, r.process, r'.parameter, Some(id)) == {};
        assert ByOrder(s.rows, r.process, r'.order, Some(id)) == {};
      }
      RowChangeKeepsUnique(s.rows, id, r');
    }
  }

  lemma AddStageKeeps(s: State, c: Call)
    requires Inv(s) && c.AddStage? && CallOk(c)
    ensures Inv(Step(s, c).0)
  {
    var (s', reply) := Step(s, c);
    if reply.Done? {
      NoneExcluded(s.rows, c.process, c.parameter, c.order, s.next);
      RowChangeKeepsUnique(s.rows, s.next, s'.rows[s.next]);
    }
  }

  lemma CreateProcessKeeps(s: State, c: Call)
    requires Inv(s) && c.CreateProcess?
    ensures Inv(Step(s, c).0)
  {
    if Step(s, c).1.Done? { SeededKeeps(s, Process(c.company, c.department, c.name, true)); }
  }

  lemma ProcessCallsKeep(s: State, c: Call)
    requires Inv(s) && (c.UpdateProcess? || c.DeleteProcess?)
    ensures Inv(Step(s, c).0)
  {
    assert Step(s, c).0.rows == s.rows && Step(s, c).0.next == s.next;
  }

  lemma DeleteStageKeeps(s: State, c: Call)
    requires Inv(s) && c.DeleteStage?
    ensures Inv(Step(s, c).0)
  {
    if Step(s, c).1.Done? { RowChangeKeepsUnique(s.rows, c.id, Step(s, c).0.rows[c.id]); }
  }

  lemma StepKeeps(s: State, c: Call)
    requires Inv(s) && CallOk(c)
    ensures Inv(Step(s, c).0)
  {
    match c
    case CreateProcess(_, _, _) => CreateProcessKeeps(s, c);
    case UpdateProcess(_, _) => ProcessCallsKeep(s, c);
    case DeleteProcess(_, _) => ProcessCallsKeep(s, c);
    case AddStage(_, _, _, _) => AddStageKeeps(s, c);
    case UpdateStage(id, patch) => UpdateStageKeeps(s, id, patch);
    case DeleteStage(_, _) => DeleteStageKeeps(s, c);
  }

  lemma StepKeepsBackbone(s: State, c: Call, p: Id, first: Id, last: Id)
    requires Inv(s) && Backbone(s, p, first, last)
    ensures Backbone(Step(s, c).0, p, first, last)
  {
  }

  lemma {:induction false} RunKeeps(s: State, run: seq<Call>)
    requires Inv(s) && forall k | 0 <= k < |run| :: CallOk(run[k])
    ensures Inv(Run(s, run))
    ensures forall p, first, last | Backbone(s, p, first, last) :: Backbone(Run(s, run), p, first, last)
    decreases |run|
  {
    if run != [] {
      StepKeeps(s, run[0]);
      forall p, first, last | Backbone(s, p, first, last) ensures Backbone(Step(s, run[0]).0, p, first, last) {
        StepKeepsBackbone(s, run[0], p, first, last);
      }
      RunKeeps(Step(s, run[0]).0, run[1..]);
    }
  }

  lemma BackboneIsFirst(s: State, p: Id, first: Id, last: Id, i: Id)
    requires Inv(s) && Backbone(s, p, first, last)
    ensures IsFirst(s.rows, p, i) <==> i == first
  {
    assert Active(s.rows, p, first);
  }

  predicate AllOk(run: seq<Call>) { forall k | 0 <= k < |run| :: CallOk(run[k]) }

  /** For every process created by the service, over every later run: orders and stages stay
      pairwise distinct, both seeded stages stay active and unchanged, and the first stage is
      the seeded initial one and no other. */
  lemma SeededStageComesFirst(s: State, c: Call, run: seq<Call>, i: Id)
    requires Inv(s) && c.CreateProcess? && Step(s, c).1.Done? && AllOk(run)
    ensures var s' := Run(Step(s, c).0, run);
            && UniqueStages(s'.rows)
            && Backbone(s', s.nextProcess, s.next, s.next + 1)
            && (IsFirst(s'.rows, s.nextProcess, i) <==> i == s.next)
  {
    SeededKeeps(s, Process(c.company, c.department, c.name, true));
    RunKeeps(Step(s, c).0, run);
    BackboneIsFirst(Run(Step(s, c).0, run), s.nextProcess, s.next, s.next + 1, i);
  }

  // ------------------------------------------------------------ whether the hired stage stays last

  /** The hired stage sorts after every other active stage of its process. */
  predicate IsLast(rows: Table, p: Id, i: Id) {
    Active(rows, p, i) && forall j | j in rows && Active(rows, p, j) :: rows[j].order <= rows[i].order
  }

  /** An order above the reserved one, added to the process or sent in an update of one of its stages. */
  predicate SendsLargeOrder(s: State, c: Call, p: Id) {
    match c
    case AddStage(q, _, order, _) => q == p && order > FINAL_STAGE_ORDER
    case UpdateStage(id, patch) =>
      id in s.rows && s.rows[id].process == p && patch.order.Value? && patch.order.v.Some?
      && patch.order.v.value > FINAL_STAGE_ORDER
    case _ => false
  }

  predicate Outgrows(s: State, c: Call, p: Id) { Step(s, c).1.Done? && SendsLargeOrder(s, c, p) }

  lemma AddedStageKeepsFinalLastIff(s: State, c: Call, p: Id, first: Id, last: Id)
    requires Inv(s) && Backbone(s, p, first, last) && IsLast(s.rows, p, last) && c.AddStage?
    ensures IsLast(Step(s, c).0.rows, p, last) <==> !Outgrows(s, c, p)
  {
    if Step(s, c).1.Done? {
      var rows := Step(s, c).0.rows;
      assert Active(rows, c.process, s.next) && rows[s.next].order == c.order;
    }
  }

  lemma UpdatedStageKeepsFinalLastIff(s: State, c: Call, p: Id, first: Id, last: Id)
    requires Inv(s) && Backbone(s, p, first, last) && IsLast(s.rows, p, last) && c.UpdateStage?
    ensures IsLast(Step(s, c).0.rows, p, last) <==> !Outgrows(s, c, p)
  {
    if Step(s, c).1.Done? {
      var rows := Step(s, c).0.rows;
      assert Active(rows, s.rows[c.id].process, c.id);
      assert forall j | j in rows && j != c.id :: rows[j] == s.rows[j];
    }
  }

  /** One call of any kind: the hired stage stops being last exactly when an accepted add or update
      carries an order above the reserved one into its process. */
  lemma StepKeepsFinalLastIff(s: State, c: Call, p: Id, first: Id, last: Id)
    requires Inv(s) && Backbone(s, p, first, last) && IsLast(s.rows, p, last)
    ensures IsLast(Step(s, c).0.rows, p, last) <==> !Outgrows(s, c, p)
  {
    match c
    case AddStage(_, _, _, _) => AddedStageKeepsFinalLastIff(s, c, p, first, last);
    case UpdateStage(_, _) => UpdatedStageKeepsFinalLastIff(s, c, p, first, last);
    case _ =>
  }

  predicate NeverOutgrown(s: State, run: seq<Call>, p: Id)
    decreases |run|
  {
    run == [] || (!Outgrows(s, run[0], p) && NeverOutgrown(Step(s, run[0]).0, run[1..], p))
  }

  /** The stage is last in every state the run passes through. */
  predicate LastThroughout(s: State, run: seq<Call>, p: Id, last: Id)
    decreases |run|
  {
    IsLast(s.rows, p, last) && (run == [] || LastThroughout(Step(s, run[0]).0, run[1..], p, last))
  }

  lemma {:induction false} LastThroughoutIff(s: State, run: seq<Call>, p: Id, first: Id, last: Id)
    requires Inv(s) && AllOk(run) && Backbone(s, p, first, last) && IsLast(s.rows, p, last)
    ensures LastThroughout(s, run, p, last) <==> NeverOutgrown(s, run, p)
    decreases |run|
  {
    if run != [] {
      StepKeepsFinalLastIff(s, run[0], p, first, last);
      StepKeeps(s, run[0]);
      StepKeepsBackbone(s, run[0], p, first, last);
      if !Outgrows(s, run[0], p) { LastThroughoutIff(Step(s, run[0]).0, run[1..], p, first, last); }
    }
  }

  /** Reserving order 9999 does not by itself keep the hired stage last. Over every run after the
      creation of a process, it is last all along if and only if no accepted add or update carries
      a larger order into the process. */
  lemma HiredStageLastIff(s: State, c: Call, run: seq<Call>)
    requires Inv(s) && c.CreateProcess? && Step(s, c).1.Done? && AllOk(run)
    ensures LastThroughout(Step(s, c).0, run, s.nextProcess, s.next + 1)
       <==> NeverOutgrown(Step(s, c).0, run, s.nextProcess)
  {
    SeededKeeps(s, Process(c.company, c.department, c.name, true));
    LastThroughoutIff(Step(s, c).0, run, s.nextProcess, s.next, s.next + 1);
  }

  /** Every active process with an unused stage parameter accepts a stage above the hired one, as long as
      the table is not full. */
  lemma LargeOrderIsAccepted(s: State, p: Id, parameter: Id)
    requires Inv(s) && ActiveProcess(s, p) && parameter in s.catalog.stageParameters
    requires ByStage(s.rows, p, parameter, None) == {} && |s.rows| < MAX_ORDER - FINAL_STAGE_ORDER
    ensures exists order :: order > FINAL_STAGE_ORDER && AddStageCall(s, p, parameter, order, false).1.Done?
  {
    var order := FreeLargeOrder(s.rows, p, None);
    assert AddStageCall(s, p, parameter, order, false).1.Done?;
  }

  function OrderPatch(order: int): Patch { Patch(Absent, Value(Some(order)), Absent) }

  /** Every custom stage accepts an update to above the hired one, as long as the table is not full. */
  lemma LargeUpdateIsAccepted(s: State, id: Id)
    requires Inv(s) && id in s.rows && s.rows[id].active && !s.rows[id].initial && !s.rows[id].finalPositive
    requires |s.rows| < MAX_ORDER - FINAL_STAGE_ORDER
    ensures exists order :: order > FINAL_STAGE_ORDER && UpdateStageCall(s, id, OrderPatch(order)).1.Done?
  {
    var order := FreeLargeOrder(s.rows, s.rows[id].process, Some(id));
    assert ByStage(s.rows, s.rows[id].process, s.rows[id].parameter, Some(id)) == {};
    assert UpdateStageCall(s, id, OrderPatch(order)).1.Done?;
  }

  lemma FreeLargeOrder(rows: Table, p: Id, exclude: Option<Id>) returns (order: int)
    requires |rows| < MAX_ORDER - FINAL_STAGE_ORDER
    ensures FINAL_STAGE_ORDER < order <= MAX_ORDER && ByOrder(rows, p, order, exclude) == {}
  {
    order := FreeOrder(rows, rows.Keys, FINAL_STAGE_ORDER + 1);
    assert |rows.Keys| == |rows|;
  }

  /** Some order within as many steps as there are rows is on none of them. */
  lemma {:induction false} FreeOrder(rows: Table, ids: set<Id>, from: int) returns (order: int)
    requires ids <= rows.Keys
    ensures from <= order <= from + |ids| && forall i | i in ids :: rows[i].order != order
    decreases ids
  {
    order := from;
    if i :| i in ids && rows[i].order == from {
      var rest := set j | j in ids && rows[j].order != from;
      order := FreeOrder(rows, rest, from + 1);
      Fewer(rest, ids, i);
    }
  }

  lemma Fewer(a: set<Id>, b: set<Id>, i: Id)
    requires a <= b && i in b && i !in a
    ensures |a| < |b|
  {
    AtMost(a, b - {i});
  }

  lemma {:induction false} AtMost(a: set<Id>, b: set<Id>)
    requires a <= b
    ensures |a| <= |b|
  {
    if a != {} {
      var x :| x in a;
      AtMost(a - {x}, b - {x});
    }
  }

  function NoProcesses(): State { State(map[], 0, map[], 0, Catalog({0}, {0}, {1, 2, 3}, Some(1), Some(2))) }

  /** One process with its two seeded stages, and with a custom stage besides. */
  function OneProcess(): State { Seeded(NoProcesses(), Process(0, 0, "hiring", true)) }

  function WithStage(order: int): State {
    OneProcess().(rows := OneProcess().rows[2 := Stage(0, 3, order, false, false, true)], next := 3)
  }

  lemma FirstCreation()
    ensures Step(NoProcesses(), CreateProcess(0, 0, "hiring")) == (OneProcess(), Done(0))
  {
    var s := NoProcesses();
    assert Twins(s, 0, 0, "hiring", None) == {} && Holders(s, 0, 0, "hiring", None) == {};
  }

  lemma FirstAddition()
    ensures Step(OneProcess(), AddStage(0, 3, 50, false)) == (WithStage(50), Done(2))
  {
    var rows := OneProcess().rows;
    assert ByStage(rows, 0, 3, None) == {} && ByOrder(rows, 0, 50, None) == {};
  }

  lemma FirstMove()
    ensures Step(WithStage(50), UpdateStage(2, OrderPatch(10_000))) == (WithStage(10_000), Done(2))
  {
    var rows := WithStage(50).rows;
    assert ByStage(rows, 0, 3, Some(2)) == {} && ByOrder(rows, 0, 10_000, Some(2)) == {};
    var moved := rows[2 := rows[2].(order := 10_000)];
    assert moved == WithStage(10_000).rows;
    assert Step(WithStage(50), UpdateStage(2, OrderPatch(10_000))).0.rows == moved;
  }

  /** Concretely: create a process, add a stage at order 50, move it to 10,000. */
  lemma UpdateOvertakesHired() returns (run: seq<Call>)
    ensures Inv(NoProcesses()) && AllOk(run)
    ensures var s := Run(NoProcesses(), run); Backbone(s, 0, 0, 1) && !IsLast(s.rows, 0, 1)
  {
    var create, add := CreateProcess(0, 0, "hiring"), AddStage(0, 3, 50, false);
    var move := UpdateStage(2, OrderPatch(10_000));
    run := [create, add, move];
    FirstCreation();
    FirstAddition();
    FirstMove();
    RunThree(NoProcesses(), create, add, move);
    assert Active(WithStage(10_000).rows, 0, 2);
  }

  // ------------------------------------------------------------ one process per name

  predicate HasKey(r: Process, company: Id, department: Id, name: string) {
    r.company == company && r.department == department && r.name == name
  }

  predicate SameKey(a: Process, b: Process) { HasKey(a, b.company, b.department, b.name) }

  /** What the unique constraint enforces: no two processes, active or inactive, share a key. */
  predicate UniqueKeys(s: State) {
    forall p, q | p in s.processes && q in s.processes && p != q :: !SameKey(s.processes[p], s.processes[q])
  }

  lemma KeyChange(s: State, p: Id, r: Process, s': State)
    requires UniqueKeys(s) && s'.processes == s.processes[p := r]
    requires Holders(s, r.company, r.department, r.name, Some(p)) == {}
    ensures UniqueKeys(s')
  {
    forall q | q in s.processes && q != p ensures !SameKey(r, s.processes[q]) {
      assert q !in Holders(s, r.company, r.department, r.name, Some(p));
    }
  }

  lemma StepKeepsKeys(s: State, c: Call)
    requires Inv(s) && UniqueKeys(s)
    ensures UniqueKeys(Step(s, c).0)
  {
    var (s', reply) := Step(s, c);
    if reply.Done? {
      match c
      case CreateProcess(company, department, name) =>
        assert Holders(s, company, department, name, Some(s.nextProcess))
            == Holders(s, company, department, name, None);
        KeyChange(s, s.nextProcess, Process(company, department, name, true), s');
      case UpdateProcess(p, _) => KeyChange(s, p, s'.processes[p], s');
      case _ =>
    }
  }

  /** Over every run no two processes, active or inactive, share company, department and name. */
  lemma {:induction false} RunKeepsKeys(s: State, run: seq<Call>)
    requires Inv(s) && UniqueKeys(s) && AllOk(run)
    ensures UniqueKeys(Run(s, run))
    decreases |run|
  {
    if run != [] {
      StepKeeps(s, run[0]);
      StepKeepsKeys(s, run[0]);
      RunKeepsKeys(Step(s, run[0]).0, run[1..]);
    }
  }

  /** Some process of that key is switched on, or off. */
  predicate Held(s: State, company: Id, department: Id, name: string, exclude: Option<Id>, active: bool) {
    exists p :: p in s.processes && HasKey(s.processes[p], company, department, name)
                && s.processes[p].active == active && exclude != Some(p)
  }

  /** With unique keys the look-up finds at most one row, and the constraint speaks exactly when the only
      holder of the key is inactive. */
  lemma OneHolder(s: State, company: Id, department: Id, name: string, exclude: Option<Id>)
    requires UniqueKeys(s)
    ensures var twins := Twins(s, company, department, name, exclude);
            var holders := Holders(s, company, department, name, exclude);
            && (TwinError(twins) == Some(Duplicate) <==> Held(s, company, department, name, exclude, true))
            && TwinError(twins) != Some(MultipleResults)
            && (twins == {} && holders != {} <==> Held(s, company, department, name, exclude, false))
  {
    var twins := Twins(s, company, department, name, exclude);
    var holders := Holders(s, company, department, name, exclude);
    if p :| p in holders {
      assert holders == {p} by { forall q | q in holders ensures q == p { } }
      assert s.processes[p].active ==> twins == {p};
      assert !s.processes[p].active ==> twins == {};
      assert Held(s, company, department, name, exclude, s.processes[p].active);
    }
    forall p | p in s.processes && HasKey(s.processes[p], company, department, name) && exclude != Some(p)
      ensures p in holders {}
  }

  /** The service looks for active processes of the name, the table refuses inactive ones as well: a
      creation with known references is answered with "already exists" if and only if an active
      process has the key, fails on the constraint if and only if an inactive one has it, and
      otherwise succeeds as soon as the backbone is seeded. */
  lemma CreationAnswers(s: State, company: Id, department: Id, name: string)
    requires UniqueKeys(s) && company in s.catalog.companies && department in s.catalog.departments
    ensures var reply := CreateProcessCall(s, company, department, name).1;
            && (reply == Refused(Duplicate) <==> Held(s, company, department, name, None, true))
            && (reply == Refused(UniqueViolation) <==> Held(s, company, department, name, None, false))
            && (reply.Done? <==> Holders(s, company, department, name, None) == {}
                                 && s.catalog.applicants.Some? && s.catalog.offer.Some?)
            && reply != Refused(MultipleResults)
  {
    OneHolder(s, company, department, name, None);
    assert Twins(s, company, department, name, None) <= Holders(s, company, department, name, None);
  }

  /** The key an update would leave the process with. */
  function KeyAfter(r: Process, c: ProcessPatch): Process
    requires c.company != Value(None) && c.department != Value(None) && c.name != Value(None)
  {
    r.(company := Or(c.company, r.company).value, department := Or(c.department, r.department).value,
       name := Or(c.name, r.name).value)
  }

  predicate KnownReferences(s: State, r: Process) {
    r.company in s.catalog.companies && r.department in s.catalog.departments
  }

  /** The update sets nothing to null that must hold a value, and names a known company and department
      if it sends either. */
  predicate Sound(s: State, r: Process, c: ProcessPatch) {
    && c.company != Value(None) && c.department != Value(None) && c.name != Value(None) && c.active != Value(None)
    && (c.company.Value? || c.department.Value? ==> KnownReferences(s, KeyAfter(r, c)))
  }

  /** The same for an update: it fails on the constraint if and only if another, inactive process has the
      key it would end up with; a patch that sends no part of the key never does. */
  lemma UpdateAnswers(s: State, p: Id, c: ProcessPatch)
    requires UniqueKeys(s) && p in s.processes && Sound(s, s.processes[p], c)
    ensures var (k, reply) := (KeyAfter(s.processes[p], c), UpdateProcessCall(s, p, c).1);
            && (reply == Refused(Duplicate) <==> Held(s, k.company, k.department, k.name, Some(p), true))
            && (reply == Refused(UniqueViolation) <==> Held(s, k.company, k.department, k.name, Some(p), false))
            && (reply.Done? <==> Holders(s, k.company, k.department, k.name, Some(p)) == {})
            && (!SendsKey(c) ==> reply.Done?)
  {
    var k := KeyAfter(s.processes[p], c);
    OneHolder(s, k.company, k.department, k.name, Some(p));
    assert Twins(s, k.company, k.department, k.name, Some(p)) <= Holders(s, k.company, k.department, k.name, Some(p));
    if !SendsKey(c) {
      assert Holders(s, k.company, k.department, k.name, Some(p)) == {} by {
        forall q | q in s.processes && q != p ensures !SameKey(s.processes[q], s.processes[p]) {}
      }
    }
  }

  /** No accepted update gives the process another key. */
  predicate NeverRenamed(s: State, run: seq<Call>, p: Id)
    requires p in s.processes
    decreases |run|
  {
    run == [] ||
    (&& p in Step(s, run[0]).0.processes && SameKey(Step(s, run[0]).0.processes[p], s.processes[p])
     && NeverRenamed(Step(s, run[0]).0, run[1..], p))
  }

  lemma {:induction false} KeyStays(s: State, run: seq<Call>, p: Id)
    requires p in s.processes && NeverRenamed(s, run, p)
    ensures p in Run(s, run).processes && SameKey(Run(s, run).processes[p], s.processes[p])
    decreases |run|
  {
    if run != [] {
      KeyStays(Step(s, run[0]).0, run[1..], p);
    }
  }

  /** Deleting a process never frees its name: over every later run in which it is not renamed, creating
      another process of the name is refused, and as long as it stays deleted the refusal is the
      failure of the insert, not the service's own answer. */
  lemma NameStaysTaken(s: State, run: seq<Call>, p: Id)
    requires Inv(s) && UniqueKeys(s) && AllOk(run) && p in s.processes && NeverRenamed(s, run, p)
    requires KnownReferences(s, s.processes[p])
    ensures var s' := Run(s, run);
            var r := s.processes[p];
            p in s'.processes
            && CreateProcessCall(s', r.company, r.department, r.name).1
               == Refused(if s'.processes[p].active then Duplicate else UniqueViolation)
  {
    var s', r := Run(s, run), s.processes[p];
    KeyStays(s, run, p);
    RunKeepsKeys(s, run);
    CatalogStays(s, run);
    assert Held(s', r.company, r.department, r.name, None, s'.processes[p].active);
    CreationAnswers(s', r.company, r.department, r.name);
  }

  lemma {:induction false} CatalogStays(s: State, run: seq<Call>)
    ensures Run(s, run).catalog == s.catalog
    decreases |run|
  {
    if run != [] {
      CatalogStays(Step(s, run[0]).0, run[1..]);
    }
  }

  /** Concretely: create a process, delete it, create it again. The service finds no duplicate and the
      insert fails. */
  lemma DeletedNameIsRefused()
    ensures Inv(NoProcesses()) && UniqueKeys(NoProcesses())
    ensures var create, delete := CreateProcess(0, 0, "hiring"), DeleteProcess(0, false);
            var s := Run(NoProcesses(), [create, delete]);
            Twins(s, 0, 0, "hiring", None) == {} && Step(s, create).1 == Refused(UniqueViolation)
  {
    var create, delete := CreateProcess(0, 0, "hiring"), DeleteProcess(0, false);
    FirstCreation();
    var s := Step(OneProcess(), delete).0;
    assert [create, delete][1..] == [delete] && [delete][1..] == [];
    assert Run(NoProcesses(), [create, delete]) == Run(OneProcess(), [delete]) == Run(s, []);
    assert s.processes == map[0 := Process(0, 0, "hiring", false)];
    assert 0 in Holders(s, 0, 0, "hiring", None) && Twins(s, 0, 0, "hiring", None) == {};
  }

  lemma RunThree(s: State, a: Call, b: Call, c: Call)
    ensures Run(s, [a, b, c]) == Step(Step(Step(s, a).0, b).0, c).0
  {
    assert [a, b, c][1..] == [b, c] && [b, c][1..] == [c] && [c][1..] == [];
    var x := Step(s, a).0;
    var y := Step(x, b).0;
    assert Run(x, [b, c]) == Run(y, [c]) == Run(Step(y, c).0, []);
  }

  /** The lookup of a process includes inactive ones, so a deletion can be repeated; it then changes
      nothing. */
  lemma DeleteTwice(s: State, p: Id)
    requires DeleteProcessCall(s, p, false).1.Done?
    ensures var s' := DeleteProcessCall(s, p, false).0; DeleteProcessCall(s', p, false) == (s', Done(p))
  {
    var s' := DeleteProcessCall(s, p, false).0;
    assert s'.processes[p := s'.processes[p].(active := false)] == s'.processes;
  }

  // ------------------------------------------------------------ the services as they run

  class ProcessStageService {
    var rows: Table
    var next: Id
    var processes: map<Id, Process>
    var nextProcess: Id
    const catalog: Catalog

    function View(): State
      reads this
    {
      State(rows, next, processes, nextProcess, catalog)
    }

    constructor (catalog: Catalog)
      requires SeedsDistinct(catalog)
      ensures View() == State(map[], 0, map[], 0, catalog) && Inv(View()) && UniqueKeys(View())
    {
      this.catalog := catalog;
      rows, next, processes, nextProcess := map[], 0, map[], 0;
    }

    method Insert(stage: Stage) returns (id: Id)
      modifies this`rows, this`next
      ensures id == old(next) && next == id + 1 && rows == old(rows)[id := stage]
    {
      id := next;
      rows := rows[id := stage];
      next := next + 1;
    }

    method AssertNoTwin(company: Id, department: Id, name: string, exclude: Option<Id>) returns (taken: Option<Error>)
      ensures taken == TwinError(Twins(View(), company, department, name, exclude))
    {
      var twins := set p | p in processes && processes[p].company == company && processes[p].department == department
                           && processes[p].name == name && processes[p].active && exclude != Some(p);
      assert twins == Twins(View(), company, department, name, exclude);
      if twins == {} {
        return None;
      }
      return Some(if |twins| == 1 then Duplicate else MultipleResults);
    }

    method CreateProcess(company: Id, department: Id, name: string) returns (reply: Reply)
      modifies this
      ensures (View(), reply) == CreateProcessCall(old(View()), company, department, name)
    {
      if company !in catalog.companies || department !in catalog.departments {
        return Refused(UnknownReference);
      }
      var taken := AssertNoTwin(company, department, name, None);
      if taken.Some? {
        return Refused(taken.value);
      }
      if Holders(View(), company, department, name, None) != {} {
        return Refused(UniqueViolation);
      }
      if catalog.applicants.None? || catalog.offer.None? {
        return Refused(UnknownReference);
      }
      var p := nextProcess;
      processes := processes[p := Process(company, department, name, true)];
      nextProcess := p + 1;
      var _ := Insert(Stage(p, catalog.applicants.value, 1, true, false, true));
      var _ := Insert(Stage(p, catalog.offer.value, FINAL_STAGE_ORDER, false, true, true));
      return Done(p);
    }

    method UpdateProcess(p: Id, c: ProcessPatch) returns (reply: Reply)
      modifies this
      ensures (View(), reply) == UpdateProcessCall(old(View()), p, c)
    {
      if p !in processes {
        return Refused(NotFound);
      }
      var r := processes[p];
      var company, department := Or(c.company, r.company), Or(c.department, r.department);
      var name, active := Or(c.name, r.name), Or(c.active, r.active);
      if c.company.Value? || c.department.Value? {
        if company.None? || company.value !in catalog.companies {
          return Refused(UnknownReference);
        }
        if department.None? || department.value !in catalog.departments {
          return Refused(UnknownReference);
        }
      }
      if SendsKey(c) && name.Some? {
        var taken := AssertNoTwin(company.value, department.value, name.value, Some(p));
        if taken.Some? {
          return Refused(taken.value);
        }
      }
      if name.None? || active.None? {
        return Refused(NullColumn);
      }
      if Holders(View(), company.value, department.value, name.value, Some(p)) != {} {
        return Refused(UniqueViolation);
      }
      processes := processes[p := Process(company.value, department.value, name.value, active.value)];
      return Done(p);
    }

    /** The process is looked up among inactive ones too. */
    method DeleteProcess(p: Id, inUse: bool) returns (reply: Reply)
      modifies this
      ensures (View(), reply) == DeleteProcessCall(old(View()), p, inUse)
    {
      if p !in processes {
        return Refused(NotFound);
      }
      if inUse {
        return Refused(InUse);
      }
      processes := processes[p := processes[p].(active := false)];
      return Done(p);
    }

    method AssertUnique(p: Id, parameter: Id, order: Option<int>, exclude: Option<Id>) returns (taken: Option<Error>)
      ensures taken == StageError(rows, p, parameter, order, exclude)
    {
      var sameStage := set i | i in rows && rows[i].process == p && rows[i].parameter == parameter
                               && rows[i].active && exclude != Some(i);
      assert sameStage == ByStage(rows, p, parameter, exclude);
      if sameStage != {} {
        return Some(Duplicate);
      }
      if order.None? {
        return None;
      }
      if order.value > MAX_ORDER {
        return Some(OutOfRange);
      }
      var sameOrder := set i | i in rows && rows[i].process == p && rows[i].order == order.value
                               && rows[i].active && exclude != Some(i);
      assert sameOrder == ByOrder(rows, p, order.value, exclude);
      return if sameOrder == {} then None else Some(Duplicate);
    }

    method AddStage(p: Id, parameter: Id, order: int, finalPositive: bool) returns (reply: Reply)
      modifies this
      ensures (View(), reply) == AddStageCall(old(View()), p, parameter, order, finalPositive)
    {
      if p !in processes || !processes[p].active || parameter !in catalog.stageParameters {
        return Refused(UnknownReference);
      }
      var taken := AssertUnique(p, parameter, Some(order), None);
      if taken.Some? {
        return Refused(taken.value);
      }
      var id := Insert(Stage(p, parameter, order, false, finalPositive, true));
      return Done(id);
    }

    method UpdateStage(id: Id, p: Patch) returns (reply: Reply)
      modifies this
      ensures (View(), reply) == UpdateStageCall(old(View()), id, p)
    {
      if id !in rows || !rows[id].active {
        return Refused(NotFound);
      }
      var r := rows[id];
      if r.initial || r.finalPositive {
        return Refused(Protected);
      }
      var parameter, order := Or(p.parameter, r.parameter), Or(p.order, r.order);
      if p.parameter.Value? && (parameter.None? || parameter.value !in catalog.stageParameters) {
        return Refused(UnknownReference);
      }
      if p.parameter.Value? || p.order.Value? {
        var taken := AssertUnique(r.process, parameter.value, order, Some(id));
        if taken.Some? {
          return Refused(taken.value);
        }
      }
      var final := Or(p.finalPositive, r.finalPositive);
      if order.None? || final.None? {
        return Refused(NullColumn);
      }
      rows := rows[id := r.(parameter := parameter.value, order := order.value, finalPositive := final.value)];
      return Done(id);
    }

    method DeleteStage(id: Id, inUse: bool) returns (reply: Reply)
      modifies this
      ensures (View(), reply) == DeleteStageCall(old(View()), id, inUse)
    {
      if id !in rows || !rows[id].active {
        return Refused(NotFound);
      }
      if rows[id].initial || rows[id].finalPositive {
        return Refused(Protected);
      }
      if inUse {
        return Refused(InUse);
      }
      rows := rows[id := rows[id].(active := false)];
      return Done(id);
    }
  }
}
