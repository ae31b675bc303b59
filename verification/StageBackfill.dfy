/** The migration that gives every process an initial stage: orders are moved up by 1,000,000 and
    back down by 999,999, one row at a time, under a unique index checked after every row. */
module StageBackfill {
  import opened Wrappers
  import opened ProcessStages

  const UP := 1_000_000
  const DOWN := 999_999

  function ActiveIds(rows: Table, p: Id): set<Id> { set i | i in rows && Active(rows, p, i) }

  /** What the non-deferrable unique index enforces for one process. */
  predicate OrdersUnique(rows: Table, p: Id) {
    forall i, j | i in rows && j in rows && i != j && Active(rows, p, i) && Active(rows, p, j) ::
      rows[i].order != rows[j].order
  }

  /** The table once the rows in `done` have been moved. */
  function Moved(rows: Table, done: set<Id>, delta: int): Table {
    map i | i in rows :: if i in done then rows[i].(order := rows[i].order + delta) else rows[i]
  }

  /** The column holds four-byte integers. */
  predicate InRange(rows: Table, p: Id) {
    forall i | i in rows && Active(rows, p, i) :: -MAX_ORDER - 1 <= rows[i].order <= MAX_ORDER
  }

  predicate Accepts(rows: Table, p: Id) { OrdersUnique(rows, p) && InRange(rows, p) }

  /** Whatever rows have been visited so far, in either pass, the table accepts them. */
  ghost predicate NeverFails(rows: Table, p: Id) {
    forall done: set<Id> | done <= ActiveIds(rows, p) ::
      && Accepts(Moved(rows, done, UP), p)
      && Accepts(Moved(Moved(rows, ActiveIds(rows, p), UP), done, -DOWN), p)
  }

  predicate NoCriticalGap(rows: Table, p: Id) {
    forall i, j | i in rows && j in rows && Active(rows, p, i) && Active(rows, p, j) ::
      rows[i].order - rows[j].order != UP && rows[i].order - rows[j].order != DOWN
  }

  /** Every order can be raised by 1,000,000 within the column. */
  predicate LeavesRoom(rows: Table, p: Id) {
    forall i | i in rows && Active(rows, p, i) :: rows[i].order <= MAX_ORDER - UP
  }

  /** The dance succeeds in every row order exactly when no two orders of the process lie exactly
      1,000,000 or exactly 999,999 apart and none is above 2,146,483,647. */
  lemma DanceIsSafeIff(rows: Table, p: Id)
    requires Accepts(rows, p)
    ensures NeverFails(rows, p) <==> NoCriticalGap(rows, p) && LeavesRoom(rows, p)
  {
    var all := ActiveIds(rows, p);
    if NoCriticalGap(rows, p) && LeavesRoom(rows, p) {
      forall done: set<Id> | done <= all
        ensures Accepts(Moved(rows, done, UP), p) && Accepts(Moved(Moved(rows, all, UP), done, -DOWN), p)
      {
        UpUnique(rows, p, done);
        DownUnique(rows, p, done);
        BothInRange(rows, p, done);
      }
    } else if i :| i in rows && Active(rows, p, i) && rows[i].order > MAX_ORDER - UP {
      assert {i} <= all;
      LargeOrderFails(rows, p, i);
    } else {
      var i, j :| i in rows && j in rows && Active(rows, p, i) && Active(rows, p, j) &&
        (rows[i].order - rows[j].order == UP || rows[i].order - rows[j].order == DOWN);
      assert {j} <= all && {i} <= all;
      if rows[i].order - rows[j].order == UP {
        WidePairCollides(rows, p, i, j);
      } else {
        CriticalPairCollides(rows, p, i, j);
      }
    }
  }

  /** An order too close to the end of the column overflows on its way up, whatever the gaps are. */
  lemma LargeOrderFails(rows: Table, p: Id, i: Id)
    requires Active(rows, p, i) && rows[i].order > MAX_ORDER - UP
    ensures !InRange(Moved(rows, {i}, UP), p)
  {
    assert Active(Moved(rows, {i}, UP), p, i);
  }

  lemma BothInRange(rows: Table, p: Id, done: set<Id>)
    requires InRange(rows, p) && LeavesRoom(rows, p)
    ensures InRange(Moved(rows, done, UP), p)
    ensures InRange(Moved(Moved(rows, ActiveIds(rows, p), UP), done, -DOWN), p)
  {
    var up, down := Moved(rows, done, UP), Moved(Moved(rows, ActiveIds(rows, p), UP), done, -DOWN);
    forall i | i in rows && (Active(up, p, i) || Active(down, p, i))
      ensures -MAX_ORDER - 1 <= up[i].order <= MAX_ORDER && -MAX_ORDER - 1 <= down[i].order <= MAX_ORDER
    {
      assert Active(rows, p, i) && i in ActiveIds(rows, p);
    }
  }

  /** A pair 1,000,000 apart collides when the lower one goes up first. */
  lemma WidePairCollides(rows: Table, p: Id, i: Id, j: Id)
    requires Active(rows, p, i) && Active(rows, p, j) && rows[i].order - rows[j].order == UP
    ensures !OrdersUnique(Moved(rows, {j}, UP), p)
  {
    var up := Moved(rows, {j}, UP);
    assert Active(up, p, i) && Active(up, p, j) && up[i].order == up[j].order;
  }

  /** A pair 999,999 apart collides when the lower one has come back down before the higher. */
  lemma CriticalPairCollides(rows: Table, p: Id, i: Id, j: Id)
    requires Active(rows, p, i) && Active(rows, p, j) && rows[i].order - rows[j].order == DOWN
    ensures !OrdersUnique(Moved(Moved(rows, ActiveIds(rows, p), UP), {i}, -DOWN), p)
  {
    var down := Moved(Moved(rows, ActiveIds(rows, p), UP), {i}, -DOWN);
    assert Active(down, p, i) && Active(down, p, j) && down[i].order == down[j].order;
  }

  lemma UpUnique(rows: Table, p: Id, done: set<Id>)
    requires OrdersUnique(rows, p) && NoCriticalGap(rows, p)
    ensures OrdersUnique(Moved(rows, done, UP), p)
  {
    var up := Moved(rows, done, UP);
    forall i, j | i in up && j in up && i != j && Active(up, p, i) && Active(up, p, j)
      ensures up[i].order != up[j].order
    {
      assert Active(rows, p, i) && Active(rows, p, j);
    }
  }

  lemma DownUnique(rows: Table, p: Id, done: set<Id>)
    requires OrdersUnique(rows, p) && NoCriticalGap(rows, p)
    ensures OrdersUnique(Moved(Moved(rows, ActiveIds(rows, p), UP), done, -DOWN), p)
  {
    var down := Moved(Moved(rows, ActiveIds(rows, p), UP), done, -DOWN);
    forall i, j | i in down && j in down && i != j && Active(down, p, i) && Active(down, p, j)
      ensures down[i].order != down[j].order
    {
      assert Active(rows, p, i) && Active(rows, p, j);
      assert i in ActiveIds(rows, p) && j in ActiveIds(rows, p);
    }
  }

  /** Orders spread by less than 999,999 qualify whenever the column has room for them. */
  lemma SmallSpreadIsSafe(rows: Table, p: Id)
    requires Accepts(rows, p) && LeavesRoom(rows, p)
    requires forall i, j | i in rows && j in rows && Active(rows, p, i) && Active(rows, p, j) ::
               rows[i].order - rows[j].order < DOWN
    ensures NeverFails(rows, p)
  {
    DanceIsSafeIff(rows, p);
  }

  /** Raising orders by one in a single pass would not do: two neighbours already collide. */
  lemma SinglePassCollides(rows: Table, p: Id, i: Id, j: Id)
    requires Active(rows, p, i) && Active(rows, p, j) && rows[j].order == rows[i].order + 1
    ensures exists done: set<Id> :: done <= ActiveIds(rows, p) && !OrdersUnique(Moved(rows, done, 1), p)
  {
    var one := Moved(rows, {i}, 1);
    assert Active(one, p, i) && Active(one, p, j) && one[i].order == one[j].order;
    assert {i} <= ActiveIds(rows, p) && !OrdersUnique(one, p);
  }

  // ------------------------------------------------------------ the outcome

  /** The processes the guard selects: active ones with no active 'applicants' stage. */
  function Lacking(rows: Table, processes: map<Id, bool>, applicants: Id): set<Id> {
    set p | p in processes && processes[p] && ByStage(rows, p, applicants, None) == {}
  }

  /** A process's orders raised by exactly one, and the initial stage in slot 1. */
  function Backfilled(rows: Table, p: Id, applicants: Id, id: Id): Table {
    Moved(rows, ActiveIds(rows, p), 1)[id := Stage(p, applicants, 1, true, false, true)]
  }

  predicate Ready(rows: Table, p: Id) {
    && OrdersUnique(rows, p) && NoCriticalGap(rows, p) && LeavesRoom(rows, p)
    && forall i | i in rows && Active(rows, p, i) :: rows[i].order >= 1
  }

  lemma UpThenDown(rows: Table, p: Id)
    ensures Moved(Moved(rows, ActiveIds(rows, p), UP), ActiveIds(rows, p), -DOWN) == Moved(rows, ActiveIds(rows, p), 1)
  {
  }

  lemma RaisedRow(rows: Table, p: Id, applicants: Id, id: Id, i: Id)
    requires id !in rows && i != id
    ensures var rows' := Backfilled(rows, p, applicants, id);
            && (forall q :: Active(rows', q, i) <==> Active(rows, q, i))
            && (i in rows ==> rows'[i] == if Active(rows, p, i) then rows[i].(order := rows[i].order + 1) else rows[i])
  {
  }

  lemma BackfilledUnique(rows: Table, p: Id, applicants: Id, id: Id)
    requires Ready(rows, p) && id !in rows
    ensures OrdersUnique(Backfilled(rows, p, applicants, id), p)
    ensures forall i :: IsFirst(Backfilled(rows, p, applicants, id), p, i) <==> i == id
  {
    var rows' := Backfilled(rows, p, applicants, id);
    forall i | i in rows' && Active(rows', p, i) && i != id
      ensures i in rows && Active(rows, p, i) && rows'[i].order == rows[i].order + 1 >= 2
    {
      RaisedRow(rows, p, applicants, id, i);
    }
    assert Active(rows', p, id);
  }

  /** Slot 1 is free for the insert, the index still holds, and the new stage comes first. */
  lemma BackfilledIsFirst(rows: Table, p: Id, applicants: Id, id: Id)
    requires Ready(rows, p) && id !in rows
    ensures var rows' := Backfilled(rows, p, applicants, id);
            && OrdersUnique(rows', p) && rows'[id] == Stage(p, applicants, 1, true, false, true)
            && (forall i :: IsFirst(rows', p, i) <==> i == id)
            && (forall i | i in rows && Active(rows, p, i) :: rows'[i] == rows[i].(order := rows[i].order + 1))
            && (forall q, i | q != p :: Active(rows', q, i) <==> Active(rows, q, i))
  {
    BackfilledUnique(rows, p, applicants, id);
    forall i | i != id { RaisedRow(rows, p, applicants, id, i); }
  }

  /** The table accepts every intermediate state of the UPDATE. */
  ghost predicate SafeShift(rows: Table, p: Id, delta: int) {
    forall done: set<Id> | done <= ActiveIds(rows, p) :: Accepts(Moved(rows, done, delta), p)
  }

  /** The table part-way through the UPDATE, with the rows of `todo` still to visit. */
  ghost predicate Partway(start: Table, rows: Table, p: Id, todo: set<Id>, delta: int) {
    todo <= ActiveIds(start, p) && rows == Moved(start, ActiveIds(start, p) - todo, delta)
  }

  lemma MoveOne(start: Table, rows: Table, p: Id, todo: set<Id>, i: Id, delta: int)
    requires i in todo && Partway(start, rows, p, todo, delta)
    ensures i in rows && Partway(start, rows[i := rows[i].(order := rows[i].order + delta)], p, todo - {i}, delta)
  {
  }

  lemma PartwayEnds(start: Table, rows: Table, p: Id, delta: int)
    ensures Partway(start, start, p, ActiveIds(start, p), delta)
    ensures Partway(start, rows, p, {}, delta) ==> rows == Moved(start, ActiveIds(start, p), delta)
  {
    assert ActiveIds(start, p) - {} == ActiveIds(start, p);
    assert Moved(start, {}, delta) == start;
  }

  lemma PartwayAccepted(start: Table, rows: Table, p: Id, todo: set<Id>, delta: int)
    requires SafeShift(start, p, delta) && Partway(start, rows, p, todo, delta)
    ensures Accepts(rows, p)
  {
    assert ActiveIds(start, p) - todo <= ActiveIds(start, p);
  }

  lemma BothShiftsSafe(rows: Table, p: Id)
    requires Ready(rows, p)
    ensures SafeShift(rows, p, UP)
    ensures var up := Moved(rows, ActiveIds(rows, p), UP);
            ActiveIds(up, p) == ActiveIds(rows, p) && SafeShift(up, p, -DOWN)
  {
    DanceIsSafeIff(rows, p);
    var up := Moved(rows, ActiveIds(rows, p), UP);
    assert ActiveIds(up, p) == ActiveIds(rows, p);
  }

  class Migration {
    var rows: Table
    var next: Id

    constructor (rows: Table, next: Id)
      ensures this.rows == rows && this.next == next
    {
      this.rows, this.next := rows, next;
    }

    /** One UPDATE: rows are visited in no particular order, and the table checks after each. */
    method Shift(p: Id, delta: int)
      requires SafeShift(rows, p, delta)
      modifies this`rows
      ensures rows == Moved(old(rows), ActiveIds(old(rows), p), delta)
    {
      ghost var start := rows;
      var table, todo := rows, ActiveIds(rows, p);
      PartwayEnds(start, start, p, delta);
      PartwayAccepted(start, table, p, todo, delta);
      while todo != {}
        invariant rows == table && Partway(start, table, p, todo, delta)
        invariant Accepts(table, p)
      {
        var i :| i in todo;
        MoveOne(start, table, p, todo, i, delta);
        table := table[i := table[i].(order := table[i].order + delta)];
        rows := table;
        todo := todo - {i};
        PartwayAccepted(start, table, p, todo, delta);
      }
      PartwayEnds(start, table, p, delta);
    }

    method BackfillProcess(p: Id, applicants: Id)
      requires Ready(rows, p) && next !in rows
      modifies this
      ensures rows == Backfilled(old(rows), p, applicants, old(next)) && next == old(next) + 1
    {
      ghost var start := rows;
      BothShiftsSafe(rows, p);
      Shift(p, UP);
      Shift(p, -DOWN);
      UpThenDown(start, p);
      rows := rows[next := Stage(p, applicants, 1, true, false, true)];
      next := next + 1;
    }

    /** The whole backfill. Afterwards no active process lacks the stage, so a second run selects
        nothing; processes that had it are untouched, the others start with their new row. */
    method Upgrade(processes: map<Id, bool>, applicants: Id)
      requires forall i | i in rows :: i < next
      requires forall p | p in Lacking(rows, processes, applicants) :: Ready(rows, p)
      modifies this
      ensures Lacking(rows, processes, applicants) == {}
      ensures forall p | p in Lacking(old(rows), processes, applicants) :: Raised(old(rows), rows, p, applicants)
      ensures forall i | i in old(rows) && old(rows)[i].process !in Lacking(old(rows), processes, applicants) ::
                i in rows && rows[i] == old(rows)[i]
      ensures Lacking(old(rows), processes, applicants) == {} ==> rows == old(rows) && next == old(next)
      ensures forall i | i in rows :: i < next
    {
      ghost var was, lacking := rows, Lacking(rows, processes, applicants);
      var todo := Lacking(rows, processes, applicants);
      while todo != {}
        invariant Progress(was, rows, next, todo, lacking, applicants)
        invariant lacking == {} ==> rows == was && next == old(next)
      {
        var p :| p in todo;
        ProgressStep(was, rows, next, todo, lacking, applicants, p);
        BackfillProcess(p, applicants);
        todo := todo - {p};
      }
      NothingLacking(was, rows, next, processes, applicants);
    }
  }

  /** Only rows of the processes in `done` have changed or appeared. */
  ghost predicate Confined(was: Table, now: Table, next: Id, done: set<Id>) {
    && (forall i | i in now :: i < next)
    && (forall i | i in was :: i in now && now[i].process == was[i].process)
    && (forall i | i in now && i !in was :: now[i].process in done)
    && (forall i | i in was && was[i].process !in done :: now[i] == was[i])
  }

  ghost predicate AllRaised(was: Table, now: Table, done: set<Id>, applicants: Id) {
    forall p | p in done :: Raised(was, now, p, applicants)
  }

  /** How far the backfill has come: the processes in `todo` are still as they were. */
  ghost predicate Progress(was: Table, now: Table, next: Id, todo: set<Id>, lacking: set<Id>, applicants: Id) {
    todo <= lacking && Confined(was, now, next, lacking - todo) && AllRaised(was, now, lacking - todo, applicants)
  }

  lemma ConfinedStep(was: Table, now: Table, next: Id, done: set<Id>, p: Id, applicants: Id)
    requires Confined(was, now, next, done) && next !in now
    ensures Confined(was, Backfilled(now, p, applicants, next), next + 1, done + {p})
  {
    BackfilledFrame(now, p, applicants, next);
  }

  lemma StillReady(was: Table, now: Table, next: Id, todo: set<Id>, lacking: set<Id>, applicants: Id, p: Id)
    requires Progress(was, now, next, todo, lacking, applicants) && p in todo && Ready(was, p)
    ensures Ready(now, p) && next !in now
  {
    SameProcess(was, now, p);
  }

  lemma OneMoreRaised(was: Table, now: Table, next: Id, done: set<Id>, applicants: Id, p: Id)
    requires AllRaised(was, now, done, applicants) && p !in done && next !in now
    requires Raised(was, Backfilled(now, p, applicants, next), p, applicants)
    ensures AllRaised(was, Backfilled(now, p, applicants, next), done + {p}, applicants)
  {
    BackfilledFrame(now, p, applicants, next);
    forall q | q in done ensures Raised(was, Backfilled(now, p, applicants, next), q, applicants) {
      RaisedStays(was, now, Backfilled(now, p, applicants, next), q, applicants);
    }
  }

  lemma NewRow(was: Table, now: Table, next: Id, todo: set<Id>, lacking: set<Id>, applicants: Id, p: Id)
    requires Progress(was, now, next, todo, lacking, applicants) && p in todo && Ready(now, p) && next !in now
    ensures Raised(was, Backfilled(now, p, applicants, next), p, applicants)
  {
    NewlyRaised(was, now, next, p, applicants);
  }

  lemma ProgressStep(was: Table, now: Table, next: Id, todo: set<Id>, lacking: set<Id>, applicants: Id, p: Id)
    requires Progress(was, now, next, todo, lacking, applicants) && p in todo && Ready(was, p)
    ensures Ready(now, p) && next !in now
    ensures Progress(was, Backfilled(now, p, applicants, next), next + 1, todo - {p}, lacking, applicants)
  {
    StillReady(was, now, next, todo, lacking, applicants, p);
    NewRow(was, now, next, todo, lacking, applicants, p);
    ConfinedStep(was, now, next, lacking - todo, p, applicants);
    OneMoreRaised(was, now, next, lacking - todo, applicants, p);
    assert lacking - (todo - {p}) == lacking - todo + {p};
  }

  lemma BackfilledFrame(rows: Table, p: Id, applicants: Id, id: Id)
    requires id !in rows
    ensures var rows' := Backfilled(rows, p, applicants, id);
            && rows'.Keys == rows.Keys + {id} && rows'[id].process == p
            && (forall i | i in rows ::
                  rows'[i].process == rows[i].process && (rows[i].process != p ==> rows'[i] == rows[i]))
            && (forall q, i | q != p :: Active(rows', q, i) <==> Active(rows, q, i))
  {
  }

  lemma NewlyRaised(was: Table, now: Table, next: Id, p: Id, applicants: Id)
    requires Ready(now, p) && next !in now
    requires forall i | i in was :: i in now && (was[i].process == p ==> now[i] == was[i])
    ensures Raised(was, Backfilled(now, p, applicants, next), p, applicants)
  {
    BackfilledIsFirst(now, p, applicants, next);
    assert IsFirst(Backfilled(now, p, applicants, next), p, next);
  }

  lemma NothingLacking(was: Table, now: Table, next: Id, processes: map<Id, bool>, applicants: Id)
    requires Progress(was, now, next, {}, Lacking(was, processes, applicants), applicants)
    ensures Lacking(now, processes, applicants) == {}
  {
    var lacking := Lacking(was, processes, applicants);
    forall p | p in processes && processes[p] ensures ByStage(now, p, applicants, None) != {} {
      if p in lacking {
        assert p in lacking - {};
        RaisedHasStage(was, now, p, applicants);
      } else {
        KeptStage(was, now, p, applicants);
      }
    }
  }

  lemma RaisedHasStage(was: Table, now: Table, p: Id, applicants: Id)
    requires Raised(was, now, p, applicants)
    ensures ByStage(now, p, applicants, None) != {}
  {
    var id :| id !in was && IsFirst(now, p, id) && now[id] == Stage(p, applicants, 1, true, false, true);
    assert id in ByStage(now, p, applicants, None);
  }

  lemma KeptStage(was: Table, now: Table, p: Id, applicants: Id)
    requires ByStage(was, p, applicants, None) != {}
    requires forall i | i in was && was[i].process == p :: i in now && now[i] == was[i]
    ensures ByStage(now, p, applicants, None) != {}
  {
    var i :| i in ByStage(was, p, applicants, None);
    assert i in ByStage(now, p, applicants, None);
  }

  /** What the migration did to one process. */
  ghost predicate Raised(was: Table, now: Table, p: Id, applicants: Id) {
    && OrdersUnique(now, p)
    && (forall i | i in was && Active(was, p, i) :: i in now && now[i] == was[i].(order := was[i].order + 1))
    && exists id :: id !in was && IsFirst(now, p, id) && now[id] == Stage(p, applicants, 1, true, false, true)
  }

  lemma SameProcess(was: Table, now: Table, p: Id)
    requires forall i | i in was :: i in now
    requires forall i | i in now && now[i].process == p :: i in was
    requires forall i | i in was && was[i].process == p :: now[i] == was[i]
    requires forall i | i in was && was[i].process != p :: now[i].process != p
    requires Ready(was, p)
    ensures Ready(now, p) && forall i :: Active(now, p, i) <==> Active(was, p, i)
  {
    assert forall i :: Active(now, p, i) <==> Active(was, p, i);
  }

  lemma RaisedStays(was: Table, before: Table, now: Table, q: Id, applicants: Id)
    requires Raised(was, before, q, applicants)
    requires forall i | i in before :: i in now && (before[i].process == q ==> now[i] == before[i])
    requires forall i :: Active(now, q, i) <==> Active(before, q, i)
    ensures Raised(was, now, q, applicants)
  {
    var id :| id !in was && IsFirst(before, q, id) && before[id] == Stage(q, applicants, 1, true, false, true);
    assert IsFirst(now, q, id);
  }
}
