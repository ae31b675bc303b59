/** The throttle on a Redis server, whose keys expire by themselves: how its verdicts relate to those of
    the in-memory store, and how many failures it lets through. */
module RedisThrottle {
  import opened Wrappers
  import opened Clock
  import opened LoginThrottle

  datatype RedisKey = FailKey(key: Key) | LockKey(key: Key)

  datatype Entry = Entry(value: nat, deadline: Option<nat>)

  type Store = map<RedisKey, Entry>

  /** The server's own commands; an entry is gone from its deadline on. */
  predicate Alive(st: Store, k: RedisKey, now: nat) {
    k in st && (st[k].deadline.Some? ==> now < st[k].deadline.value)
  }

  function Incr(st: Store, k: RedisKey, now: nat): Store {
    st[k := if Alive(st, k, now) then st[k].(value := st[k].value + 1) else Entry(1, None)]
  }

  function Expire(st: Store, k: RedisKey, seconds: nat, now: nat): Store {
    if Alive(st, k, now) then st[k := st[k].(deadline := Some(now + seconds * SECOND))] else st
  }

  function SetEx(st: Store, k: RedisKey, value: nat, seconds: nat, now: nat): Store {
    st[k := Entry(value, Some(now + seconds * SECOND))]
  }

  function Ttl(st: Store, k: RedisKey, now: nat): int {
    if !Alive(st, k, now) then -2
    else if st[k].deadline.None? then -1
    else (st[k].deadline.value - now) / SECOND
  }

  function RedisWait(st: Store, key: Key, now: nat): Option<nat> {
    var ttl := Ttl(st, LockKey(key), now);
    if ttl > 0 then Some(ttl) else None
  }

  function RedisAfterFailure(st: Store, key: Key, now: nat): Store {
    var counted := Incr(st, FailKey(key), now);
    var count := counted[FailKey(key)].value;
    var timed := if count == 1 then Expire(counted, FailKey(key), FAILURE_WINDOW_SECONDS, now) else counted;
    if count >= MAX_FAILED_ATTEMPTS
    then SetEx(timed, LockKey(key), 1, LOCKOUT_SECONDS, now) - {FailKey(key)}
    else timed
  }

  function RedisAfterReset(st: Store, key: Key): Store {
    st - {FailKey(key), LockKey(key)}
  }

  datatype Command = Ask | Fail | Clear

  datatype Call = Call(command: Command, key: Key, at: nat)

  function MemoryStep(m: Memory, c: Call): Memory {
    match c.command
    case Ask => AfterAsking(m, c.key, c.at)
    case Fail => AfterFailure(m, c.key, c.at)
    case Clear => AfterReset(m, c.key)
  }

  function RedisStep(st: Store, c: Call): Store {
    match c.command
    case Ask => st
    case Fail => RedisAfterFailure(st, c.key, c.at)
    case Clear => RedisAfterReset(st, c.key)
  }

  function MemoryRun(m: Memory, trace: seq<Call>): Memory
    decreases |trace|
  {
    if trace == [] then m else MemoryRun(MemoryStep(m, trace[0]), trace[1..])
  }

  function RedisRun(st: Store, trace: seq<Call>): Store
    decreases |trace|
  {
    if trace == [] then st else RedisRun(RedisStep(st, trace[0]), trace[1..])
  }

  /** Both stores hold the same live counters and the same live locks at `now`. */
  ghost predicate Agree(m: Memory, st: Store, now: nat) {
    forall k: Key :: AgreeOn(m, st, k, now)
  }

  ghost predicate AgreeOn(m: Memory, st: Store, k: Key, now: nat) {
    && (Alive(st, FailKey(k), now) <==> k in m.failures && now < m.failures[k].windowEnd)
    && (Alive(st, FailKey(k), now) ==>
          st[FailKey(k)] == Entry(m.failures[k].count, Some(m.failures[k].windowEnd)) && m.failures[k].count > 0)
    && (Alive(st, LockKey(k), now) <==> Locked(m, k, now))
    && (Locked(m, k, now) ==>
          st[LockKey(k)].deadline == Some(m.locks[k]))
  }

  ghost predicate CallsInOrder(trace: seq<Call>, from: nat) {
    && (forall i | 0 <= i < |trace| :: from <= trace[i].at)
    && (forall i, j | 0 <= i < j < |trace| :: trace[i].at <= trace[j].at)
  }

  lemma FailureAgrees(m: Memory, st: Store, key: Key, at: nat, now: nat)
    requires AgreeOn(m, st, key, now) && now <= at
    ensures AgreeOn(AfterFailure(m, key, at), RedisAfterFailure(st, key, at), key, at)
  {
  }

  lemma OthersAgree(m: Memory, st: Store, c: Call, k: Key, now: nat)
    requires AgreeOn(m, st, k, now) && now <= c.at && (k != c.key || c.command != Fail)
    ensures AgreeOn(MemoryStep(m, c), RedisStep(st, c), k, c.at)
  {
  }

  lemma StepsAgree(m: Memory, st: Store, c: Call, now: nat)
    requires Agree(m, st, now) && now <= c.at
    ensures Agree(MemoryStep(m, c), RedisStep(st, c), c.at)
  {
    forall k: Key ensures AgreeOn(MemoryStep(m, c), RedisStep(st, c), k, c.at) {
      assert AgreeOn(m, st, k, now);
      if k == c.key && c.command == Fail {
        FailureAgrees(m, st, k, c.at, now);
      } else {
        OthersAgree(m, st, c, k, now);
      }
    }
  }

  lemma {:induction false} RunsAgree(m: Memory, st: Store, trace: seq<Call>, from: nat, now: nat)
    requires Agree(m, st, from) && CallsInOrder(trace, from)
    requires from <= now && (trace != [] ==> trace[|trace| - 1].at <= now)
    ensures Agree(MemoryRun(m, trace), RedisRun(st, trace), now)
    decreases |trace|
  {
    if trace == [] {
      forall k: Key ensures AgreeOn(m, st, k, now) { assert AgreeOn(m, st, k, from); }
    } else {
      StepsAgree(m, st, trace[0], from);
      RunsAgree(MemoryStep(m, trace[0]), RedisStep(st, trace[0]), trace[1..], trace[0].at, now);
    }
  }

  /** How two reported waits are related: the server truncates what the memory store rounds up, so it
      reports one second less, and nothing at all in the last second of a lock. */
  predicate OneSecondLess(mine: Option<nat>, theirs: Option<nat>) {
    && (theirs.Some? <==> mine.Some? && mine.value >= 2)
    && (theirs.Some? ==> mine.value == theirs.value + 1)
  }

  lemma VerdictNow(m: Memory, st: Store, key: Key, now: nat)
    requires AgreeOn(m, st, key, now)
    ensures OneSecondLess(Wait(m, key, now), RedisWait(st, key, now))
  {
  }

  /** After the same calls, on any clock, the two throttles give the same verdict for every email up to
      the last second of a lock. */
  lemma VerdictsRelate(trace: seq<Call>, key: Key, now: nat)
    requires CallsInOrder(trace, 0) && (trace != [] ==> trace[|trace| - 1].at <= now)
    ensures OneSecondLess(Wait(MemoryRun(EMPTY, trace), key, now), RedisWait(RedisRun(map[], trace), key, now))
  {
    RunsAgree(EMPTY, map[], trace, 0, now);
    VerdictNow(MemoryRun(EMPTY, trace), RedisRun(map[], trace), key, now);
  }

  ghost predicate LocksOnSeconds(m: Memory) { forall k | k in m.locks :: m.locks[k] % SECOND == 0 }

  lemma {:induction false} WholeSecondLocks(m: Memory, trace: seq<Call>)
    requires LocksOnSeconds(m) && forall i | 0 <= i < |trace| :: trace[i].at % SECOND == 0
    ensures LocksOnSeconds(MemoryRun(m, trace))
    decreases |trace|
  {
    if trace != [] {
      WholeSecondLocks(MemoryStep(m, trace[0]), trace[1..]);
    }
  }

  lemma WholeSecondsLeft(m: Memory, key: Key, now: nat)
    requires LocksOnSeconds(m) && now % SECOND == 0 && Wait(m, key, now).Some?
    ensures Wait(m, key, now).value >= 2
  {
    assert m.locks[key] - now >= SECOND;
  }

  /** On an integer clock the verdicts are the same without exception. */
  lemma SameVerdict(trace: seq<Call>, key: Key, now: nat)
    requires CallsInOrder(trace, 0) && (trace != [] ==> trace[|trace| - 1].at <= now)
    requires now % SECOND == 0 && forall i | 0 <= i < |trace| :: trace[i].at % SECOND == 0
    ensures var mine, theirs := Wait(MemoryRun(EMPTY, trace), key, now),
                                RedisWait(RedisRun(map[], trace), key, now);
            && (mine.Some? <==> theirs.Some?)
            && (mine.Some? ==> mine.value == theirs.value + 1)
  {
    VerdictsRelate(trace, key, now);
    WholeSecondLocks(EMPTY, trace);
    if Wait(MemoryRun(EMPTY, trace), key, now).Some? { WholeSecondsLeft(MemoryRun(EMPTY, trace), key, now); }
  }

  // ------------------------------------------------------------ how many failures get through

  function RedisAfterAttempt(st: Store, a: Attempt): Store {
    if a.outcome == PasswordReset then RedisAfterReset(st, a.key)
    else if RedisWait(st, a.key, a.at).Some? then st else
    match a.outcome
    case Wrong => RedisAfterFailure(st, a.key, a.at)
    case Unverified => st
    case Right => RedisAfterReset(st, a.key)
    case PasswordReset => st
  }

  predicate RedisRecords(st: Store, a: Attempt) { a.outcome == Wrong && RedisWait(st, a.key, a.at).None? }

  function RedisPlay(trace: seq<Attempt>): Store {
    if trace == [] then map[] else RedisAfterAttempt(RedisPlay(trace[..|trace| - 1]), trace[|trace| - 1])
  }

  /** Instants at which a failure of `key` was recorded, oldest first. */
  function RedisRecorded(trace: seq<Attempt>, key: Key): seq<nat> {
    if trace == [] then [] else
      var past, last := trace[..|trace| - 1], trace[|trace| - 1];
      RedisRecorded(past, key) + if last.key == key && RedisRecords(RedisPlay(past), last) then [last.at] else []
  }

  /** A lock is over for the throttle up to one second before its key expires. */
  const SHORT := LOCKOUT_SECONDS - 1

  /** The spacing of windows that can be relied on: a second less than the lock in general, the whole
      lock when the attempt falls on a whole second. */
  predicate Spacing(span: nat, at: nat) { span == SHORT || (span == LOCKOUT_SECONDS && at % SECOND == 0) }

  predicate AllSpaced(trace: seq<Attempt>, span: nat) { forall i | 0 <= i < |trace| :: Spacing(span, trace[i].at) }

  /** The store agrees with the last mark of the chain. */
  ghost predicate RedisMatches(st: Store, key: Key, c: seq<Mark>, now: nat, span: nat) {
    if c == [] then FailKey(key) !in st && LockKey(key) !in st else
    var last := c[|c| - 1];
    && last.at <= now && Spacing(span, last.at)
    && if last.rank == MAX_FAILED_ATTEMPTS
       then FailKey(key) !in st && LockKey(key) in st
            && st[LockKey(key)].deadline == Some(last.at + LOCKOUT_SECONDS * SECOND)
       else FailKey(key) in st
            && st[FailKey(key)] == Entry(last.rank, Some(last.open + FAILURE_WINDOW_SECONDS * SECOND))
            && LockOver(st, key, last.at)
  }

  predicate LockOver(st: Store, key: Key, now: nat) {
    LockKey(key) in st ==> st[LockKey(key)].deadline.Some? && st[LockKey(key)].deadline.value < now + SECOND
  }

  lemma OverMeansNoWait(st: Store, key: Key, now: nat)
    requires LockKey(key) in st ==> st[LockKey(key)].deadline.Some?
    ensures RedisWait(st, key, now).None? <==> LockOver(st, key, now)
  {
  }

  /** The mark of a failure recorded now. */
  function NextMark(st: Store, key: Key, c: seq<Mark>, now: nat): Mark {
    if c != [] && Alive(st, FailKey(key), now)
    then Mark(now, c[|c| - 1].open, c[|c| - 1].rank + 1) else Mark(now, now, 1)
  }

  lemma NextMarkFollows(st: Store, key: Key, c: seq<Mark>, before: nat, now: nat, span: nat)
    requires c != [] && Chain(c, span) && RedisMatches(st, key, c, before, span) && before <= now
    requires RedisWait(st, key, now).None? && Spacing(span, now)
    ensures Follows(c[|c| - 1], NextMark(st, key, c, now), span)
    ensures NextMark(st, key, c, now).rank <= MAX_FAILED_ATTEMPTS
  {
    OverMeansNoWait(st, key, now);
  }

  lemma NextMarkMatches(st: Store, key: Key, c: seq<Mark>, before: nat, now: nat, span: nat)
    requires Chain(c, span) && RedisMatches(st, key, c, before, span) && before <= now
    requires RedisWait(st, key, now).None? && Spacing(span, now)
    ensures RedisMatches(RedisAfterFailure(st, key, now), key, c + [NextMark(st, key, c, now)], now, span)
  {
    OverMeansNoWait(st, key, now);
  }

  lemma ChainOneMore(c: seq<Mark>, m: Mark, span: nat)
    requires Chain(c, span) && 1 <= m.rank <= MAX_FAILED_ATTEMPTS && m.open <= m.at
    requires (m.rank == 1 ==> m.open == m.at) && (if c == [] then m.rank == 1 else Follows(c[|c| - 1], m, span))
    ensures Chain(c + [m], span)
  {
    forall i | 0 <= i < |c + [m]| - 1 ensures FollowsAt(c + [m], i, span) {
      if i < |c| - 1 { assert FollowsAt(c, i, span); }
    }
  }

  lemma RedisChainGrows(st: Store, key: Key, c: seq<Mark>, before: nat, now: nat, span: nat)
    requires Chain(c, span) && RedisMatches(st, key, c, before, span) && before <= now
    requires RedisWait(st, key, now).None? && Spacing(span, now)
    ensures Chain(c + [NextMark(st, key, c, now)], span)
    ensures RedisMatches(RedisAfterFailure(st, key, now), key, c + [NextMark(st, key, c, now)], now, span)
  {
    if c != [] { NextMarkFollows(st, key, c, before, now, span); }
    ChainOneMore(c, NextMark(st, key, c, now), span);
    NextMarkMatches(st, key, c, before, now, span);
  }

  lemma RedisMatchesStays(st: Store, key: Key, c: seq<Mark>, before: nat, a: Attempt, span: nat)
    requires RedisMatches(st, key, c, before, span) && before <= a.at
    requires a.key == key ==> a.outcome == Unverified || RedisWait(st, key, a.at).Some?
    requires a.key == key ==> a.outcome == Wrong || a.outcome == Unverified
    ensures RedisMatches(RedisAfterAttempt(st, a), key, c, a.at, span)
  {
  }

  ghost predicate RedisExplains(c: seq<Mark>, times: seq<nat>, st: Store, key: Key, now: nat, span: nat) {
    Over(c, times, span) && RedisMatches(st, key, c, now, span)
  }

  lemma RedisExplainsNext(c: seq<Mark>, times: seq<nat>, st: Store, key: Key, before: nat, a: Attempt, span: nat)
    returns (c': seq<Mark>)
    requires RedisExplains(c, times, st, key, before, span) && before <= a.at && Spacing(span, a.at)
    requires a.key == key ==> a.outcome == Wrong || a.outcome == Unverified
    ensures RedisExplains(c', times + if a.key == key && RedisRecords(st, a) then [a.at] else [],
                          RedisAfterAttempt(st, a), key, a.at, span)
  {
    if a.key == key && RedisRecords(st, a) {
      RedisChainGrows(st, key, c, before, a.at, span);
      c' := c + [NextMark(st, key, c, a.at)];
    } else {
      RedisMatchesStays(st, key, c, before, a, span);
      c' := c;
    }
  }

  lemma {:induction false} RedisRecordedAsChain(trace: seq<Attempt>, key: Key, span: nat) returns (c: seq<Mark>)
    requires InOrder(trace) && NeverClears(trace, key) && AllSpaced(trace, span)
    ensures RedisExplains(c, RedisRecorded(trace, key), RedisPlay(trace), key,
                          if trace == [] then 0 else trace[|trace| - 1].at, span)
  {
    if trace == [] {
      c := [];
    } else {
      var past, last := trace[..|trace| - 1], trace[|trace| - 1];
      var c0 := RedisRecordedAsChain(past, key, span);
      c := RedisExplainsNext(c0, RedisRecorded(past, key), RedisPlay(past), key,
                             if past == [] then 0 else past[|past| - 1].at, last, span);
    }
  }

  lemma RedisBounds(trace: seq<Attempt>, key: Key, seconds: nat, start: nat, span: nat)
    requires InOrder(trace) && NeverClears(trace, key) && AllSpaced(trace, span) && span > 0
    ensures AtMostFivePer(RedisRecorded(trace, key), seconds, span)
    ensures AtMostEightIn(RedisRecorded(trace, key), start, span)
  {
    var c := RedisRecordedAsChain(trace, key, span);
    ChainOfSorted(c, RedisRecorded(trace, key), span);
    FewFromFirst(c, RedisRecorded(trace, key), seconds, span);
    FewInWindow(c, RedisRecorded(trace, key), start, span);
  }

  predicate OnSeconds(trace: seq<Attempt>) { forall i | 0 <= i < |trace| :: trace[i].at % SECOND == 0 }

  /** The server's bounds: `5 * (T / 899 + 1)` failures from the first and eight in any half-open 899
      seconds on every clock, and the in-memory bounds with 900 when attempts fall on whole seconds. */
  lemma RedisFailures(trace: seq<Attempt>, key: Key, seconds: nat, start: nat)
    requires InOrder(trace) && NeverClears(trace, key)
    ensures var r := RedisRecorded(trace, key);
            && AtMostFivePer(r, seconds, SHORT) && AtMostEightIn(r, start, SHORT)
            && (OnSeconds(trace) ==>
                  AtMostFivePer(r, seconds, LOCKOUT_SECONDS) && AtMostEightIn(r, start, LOCKOUT_SECONDS))
  {
    RedisBounds(trace, key, seconds, start, SHORT);
    if OnSeconds(trace) { RedisBounds(trace, key, seconds, start, LOCKOUT_SECONDS); }
  }

  // ------------------------------------------------------------ off the whole second

  /** The email's failures are counted up to `count` in a window, and nothing locks. */
  predicate RedisCounting(st: Store, key: Key, count: nat, windowEnd: nat, now: nat) {
    FailKey(key) in st && st[FailKey(key)] == Entry(count, Some(windowEnd)) && LockOver(st, key, now)
  }

  predicate RedisLocked(st: Store, key: Key, at: nat) {
    FailKey(key) !in st && LockKey(key) in st && st[LockKey(key)].deadline == Some(at + LOCKOUT_SECONDS * SECOND)
  }

  lemma RedisExtended(trace: seq<Attempt>, a: Attempt)
    ensures RedisPlay(trace + [a]) == RedisAfterAttempt(RedisPlay(trace), a)
    ensures RedisRecorded(trace + [a], a.key) ==
            RedisRecorded(trace, a.key) + if RedisRecords(RedisPlay(trace), a) then [a.at] else []
  {
    assert (trace + [a])[..|trace|] == trace;
  }

  lemma RedisFailOnce(trace: seq<Attempt>, key: Key, at: nat) returns (more: seq<Attempt>)
    requires EndsBy(trace, key, at) && LockOver(RedisPlay(trace), key, at)
    ensures EndsBy(more, key, at) && RedisPlay(more) == RedisAfterFailure(RedisPlay(trace), key, at)
    ensures RedisRecorded(more, key) == RedisRecorded(trace, key) + [at]
  {
    var a := Attempt(key, at, Wrong);
    OverMeansNoWait(RedisPlay(trace), key, at);
    EndsByMore(trace, a);
    RedisExtended(trace, a);
    more := trace + [a];
  }

  lemma {:induction false} RedisFill(trace: seq<Attempt>, key: Key, at: nat, n: nat, windowEnd: nat)
    returns (more: seq<Attempt>)
    requires EndsBy(trace, key, at) && at < windowEnd && 1 <= n <= 4
    requires RedisCounting(RedisPlay(trace), key, MAX_FAILED_ATTEMPTS - n, windowEnd, at)
    ensures EndsBy(more, key, at) && RedisLocked(RedisPlay(more), key, at)
    ensures RedisRecorded(more, key) == RedisRecorded(trace, key) + seq(n, _ => at)
    decreases n
  {
    var one := RedisFailOnce(trace, key, at);
    more := one;
    if n > 1 {
      more := RedisFill(one, key, at, n - 1, windowEnd);
    }
    assert seq(n, _ => at) == [at] + seq(n - 1, _ => at);
  }

  lemma RedisBurst(trace: seq<Attempt>, key: Key, at: nat) returns (more: seq<Attempt>)
    requires EndsBy(trace, key, at) && FailKey(key) !in RedisPlay(trace) && LockOver(RedisPlay(trace), key, at)
    ensures EndsBy(more, key, at) && RedisLocked(RedisPlay(more), key, at)
    ensures RedisRecorded(more, key) == RedisRecorded(trace, key) + seq(5, _ => at)
  {
    var one := RedisFailOnce(trace, key, at);
    more := RedisFill(one, key, at, 4, at + FAILURE_WINDOW_SECONDS * SECOND);
    assert seq(5, _ => at) == [at] + seq(4, _ => at);
  }

  /** Off the whole second the 900-second bound fails on the server: five failures at 0 and five at
      899.5 s are all recorded. */
  lemma TenInFifteenMinutes(key: Key) returns (trace: seq<Attempt>)
    ensures InOrder(trace) && NeverClears(trace, key)
    ensures CountIn(RedisRecorded(trace, key), 0, LOCKOUT_SECONDS * SECOND) == 10
  {
    var late := LOCKOUT_SECONDS * SECOND - SECOND / 2;
    var five := RedisBurst([], key, 0);
    trace := RedisBurst(five, key, late);
    CountAllIn(RedisRecorded(trace, key), 0, LOCKOUT_SECONDS * SECOND);
  }
}
