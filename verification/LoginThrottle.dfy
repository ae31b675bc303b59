/** The per-account login throttle: a fixed-window failure counter plus a lock, kept in process
    memory with lazy clean-up. A key is the normalised email; its hash only renames it. */
module LoginThrottle {
  import opened Wrappers
  import opened Clock

  const MAX_FAILED_ATTEMPTS: nat := 5
  const FAILURE_WINDOW_SECONDS: nat := 15 * 60
  const LOCKOUT_SECONDS: nat := 15 * 60

  type Key = string

  datatype Counter = Counter(count: nat, windowEnd: nat)

  datatype Memory = Memory(failures: map<Key, Counter>, locks: map<Key, nat>)

  const EMPTY := Memory(map[], map[])

  predicate Locked(m: Memory, key: Key, now: nat) {
    key in m.locks && now < m.locks[key]
  }

  /** Seconds left on the lock, rounded up past the next whole second. */
  function Wait(m: Memory, key: Key, now: nat): Option<nat> {
    if Locked(m, key, now) then Some((m.locks[key] - now) / SECOND + 1) else None
  }

  /** Asking drops a lock that has run out and changes nothing else. */
  function AfterAsking(m: Memory, key: Key, now: nat): Memory {
    if key in m.locks && m.locks[key] <= now then m.(locks := m.locks - {key}) else m
  }

  /** The counter a failure at `now` produces: a fresh window, or one more in the open one. */
  function NextCounter(m: Memory, key: Key, now: nat): Counter {
    if key in m.failures && now < m.failures[key].windowEnd
    then m.failures[key].(count := m.failures[key].count + 1)
    else Counter(1, now + FAILURE_WINDOW_SECONDS * SECOND)
  }

  function AfterFailure(m: Memory, key: Key, now: nat): Memory {
    var c := NextCounter(m, key, now);
    if c.count >= MAX_FAILED_ATTEMPTS
    then Memory(m.failures - {key}, m.locks[key := now + LOCKOUT_SECONDS * SECOND])
    else m.(failures := m.failures[key := c])
  }

  function AfterReset(m: Memory, key: Key): Memory {
    Memory(m.failures - {key}, m.locks - {key})
  }

  class InMemoryLoginThrottle {
    var failures: map<Key, Counter>
    var locks: map<Key, nat>

    ghost function View(): Memory
      reads this
    {
      Memory(failures, locks)
    }

    constructor ()
      ensures View() == EMPTY
    {
      failures, locks := map[], map[];
    }

    method LockedFor(key: Key, now: nat) returns (wait: Option<nat>)
      modifies this
      ensures wait == Wait(old(View()), key, now)
      ensures View() == AfterAsking(old(View()), key, now)
    {
      if key !in locks {
        return None;
      }
      var remaining := locks[key] - now;
      if remaining <= 0 {
        locks := locks - {key};
        return None;
      }
      return Some(remaining / SECOND + 1);
    }

    method RecordFailure(key: Key, now: nat)
      modifies this
      ensures View() == AfterFailure(old(View()), key, now)
    {
      var count, windowEnd := 0, 0;
      if key in failures {
        count, windowEnd := failures[key].count, failures[key].windowEnd;
      }
      if now >= windowEnd {
        count, windowEnd := 0, now + FAILURE_WINDOW_SECONDS * SECOND;
      }
      count := count + 1;
      failures := failures[key := Counter(count, windowEnd)];
      if count >= MAX_FAILED_ATTEMPTS {
        locks := locks[key := now + LOCKOUT_SECONDS * SECOND];
        failures := failures - {key};
        assert failures == old(failures) - {key};
      }
    }

    /** The email is open at once and its next failure starts a new count; others keep their verdicts. */
    method Reset(key: Key)
      modifies this
      ensures View() == AfterReset(old(View()), key)
      ensures forall t :: Wait(View(), key, t).None? && NextCounter(View(), key, t).count == 1
      ensures forall k, t | k != key :: Wait(View(), k, t) == Wait(old(View()), k, t)
                                        && NextCounter(View(), k, t) == NextCounter(old(View()), k, t)
    {
      failures := failures - {key};
      locks := locks - {key};
    }
  }

  // ------------------------------------------------------------ how many failures get through

  /** What the service tells the throttle: a login whose password is wrong, right but on an unverified
      account, or right; or a completed password reset. */
  datatype Outcome = Wrong | Unverified | Right | PasswordReset

  datatype Attempt = Attempt(key: Key, at: nat, outcome: Outcome)

  /** A login asks for the lock first. Only wrong passwords count; only success and a reset clear. */
  function AfterAttempt(m: Memory, a: Attempt): Memory {
    if a.outcome == PasswordReset then AfterReset(m, a.key) else
    var asked := AfterAsking(m, a.key, a.at);
    if Locked(m, a.key, a.at) then asked else
    match a.outcome
    case Wrong => AfterFailure(asked, a.key, a.at)
    case Unverified => asked
    case Right => AfterReset(asked, a.key)
    case PasswordReset => asked
  }

  predicate Records(m: Memory, a: Attempt) { a.outcome == Wrong && !Locked(m, a.key, a.at) }

  function Play(trace: seq<Attempt>): Memory {
    if trace == [] then EMPTY else AfterAttempt(Play(trace[..|trace| - 1]), trace[|trace| - 1])
  }

  /** Instants at which a failure of `key` was recorded, oldest first. */
  function Recorded(trace: seq<Attempt>, key: Key): seq<nat> {
    if trace == [] then [] else
      var past, last := trace[..|trace| - 1], trace[|trace| - 1];
      Recorded(past, key) + if last.key == key && Records(Play(past), last) then [last.at] else []
  }

  predicate InOrder(trace: seq<Attempt>) {
    forall i, j | 0 <= i < j < |trace| :: trace[i].at <= trace[j].at
  }

  predicate NeverClears(trace: seq<Attempt>, key: Key) {
    forall i | 0 <= i < |trace| && trace[i].key == key :: trace[i].outcome == Wrong || trace[i].outcome == Unverified
  }

  /** How many of `times` fall in the half-open interval from `lo` to `hi`. */
  function CountIn(times: seq<nat>, lo: nat, hi: nat): nat {
    if times == [] then 0 else
      var last := times[|times| - 1];
      CountIn(times[..|times| - 1], lo, hi) + if lo <= last < hi then 1 else 0
  }

  /** A recorded failure together with the opening instant of its counting window and its
      rank in that window. */
  datatype Mark = Mark(at: nat, open: nat, rank: nat)

  /** Windows open at least `span` seconds apart, and a full one blocks the next for `span` seconds
      after its last failure. */
  ghost predicate Follows(a: Mark, b: Mark, span: nat) {
    && a.at <= b.at
    && if b.rank == 1
       then b.open == b.at && a.open + span * SECOND <= b.at
            && (a.rank == MAX_FAILED_ATTEMPTS ==> a.at + span * SECOND <= b.at)
       else b.open == a.open && b.rank == a.rank + 1
  }

  ghost predicate FollowsAt(c: seq<Mark>, i: nat, span: nat)
    requires i + 1 < |c|
  {
    Follows(c[i], c[i + 1], span)
  }

  ghost predicate Chain(c: seq<Mark>, span: nat) {
    && (forall i | 0 <= i < |c| :: 1 <= c[i].rank <= MAX_FAILED_ATTEMPTS && c[i].open <= c[i].at)
    && (forall i | 0 <= i < |c| && c[i].rank == 1 :: c[i].open == c[i].at)
    && (c != [] ==> c[0].rank == 1)
    && (forall i | 0 <= i < |c| - 1 :: FollowsAt(c, i, span))
  }

  /** The store agrees with the last mark of the chain. */
  ghost predicate Matches(m: Memory, key: Key, c: seq<Mark>, now: nat) {
    if c == [] then key !in m.failures && key !in m.locks else
    var last := c[|c| - 1];
    && last.at <= now
    && if last.rank == MAX_FAILED_ATTEMPTS
       then && key !in m.failures
            && if key in m.locks then m.locks[key] == last.at + LOCKOUT_SECONDS * SECOND
               else last.at + LOCKOUT_SECONDS * SECOND <= now
       else && key in m.failures && key !in m.locks
            && m.failures[key] == Counter(last.rank, last.open + FAILURE_WINDOW_SECONDS * SECOND)
  }

  /** The chain explains a list of recorded instants and ends where the store stands. */
  ghost predicate Explains(c: seq<Mark>, times: seq<nat>, m: Memory, key: Key, now: nat) {
    && Chain(c, FAILURE_WINDOW_SECONDS) && |c| == |times| && (forall i | 0 <= i < |c| :: c[i].at == times[i])
    && Matches(m, key, c, now)
  }

  lemma ExplainsNext(c: seq<Mark>, times: seq<nat>, m: Memory, key: Key, before: nat, a: Attempt)
    returns (c': seq<Mark>)
    requires Explains(c, times, m, key, before) && before <= a.at
    requires a.key == key ==> a.outcome == Wrong || a.outcome == Unverified
    ensures Explains(c', times + if a.key == key && Records(m, a) then [a.at] else [], AfterAttempt(m, a), key, a.at)
  {
    if a.key == key && Records(m, a) {
      c' := ChainGrows(m, key, c, before, a.at);
    } else {
      c' := c;
      MatchesStays(m, key, c, before, a);
    }
  }

  lemma {:induction false} RecordedAsChain(trace: seq<Attempt>, key: Key) returns (c: seq<Mark>)
    requires InOrder(trace) && NeverClears(trace, key)
    ensures Explains(c, Recorded(trace, key), Play(trace), key, if trace == [] then 0 else trace[|trace| - 1].at)
  {
    if trace == [] {
      c := [];
    } else {
      var past, last := trace[..|trace| - 1], trace[|trace| - 1];
      var c0 := RecordedAsChain(past, key);
      c := ExplainsNext(c0, Recorded(past, key), Play(past), key, if past == [] then 0 else past[|past| - 1].at, last);
    }
  }

  lemma ChainGrows(m: Memory, key: Key, c: seq<Mark>, before: nat, now: nat) returns (c': seq<Mark>)
    requires Chain(c, FAILURE_WINDOW_SECONDS) && Matches(m, key, c, before) && before <= now && !Locked(m, key, now)
    ensures Chain(c', FAILURE_WINDOW_SECONDS) && |c'| == |c| + 1 && c'[..|c|] == c && c'[|c|].at == now
    ensures Matches(AfterFailure(AfterAsking(m, key, now), key, now), key, c', now)
  {
    var next := NextCounter(m, key, now);
    assert NextCounter(AfterAsking(m, key, now), key, now) == next;
    c' := c + [Mark(now, if next.count == 1 then now else c[|c| - 1].open, next.count)];
    forall i | 0 <= i < |c'| - 1 ensures FollowsAt(c', i, FAILURE_WINDOW_SECONDS) {
      if i < |c| - 1 { assert FollowsAt(c, i, FAILURE_WINDOW_SECONDS); }
    }
  }

  lemma MatchesStays(m: Memory, key: Key, c: seq<Mark>, before: nat, call: Attempt)
    requires Matches(m, key, c, before) && before <= call.at
    requires call.key != key || Locked(m, key, call.at) || call.outcome == Unverified
    requires call.key == key ==> call.outcome == Wrong || call.outcome == Unverified
    ensures Matches(AfterAttempt(m, call), key, c, call.at)
  {
  }

  /** From any mark, the next window opens within the ranks its own window has left. */
  lemma {:induction false} NextOpening(c: seq<Mark>, i: nat, span: nat) returns (m: nat)
    requires Chain(c, span) && i < |c|
    requires i + MAX_FAILED_ATTEMPTS + 1 - c[i].rank < |c|
    ensures i < m <= i + MAX_FAILED_ATTEMPTS + 1 - c[i].rank
    ensures c[m].rank == 1 && c[i].at <= c[m].at && c[i].open + span * SECOND <= c[m].at
    ensures c[i].at + span * SECOND <= c[m].at || m <= i + MAX_FAILED_ATTEMPTS - c[i].rank
    decreases |c| - i
  {
    assert FollowsAt(c, i, span);
    if c[i + 1].rank == 1 {
      m := i + 1;
    } else {
      m := NextOpening(c, i + 1, span);
    }
  }

  lemma {:induction false} ChainSorted(c: seq<Mark>, i: nat, j: nat, span: nat)
    requires Chain(c, span) && i <= j < |c|
    ensures c[i].at <= c[j].at
    decreases j - i
  {
    if i < j {
      assert FollowsAt(c, j - 1, span);
      ChainSorted(c, i, j - 1, span);
    }
  }

  /** Nine failures never fit in less than `span` seconds. */
  lemma NineSpanAWindow(c: seq<Mark>, i: nat, span: nat)
    requires Chain(c, span) && i + 8 < |c|
    ensures c[i].at + span * SECOND <= c[i + 8].at
  {
    var m := NextOpening(c, i, span);
    ChainSorted(c, m, i + 8, span);
    if c[i].rank > 1 && c[i].at + span * SECOND > c[m].at {
      var n := NextOpening(c, m, span);
      ChainSorted(c, n, i + 8, span);
    }
  }

  /** The j-th failure sits at least `j / 5` spans after the first. */
  lemma {:induction false} WindowsPassed(c: seq<Mark>, j: nat, span: nat) returns (q: nat)
    requires Chain(c, span) && j < |c|
    ensures j + 1 <= MAX_FAILED_ATTEMPTS * q + c[j].rank
    ensures c[0].at + q * (span * SECOND) <= c[j].open <= c[j].at
  {
    if j == 0 {
      q := 0;
    } else {
      var q0 := WindowsPassed(c, j - 1, span);
      assert FollowsAt(c, j - 1, span);
      q := q0;
      if c[j].rank == 1 {
        q := q0 + 1;
        assert q * (span * SECOND) == q0 * (span * SECOND) + span * SECOND;
      }
    }
  }

  predicate Sorted(times: seq<nat>) { forall i, j | 0 <= i < j < |times| :: times[i] <= times[j] }

  /** The chain lies over a list of recorded instants. */
  ghost predicate Over(c: seq<Mark>, times: seq<nat>, span: nat) {
    Chain(c, span) && |c| == |times| && forall i | 0 <= i < |c| :: c[i].at == times[i]
  }

  lemma ChainOfSorted(c: seq<Mark>, times: seq<nat>, span: nat)
    requires Chain(c, span) && |c| == |times| && forall i | 0 <= i < |c| :: c[i].at == times[i]
    ensures Sorted(times)
  {
    forall i, j | 0 <= i < j < |times| ensures times[i] <= times[j] { ChainSorted(c, i, j, span); }
  }

  /** In a sorted list, the entries of an interval are consecutive. */
  lemma {:induction false} Consecutive(times: seq<nat>, lo: nat, hi: nat) returns (first: nat, last: nat)
    requires Sorted(times)
    requires CountIn(times, lo, hi) > 0
    ensures first <= last < |times| && last - first + 1 == CountIn(times, lo, hi)
    ensures lo <= times[first] && times[last] < hi
    ensures last + 1 < |times| ==> times[last + 1] >= hi
  {
    var past := times[..|times| - 1];
    if CountIn(past, lo, hi) > 0 {
      first, last := Consecutive(past, lo, hi);
      if lo <= times[|times| - 1] < hi {
        last := |times| - 1;
      }
    } else {
      first, last := |times| - 1, |times| - 1;
    }
  }

  /** The bound counted from the first entry, over `seconds` seconds with both ends included. */
  predicate AtMostFivePer(times: seq<nat>, seconds: nat, span: nat)
    requires span > 0
  {
    times == [] ||
    CountIn(times, times[0], times[0] + seconds * SECOND + 1) <= MAX_FAILED_ATTEMPTS * (seconds / span + 1)
  }

  lemma FewFromFirst(c: seq<Mark>, times: seq<nat>, seconds: nat, span: nat)
    requires Over(c, times, span) && Sorted(times) && span > 0
    ensures AtMostFivePer(times, seconds, span)
  {
    if times != [] && CountIn(times, times[0], times[0] + seconds * SECOND + 1) > 0 {
      var first, last := Consecutive(times, times[0], times[0] + seconds * SECOND + 1);
      var q := WindowsPassed(c, last, span);
      RankWithin(q, c[last].rank, seconds, span);
    }
  }

  lemma RankWithin(q: nat, rank: nat, seconds: nat, span: nat)
    requires span > 0 && q * (span * SECOND) <= seconds * SECOND && rank <= MAX_FAILED_ATTEMPTS
    ensures MAX_FAILED_ATTEMPTS * q + rank <= MAX_FAILED_ATTEMPTS * (seconds / span + 1)
  {
    assert (q * span) * SECOND == q * (span * SECOND);
    if seconds / span < q { MoreSpans(seconds / span, q, span); }
  }

  lemma MoreSpans(a: nat, b: nat, span: nat)
    requires a < b
    ensures a * span + span <= b * span
  {
    assert b * span == (a + 1) * span + (b - a - 1) * span;
  }

  /** At most `5 * (T / 900 + 1)` failures are recorded in the T seconds from the first, over every
      trace of attempts on any emails in which nothing clears this email's counter. */
  lemma FailuresFromFirst(trace: seq<Attempt>, key: Key, seconds: nat)
    requires InOrder(trace) && NeverClears(trace, key)
    ensures AtMostFivePer(Recorded(trace, key), seconds, FAILURE_WINDOW_SECONDS)
  {
    var c := RecordedAsChain(trace, key);
    ChainOfSorted(c, Recorded(trace, key), FAILURE_WINDOW_SECONDS);
    FewFromFirst(c, Recorded(trace, key), seconds, FAILURE_WINDOW_SECONDS);
  }

  predicate AtMostEightIn(times: seq<nat>, start: nat, span: nat) {
    CountIn(times, start, start + span * SECOND) <= 8
  }

  lemma FewInWindow(c: seq<Mark>, times: seq<nat>, start: nat, span: nat)
    requires Over(c, times, span) && Sorted(times)
    ensures AtMostEightIn(times, start, span)
  {
    var hi := start + span * SECOND;
    if CountIn(times, start, hi) > 8 {
      var first, last := Consecutive(times, start, hi);
      NineSpanAWindow(c, first, span);
    }
  }

  /** No half-open fifteen-minute interval, wherever it starts, holds more than eight. */
  lemma FailuresInAnyWindow(trace: seq<Attempt>, key: Key, start: nat)
    requires InOrder(trace) && NeverClears(trace, key)
    ensures AtMostEightIn(Recorded(trace, key), start, FAILURE_WINDOW_SECONDS)
  {
    var c := RecordedAsChain(trace, key);
    ChainOfSorted(c, Recorded(trace, key), FAILURE_WINDOW_SECONDS);
    FewInWindow(c, Recorded(trace, key), start, FAILURE_WINDOW_SECONDS);
  }

  // ------------------------------------------------------------ both bounds are reached

  lemma EndsByMore(trace: seq<Attempt>, a: Attempt)
    requires EndsBy(trace, a.key, a.at) && (a.outcome == Wrong || a.outcome == Unverified)
    ensures EndsBy(trace + [a], a.key, a.at)
  {
  }

  /** One more attempt at the end of a trace. */
  lemma Extended(trace: seq<Attempt>, a: Attempt)
    ensures Play(trace + [a]) == AfterAttempt(Play(trace), a)
    ensures Recorded(trace + [a], a.key) == Recorded(trace, a.key) + if Records(Play(trace), a) then [a.at] else []
  {
    assert (trace + [a])[..|trace|] == trace;
  }

  /** One more wrong password at `at`, while no lock is on. */
  lemma FailOnce(trace: seq<Attempt>, key: Key, at: nat) returns (more: seq<Attempt>)
    requires !Locked(Play(trace), key, at) && EndsBy(trace, key, at)
    ensures EndsBy(more, key, at) && |more| == |trace| + 1
    ensures Recorded(more, key) == Recorded(trace, key) + [at]
    ensures Play(more) == AfterFailure(AfterAsking(Play(trace), key, at), key, at)
  {
    var a := Attempt(key, at, Wrong);
    EndsByMore(trace, a);
    Extended(trace, a);
    more := trace + [a];
  }

  /** A trace of failures of one email, none later than `at`. */
  predicate EndsBy(trace: seq<Attempt>, key: Key, at: nat) {
    && InOrder(trace) && NeverClears(trace, key)
    && forall i | 0 <= i < |trace| :: trace[i].at <= at
  }

  /** The counter of the email reads `count` and no lock is on. */
  predicate Counting(m: Memory, key: Key, count: nat, windowEnd: nat) {
    key in m.failures && m.failures[key] == Counter(count, windowEnd) && key !in m.locks
  }

  /** `n` failures at one instant inside an open window; the fifth locks. */
  lemma {:induction false} FailInWindow(trace: seq<Attempt>, key: Key, at: nat, count: nat, windowEnd: nat, n: nat)
    returns (more: seq<Attempt>)
    requires EndsBy(trace, key, at) && at < windowEnd && Counting(Play(trace), key, count, windowEnd)
    requires count + n <= MAX_FAILED_ATTEMPTS && count < MAX_FAILED_ATTEMPTS
    ensures EndsBy(more, key, at) && Recorded(more, key) == Recorded(trace, key) + seq(n, _ => at)
    ensures count + n < MAX_FAILED_ATTEMPTS ==> Counting(Play(more), key, count + n, windowEnd)
    ensures count + n == MAX_FAILED_ATTEMPTS ==> JustLocked(Play(more), key, at)
  {
    more := trace;
    if n > 0 {
      var init := FailInWindow(trace, key, at, count, windowEnd, n - 1);
      more := FailOnce(init, key, at);
      assert seq(n, _ => at) == seq(n - 1, _ => at) + [at];
    }
  }

  predicate JustLocked(m: Memory, key: Key, at: nat) {
    key !in m.failures && key in m.locks && m.locks[key] == at + LOCKOUT_SECONDS * SECOND
  }

  /** Five failures at once, from a state in which neither a lock nor a window is left. */
  lemma Burst(trace: seq<Attempt>, key: Key, at: nat) returns (more: seq<Attempt>)
    requires EndsBy(trace, key, at) && !Locked(Play(trace), key, at)
    requires key in Play(trace).failures ==> Play(trace).failures[key].windowEnd <= at
    ensures EndsBy(more, key, at) && Recorded(more, key) == Recorded(trace, key) + seq(5, _ => at)
    ensures JustLocked(Play(more), key, at)
  {
    var one := FailOnce(trace, key, at);
    more := FailInWindow(one, key, at, 1, at + FAILURE_WINDOW_SECONDS * SECOND, 4);
    assert seq(5, _ => at) == [at] + seq(4, _ => at);
  }

  lemma {:induction false} CountAllIn(times: seq<nat>, lo: nat, hi: nat)
    requires forall i | 0 <= i < |times| :: lo <= times[i] < hi
    ensures CountIn(times, lo, hi) == |times|
  {
    if times != [] { CountAllIn(times[..|times| - 1], lo, hi); }
  }

  /** Every recorded failure of the trace lies between 0 and `at`. */
  predicate RecordedBy(trace: seq<Attempt>, key: Key, at: nat) {
    forall i | 0 <= i < |Recorded(trace, key)| :: Recorded(trace, key)[i] <= at
  }

  /** Five failures at every multiple of the window. */
  lemma {:induction false} Bursts(key: Key, windows: nat, at: nat) returns (trace: seq<Attempt>)
    requires at == windows * (FAILURE_WINDOW_SECONDS * SECOND)
    ensures EndsBy(trace, key, at) && JustLocked(Play(trace), key, at)
    ensures RecordedBy(trace, key, at) && |Recorded(trace, key)| == MAX_FAILED_ATTEMPTS * (windows + 1)
    ensures Recorded(trace, key)[0] == 0
  {
    if windows == 0 {
      trace := Burst([], key, 0);
    } else {
      var span := FAILURE_WINDOW_SECONDS * SECOND;
      assert at == (windows - 1) * span + span;
      var init := Bursts(key, windows - 1, at - span);
      trace := Burst(init, key, at);
    }
  }

  /** The bound from the first failure is exact at every multiple of the window. */
  lemma FromFirstIsReached(key: Key, windows: nat) returns (trace: seq<Attempt>)
    ensures InOrder(trace) && NeverClears(trace, key) && Recorded(trace, key) != []
    ensures var r := Recorded(trace, key);
            CountIn(r, r[0], r[0] + windows * (FAILURE_WINDOW_SECONDS * SECOND) + 1)
              == MAX_FAILED_ATTEMPTS * (windows + 1)
  {
    var at := windows * (FAILURE_WINDOW_SECONDS * SECOND);
    trace := Bursts(key, windows, at);
    CountAllIn(Recorded(trace, key), 0, at + 1);
  }

  lemma {:induction false} CountSplit(front: seq<nat>, back: seq<nat>, lo: nat, hi: nat)
    ensures CountIn(front + back, lo, hi) == CountIn(front, lo, hi) + CountIn(back, lo, hi)
  {
    if back == [] {
      assert front + back == front;
    } else {
      assert (front + back)[..|front + back| - 1] == front + back[..|back| - 1];
      CountSplit(front, back[..|back| - 1], lo, hi);
    }
  }

  /** A window that opened at 0 is left at a count of four, three of them a second before its end;
      the next one fills at once. */
  lemma EightFailures(key: Key) returns (trace: seq<Attempt>)
    ensures InOrder(trace) && NeverClears(trace, key)
    ensures var end := FAILURE_WINDOW_SECONDS * SECOND;
            Recorded(trace, key) == ([0] + seq(3, _ => end - SECOND)) + seq(5, _ => end)
  {
    var end := FAILURE_WINDOW_SECONDS * SECOND;
    var first := FailOnce([], key, 0);
    var four := FailInWindow(first, key, end - SECOND, 1, end, 3);
    trace := Burst(four, key, end);
  }

  /** Eight failures do fit in a sliding window. */
  lemma EightIsReached(key: Key) returns (trace: seq<Attempt>, start: nat)
    ensures InOrder(trace) && NeverClears(trace, key)
    ensures CountIn(Recorded(trace, key), start, start + FAILURE_WINDOW_SECONDS * SECOND) == 8
  {
    var end := FAILURE_WINDOW_SECONDS * SECOND;
    start := end - SECOND;
    trace := EightFailures(key);
    CountSplit([0] + seq(3, _ => start), seq(5, _ => end), start, start + end);
    CountSplit([0], seq(3, _ => start), start, start + end);
    CountAllIn(seq(3, _ => start), start, start + end);
    CountAllIn(seq(5, _ => end), start, start + end);
  }

  // ------------------------------------------------------------ waiting out a lock

  function PlayFrom(m: Memory, trace: seq<Attempt>): Memory
    decreases |trace|
  {
    if trace == [] then m else PlayFrom(AfterAttempt(m, trace[0]), trace[1..])
  }

  /** Logins, of any outcome, while the lock is on, and no password reset of this email. */
  predicate BeforeLockEnds(m: Memory, key: Key, trace: seq<Attempt>)
    requires key in m.locks
  {
    forall i | 0 <= i < |trace| ::
      trace[i].at < m.locks[key] && (trace[i].key == key ==> trace[i].outcome != PasswordReset)
  }

  /** A reported wait always ends the lock: whatever is tried on any email before the lock
      runs out, the account is open once the reported seconds have passed. */
  lemma {:induction false} WaitingEndsTheLock(m: Memory, key: Key, now: nat, trace: seq<Attempt>, later: nat)
    requires Wait(m, key, now).Some?
    requires BeforeLockEnds(m, key, trace)
    requires later >= now + Wait(m, key, now).value * SECOND
    ensures Wait(PlayFrom(m, trace), key, later).None?
  {
    LockUntouched(m, key, trace);
  }

  /** And it is not too long: a second less ends before the lock does, or exactly with it. */
  lemma WaitIsTight(m: Memory, key: Key, now: nat)
    requires Wait(m, key, now).Some?
    ensures var w := Wait(m, key, now).value;
            key in m.locks && w >= 1 && now + (w - 1) * SECOND <= m.locks[key] < now + w * SECOND
    ensures forall later | now <= later :: Wait(m, key, later).Some? <==> later < m.locks[key]
  {
  }

  lemma {:induction false} LockUntouched(m: Memory, key: Key, trace: seq<Attempt>)
    requires key in m.locks && BeforeLockEnds(m, key, trace)
    ensures key in PlayFrom(m, trace).locks && PlayFrom(m, trace).locks[key] == m.locks[key]
    decreases |trace|
  {
    if trace != [] {
      var m' := AfterAttempt(m, trace[0]);
      assert key in m'.locks && m'.locks[key] == m.locks[key];
      LockUntouched(m', key, trace[1..]);
    }
  }

  lemma {:induction false} FailuresLock(m: Memory, key: Key, at: nat, n: nat, windowEnd: nat)
    requires 1 <= n <= 4 && Counting(m, key, MAX_FAILED_ATTEMPTS - n, windowEnd) && at < windowEnd
    ensures JustLocked(PlayFrom(m, seq(n, _ => Attempt(key, at, Wrong))), key, at)
    decreases n
  {
    var wrong := Attempt(key, at, Wrong);
    var trace := seq(n, _ => wrong);
    assert trace[1..] == seq(n - 1, _ => wrong);
    var m' := AfterAttempt(m, wrong);
    if n == 1 {
      assert PlayFrom(m, trace) == PlayFrom(m', []);
    } else {
      FailuresLock(m', key, at, n - 1, windowEnd);
    }
  }

  /** With a reset the wait starts again: a lock reported as 901 seconds is lifted, five failures set a
      new one, and after the 901 seconds the account is still locked. */
  lemma ResetRestartsTheLock(key: Key)
    ensures var m := Memory(map[], map[key := LOCKOUT_SECONDS * SECOND]);
            var trace := [Attempt(key, SECOND, PasswordReset)] + seq(5, _ => Attempt(key, 2 * SECOND, Wrong));
            Wait(m, key, 0) == Some(901) && Wait(PlayFrom(m, trace), key, 901 * SECOND).Some?
  {
    var m := Memory(map[], map[key := LOCKOUT_SECONDS * SECOND]);
    var reset, wrong := Attempt(key, SECOND, PasswordReset), Attempt(key, 2 * SECOND, Wrong);
    var five, four := seq(5, _ => wrong), seq(4, _ => wrong);
    assert ([reset] + five)[1..] == five && five[1..] == four;
    var cleared := AfterAttempt(m, reset);
    var one := AfterAttempt(cleared, wrong);
    assert PlayFrom(m, [reset] + five) == PlayFrom(cleared, five) == PlayFrom(one, four);
    FailuresLock(one, key, 2 * SECOND, 4, (2 + FAILURE_WINDOW_SECONDS) * SECOND);
  }
}
