/**
 The persisted login lockout of apps/api/src/services/login-attempts.ts: a fixed-window
 failure counter with a lockout, and the pruning of idle rows in services/maintenance.ts.
 Times are Unix seconds.
 */
module LoginAttempts {
  import opened Options

  const FAILURE_LIMIT := 5
  const WINDOW_SECONDS := 900
  const LOCKOUT_SECONDS := 900
  const RETENTION_SECONDS := 86400

  /** One row of the login_attempts table. */
  datatype Row = Row(failureCount: nat, windowStartedAt: nat, lockedUntil: Option<nat>, updatedAt: nat)

  /** What the lock check sees of an identifier at a given time. */
  predicate Locked(row: Option<Row>, now: nat) {
    row.Some? && row.value.lockedUntil.Some? && now < row.value.lockedUntil.value
  }

  /** The row that a failure at time ts leaves behind. */
  function AfterFailure(row: Option<Row>, ts: nat): Row {
    if row.Some? && ts < row.value.windowStartedAt + WINDOW_SECONDS then
      var count := row.value.failureCount + 1;
      Row(count, row.value.windowStartedAt, if count < FAILURE_LIMIT then None else Some(ts + LOCKOUT_SECONDS), ts)
    else
      Row(1, ts, None, ts)
  }

  /** The login_attempts table; each method is one statement of the source. */
  class LoginAttemptTable {
    var rows: map<string, Row>

    constructor ()
      ensures rows == map[]
    {
      rows := map[];
    }

    function Find(hash: string): Option<Row>
      reads this
    {
      if hash in rows then Some(rows[hash]) else None
    }

    method IsLoginLocked(hash: string, now: nat) returns (locked: bool)
      ensures locked <==> Locked(Find(hash), now)
    {
      if hash !in rows {
        return false;
      }
      var attempt := rows[hash];
      locked := attempt.lockedUntil.Some? && attempt.lockedUntil.value > now;
    }

    /** INSERT ... ON CONFLICT DO UPDATE: every CASE reads the row as it was before the statement. */
    method RecordLoginFailure(hash: string, ts: nat)
      modifies this
      ensures rows == old(rows)[hash := AfterFailure(old(Find(hash)), ts)]
    {
      var initialLockedUntil := if FAILURE_LIMIT <= 1 then Some(ts + LOCKOUT_SECONDS) else None;
      if hash !in rows {
        rows := rows[hash := Row(1, ts, initialLockedUntil, ts)];
        return;
      }
      var stored := rows[hash];
      var open := ts - stored.windowStartedAt < WINDOW_SECONDS;
      var failureCount := if open then stored.failureCount + 1 else 1;
      var windowStartedAt := if open then stored.windowStartedAt else ts;
      var lockedUntil :=
        if (if open then stored.failureCount + 1 else 1) >= FAILURE_LIMIT then Some(ts + LOCKOUT_SECONDS) else None;
      rows := rows[hash := Row(failureCount, windowStartedAt, lockedUntil, ts)];
    }

    method ClearLoginFailures(hash: string)
      modifies this
      ensures rows == old(rows) - {hash}
    {
      rows := rows - {hash};
    }

    /** The password grant's order for a wrong password: refuse when locked, otherwise record. */
    method RejectPassword(hash: string, now: nat) returns (recorded: bool)
      modifies this
      ensures recorded <==> !Locked(old(Find(hash)), now)
      ensures Find(hash) == Attempt(old(Find(hash)), now).0
      ensures rows - {hash} == old(rows) - {hash}
    {
      var locked := IsLoginLocked(hash, now);
      if !locked {
        RecordLoginFailure(hash, now);
      }
      return !locked;
    }

    /** The maintenance pass: drops every row untouched for a day. */
    method PruneLoginAttempts(timestamp: nat) returns (deleted: nat)
      modifies this
      ensures forall hash :: hash in rows <==> hash in old(rows) && old(rows)[hash].updatedAt > timestamp - 24 * 60 * 60
      ensures forall hash :: hash in rows ==> rows[hash] == old(rows)[hash]
      ensures forall hash :: Find(hash) == Pruned(old(Find(hash)), timestamp)
      ensures deleted == |old(rows)| - |rows|
    {
      var before := rows;
      var idle := set hash | hash in rows && rows[hash].updatedAt <= timestamp - RETENTION_SECONDS;
      rows := rows - idle;
      assert before.Keys - rows.Keys == idle;
      assert before.Keys == rows.Keys + idle;
      deleted := |idle|;
    }
  }

  /** One failing password attempt: the row it leaves and whether it was recorded. */
  function Attempt(row: Option<Row>, t: nat): (Option<Row>, bool) {
    if Locked(row, t) then (row, false) else (Some(AfterFailure(row, t)), true)
  }

  function Pruned(row: Option<Row>, t: nat): Option<Row> {
    if row.Some? && row.value.updatedAt <= t - RETENTION_SECONDS then None else row
  }

  // ---------------------------------------------------------------------------------------
  // Runs of failing attempts
  // ---------------------------------------------------------------------------------------

  ghost predicate Sorted(times: seq<nat>) {
    forall i, j :: 0 <= i < j < |times| ==> times[i] <= times[j]
  }

  function After(row: Option<Row>, times: seq<nat>): Option<Row>
    decreases |times|
  {
    if times == [] then row else After(Attempt(row, times[0]).0, times[1..])
  }

  /** The times of the failures that a run of failing attempts records. */
  function Recorded(row: Option<Row>, times: seq<nat>): seq<nat>
    decreases |times|
  {
    if times == [] then []
    else
      var (next, recorded) := Attempt(row, times[0]);
      (if recorded then [times[0]] else []) + Recorded(next, times[1..])
  }

  /** How many of the given times lie in [from, until). */
  function CountIn(times: seq<nat>, from: nat, until: nat): nat {
    if times == [] then 0
    else (if from <= times[0] < until then 1 else 0) + CountIn(times[1..], from, until)
  }

  /** What sequential attempts keep true of a row at every time from `now` on. */
  ghost predicate Good(row: Option<Row>, now: nat) {
    row.Some? ==>
      var r := row.value;
      && 1 <= r.failureCount <= FAILURE_LIMIT
      && r.windowStartedAt <= r.updatedAt <= now
      && r.updatedAt < r.windowStartedAt + WINDOW_SECONDS
      && (r.lockedUntil.Some? <==> r.failureCount == FAILURE_LIMIT)
      && (r.lockedUntil.Some? ==> r.lockedUntil.value == r.updatedAt + LOCKOUT_SECONDS)
  }

  lemma AttemptKeepsGood(row: Option<Row>, t: nat)
    requires Good(row, t)
    ensures Good(Attempt(row, t).0, t)
  {
  }

  /** Sequential attempts never count past the limit, and reach it exactly when they set a lock. */
  lemma {:induction false} CountAndLock(row: Option<Row>, times: seq<nat>, now: nat)
    requires Sorted(times) && Good(row, if times == [] then now else times[0])
    requires times != [] ==> times[|times| - 1] <= now
    ensures Good(After(row, times), now)
    decreases |times|
  {
    if times != [] {
      AttemptKeepsGood(row, times[0]);
      CountAndLock(Attempt(row, times[0]).0, times[1..], now);
    }
  }

  /** Windows of 900 seconds needed to cover x seconds. */
  function Windows(x: int): nat
    decreases if x <= 0 then 0 else x
  {
    if x <= 0 then 0 else 1 + Windows(x - WINDOW_SECONDS)
  }

  function Max(a: int, b: int): int {
    if a < b then b else a
  }

  /**
   The most failures that can still be recorded before `until` by attempts made no earlier than
   `now`. An open window either stops short of the limit, or reaches it and then stays closed for
   a whole lockout.
   */
  function Budget(row: Option<Row>, now: nat, until: nat): nat
    requires row.Some? ==> row.value.failureCount <= FAILURE_LIMIT
  {
    if row.None? then FAILURE_LIMIT * Windows(until - now)
    else
      var r := row.value;
      if r.lockedUntil.Some? then FAILURE_LIMIT * Windows(until - Max(r.lockedUntil.value, now))
      else if r.windowStartedAt + WINDOW_SECONDS <= now then FAILURE_LIMIT * Windows(until - now)
      else
        Max(FAILURE_LIMIT - 1 - r.failureCount + FAILURE_LIMIT * Windows(until - r.windowStartedAt - WINDOW_SECONDS),
            FAILURE_LIMIT - r.failureCount + FAILURE_LIMIT * Windows(until - now - LOCKOUT_SECONDS))
  }

  lemma BudgetStep(row: Option<Row>, now: nat, t: nat, until: nat)
    requires Good(row, now) && now <= t < until
    ensures Good(Attempt(row, t).0, t)
    ensures (if Attempt(row, t).1 then 1 else 0) + Budget(Attempt(row, t).0, t, until) <= Budget(row, now, until)
  {
    AttemptKeepsGood(row, t);
    WindowsMonotone(until - t, until - now);
    WindowsMonotone(until - t - WINDOW_SECONDS, until - now - WINDOW_SECONDS);
    if row.Some? && row.value.lockedUntil.Some? {
      var lock := row.value.lockedUntil.value;
      WindowsMonotone(until - Max(lock, t), until - Max(lock, now));
    } else if row.Some? && row.value.windowStartedAt + WINDOW_SECONDS <= t {
      WindowsMonotone(until - t, until - row.value.windowStartedAt - WINDOW_SECONDS);
    }
  }

  lemma {:induction false} WindowsMonotone(x: int, y: int)
    requires x <= y
    ensures Windows(x) <= Windows(y)
    decreases if y <= 0 then 0 else y
  {
    if x > 0 {
      WindowsMonotone(x - WINDOW_SECONDS, y - WINDOW_SECONDS);
    }
  }

  lemma {:induction false} WholeWindows(n: nat)
    ensures Windows(n * WINDOW_SECONDS) == n
  {
    if n > 0 {
      WholeWindows(n - 1);
    }
  }

  lemma {:induction false} NothingRecordedLater(row: Option<Row>, times: seq<nat>, from: nat, until: nat)
    requires Sorted(times) && (times != [] ==> until <= times[0])
    ensures CountIn(Recorded(row, times), from, until) == 0
    decreases |times|
  {
    if times != [] {
      var next := Attempt(row, times[0]).0;
      NothingRecordedLater(next, times[1..], from, until);
      RecordedHead(row, times);
    }
  }

  lemma RecordedHead(row: Option<Row>, times: seq<nat>)
    requires times != []
    ensures var (next, recorded) := Attempt(row, times[0]);
            if recorded then
              Recorded(row, times)[0..1] == [times[0]] && Recorded(row, times)[1..] == Recorded(next, times[1..])
            else Recorded(row, times) == Recorded(next, times[1..])
  {
  }

  lemma {:induction false} BudgetBounds(row: Option<Row>, times: seq<nat>, now: nat, from: nat, until: nat)
    requires Sorted(times) && (times != [] ==> now <= times[0]) && Good(row, now)
    ensures CountIn(Recorded(row, times), from, until) <= Budget(row, now, until)
    decreases |times|
  {
    if times == [] {
    } else if until <= times[0] {
      NothingRecordedLater(row, times, from, until);
    } else {
      var t := times[0];
      BudgetStep(row, now, t, until);
      BudgetBounds(Attempt(row, t).0, times[1..], t, from, until);
      RecordedHead(row, times);
    }
  }

  /** Before the interval starts nothing counts; from its start on the budget takes over. */
  lemma {:induction false} IntervalBound(row: Option<Row>, times: seq<nat>, from: nat, n: nat)
    requires n >= 1 && Sorted(times)
    requires times != [] ==> Good(row, times[0])
    requires row.Some? ==> row.value.updatedAt < from
    ensures CountIn(Recorded(row, times), from, from + n * WINDOW_SECONDS) <= FAILURE_LIMIT * n + 3
    decreases |times|
  {
    var until := from + n * WINDOW_SECONDS;
    if times == [] {
    } else if from <= times[0] {
      assert Good(row, from);
      BudgetBounds(row, times, from, from, until);
      WholeWindows(n);
      if row.Some? && row.value.lockedUntil.Some? {
        WindowsMonotone(until - Max(row.value.lockedUntil.value, from), n * WINDOW_SECONDS);
      } else if row.Some? && from < row.value.windowStartedAt + WINDOW_SECONDS {
        WindowsMonotone(until - row.value.windowStartedAt - WINDOW_SECONDS, n * WINDOW_SECONDS);
      }
    } else {
      AttemptKeepsGood(row, times[0]);
      IntervalBound(Attempt(row, times[0]).0, times[1..], from, n);
      RecordedHead(row, times);
    }
  }

  /**
   Over every run of failing attempts with no success in between, no half-open interval of
   n windows holds more than 5n + 3 recorded failures.
   */
  lemma SlidingWindowBound(times: seq<nat>, from: nat, n: nat)
    requires n >= 1 && Sorted(times)
    ensures CountIn(Recorded(None, times), from, from + n * WINDOW_SECONDS) <= FAILURE_LIMIT * n + 3
  {
    IntervalBound(None, times, from, n);
  }

  // ---------------------------------------------------------------------------------------
  // The bound is reached
  // ---------------------------------------------------------------------------------------

  function Repeat(t: nat, k: nat): seq<nat> {
    if k == 0 then [] else [t] + Repeat(t, k - 1)
  }

  /** One failure at 0, three at 899, and then five at the start of each of n further windows. */
  function WorstRun(n: nat): seq<nat> {
    if n == 0 then [0] + Repeat(WINDOW_SECONDS - 1, 3) else WorstRun(n - 1) + Repeat(n * WINDOW_SECONDS, 5)
  }

  lemma {:induction false} RecordedAppend(row: Option<Row>, a: seq<nat>, b: seq<nat>)
    ensures Recorded(row, a + b) == Recorded(row, a) + Recorded(After(row, a), b)
    ensures After(row, a + b) == After(After(row, a), b)
    decreases |a|
  {
    if a == [] {
      assert a + b == b;
    } else {
      assert (a + b)[1..] == a[1..] + b;
      RecordedAppend(Attempt(row, a[0]).0, a[1..], b);
    }
  }

  lemma {:induction false} CountAppend(a: seq<nat>, b: seq<nat>, from: nat, until: nat)
    ensures CountIn(a + b, from, until) == CountIn(a, from, until) + CountIn(b, from, until)
  {
    if a == [] {
      assert a + b == b;
    } else {
      assert (a + b)[1..] == a[1..] + b;
      CountAppend(a[1..], b, from, until);
    }
  }

  /** Failures at one instant of an open window are all recorded, up to the limit. */
  lemma {:induction false} SameInstant(row: Row, t: nat, k: nat)
    requires Good(Some(row), t) && t < row.windowStartedAt + WINDOW_SECONDS
    requires row.failureCount < FAILURE_LIMIT && row.failureCount + k <= FAILURE_LIMIT
    ensures Recorded(Some(row), Repeat(t, k)) == Repeat(t, k)
    ensures k > 0 ==>
              After(Some(row), Repeat(t, k)) ==
              Some(Row(row.failureCount + k, row.windowStartedAt,
                       if row.failureCount + k == FAILURE_LIMIT then Some(t + LOCKOUT_SECONDS) else None, t))
    decreases k
  {
    if k > 0 {
      assert Repeat(t, k)[1..] == Repeat(t, k - 1);
      var next := AfterFailure(Some(row), t);
      AttemptKeepsGood(Some(row), t);
      if k > 1 {
        SameInstant(next, t, k - 1);
      }
    }
  }

  /** Once the window or the lock has run out, five failures at t fill a new window. */
  lemma FiveInARow(row: Option<Row>, t: nat)
    requires Good(row, t) && !Locked(row, t)
    requires row.Some? ==> row.value.windowStartedAt + WINDOW_SECONDS <= t
    ensures Recorded(row, Repeat(t, 5)) == Repeat(t, 5)
    ensures After(row, Repeat(t, 5)) == Some(Row(5, t, Some(t + LOCKOUT_SECONDS), t))
  {
    assert Repeat(t, 5) == [t] + Repeat(t, 4) && Repeat(t, 5)[1..] == Repeat(t, 4);
    SameInstant(Row(1, t, None, t), t, 4);
  }

  lemma {:induction false} RepeatSorted(times: seq<nat>, t: nat, k: nat)
    requires Sorted(times) && forall i :: 0 <= i < |times| ==> times[i] <= t
    ensures Sorted(times + Repeat(t, k)) && forall i :: 0 <= i < |times + Repeat(t, k)| ==> (times + Repeat(t, k))[i] <= t
    decreases k
  {
    if k > 0 {
      RepeatSorted(times + [t], t, k - 1);
      assert times + Repeat(t, k) == (times + [t]) + Repeat(t, k - 1);
    } else {
      assert times + Repeat(t, k) == times;
    }
  }

  lemma {:induction false} CountRepeat(t: nat, k: nat, from: nat, until: nat)
    ensures CountIn(Repeat(t, k), from, until) == if from <= t < until then k else 0
  {
    if k > 0 {
      assert Repeat(t, k)[1..] == Repeat(t, k - 1);
      CountRepeat(t, k - 1, from, until);
    }
  }

  lemma {:induction false} WorstRunState(n: nat)
    ensures Sorted(WorstRun(n))
    ensures forall i :: 0 <= i < |WorstRun(n)| ==> WorstRun(n)[i] <= n * WINDOW_SECONDS + WINDOW_SECONDS - 1
    ensures n > 0 ==> forall i :: 0 <= i < |WorstRun(n)| ==> WorstRun(n)[i] <= n * WINDOW_SECONDS
    ensures Recorded(None, WorstRun(n)) == WorstRun(n)
    ensures var row, next := After(None, WorstRun(n)), (n + 1) * WINDOW_SECONDS;
            Good(row, next) && row.Some? && !Locked(row, next) && row.value.windowStartedAt + WINDOW_SECONDS <= next
  {
    if n == 0 {
      var e := WINDOW_SECONDS - 1;
      RepeatSorted([0], e, 3);
      SameInstant(Row(1, 0, None, 0), e, 3);
      assert WorstRun(0)[1..] == Repeat(e, 3);
    } else {
      WorstRunState(n - 1);
      var t := n * WINDOW_SECONDS;
      FiveInARow(After(None, WorstRun(n - 1)), t);
      RecordedAppend(None, WorstRun(n - 1), Repeat(t, 5));
      RepeatSorted(WorstRun(n - 1), t, 5);
    }
  }

  lemma {:induction false} WorstRunCount(n: nat, k: nat)
    requires k <= n
    ensures CountIn(WorstRun(k), WINDOW_SECONDS - 1, WINDOW_SECONDS - 1 + n * WINDOW_SECONDS)
         == FAILURE_LIMIT * k + if n >= 1 then 3 else 0
    decreases k
  {
    var from, until := WINDOW_SECONDS - 1, WINDOW_SECONDS - 1 + n * WINDOW_SECONDS;
    if k == 0 {
      CountRepeat(WINDOW_SECONDS - 1, 3, from, until);
      CountAppend([0], Repeat(WINDOW_SECONDS - 1, 3), from, until);
    } else {
      WorstRunCount(n, k - 1);
      CountRepeat(k * WINDOW_SECONDS, 5, from, until);
      CountAppend(WorstRun(k - 1), Repeat(k * WINDOW_SECONDS, 5), from, until);
    }
  }

  /** For every n the worst run records exactly 5n + 3 failures inside one interval of n windows. */
  lemma SlidingWindowBoundIsTight(n: nat)
    requires n >= 1
    ensures Sorted(WorstRun(n))
    ensures CountIn(Recorded(None, WorstRun(n)), WINDOW_SECONDS - 1, WINDOW_SECONDS - 1 + n * WINDOW_SECONDS)
         == FAILURE_LIMIT * n + 3
  {
    WorstRunState(n);
    WorstRunCount(n, n);
  }

  // ---------------------------------------------------------------------------------------
  // Concurrent recording and pruning
  // ---------------------------------------------------------------------------------------

  /** Requests that passed the lock check together still record every failure. */
  function RecordAll(row: Option<Row>, times: seq<nat>): Option<Row>
    decreases |times|
  {
    if times == [] then row else RecordAll(Some(AfterFailure(row, times[0])), times[1..])
  }

  /** No update is lost: k failures in one window count k and lock exactly when k reaches the limit. */
  lemma {:induction false} ConcurrentFailuresAllCount(row: Row, times: seq<nat>)
    requires forall i :: 0 <= i < |times| ==> times[i] < row.windowStartedAt + WINDOW_SECONDS
    ensures RecordAll(Some(row), times).Some?
    ensures var last := RecordAll(Some(row), times).value;
            && last.failureCount == row.failureCount + |times|
            && last.windowStartedAt == row.windowStartedAt
            && (times != [] ==>
                  && last.updatedAt == times[|times| - 1]
                  && last.lockedUntil ==
                     if last.failureCount >= FAILURE_LIMIT then Some(last.updatedAt + LOCKOUT_SECONDS) else None)
    decreases |times|
  {
    if times != [] {
      ConcurrentFailuresAllCount(AfterFailure(Some(row), times[0]), times[1..]);
    }
  }

  /**
   What can happen to one identifier's row. A failing request checks the lock and records at once, or
   it records long after its check, whatever others have recorded or cleared in between.
   */
  datatype Event = Failure(at: nat) | LateRecord(at: nat) | Check(at: nat) | Success(at: nat) | Prune(at: nat)

  /** What can be told from outside: whether an attempt is refused or locked, and the whole row a failure writes. */
  datatype Observation = Refused | Wrote(row: Row) | LockState(locked: bool) | Cleared

  ghost predicate EventsSorted(events: seq<Event>) {
    forall i, j :: 0 <= i < j < |events| ==> events[i].at <= events[j].at
  }

  function Observe(row: Option<Row>, events: seq<Event>, pruning: bool): seq<Observation>
    decreases |events|
  {
    if events == [] then []
    else
      match events[0]
      case Failure(t) =>
        if Locked(row, t) then [Refused] + Observe(row, events[1..], pruning)
        else [Wrote(AfterFailure(row, t))] + Observe(Some(AfterFailure(row, t)), events[1..], pruning)
      case LateRecord(t) => [Wrote(AfterFailure(row, t))] + Observe(Some(AfterFailure(row, t)), events[1..], pruning)
      case Check(t) => [LockState(Locked(row, t))] + Observe(row, events[1..], pruning)
      case Success(t) => [Cleared] + Observe(None, events[1..], pruning)
      case Prune(t) => Observe(if pruning then Pruned(row, t) else row, events[1..], pruning)
  }

  /** What every row keeps, however its failures were recorded: window and lock started no later than its last update. */
  ghost predicate Dated(row: Option<Row>, now: nat) {
    row.Some? ==>
      var r := row.value;
      && r.windowStartedAt <= r.updatedAt <= now
      && (r.lockedUntil.Some? ==> r.lockedUntil.value <= r.updatedAt + LOCKOUT_SECONDS)
  }

  /** Two rows that cannot be told apart from `now` on: equal, or one pruned and the other idle for a day. */
  ghost predicate Indistinguishable(pruned: Option<Row>, kept: Option<Row>, now: nat) {
    || pruned == kept
    || (pruned == None && kept.Some? && kept.value.updatedAt + RETENTION_SECONDS <= now)
  }

  lemma {:induction false} PruningSimulation(pruned: Option<Row>, kept: Option<Row>, now: nat, events: seq<Event>)
    requires Dated(kept, now) && Indistinguishable(pruned, kept, now)
    requires EventsSorted(events) && (events != [] ==> now <= events[0].at)
    ensures Observe(pruned, events, true) == Observe(kept, events, false)
    decreases |events|
  {
    if events != [] {
      var t := events[0].at;
      match events[0]
      case Failure(_) =>
        PruningSimulation(Attempt(pruned, t).0, Attempt(kept, t).0, t, events[1..]);
      case LateRecord(_) =>
        PruningSimulation(Some(AfterFailure(pruned, t)), Some(AfterFailure(kept, t)), t, events[1..]);
      case Check(_) =>
        PruningSimulation(pruned, kept, t, events[1..]);
      case Success(_) =>
        PruningSimulation(None, None, t, events[1..]);
      case Prune(_) =>
        PruningSimulation(Pruned(pruned, t), kept, t, events[1..]);
    }
  }

  /** Whatever runs between them, maintenance passes change no answer and no row that a failure writes. */
  lemma PruningIsUnobservable(events: seq<Event>)
    requires EventsSorted(events)
    ensures Observe(None, events, true) == Observe(None, events, false)
  {
    PruningSimulation(None, None, 0, events);
  }
}
