/** What happens to a report schedule over any run of ticks. */
module ScheduleRuns {
  import opened Wrappers
  import opened ReportSchedules

  /** A tick as one schedule sees it. */
  datatype Visit = Visit(now: int, attempt: Attempt)

  function Visited(row: Row, v: Visit, cfg: Config): Row
  {
    if Due(row, v.now) then Processed(row, v.attempt, cfg) else row
  }

  function RowAfter(row: Row, visits: seq<Visit>, cfg: Config): Row
    decreases |visits|
  {
    if visits == [] then row
    else Visited(RowAfter(row, visits[..|visits| - 1], cfg), visits[|visits| - 1], cfg)
  }

  /** How often the schedule is attempted in the run. */
  function Attempts(row: Row, visits: seq<Visit>, cfg: Config): nat
    decreases |visits|
  {
    if visits == [] then 0
    else
      var init := visits[..|visits| - 1];
      Attempts(row, init, cfg) + if Due(RowAfter(row, init, cfg), visits[|visits| - 1].now) then 1 else 0
  }

  // ---------------------------------------------------------------- the table, row by row

  datatype TickArgs = TickArgs(now: int, attempts: string -> Attempt)

  function StoreAfter(rows: seq<Row>, ticks: seq<TickArgs>, cfg: Config): seq<Row>
    decreases |ticks|
  {
    if ticks == [] then rows
    else
      var last := ticks[|ticks| - 1];
      Ticked(StoreAfter(rows, ticks[..|ticks| - 1], cfg), last.now, last.attempts, cfg)
  }

  function VisitsOf(ticks: seq<TickArgs>, id: string): (r: seq<Visit>)
    ensures |r| == |ticks|
  {
    seq(|ticks|, i requires 0 <= i < |ticks| => Visit(ticks[i].now, ticks[i].attempts(id)))
  }

  /** Schedules do not interfere: each row of the table runs as it would alone. */
  lemma {:induction false} RowsRunAlone(rows: seq<Row>, ticks: seq<TickArgs>, cfg: Config, i: nat)
    requires i < |rows|
    ensures |StoreAfter(rows, ticks, cfg)| == |rows|
    ensures StoreAfter(rows, ticks, cfg)[i] == RowAfter(rows[i], VisitsOf(ticks, rows[i].id), cfg)
    ensures StoreAfter(rows, ticks, cfg)[i].id == rows[i].id
    decreases |ticks|
  {
    if ticks != [] {
      RowsRunAlone(rows, ticks[..|ticks| - 1], cfg, i);
      var visits := VisitsOf(ticks, rows[i].id);
      assert visits[..|visits| - 1] == VisitsOf(ticks[..|ticks| - 1], rows[i].id);
    }
  }

  // ---------------------------------------------------------------- failing runs

  predicate AllFail(visits: seq<Visit>)
  {
    forall v :: v in visits ==> v.attempt.outcome != Succeeds
  }

  /** A schedule whose every run fails is attempted at most as often as retries are left;
      it is disabled exactly when they are used up, and until then waits the back-off. */
  lemma {:induction false} FailingRun(row: Row, visits: seq<Visit>, cfg: Config)
    requires row.enabled && row.nextRunAt.Some? && row.retryCount < cfg.maxRetries && AllFail(visits)
    ensures var r, n := RowAfter(row, visits, cfg), Attempts(row, visits, cfg);
            && r.retryCount == row.retryCount + n <= cfg.maxRetries
            && (r.enabled <==> r.retryCount < cfg.maxRetries)
            && r.nextRunAt.Some?
            && (n == 0 ==> r == row)
            && (n > 0 ==> r.lastAttemptAt.Some?)
            && (n > 0 && r.enabled ==>
                  r.nextRunAt.value == r.lastAttemptAt.value + Backoff(cfg, r.retryCount) * SECOND)
    decreases |visits|
  {
    if visits != [] {
      var init := visits[..|visits| - 1];
      assert forall v :: v in init ==> v in visits;
      FailingRun(row, init, cfg);
      assert visits[|visits| - 1] in visits;
    }
  }

  lemma {:induction false} NoAttemptNoChange(row: Row, visits: seq<Visit>, cfg: Config)
    requires Attempts(row, visits, cfg) == 0
    ensures RowAfter(row, visits, cfg) == row
    decreases |visits|
  {
    if visits != [] {
      NoAttemptNoChange(row, visits[..|visits| - 1], cfg);
    }
  }

  /** Ticks up to one that finds the schedule due as it is now make an attempt. */
  lemma DueTickAttempts(row: Row, visits: seq<Visit>, cfg: Config)
    requires visits != [] && Due(row, visits[|visits| - 1].now)
    ensures Attempts(row, visits, cfg) >= 1
  {
    var init := visits[..|visits| - 1];
    if Attempts(row, init, cfg) == 0 {
      NoAttemptNoChange(row, init, cfg);
    }
  }

  /** The last attempt stored is the attempt of one of the ticks. */
  lemma {:induction false} LastAttemptIsVisit(row: Row, visits: seq<Visit>, cfg: Config)
    requires Attempts(row, visits, cfg) > 0
    ensures exists v :: v in visits && RowAfter(row, visits, cfg).lastAttemptAt == Some(v.attempt.at)
    decreases |visits|
  {
    var init, last := visits[..|visits| - 1], visits[|visits| - 1];
    if Due(RowAfter(row, init, cfg), last.now) {
      assert last in visits;
    } else {
      LastAttemptIsVisit(row, init, cfg);
      var v :| v in init && RowAfter(row, init, cfg).lastAttemptAt == Some(v.attempt.at);
      assert v in visits;
    }
  }

  lemma {:induction false} DisabledForGood(row: Row, visits: seq<Visit>, cfg: Config)
    requires !row.enabled
    ensures RowAfter(row, visits, cfg) == row && Attempts(row, visits, cfg) == 0
    decreases |visits|
  {
    if visits != [] {
      DisabledForGood(row, visits[..|visits| - 1], cfg);
    }
  }

  lemma {:induction false} RunConcat(row: Row, a: seq<Visit>, b: seq<Visit>, cfg: Config)
    ensures RowAfter(row, a + b, cfg) == RowAfter(RowAfter(row, a, cfg), b, cfg)
    ensures Attempts(row, a + b, cfg) == Attempts(row, a, cfg) + Attempts(RowAfter(row, a, cfg), b, cfg)
    decreases |b|
  {
    if b == [] {
      assert a + b == a;
    } else {
      assert (a + b)[..|a + b| - 1] == a + b[..|b| - 1];
      RunConcat(row, a, b[..|b| - 1], cfg);
    }
  }

  // ---------------------------------------------------------------- how many attempts a failing run makes

  function Flat(stretches: seq<seq<Visit>>): seq<Visit>
    decreases |stretches|
  {
    if stretches == [] then [] else Flat(stretches[..|stretches| - 1]) + stretches[|stretches| - 1]
  }

  /** A tick that comes once the schedule was due at first, and the longest back-off after
      every attempt the ticks of the earlier stretches may have made. */
  predicate LateEnough(row: Row, earlier: seq<Visit>, v: Visit, cfg: Config)
  {
    && row.nextRunAt.Some? && v.now >= row.nextRunAt.value
    && forall u :: u in earlier ==> v.now >= u.attempt.at + cfg.cap * SECOND
  }

  /** The ticks come in stretches, as closely spaced as may be, of which each ends late enough. */
  ghost predicate Stretched(row: Row, stretches: seq<seq<Visit>>, cfg: Config)
  {
    forall k {:trigger stretches[k]} :: 0 <= k < |stretches| ==>
      stretches[k] != [] && LateEnough(row, Flat(stretches[..k]), stretches[k][|stretches[k]| - 1], cfg)
  }

  /** In a stretch that ends late enough there is an attempt, while retries are left. */
  lemma StretchAttempts(row: Row, earlier: seq<Visit>, stretch: seq<Visit>, cfg: Config)
    requires row.enabled && row.nextRunAt.Some? && row.retryCount < cfg.maxRetries && AllFail(earlier)
    requires stretch != [] && LateEnough(row, earlier, stretch[|stretch| - 1], cfg)
    requires RowAfter(row, earlier, cfg).enabled
    ensures Attempts(RowAfter(row, earlier, cfg), stretch, cfg) >= 1
  {
    var r := RowAfter(row, earlier, cfg);
    FailingRun(row, earlier, cfg);
    if Attempts(row, earlier, cfg) > 0 {
      LastAttemptIsVisit(row, earlier, cfg);
      BackoffGrows(cfg, 1, r.retryCount);
    }
    DueTickAttempts(r, stretch, cfg);
  }

  lemma StretchedInit(row: Row, stretches: seq<seq<Visit>>, cfg: Config)
    requires stretches != [] && Stretched(row, stretches, cfg)
    ensures Stretched(row, stretches[..|stretches| - 1], cfg)
    ensures var last := stretches[|stretches| - 1];
            last != [] && LateEnough(row, Flat(stretches[..|stretches| - 1]), last[|last| - 1], cfg)
  {
    var init := stretches[..|stretches| - 1];
    forall k | 0 <= k < |init|
      ensures init[k] != [] && LateEnough(row, Flat(init[..k]), init[k][|init[k]| - 1], cfg)
    {
      assert stretches[k] == init[k] && stretches[..k] == init[..k];
    }
  }

  /** A schedule that only fails is attempted at least once a stretch until its retries are
      used up. */
  lemma {:induction false} EveryStretchAttempts(row: Row, stretches: seq<seq<Visit>>, cfg: Config)
    requires row.enabled && row.nextRunAt.Some? && row.retryCount < cfg.maxRetries
    requires AllFail(Flat(stretches)) && Stretched(row, stretches, cfg)
    ensures Attempts(row, Flat(stretches), cfg) >= Min(|stretches|, cfg.maxRetries - row.retryCount)
    decreases |stretches|
  {
    if stretches != [] {
      var n := |stretches| - 1;
      var init := stretches[..n];
      assert forall v :: v in Flat(init) ==> v in Flat(stretches);
      StretchedInit(row, stretches, cfg);
      EveryStretchAttempts(row, init, cfg);
      FailingRun(row, Flat(init), cfg);
      RunConcat(row, Flat(init), stretches[n], cfg);
      if RowAfter(row, Flat(init), cfg).enabled {
        StretchAttempts(row, Flat(init), stretches[n], cfg);
      }
    }
  }

  /** The life of a schedule that only fails: exactly as many attempts are made as retries
      are left, however closely the ticks come and however long the worker goes on; then the
      schedule is disabled and never due again, whatever later runs would have done. */
  lemma ExactlyMaxRetries(row: Row, stretches: seq<seq<Visit>>, later: seq<Visit>, cfg: Config)
    requires row.enabled && row.nextRunAt.Some? && row.retryCount < cfg.maxRetries
    requires AllFail(Flat(stretches)) && Stretched(row, stretches, cfg)
    requires |stretches| >= cfg.maxRetries - row.retryCount
    ensures Attempts(row, Flat(stretches) + later, cfg) == cfg.maxRetries - row.retryCount
    ensures !RowAfter(row, Flat(stretches) + later, cfg).enabled
    ensures forall now :: !Due(RowAfter(row, Flat(stretches) + later, cfg), now)
  {
    var visits := Flat(stretches);
    EveryStretchAttempts(row, stretches, cfg);
    FailingRun(row, visits, cfg);
    RunConcat(row, visits, later, cfg);
    DisabledForGood(RowAfter(row, visits, cfg), later, cfg);
  }

  /** The first `n` ticks of a worker that never stops. */
  function Prefix(ticks: nat -> Visit, n: nat): (r: seq<Visit>)
    ensures |r| == n && forall i :: 0 <= i < n ==> r[i] == ticks(i)
  {
    seq(n, i requires 0 <= i => ticks(i))
  }

  /** Time goes on: after every tick there is one at or past any given instant. */
  ghost predicate TimeGoesOn(ticks: nat -> Visit)
  {
    forall from: nat, t: int :: ReachedAfter(ticks, from, t)
  }

  ghost predicate ReachedAfter(ticks: nat -> Visit, from: nat, t: int)
  {
    exists k: nat :: k >= from && ticks(k).now >= t
  }

  lemma NextAttempt(row: Row, ticks: nat -> Visit, n: nat, cfg: Config) returns (m: nat)
    requires TimeGoesOn(ticks)
    requires RowAfter(row, Prefix(ticks, n), cfg).enabled && RowAfter(row, Prefix(ticks, n), cfg).nextRunAt.Some?
    ensures m > n && Attempts(row, Prefix(ticks, m), cfg) > Attempts(row, Prefix(ticks, n), cfg)
  {
    var r := RowAfter(row, Prefix(ticks, n), cfg);
    assert ReachedAfter(ticks, n, r.nextRunAt.value);
    var k: nat :| k >= n && ticks(k).now >= r.nextRunAt.value;
    m := k + 1;
    var stretch := Prefix(ticks, m)[n..];
    assert stretch[|stretch| - 1] == ticks(k);
    assert Prefix(ticks, m) == Prefix(ticks, n) + stretch;
    RunConcat(row, Prefix(ticks, n), stretch, cfg);
    DueTickAttempts(r, stretch, cfg);
  }

  lemma {:induction false} AttemptsGrow(row: Row, ticks: nat -> Visit, n: nat, m: nat, cfg: Config)
    requires n <= m
    ensures Attempts(row, Prefix(ticks, n), cfg) <= Attempts(row, Prefix(ticks, m), cfg)
    decreases m
  {
    if n < m {
      assert Prefix(ticks, m)[..m - 1] == Prefix(ticks, m - 1);
      AttemptsGrow(row, ticks, n, m - 1, cfg);
    }
  }

  lemma UsedUp(row: Row, ticks: nat -> Visit, n: nat, cfg: Config, left: nat) returns (m: nat)
    requires row.enabled && row.nextRunAt.Some? && row.retryCount < cfg.maxRetries
    requires TimeGoesOn(ticks) && forall i: nat :: ticks(i).attempt.outcome != Succeeds
    requires left == cfg.maxRetries - row.retryCount - Attempts(row, Prefix(ticks, n), cfg)
    ensures Attempts(row, Prefix(ticks, m), cfg) == cfg.maxRetries - row.retryCount
    decreases left
  {
    FailingRun(row, Prefix(ticks, n), cfg);
    if left == 0 {
      m := n;
    } else {
      var k := NextAttempt(row, ticks, n, cfg);
      FailingRun(row, Prefix(ticks, k), cfg);
      m := UsedUp(row, ticks, k, cfg, cfg.maxRetries - row.retryCount - Attempts(row, Prefix(ticks, k), cfg));
    }
  }

  /** A worker that never stops, at whatever pace it ticks: from some tick on a schedule whose
      every run fails has been attempted exactly as often as retries were left, never more
      before, and is disabled and never due. */
  lemma EventuallyDisabled(row: Row, ticks: nat -> Visit, cfg: Config)
    requires row.enabled && row.nextRunAt.Some? && row.retryCount < cfg.maxRetries
    requires TimeGoesOn(ticks) && forall i: nat :: ticks(i).attempt.outcome != Succeeds
    ensures forall n: nat :: Attempts(row, Prefix(ticks, n), cfg) <= cfg.maxRetries - row.retryCount
    ensures exists m: nat ::
              Attempts(row, Prefix(ticks, m), cfg) == cfg.maxRetries - row.retryCount && Over(row, ticks, m, cfg)
  {
    forall n: nat ensures Attempts(row, Prefix(ticks, n), cfg) <= cfg.maxRetries - row.retryCount {
      FailingRun(row, Prefix(ticks, n), cfg);
    }
    var m := UsedUp(row, ticks, 0, cfg, cfg.maxRetries - row.retryCount);
    forall n: nat | n >= m ensures !RowAfter(row, Prefix(ticks, n), cfg).enabled {
      AttemptsGrow(row, ticks, m, n, cfg);
      FailingRun(row, Prefix(ticks, n), cfg);
    }
  }

  /** From tick `m` on the schedule is disabled, and so never due. */
  ghost predicate Over(row: Row, ticks: nat -> Visit, m: nat, cfg: Config)
  {
    forall n: nat :: n >= m ==> !RowAfter(row, Prefix(ticks, n), cfg).enabled
  }

  /** A success restarts the count: after it, only another full series of failures disables
      the schedule. */
  lemma SuccessRestarts(row: Row, v: Visit, visits: seq<Visit>, cfg: Config)
    requires Due(row, v.now) && v.attempt.outcome == Succeeds && cfg.maxRetries >= 1 && AllFail(visits)
    ensures var r := RowAfter(row, [v] + visits, cfg);
            r.enabled <==> Attempts(row, [v] + visits, cfg) <= cfg.maxRetries
    ensures RowAfter(row, [v], cfg).retryCount == 0
    ensures RowAfter(row, [v], cfg).nextRunAt == Some(v.attempt.nextFire)
  {
    assert [v][..0] == [];
    assert RowAfter(row, [], cfg) == row && Attempts(row, [], cfg) == 0;
    RunConcat(row, [v], visits, cfg);
    FailingRun(RowAfter(row, [v], cfg), visits, cfg);
  }

  // ---------------------------------------------------------------- back-off

  lemma {:induction false} Pow2Grows(j: nat, k: nat)
    requires j <= k
    ensures Pow2(j) <= Pow2(k)
  {
    if j < k {
      Pow2Grows(j, k - 1);
    }
  }

  lemma MulGrows(b: nat, x: nat, y: nat)
    requires x <= y
    ensures b * x <= b * y
  {
    assert b * y == b * x + b * (y - x);
  }

  /** Waits never shrink, double until they reach the cap, and never pass it. */
  lemma BackoffGrows(cfg: Config, j: nat, k: nat)
    requires 1 <= j <= k
    ensures Backoff(cfg, j) <= Backoff(cfg, k) <= cfg.cap
    ensures Backoff(cfg, 1) == Min(cfg.base, cfg.cap)
    ensures Backoff(cfg, k + 1) == Min(2 * Backoff(cfg, k), cfg.cap)
  {
    Pow2Grows(j - 1, k - 1);
    MulGrows(cfg.base, Pow2(j - 1), Pow2(k - 1));
    assert cfg.base * Pow2(k) == 2 * (cfg.base * Pow2(k - 1));
  }

  /** No schedule a tick has processed is still due at that tick's time. */
  lemma ProcessedNotDue(rows: seq<Row>, now: int, attempts: string -> Attempt, cfg: Config)
    requires cfg.base >= 1 && cfg.cap >= 1
    requires forall id :: attempts(id).at >= now && attempts(id).nextFire > now
    ensures forall row :: row in Ticked(rows, now, attempts, cfg) ==> !Due(row, now)
  {
    forall i | 0 <= i < |rows| && Due(rows[i], now) ensures !Due(Processed(rows[i], attempts(rows[i].id), cfg), now) {
      BackoffGrows(cfg, 1, rows[i].retryCount + 1);
    }
  }
}
