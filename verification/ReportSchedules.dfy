/** Report schedules: the stored rows, the due query on their timestamp text, the tick of
    the worker with its exponential back-off, and whole runs of ticks. */
module ReportSchedules {
  import opened Wrappers
  import opened Text
  import opened Sorting
  import opened Timestamps

  const SECOND := 1_000_000

  datatype Row = Row(id: string, name: string, cron: string, enabled: bool, nextRunAt: Option<int>,
                     retryCount: nat, lastError: string, lastAttemptAt: Option<int>)

  datatype Config = Config(base: nat, cap: nat, maxRetries: nat)

  /** The arguments of an update; None keeps what is stored. */
  datatype Change = Change(enabled: Option<bool>, nextRunAt: Option<int>, retryCount: Option<nat>,
                           lastError: Option<string>, lastAttemptAt: Option<int>)

  function Apply(row: Row, c: Change): Row
  {
    row.(enabled := if c.enabled.Some? then c.enabled.value else row.enabled,
         nextRunAt := if c.nextRunAt.Some? then c.nextRunAt else row.nextRunAt,
         retryCount := if c.retryCount.Some? then c.retryCount.value else row.retryCount,
         lastError := if c.lastError.Some? then c.lastError.value else row.lastError,
         lastAttemptAt := if c.lastAttemptAt.Some? then c.lastAttemptAt else row.lastAttemptAt)
  }

  /** Seconds until the next try after the `k`-th failure in a row. */
  function Backoff(cfg: Config, k: nat): nat
  {
    Min(cfg.base * Pow2(Max(k - 1, 0)), cfg.cap)
  }

  // ---------------------------------------------------------------- one attempt

  /** How running a schedule ends; FailsLate fails after the success was already stored. */
  datatype Outcome = Succeeds | Fails | FailsLate

  /** One attempt: its outcome, the error text, the clock, and the next cron time. */
  datatype Attempt = Attempt(outcome: Outcome, error: string, at: int, nextFire: int)

  function SuccessChange(row: Row, a: Attempt): Change
  {
    Change(Some(row.enabled), Some(a.nextFire), Some(0), Some(""), Some(a.at))
  }

  function FailureChange(row: Row, a: Attempt, cfg: Config): Change
  {
    var k := row.retryCount + 1;
    if k >= cfg.maxRetries then Change(Some(false), None, Some(k), Some(a.error), Some(a.at))
    else Change(Some(row.enabled), Some(a.at + Backoff(cfg, k) * SECOND), Some(k), Some(a.error), Some(a.at))
  }

  function Processed(row: Row, a: Attempt, cfg: Config): Row
  {
    match a.outcome
    case Succeeds => Apply(row, SuccessChange(row, a))
    case Fails => Apply(row, FailureChange(row, a, cfg))
    case FailsLate => Apply(Apply(row, SuccessChange(row, a)), FailureChange(row, a, cfg))
  }

  predicate Due(row: Row, now: int)
  {
    row.enabled && row.nextRunAt.Some? && row.nextRunAt.value <= now
  }

  // ---------------------------------------------------------------- the stored table

  ghost predicate UniqueIds(rows: seq<Row>)
  {
    forall i, j :: 0 <= i < j < |rows| ==> rows[i].id != rows[j].id
  }

  predicate StorableRow(row: Row)
  {
    row.nextRunAt.Some? ==> Printable(row.nextRunAt.value)
  }

  predicate Storable(rows: seq<Row>)
  {
    forall row {:trigger StorableRow(row)} :: row in rows ==> StorableRow(row)
  }

  /** The WHERE clause of the due query, on the stored text. */
  predicate DueByText(row: Row, now: int)
    requires StorableRow(row) && Printable(now)
  {
    row.enabled && row.nextRunAt.Some? && StrLe(Printed(row.nextRunAt.value), Printed(now))
  }

  function DueRows(rows: seq<Row>, now: int): seq<Row>
  {
    if rows == [] then [] else (if Due(rows[0], now) then [rows[0]] else []) + DueRows(rows[1..], now)
  }

  function RunKey(row: Row): int
  {
    if row.nextRunAt.Some? then row.nextRunAt.value else 0
  }

  predicate SoonerFirst(a: Row, b: Row)
  {
    RunKey(a) <= RunKey(b)
  }

  /** The ORDER BY of the due query, on the stored text. */
  function TextOf(row: Row): string
  {
    if row.nextRunAt.Some? then TextAt(row.nextRunAt.value) else ""
  }

  predicate SoonerByText(a: Row, b: Row)
  {
    StrLe(TextOf(a), TextOf(b))
  }

  lemma SoonerByTextIsSooner(rows: seq<Row>, now: int)
    requires Storable(rows)
    ensures Sort(DueRows(rows, now), SoonerByText) == Sort(DueRows(rows, now), SoonerFirst)
  {
    var due := DueRows(rows, now);
    DueRowsExact(rows, now);
    forall a, b | a in due && b in due ensures SoonerByText(a, b) == SoonerFirst(a, b) {
      assert StorableRow(a) && StorableRow(b);
      TextAtOrder(a.nextRunAt.value, b.nextRunAt.value);
    }
    SortAlike(due, SoonerByText, SoonerFirst);
  }

  function Updated(rows: seq<Row>, id: string, c: Change): (r: seq<Row>)
    ensures |r| == |rows|
    ensures forall i :: 0 <= i < |r| ==> r[i] == if rows[i].id == id then Apply(rows[i], c) else rows[i]
  {
    seq(|rows|, i requires 0 <= i < |rows| => if rows[i].id == id then Apply(rows[i], c) else rows[i])
  }

  /** A tick: every due row is attempted once, every other row stays. */
  function Ticked(rows: seq<Row>, now: int, attempts: string -> Attempt, cfg: Config): (r: seq<Row>)
    ensures |r| == |rows|
    ensures forall i :: 0 <= i < |r| ==>
              r[i] == if Due(rows[i], now) then Processed(rows[i], attempts(rows[i].id), cfg) else rows[i]
  {
    seq(|rows|, i requires 0 <= i < |rows| =>
      if Due(rows[i], now) then Processed(rows[i], attempts(rows[i].id), cfg) else rows[i])
  }

  lemma {:induction false} DueRowsExact(rows: seq<Row>, now: int)
    ensures forall row :: row in DueRows(rows, now) <==> row in rows && Due(row, now)
    ensures UniqueIds(rows) ==> UniqueIds(DueRows(rows, now))
  {
    if rows != [] {
      assert rows == [rows[0]] + rows[1..];
      DueRowsExact(rows[1..], now);
      if UniqueIds(rows) {
        var rest := DueRows(rows[1..], now);
        forall j | 0 <= j < |rest| ensures rest[j].id != rows[0].id {
          assert rest[j] in rows[1..];
        }
      }
    }
  }

  lemma {:induction false} DueRowsSnoc(rows: seq<Row>, row: Row, now: int)
    ensures DueRows(rows + [row], now) == DueRows(rows, now) + (if Due(row, now) then [row] else [])
  {
    if rows != [] {
      assert (rows + [row])[1..] == rows[1..] + [row];
      DueRowsSnoc(rows[1..], row, now);
    }
  }

  /** A row is due if it is enabled and its instant has come; the earlier instant is served first. */
  lemma DueInOrder(rows: seq<Row>, now: int)
    ensures var due := Sort(DueRows(rows, now), SoonerFirst);
            && (forall row :: row in due <==>
                  row in rows && row.enabled && row.nextRunAt.Some? && row.nextRunAt.value <= now)
            && (forall i, j :: 0 <= i < j < |due| ==>
                  && due[i].nextRunAt.Some? && due[j].nextRunAt.Some?
                  && due[i].nextRunAt.value <= due[j].nextRunAt.value)
  {
    var due := Sort(DueRows(rows, now), SoonerFirst);
    DueRowsExact(rows, now);
    SortElements(DueRows(rows, now), SoonerFirst);
    SortSorts(DueRows(rows, now), SoonerFirst);
    forall i, j | 0 <= i < j < |due|
      ensures due[i].nextRunAt.Some? && due[j].nextRunAt.Some? && due[i].nextRunAt.value <= due[j].nextRunAt.value
    {
      assert due[i] in due && due[j] in due && SoonerFirst(due[i], due[j]);
    }
  }

  class Store {
    var rows: seq<Row>

    method Update(id: string, c: Change)
      modifies this
      ensures rows == Updated(old(rows), id, c)
    {
      var i := 0;
      while i < |rows|
        invariant |rows| == |old(rows)| && i <= |rows|
        invariant forall j :: 0 <= j < i ==> rows[j] == Updated(old(rows), id, c)[j]
        invariant forall j :: i <= j < |rows| ==> rows[j] == old(rows)[j]
      {
        if rows[i].id == id {
          rows := rows[i := Apply(rows[i], c)];
        }
        i := i + 1;
      }
    }

    /** The query compares and sorts texts; what it selects are exactly the rows whose instant
        has come, soonest first. */
    method ListDue(now: int) returns (due: seq<Row>)
      requires Storable(rows) && Printable(now)
      ensures due == Sort(DueRows(rows, now), SoonerFirst)
    {
      due := [];
      for i := 0 to |rows|
        invariant due == DueRows(rows[..i], now)
      {
        var row := rows[i];
        assert rows[..i + 1] == rows[..i] + [row];
        DueRowsSnoc(rows[..i], row, now);
        assert StorableRow(row);
        DueByTextIsDue(row, now);
        if DueByText(row, now) {
          due := due + [row];
        }
      }
      assert rows[..|rows|] == rows;
      SoonerByTextIsSooner(rows, now);
      due := Sort(due, SoonerByText);
    }

    /** One row of the tick; the schedule is the row as the query listed it. */
    method Execute(schedule: Row, a: Attempt, cfg: Config)
      requires UniqueIds(rows) && schedule in rows
      modifies this
      ensures |rows| == |old(rows)|
      ensures forall i :: 0 <= i < |rows| ==>
                rows[i] == if old(rows)[i].id == schedule.id then Processed(schedule, a, cfg) else old(rows)[i]
    {
      if a.outcome != Fails {
        Update(schedule.id, SuccessChange(schedule, a));
      }
      if a.outcome != Succeeds {
        var k := schedule.retryCount + 1;
        var maxed := k >= cfg.maxRetries;
        Update(schedule.id,
               Change(Some(if maxed then false else schedule.enabled),
                      if maxed then None else Some(a.at + Backoff(cfg, k) * SECOND),
                      Some(k), Some(a.error), Some(a.at)));
      }
    }

    method Tick(now: int, attempts: string -> Attempt, cfg: Config)
      requires UniqueIds(rows) && Storable(rows) && Printable(now)
      modifies this
      ensures rows == Ticked(old(rows), now, attempts, cfg)
    {
      var due := ListDue(now);
      ghost var before := rows;
      ghost var done: set<string> := {};
      DueStaysUnique(before, now);
      for i := 0 to |due|
        invariant |rows| == |before|
        invariant done == IdsOf(due[..i])
        invariant Progress(before, rows, done, attempts, cfg)
      {
        var schedule := due[i];
        NextIsUntouched(before, rows, due, i, attempts, cfg);
        ghost var rows0 := rows;
        Execute(schedule, attempts(schedule.id), cfg);
        ProgressStep(before, rows0, rows, schedule, done, attempts, cfg);
        IdsGrow(due, i);
        done := done + {schedule.id};
      }
      assert due[..|due|] == due;
      TickDone(before, rows, due, done, now, attempts, cfg);
    }
  }

  function IdsOf(rows: seq<Row>): set<string>
  {
    set row | row in rows :: row.id
  }

  lemma IdsGrow(rows: seq<Row>, i: nat)
    requires i < |rows|
    ensures IdsOf(rows[..i + 1]) == IdsOf(rows[..i]) + {rows[i].id}
  {
    assert rows[..i + 1] == rows[..i] + [rows[i]];
  }

  /** The rows named in `done` have been processed, the others are as they were. */
  ghost predicate Progress(before: seq<Row>, rows: seq<Row>, done: set<string>, attempts: string -> Attempt,
                           cfg: Config)
  {
    && |rows| == |before| && UniqueIds(rows)
    && forall j :: 0 <= j < |rows| ==>
         rows[j].id == before[j].id
         && rows[j] == if before[j].id in done then Processed(before[j], attempts(before[j].id), cfg) else before[j]
  }

  lemma DueStaysUnique(rows: seq<Row>, now: int)
    requires UniqueIds(rows)
    ensures var due := Sort(DueRows(rows, now), SoonerFirst);
            UniqueIds(due) && forall row :: row in due <==> row in rows && Due(row, now)
  {
    var due := DueRows(rows, now);
    var sorted := Sort(due, SoonerFirst);
    DueRowsExact(rows, now);
    SortElements(due, SoonerFirst);
    RearrangedNoDuplicates(due, sorted);
    forall i, j | 0 <= i < j < |sorted| ensures sorted[i].id != sorted[j].id {
      assert sorted[i] in due && sorted[j] in due;
    }
  }

  lemma NextIsUntouched(before: seq<Row>, rows: seq<Row>, due: seq<Row>, i: nat, attempts: string -> Attempt,
                        cfg: Config)
    requires i < |due| && UniqueIds(due) && UniqueIds(before) && due[i] in before
    requires Progress(before, rows, IdsOf(due[..i]), attempts, cfg)
    ensures due[i] in rows
  {
    var j :| 0 <= j < |before| && before[j] == due[i];
    assert rows[j] == before[j];
  }

  lemma ProgressStep(before: seq<Row>, rows: seq<Row>, rows': seq<Row>, schedule: Row, done: set<string>,
                     attempts: string -> Attempt, cfg: Config)
    requires Progress(before, rows, done, attempts, cfg) && UniqueIds(before)
    requires schedule in before && |rows'| == |rows|
    requires forall i :: 0 <= i < |rows| ==>
               rows'[i] == if rows[i].id == schedule.id then Processed(schedule, attempts(schedule.id), cfg)
                   else rows[i]
    ensures Progress(before, rows', done + {schedule.id}, attempts, cfg)
  {
    var k :| 0 <= k < |before| && before[k] == schedule;
    forall j | 0 <= j < |rows| && rows[j].id == schedule.id ensures before[j] == schedule {
      assert j == k;
    }
  }

  lemma TickDone(before: seq<Row>, rows: seq<Row>, due: seq<Row>, done: set<string>, now: int,
                 attempts: string -> Attempt, cfg: Config)
    requires UniqueIds(before) && Progress(before, rows, done, attempts, cfg)
    requires done == IdsOf(due)
    requires forall row :: row in due <==> row in before && Due(row, now)
    ensures rows == Ticked(before, now, attempts, cfg)
  {
    forall j | 0 <= j < |rows| ensures before[j].id in done <==> Due(before[j], now) {
      if before[j].id in done {
        var row :| row in due && row.id == before[j].id;
        var k :| 0 <= k < |before| && before[k] == row;
        assert k == j;
      }
    }
  }

  /** Selecting by text is selecting by instant. */
  lemma DueByTextIsDue(row: Row, now: int)
    requires StorableRow(row) && Printable(now)
    ensures DueByText(row, now) <==> Due(row, now)
  {
    if row.nextRunAt.Some? {
      PrintedOrder(row.nextRunAt.value, now);
    }
  }

  /** What an attempt leaves of a schedule, field by field. A success clears the failures and waits
      for the next time of the cron text. A failure counts one more, keeps the error, and waits for
      the base time doubled with every failure but the first, up to the cap; at the last retry it
      switches the schedule off instead, its next time left as it was. A failure after the success
      was stored counts on from before the attempt, with the next time already moved. */
  lemma AttemptLeaves(row: Row, a: Attempt, cfg: Config)
    ensures var p, k := Processed(row, a, cfg), row.retryCount + 1;
            && p.id == row.id && p.name == row.name && p.cron == row.cron && p.lastAttemptAt == Some(a.at)
            && (a.outcome == Succeeds ==>
                && p.enabled == row.enabled && p.nextRunAt == Some(a.nextFire)
                && p.retryCount == 0 && p.lastError == "")
            && (a.outcome != Succeeds ==> p.retryCount == k && p.lastError == a.error)
            && (a.outcome != Succeeds && k < cfg.maxRetries ==>
                && p.enabled == row.enabled
                && p.nextRunAt == Some(a.at + 1_000_000 * Min(cfg.base * Pow2(row.retryCount), cfg.cap)))
            && (a.outcome != Succeeds && k >= cfg.maxRetries ==>
                && !p.enabled
                && p.nextRunAt == if a.outcome == Fails then row.nextRunAt else Some(a.nextFire))
  {
  }

  /** An update replaces what it is given and keeps the rest. */
  lemma UpdateKeeps(row: Row, c: Change)
    ensures var p := Apply(row, c);
            && p.id == row.id && p.name == row.name && p.cron == row.cron
            && (c.enabled.None? ==> p.enabled == row.enabled) && (c.enabled.Some? ==> p.enabled == c.enabled.value)
            && (c.nextRunAt.None? ==> p.nextRunAt == row.nextRunAt)
            && (c.nextRunAt.Some? ==> p.nextRunAt == c.nextRunAt)
            && (c.retryCount.None? ==> p.retryCount == row.retryCount)
            && (c.retryCount.Some? ==> p.retryCount == c.retryCount.value)
            && (c.lastError.None? ==> p.lastError == row.lastError)
            && (c.lastError.Some? ==> p.lastError == c.lastError.value)
            && (c.lastAttemptAt.None? ==> p.lastAttemptAt == row.lastAttemptAt)
            && (c.lastAttemptAt.Some? ==> p.lastAttemptAt == c.lastAttemptAt)
  {
  }
}
