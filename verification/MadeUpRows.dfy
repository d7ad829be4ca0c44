/** What the normaliser writes where a stored payload has nothing, field by field: the findings of
    the trend, the monthly lists of the workbench, the license table, the raw counts. */
module MadeUpRows {
  import opened Wrappers
  import opened Counting
  import opened Json
  import opened Statistics
  import opened Workbench
  import opened Bundle

  // ---------------------------------------------------------------- findings

  /** A row that counts nothing but findings of unknown severity. */
  predicate OnlyUnknown(row: Value, period: string, n: int)
  {
    && Get(row, "period") == Str(period) && Get(row, "unknown") == Num(n) && Get(row, "total") == Num(n)
    && Get(row, "critical") == Num(0) && Get(row, "high") == Num(0) && Get(row, "medium") == Num(0)
    && Get(row, "low") == Num(0)
  }

  lemma UnknownRowShows(period: string, n: int)
    ensures OnlyUnknown(UnknownRow(period, n), period, n)
  {
  }

  /** The text is the first value, or the second if the first is empty. */
  predicate FirstText(v: Value, w: Value, text: string)
  {
    v == Str(text) || ((v == Null || v == Str("")) && w == Str(text))
  }

  /** The number is the first value, or the second if the first is none or zero. */
  predicate FirstNumber(v: Value, w: Value, n: int)
  {
    (v == Num(n) && n != 0) || ((v == Null || v == Num(0)) && (w == Num(n) || (w == Null && n == 0)))
  }

  lemma TextIsRead(v: Value, w: Value, text: string, lib: Library)
    requires FirstText(v, w, text) && text != ""
    ensures TextOf(Or(Or(v, w), Str("")), lib) == text
  {
  }

  lemma NoTextIsRead(v: Value, w: Value, lib: Library)
    requires (v == Null || v == Str("")) && (w == Null || w == Str(""))
    ensures TextOf(Or(Or(v, w), Str("")), lib) == ""
  {
  }

  lemma NumberIsRead(v: Value, w: Value, n: int, lib: Library)
    requires FirstNumber(v, w, n)
    ensures IntOrZero(Or(v, w), lib) == Some(n)
  {
  }

  /** The month of a trend row, or else its period. */
  predicate Dated(row: Value, period: string)
  {
    && row.Obj? && period != ""
    && FirstText(Get(row, "month"), Get(row, "period"), period)
  }

  /** The issues of a trend row, or else its total, or else none. */
  predicate Amounts(row: Value, n: int)
  {
    FirstNumber(Get(row, "issues"), Get(row, "total"), n)
  }

  lemma TrendOn(row: Value, rest: seq<Value>, period: string, n: int, lib: Library)
    requires row.Obj? && TextOf(Or(Or(Get(row, "month"), Get(row, "period")), Str("")), lib) == period
    requires IntOrZero(Or(Get(row, "issues"), Get(row, "total")), lib) == Some(n)
    ensures TrendSeries([row] + rest, lib).Some? <==> TrendSeries(rest, lib).Some?
    ensures TrendSeries(rest, lib).Some? ==>
              TrendSeries([row] + rest, lib).value
                == (if period == "" then [] else [UnknownRow(period, n)]) + TrendSeries(rest, lib).value
  {
    assert ([row] + rest)[1..] == rest;
  }

  /** Missing findings are made up from the trend, a row for each of its rows. */
  lemma {:induction false} TrendShows(rows: seq<Value>, periods: seq<string>, counts: seq<int>, lib: Library)
    requires |rows| == |periods| == |counts|
    requires forall i :: 0 <= i < |rows| ==> Dated(rows[i], periods[i]) && Amounts(rows[i], counts[i])
    ensures TrendSeries(rows, lib).Some? && |TrendSeries(rows, lib).value| == |rows|
    ensures forall i :: 0 <= i < |rows| ==> OnlyUnknown(TrendSeries(rows, lib).value[i], periods[i], counts[i])
    decreases |rows|
  {
    if rows != [] {
      TrendShows(rows[1..], periods[1..], counts[1..], lib);
      TextIsRead(Get(rows[0], "month"), Get(rows[0], "period"), periods[0], lib);
      NumberIsRead(Get(rows[0], "issues"), Get(rows[0], "total"), counts[0], lib);
      TrendOn(rows[0], rows[1..], periods[0], counts[0], lib);
      UnknownRowShows(periods[0], counts[0]);
      assert rows == [rows[0]] + rows[1..];
    }
  }

  /** A row of the trend without month and period is dropped. */
  lemma UndatedIsDropped(row: Value, n: int, rest: seq<Value>, lib: Library)
    requires row.Obj? && Amounts(row, n)
    requires Get(row, "month") == Null || Get(row, "month") == Str("")
    requires Get(row, "period") == Null || Get(row, "period") == Str("")
    ensures TrendSeries([row] + rest, lib) == TrendSeries(rest, lib)
  {
    NoTextIsRead(Get(row, "month"), Get(row, "period"), lib);
    NumberIsRead(Get(row, "issues"), Get(row, "total"), n, lib);
    TrendOn(row, rest, "", n, lib);
    if TrendSeries(rest, lib).Some? {
      assert [] + TrendSeries(rest, lib).value == TrendSeries(rest, lib).value;
    }
  }

  // ---------------------------------------------------------------- monthly lists

  /** Without a list of compliant applications, all applications of the summary are compliant in
      every month there is a row of findings for. */
  lemma ComplianceShows(v: Value, criticality: Value, summary: Value, apps: int, lib: Library, i: nat)
    requires !v.Arr? && i < |RowsOf(criticality)| && AllObjects(RowsOf(criticality))
    requires summary.Obj? && Says(summary.fields, "application_count", apps)
    ensures var rows := RowsOf(criticality);
            && ComplianceFrom(v, criticality, summary, lib).Some?
            && var made := RowsOf(ComplianceFrom(v, criticality, summary, lib).value);
               && |made| == |rows|
               && (forall p :: Get(rows[i], "period") == Str(p) ==> Get(made[i], "period") == Str(p))
               && Get(made[i], "total_apps") == Num(apps) && Get(made[i], "compliant") == Num(apps)
               && Get(made[i], "non_compliant") == Num(0)
               && Get(made[i], "compliance_rate") == Real(if apps > 0 then 100.0 else 0.0)
  {
    var rows := RowsOf(criticality);
    assert rows[i] in rows;
    ComplianceFields(rows[i], apps, lib);
  }

  lemma ThreeFields(a: string, b: string, c: string, v: Value, w: Value, x: Value)
    requires a != b && a != c && b != c
    ensures var o := Obj(map[a := v, b := w, c := x]); Get(o, a) == v && Get(o, b) == w && Get(o, c) == x
  {
  }

  lemma FiveFields(a: string, b: string, c: string, d: string, e: string, v: Value, w: Value, x: Value, y: Value,
                   z: Value)
    requires a != b && a != c && a != d && a != e && b != c && b != d && b != e && c != d && c != e && d != e
    ensures var o := Obj(map[a := v, b := w, c := x, d := y, e := z]);
            Get(o, a) == v && Get(o, b) == w && Get(o, c) == x && Get(o, d) == y && Get(o, e) == z
  {
  }

  lemma ComplianceFields(row: Value, apps: int, lib: Library)
    ensures var made := ComplianceRow(row, apps, lib);
            && Get(made, "period") == PeriodOfRow(row, lib)
            && Get(made, "total_apps") == Num(apps) && Get(made, "compliant") == Num(apps)
            && Get(made, "non_compliant") == Num(0)
            && Get(made, "compliance_rate") == Real(if apps > 0 then 100.0 else 0.0)
  {
    assert |"period"| == 6 && |"compliant"| == 9 && |"total_apps"| == 10 && |"non_compliant"| == 13;
    assert |"compliance_rate"| == 15;
    FiveFields("period", "total_apps", "compliant", "non_compliant", "compliance_rate",
               PeriodOfRow(row, lib), Num(apps), Num(apps), Num(0), Real(if apps > 0 then 100.0 else 0.0));
  }

  lemma OnboardedFields(row: Value, n: int, sum: int, lib: Library)
    ensures var made := OnboardedRow(lib)(row, n, sum);
            && Get(made, "period") == PeriodOfRow(row, lib) && Get(made, "onboarded_count") == Num(n)
            && Get(made, "cumulative_onboarded") == Num(sum)
  {
    assert |"period"| == 6 && |"onboarded_count"| == 15 && |"cumulative_onboarded"| == 20;
    ThreeFields("period", "onboarded_count", "cumulative_onboarded", PeriodOfRow(row, lib), Num(n), Num(sum));
  }

  lemma CumulativeFields(row: Value, n: int, sum: int, lib: Library)
    ensures var made := CumulativeRow(lib)(row, n, sum);
            && Get(made, "period") == PeriodOfRow(row, lib) && Get(made, "monthly_total") == Num(n)
            && Get(made, "cumulative_total") == Num(sum)
  {
    assert |"period"| == 6 && |"monthly_total"| == 13 && |"cumulative_total"| == 16;
    ThreeFields("period", "monthly_total", "cumulative_total", PeriodOfRow(row, lib), Num(n), Num(sum));
  }

  /** The column holds a number in every row. */
  predicate Numbered(rows: seq<Value>, column: string)
  {
    forall row :: row in rows ==> row.Obj? && Get(row, column).Num?
  }

  lemma {:induction false} NumbersCount(rows: seq<Value>, column: string, lib: Library)
    requires Numbered(rows, column)
    ensures forall row :: row in rows ==>
              CountUnder(column, lib)(row) == Some(RowCount(column)(row))
    ensures Sum(rows, Counted(CountUnder(column, lib))) == Sum(rows, RowCount(column))
    decreases |rows|
  {
    if rows != [] {
      NumbersCount(rows[..|rows| - 1], column, lib);
      assert rows[|rows| - 1] in rows;
    }
  }

  lemma {:induction false} AllCounted(rows: seq<Value>, count: Value -> Option<int>, made: (Value, int, int) -> Value,
                                      before: int)
    requires forall row :: row in rows ==> count(row).Some?
    ensures Accumulate(rows, count, made, before).Some?
    ensures |Accumulate(rows, count, made, before).value| == |rows|
    decreases |rows|
  {
    if rows != [] {
      assert rows[0] in rows;
      AllCounted(rows[1..], count, made, before + count(rows[0]).value);
    }
  }

  lemma RunningSum(rows: seq<Value>, column: string, lib: Library, i: nat)
    requires Numbered(rows, column) && i < |rows|
    ensures Counted(CountUnder(column, lib))(rows[i]) == RowCount(column)(rows[i])
    ensures Sum(rows[..i + 1], Counted(CountUnder(column, lib))) == Sum(rows[..i + 1], RowCount(column))
  {
    var head := rows[..i + 1];
    assert forall row :: row in head ==> row in rows;
    NumbersCount(head, column, lib);
    assert head[i] in head;
  }

  lemma RunningAt(rows: seq<Value>, count: Value -> Option<int>, made: (Value, int, int) -> Value, before: int, i: nat,
                  n: int, sum: int, r: seq<Value>)
    requires i < |rows| && Accumulate(rows, count, made, before) == Some(r)
    requires Counted(count)(rows[i]) == n && before + Sum(rows[..i + 1], Counted(count)) == sum
    ensures i < |r| && r[i] == made(rows[i], n, sum)
  {
    RunningTotalsAddUp(rows, count, made, before, i);
  }

  /** A running list made up from rows that count shows each row's count and their sum so far. */
  lemma RunningShows(rows: seq<Value>, column: string, made: (Value, int, int) -> Value, lib: Library, i: nat)
    requires Numbered(rows, column) && i < |rows|
    ensures var r := Accumulate(rows, CountUnder(column, lib), made, 0);
            && r.Some? && |r.value| == |rows|
            && r.value[i] == made(rows[i], RowCount(column)(rows[i]), Sum(rows[..i + 1], RowCount(column)))
  {
    NumbersCount(rows, column, lib);
    AllCounted(rows, CountUnder(column, lib), made, 0);
    RunningSum(rows, column, lib, i);
    var r := Accumulate(rows, CountUnder(column, lib), made, 0).value;
    RunningAt(rows, CountUnder(column, lib), made, 0, i, RowCount(column)(rows[i]),
              Sum(rows[..i + 1], RowCount(column)), r);
  }

  /** Without a list of onboarded applications, a month shows as onboarded the applications its
      compliance row counts, and as their sum what the rows up to it count together. */
  lemma OnboardedShows(v: Value, compliance: Value, lib: Library, i: nat)
    requires !v.Arr? && Numbered(RowsOf(compliance), "total_apps") && i < |RowsOf(compliance)|
    ensures var rows := RowsOf(compliance);
            && OnboardedFrom(v, compliance, lib).Some?
            && var made := RowsOf(OnboardedFrom(v, compliance, lib).value);
               && |made| == |rows|
               && (forall p :: Get(rows[i], "period") == Str(p) ==> Get(made[i], "period") == Str(p))
               && Get(made[i], "onboarded_count") == Get(rows[i], "total_apps")
               && Get(made[i], "cumulative_onboarded") == Num(Sum(rows[..i + 1], RowCount("total_apps")))
  {
    var rows := RowsOf(compliance);
    RunningShows(rows, "total_apps", OnboardedRow(lib), lib, i);
    OnboardedFields(rows[i], RowCount("total_apps")(rows[i]), Sum(rows[..i + 1], RowCount("total_apps")), lib);
    assert rows[i] in rows;
  }

  /** Likewise the running total of findings, from the rows of the severity trend. */
  lemma CumulativeShows(v: Value, criticality: Value, lib: Library, i: nat)
    requires !v.Arr? && Numbered(RowsOf(criticality), "total") && i < |RowsOf(criticality)|
    ensures var rows := RowsOf(criticality);
            && CumulativeFrom(v, criticality, lib).Some?
            && var made := RowsOf(CumulativeFrom(v, criticality, lib).value);
               && |made| == |rows|
               && (forall p :: Get(rows[i], "period") == Str(p) ==> Get(made[i], "period") == Str(p))
               && Get(made[i], "monthly_total") == Get(rows[i], "total")
               && Get(made[i], "cumulative_total") == Num(Sum(rows[..i + 1], RowCount("total")))
  {
    var rows := RowsOf(criticality);
    RunningShows(rows, "total", CumulativeRow(lib), lib, i);
    CumulativeFields(rows[i], RowCount("total")(rows[i]), Sum(rows[..i + 1], RowCount("total")), lib);
    assert rows[i] in rows;
  }

  /** Without resolution times, none is known and nothing fixed in any month. */
  lemma DaysShow(v: Value, compliance: Value, lib: Library, i: nat)
    requires !v.Arr? && AllObjects(RowsOf(compliance)) && i < |RowsOf(compliance)|
    ensures var rows := RowsOf(compliance);
            && DaysFrom(v, compliance, lib).Some?
            && var made := RowsOf(DaysFrom(v, compliance, lib).value);
               && |made| == |rows|
               && (forall p :: Get(rows[i], "period") == Str(p) ==> Get(made[i], "period") == Str(p))
               && Get(made[i], "average_days") == Real(0.0) && Get(made[i], "fixed_count") == Num(0)
  {
    DayFields(PeriodOfRow(RowsOf(compliance)[i], lib));
  }

  lemma DayFields(period: Value)
    ensures var made := Obj(map["period" := period, "average_days" := Real(0.0), "fixed_count" := Num(0)]);
            && Get(made, "period") == period && Get(made, "average_days") == Real(0.0)
            && Get(made, "fixed_count") == Num(0)
  {
    assert |"period"| == 6 && |"average_days"| == 12 && |"fixed_count"| == 11;
    ThreeFields("period", "average_days", "fixed_count", period, Real(0.0), Num(0));
  }

  // ---------------------------------------------------------------- licenses

  /** The row of one technology: as many units as scans, and no concurrent use known. */
  predicate Consumes(row: Value, technology: string, scans: int, apps: int)
  {
    && Get(row, "technology") == Str(technology)
    && Get(row, "consumed_units") == Num(scans) && Get(row, "consumed_scans") == Num(scans)
    && Get(row, "consumed_apps") == Num(apps) && Get(row, "peak_concurrent") == Num(0)
  }

  lemma LicenseRowShows(technology: string, scans: int, apps: int)
    ensures Consumes(LicenseRow(technology, scans, apps), technology, scans, apps)
  {
    assert |"technology"| == 10 && |"consumed_units"| == |"consumed_scans"| == 14 && |"consumed_apps"| == 13;
    assert |"peak_concurrent"| == 15 && "consumed_units"[9] != "consumed_scans"[9];
    FiveFields("technology", "consumed_units", "consumed_scans", "consumed_apps", "peak_concurrent", Str(technology),
               Num(scans), Num(scans), Num(apps), Num(0));
  }

  lemma FormerSays(v: Value, technology: string, counts: Fields, column: string, n: int, lib: Library)
    requires Get(v, technology) == Obj(counts) && Says(counts, column, n)
    ensures DictOrEmpty(Get(v, technology)).Some? && Former(v, technology, column, lib) == n
  {
    SaysCount(counts, column, n, lib);
  }

  /** A table with a row for each of the four technologies, of which two have consumed something. */
  predicate Table(t: Value, source: string, dastScans: int, dastApps: int, sastScans: int, sastApps: int)
  {
    var rows := RowsOf(Get(t, "technologies"));
    && Get(t, "detected_model") == Str("unknown") && Get(t, "detected_model_label") == Str("Unknown")
    && Get(t, "model_source") == Str(source) && |rows| == 4
    && Consumes(rows[0], "DAST", dastScans, dastApps) && Consumes(rows[1], "SAST", sastScans, sastApps)
    && Consumes(rows[2], "SCA", 0, 0) && Consumes(rows[3], "IAST", 0, 0)
  }

  lemma TableNames(source: string, dastScans: int, dastApps: int, sastScans: int, sastApps: int)
    ensures var t := LicenseTable(source, dastScans, dastApps, sastScans, sastApps);
            && Get(t, "detected_model") == Str("unknown") && Get(t, "detected_model_label") == Str("Unknown")
            && Get(t, "model_source") == Str(source)
  {
  }

  lemma TableShows(source: string, dastScans: int, dastApps: int, sastScans: int, sastApps: int)
    ensures var t := LicenseTable(source, dastScans, dastApps, sastScans, sastApps);
            Table(t, source, dastScans, dastApps, sastScans, sastApps)
  {
    LicenseParts(source, dastScans, dastApps, sastScans, sastApps);
    TableNames(source, dastScans, dastApps, sastScans, sastApps);
    LicenseRowShows("DAST", dastScans, dastApps);
    LicenseRowShows("SAST", sastScans, sastApps);
    LicenseRowShows("SCA", 0, 0);
    LicenseRowShows("IAST", 0, 0);
  }

  /** Where the counts of the old license table go: the dynamic and static ones to their rows, the
      other two technologies have none. Without any table nothing is consumed. */
  lemma LicenseShows(v: Value, lib: Library, dast: Fields, sast: Fields, dastScans: int, dastApps: int, sastScans: int,
                     sastApps: int)
    requires v.Obj? && "technologies" !in v.fields && Get(v, "dast") == Obj(dast) && Get(v, "sast") == Obj(sast)
    requires Says(dast, "consumed_scans", dastScans) && Says(dast, "consumed_apps", dastApps)
    requires Says(sast, "consumed_scans", sastScans) && Says(sast, "consumed_apps", sastApps)
    ensures LicenseFrom(v, lib).Some?
    ensures Table(LicenseFrom(v, lib).value, "legacy", dastScans, dastApps, sastScans, sastApps)
    ensures Table(LicenseFrom(Null, lib).value, "unknown", 0, 0, 0, 0)
  {
    FormerSays(v, "dast", dast, "consumed_scans", dastScans, lib);
    FormerSays(v, "dast", dast, "consumed_apps", dastApps, lib);
    FormerSays(v, "sast", sast, "consumed_scans", sastScans, lib);
    FormerSays(v, "sast", sast, "consumed_apps", sastApps, lib);
    LicenseIs(v, lib);
    TableShows("legacy", dastScans, dastApps, sastScans, sastApps);
    TableShows("unknown", 0, 0, 0, 0);
  }

  // ---------------------------------------------------------------- raw counts

  lemma SaysOrZero(m: Fields, k: string, n: int, lib: Library)
    requires Says(m, k, n)
    ensures IntOrZero(Field(m, k), lib) == Some(n)
  {
  }

  function RawTable(critical: int, high: int, medium: int, low: int, total: int): Value
  {
    Obj(map["critical" := Num(critical), "high" := Num(high), "medium" := Num(medium), "low" := Num(low),
            "unknown" := Num(0), "total" := Num(total)])
  }

  lemma OneField(m: Fields, a: string, v: Value)
    ensures Get(Obj(m[a := v]), a) == v
    ensures forall k :: k != a ==> Get(Obj(m[a := v]), k) == Get(Obj(m), k)
  {
  }

  lemma RawFields(critical: int, high: int, medium: int, low: int, total: int)
    ensures var r := RawTable(critical, high, medium, low, total);
            && Get(r, "critical") == Num(critical) && Get(r, "high") == Num(high) && Get(r, "medium") == Num(medium)
            && Get(r, "low") == Num(low) && Get(r, "unknown") == Num(0) && Get(r, "total") == Num(total)
  {
    assert |"low"| == 3 && |"high"| == 4 && |"total"| == 5 && |"medium"| == 6 && |"unknown"| == 7 && |"critical"| == 8;
    FiveFields("critical", "high", "medium", "low", "unknown", Num(critical), Num(high), Num(medium), Num(low), Num(0));
    OneField(map["critical" := Num(critical), "high" := Num(high), "medium" := Num(medium), "low" := Num(low),
                 "unknown" := Num(0)], "total", Num(total));
  }

  lemma RawTotal(stats: Fields, lib: Library, sum: int, total: int)
    requires Says(stats, "total_issues", total)
    ensures IntOrZero(Or(Field(stats, "total_issues"), Num(sum)), lib) == Some(if total != 0 then total else sum)
  {
  }

  /** The five figures as the normaliser reads them, the total with their sum in its place. */
  predicate Read(stats: Fields, lib: Library, critical: int, high: int, medium: int, low: int, total: int)
  {
    && IntOrZero(Field(stats, "critical_issues"), lib) == Some(critical)
    && IntOrZero(Field(stats, "high_issues"), lib) == Some(high)
    && IntOrZero(Field(stats, "medium_issues"), lib) == Some(medium)
    && IntOrZero(Field(stats, "low_issues"), lib) == Some(low)
    && IntOrZero(Or(Field(stats, "total_issues"), Num(critical + high + medium + low)), lib) == Some(total)
  }

  lemma RawRead(stats: Fields, lib: Library, critical: int, high: int, medium: int, low: int, total: int, shown: int)
    requires Says(stats, "critical_issues", critical) && Says(stats, "high_issues", high)
    requires Says(stats, "medium_issues", medium) && Says(stats, "low_issues", low)
    requires Says(stats, "total_issues", total)
    requires shown == if total != 0 then total else critical + high + medium + low
    ensures Read(stats, lib, critical, high, medium, low, shown)
  {
    SaysOrZero(stats, "critical_issues", critical, lib);
    SaysOrZero(stats, "high_issues", high, lib);
    SaysOrZero(stats, "medium_issues", medium, lib);
    SaysOrZero(stats, "low_issues", low, lib);
    RawTotal(stats, lib, critical + high + medium + low, total);
  }

  lemma RawMade(stats: Fields, lib: Library, critical: int, high: int, medium: int, low: int, shown: int)
    requires Read(stats, lib, critical, high, medium, low, shown)
    ensures RawFindings(stats, lib) == Some(RawTable(critical, high, medium, low, shown))
  {
  }

  /** Without a prioritisation the raw counts are those of the statistics; the total, if it is
      missing or zero, is their sum. */
  lemma RawShows(stats: Fields, lib: Library, critical: int, high: int, medium: int, low: int, total: int)
    requires Says(stats, "critical_issues", critical) && Says(stats, "high_issues", high)
    requires Says(stats, "medium_issues", medium) && Says(stats, "low_issues", low)
    requires Says(stats, "total_issues", total)
    ensures RawFindings(stats, lib).Some?
    ensures var r := RawFindings(stats, lib).value;
            && Get(r, "critical") == Num(critical) && Get(r, "high") == Num(high) && Get(r, "medium") == Num(medium)
            && Get(r, "low") == Num(low) && Get(r, "unknown") == Num(0)
            && Get(r, "total") == Num(if total != 0 then total else critical + high + medium + low)
  {
    var shown := if total != 0 then total else critical + high + medium + low;
    RawRead(stats, lib, critical, high, medium, low, total, shown);
    RawMade(stats, lib, critical, high, medium, low, shown);
    RawFields(critical, high, medium, low, shown);
  }
}
