/** The scan-time section of the workbench as the normaliser leaves it. */
module ScanTimes {
  import opened Wrappers
  import opened Json
  import opened Sections
  import opened Normalizer
  import opened Profiles
  import opened LegacyRows

  // ---------------------------------------------------------------- scan times

  const TIME_KEYS := {"default_period", "default_bucket", "period_options", "bucket_options", "by_period"}
  const NO_SECTION := Obj(map[])

  function TimeField(k: string, raw: Value, series: Value, style: Style, lib: Library): Value
  {
    if k == "default_period" then DefaultPeriod(raw, lib)
    else if k == "default_bucket" then DefaultBucket(raw, style.form, style.first, lib)
    else if k == "period_options" then PeriodOptions(Get(raw, k), lib)
    else if k == "bucket_options" then style.legend
    else series
  }

  function TimeSection(raw: Value, series: Value, style: Style, lib: Library): Value
  {
    Obj(map k | k in TIME_KEYS :: TimeField(k, raw, series, style, lib))
  }

  ghost predicate NormalTimeField(k: string, v: Value, style: Style)
  {
    if k == "bucket_options" then v == style.legend else NormalField(k, v, style)
  }

  ghost predicate NormalTime(v: Value, style: Style)
  {
    v.Obj? && v.fields.Keys == TIME_KEYS && forall k :: k in TIME_KEYS ==> NormalTimeField(k, v.fields[k], style)
  }

  lemma TimeFieldIsNormal(k: string, raw: Value, series: Value, style: Style, lib: Library)
    requires k in TIME_KEYS && style.first in style.form.buckets && NormalByPeriod(style.form, series)
    ensures NormalTimeField(k, TimeField(k, raw, series, style, lib), style)
  {
    PeriodOptionsAreNormal(Get(raw, k), lib);
  }

  lemma TimeSectionIsNormal(raw: Value, series: Value, style: Style, lib: Library)
    requires style.first in style.form.buckets && NormalByPeriod(style.form, series)
    ensures NormalTime(TimeSection(raw, series, style, lib), style)
  {
    forall k | k in TIME_KEYS ensures NormalTimeField(k, TimeField(k, raw, series, style, lib), style) {
      TimeFieldIsNormal(k, raw, series, style, lib);
    }
  }

  lemma NormalTimeFieldIsFixed(k: string, v: Value, series: Value, style: Style, lib: Library)
    requires k in TIME_KEYS && "" !in style.form.buckets
    requires v.Obj? && k in v.fields && NormalTimeField(k, v.fields[k], style)
    requires k == "by_period" ==> series == v.fields[k]
    ensures TimeField(k, v, series, style, lib) == v.fields[k]
  {
    assert Get(v, k) == v.fields[k];
    if k == "default_period" {
      DefaultPeriodIsFixed(v, lib);
    } else if k == "default_bucket" {
      DefaultBucketIsFixed(v, style.form, style.first, lib);
    } else if k == "period_options" {
      PeriodOptionsAreFixed(v.fields[k], lib);
    }
  }

  lemma SameFields(v: Value, series: Value, style: Style, lib: Library)
    requires v.Obj? && v.fields.Keys == TIME_KEYS
    requires forall k :: k in TIME_KEYS ==> TimeField(k, v, series, style, lib) == v.fields[k]
    ensures TimeSection(v, series, style, lib) == v
  {
    assert TimeSection(v, series, style, lib).fields == v.fields;
  }

  lemma NormalTimeHasSeries(v: Value, style: Style)
    requires NormalTime(v, style)
    ensures NormalByPeriod(style.form, v.fields["by_period"])
  {
    assert NormalTimeField("by_period", v.fields["by_period"], style);
  }

  lemma NormalTimeIsFixed(v: Value, style: Style, now: Now, lib: Library)
    requires "" !in style.form.buckets && NormalTime(v, style)
    ensures v.fields["by_period"].Obj?
    ensures TimeSection(v, ByPeriodFrom(style.form, v.fields["by_period"], now, lib), style, lib) == v
  {
    var series := v.fields["by_period"];
    NormalTimeHasSeries(v, style);
    NormalByPeriodIsFixed(style.form, series, now, lib);
    forall k | k in TIME_KEYS ensures TimeField(k, v, series, style, lib) == v.fields[k] {
      NormalTimeFieldIsFixed(k, v, series, style, lib);
    }
    SameFields(v, series, style, lib);
  }

  const TIME_LABELS := ["<5m", "5-10m", "10-30m", "30-60m", "60-120m", "120-240m", "240-300m", ">=300m"]

  function TimeStyle(): Style
  {
    Style(FormOf(ScanTime), "lt5",
          Arr(seq(8, i requires 0 <= i < 8 =>
                  Obj(map["key" := Str(KeyList(DURATIONS)[i]), "label" := Str(TIME_LABELS[i])]))))
  }

  lemma TimeStyleFits()
    ensures TimeStyle().form == FormOf(ScanTime) && TimeStyle().first in TimeStyle().form.buckets
              && "" !in TimeStyle().form.buckets
  {
    DurationNames();
    EdgeIsKey(DURATIONS, 0);
  }

  /** The two lists of a section from before the series; None where adding them raises. The
      characters of two strings are no rows. */
  function LegacyLists(raw: Value): Option<(seq<Value>, seq<Value>)>
  {
    var mixed, dast := Or(Get(raw, "sast_sca"), Arr([])), Or(Get(raw, "dast"), Arr([]));
    if mixed.Arr? && dast.Arr? then Some((mixed.items, dast.items))
    else if mixed.Str? && dast.Str? then Some(([], []))
    else None
  }

  /** The series of a scan-time section: those stored, or those migrated. */
  function TimeSeries(raw: Value, form: Form, now: Now, lib: Library): Option<Value>
  {
    if Get(raw, "by_period").Obj? then Some(ByPeriodFrom(form, Get(raw, "by_period"), now, lib))
    else
      var lists := LegacyLists(raw);
      if lists.None? then None else Some(Seeded(form, MonthRows(lists.value.0, lists.value.1, now.month, lib), now))
  }

  function ScanTimeFrom(raw: Value, now: Now, lib: Library): Option<Value>
  {
    var series := TimeSeries(raw, TimeStyle().form, now, lib);
    if series.None? then None
    else Some(TimeSection(if Get(raw, "by_period").Obj? then raw else NO_SECTION, series.value, TimeStyle(), lib))
  }

  lemma TimeSeriesIsNormal(raw: Value, now: Now, lib: Library)
    requires Proper(now) && TimeSeries(raw, FORM, now, lib).Some?
    ensures NormalByPeriod(FORM, TimeSeries(raw, FORM, now, lib).value)
  {
    if Get(raw, "by_period").Obj? {
      ByPeriodFromIsNormal(FORM, Get(raw, "by_period"), now, lib);
    } else {
      var lists := LegacyLists(raw).value;
      MonthRowsAreNormal(lists.0, lists.1, now.month, lib);
      SeededIsNormal(FORM, MonthRows(lists.0, lists.1, now.month, lib), now);
    }
  }

  lemma ScanTimeIsNormal(raw: Value, now: Now, lib: Library)
    requires Proper(now) && ScanTimeFrom(raw, now, lib).Some?
    ensures NormalTime(ScanTimeFrom(raw, now, lib).value, TimeStyle())
  {
    TimeStyleFits();
    TimeSeriesIsNormal(raw, now, lib);
    TimeSectionIsNormal(if Get(raw, "by_period").Obj? then raw
                        else NO_SECTION, TimeSeries(raw, FORM, now, lib).value, TimeStyle(), lib);
  }

  lemma NormalScanTimeIsFixed(v: Value, now: Now, lib: Library)
    requires NormalTime(v, TimeStyle())
    ensures ScanTimeFrom(v, now, lib) == Some(v)
  {
    TimeStyleFits();
    NormalTimeIsFixed(v, TimeStyle(), now, lib);
  }

  /** Normalising the scan times a second time changes nothing, at whatever time. */
  lemma ScanTimeIdempotent(raw: Value, now: Now, later: Now, lib: Library)
    requires Proper(now)
    ensures ScanTimeFrom(raw, now, lib).Some? ==>
              ScanTimeFrom(ScanTimeFrom(raw, now, lib).value, later, lib) == ScanTimeFrom(raw, now, lib)
  {
    if ScanTimeFrom(raw, now, lib).Some? {
      ScanTimeIsNormal(raw, now, lib);
      NormalScanTimeIsFixed(ScanTimeFrom(raw, now, lib).value, later, lib);
    }
  }
}
