/** The values the tracker stores: one record per calendar day, the editor's
    unsaved draft, and the two conversions between them. */
module DayRecord {
  import opened Wrappers

  /** Stand-in for a JavaScript number entered in a numeric field (weight,
      insulin level); the model never computes with it. */
  type Measurement = int

  /** Flow intensity; "not recorded" is `None` of `Option<Flow>`. */
  datatype Flow = Light | Medium | Heavy

  /** Severity scale of the hair-loss and acne selectors; `NoSigns` is the
      option whose value is "none". */
  datatype Severity = NoSigns | Mild | Moderate | Severe

  /** The condition chosen at onboarding; "not chosen yet" is `None` of
      `Option<Condition>`. */
  datatype Condition = Pcos | Pcod | Neither

  /** Condition-specific metrics; every field is optional. */
  datatype Metrics = Metrics(
    weight: Option<Measurement>,
    hairLoss: Option<Severity>,
    acne: Option<Severity>,
    insulinLevel: Option<Measurement>)

  /** The object `{}`. */
  const EmptyMetrics := Metrics(None, None, None, None)

  /** A stored day record; its `metrics` field is optional. */
  datatype CycleDay = CycleDay(
    date: string,
    flow: Option<Flow>,
    symptoms: seq<string>,
    notes: string,
    metrics: Option<Metrics>)

  /** The editor's unsaved working copy of a record's fields. Its metrics are
      never absent: they start as `{}` and are only ever replaced by a
      stored record's metrics or `{}`, or merged one field at a time. */
  datatype Draft = Draft(
    flow: Option<Flow>,
    symptoms: seq<string>,
    notes: string,
    metrics: Metrics)

  /** The editor after selecting a date that has no record. */
  const EmptyDraft := Draft(None, [], "", EmptyMetrics)

  /** The date-keyed table of stored records. */
  type Table = map<string, CycleDay>

  /** The record that saving `d` under the key `date` creates. */
  function Record(date: string, d: Draft): CycleDay
  {
    CycleDay(date, d.flow, d.symptoms, d.notes, Some(d.metrics))
  }

  /** The draft that a stored record loads into the editor; missing metrics
      become empty metrics. */
  function FromRecord(rec: CycleDay): (d: Draft)
    ensures rec.metrics.None? ==> d.metrics == EmptyMetrics
    ensures Record(rec.date, d) == rec.(metrics := Some(rec.metrics.GetOr(EmptyMetrics)))
    ensures rec.metrics.Some? ==> Record(rec.date, d) == rec
  {
    Draft(rec.flow, rec.symptoms, rec.notes, rec.metrics.GetOr(EmptyMetrics))
  }

  /** The draft the editor holds after selecting `date`: the stored record's
      fields when the table has one, the empty draft otherwise. */
  function Load(t: Table, date: string): (d: Draft)
    ensures date !in t ==> d == EmptyDraft
    ensures date in t && t[date].metrics.Some? ==> Record(t[date].date, d) == t[date]
    ensures date in t && t[date].metrics.None? ==>
      Record(t[date].date, d) == t[date].(metrics := Some(EmptyMetrics))
  {
    if date in t then FromRecord(t[date]) else EmptyDraft
  }

  /** The table after saving `d` under `date`: exactly that entry is
      replaced (or added), in full, and every other entry is unchanged. */
  function Saved(t: Table, date: string, d: Draft): (r: Table)
    ensures r.Keys == t.Keys + {date}
    ensures r[date].date == date && FromRecord(r[date]) == d
    ensures r[date].metrics == Some(d.metrics)
    ensures forall k :: k in t && k != date ==> r[k] == t[k]
  {
    t[date := Record(date, d)]
  }

  /** Loading a record that was saved gives back exactly the saved draft. */
  lemma LoadSaved(t: Table, date: string, d: Draft)
    ensures Load(Saved(t, date, d), date) == d
  {
  }

  /** Saving under one key does not change what any other key loads. */
  lemma LoadOtherAfterSave(t: Table, date: string, other: string, d: Draft)
    requires other != date
    ensures Load(Saved(t, date, d), other) == Load(t, other)
  {
  }

  /** Saving twice with the same draft is the same as saving once. */
  lemma SaveIdempotent(t: Table, date: string, d: Draft)
    ensures Saved(Saved(t, date, d), date, d) == Saved(t, date, d)
  {
  }

  /** A table every entry of which is what a save creates: keyed by its own
      date and with metrics present. */
  ghost predicate WellKeyed(t: Table)
  {
    forall k :: k in t ==> t[k].date == k && t[k].metrics.Some?
  }

  /** Saving keeps a table well keyed. */
  lemma SavedWellKeyed(t: Table, date: string, d: Draft)
    requires WellKeyed(t)
    ensures WellKeyed(Saved(t, date, d))
  {
  }

  /** On a well-keyed table, saving the draft just loaded changes nothing:
      selecting a date and saving without edits is a no-op. */
  lemma SaveLoadedIsNoOp(t: Table, date: string)
    requires WellKeyed(t) && date in t
    ensures Saved(t, date, Load(t, date)) == t
  {
  }
}
