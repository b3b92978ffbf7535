/** The tracker view's state machine: the condition tag, the selected date,
    the date-keyed table of records and the editor's unsaved draft, with one
    method per event handler. */
module Tracker {
  import opened Wrappers
  import opened DayRecord
  import Symptoms

  /** Which of the two top-level screens is shown. */
  datatype Screen = Onboarding | MainView

  class Tracker {
    var condition: Option<Condition>
    var selectedDate: string
    var cycleData: Table
    // the editor's draft
    var flow: Option<Flow>
    var symptoms: seq<string>
    var notes: string
    var metrics: Metrics

    /** What the handlers keep true: every stored record sits under its own
        date with its metrics present, and every symptom list, stored or in
        the editor, is duplicate-free. */
    ghost predicate Valid()
      reads this
    {
      && WellKeyed(cycleData)
      && Symptoms.NoDuplicates(symptoms)
      && forall k :: k in cycleData ==> Symptoms.NoDuplicates(cycleData[k].symptoms)
    }

    /** The editor's fields as one value. */
    function CurrentDraft(): Draft
      reads this
    {
      Draft(flow, symptoms, notes, metrics)
    }

    /** The onboarding screen is shown while no condition is chosen; every
        handler below except the condition choice lives on the main view. */
    function CurrentScreen(): Screen
      reads this
    {
      if condition == None then Onboarding else MainView
    }

    /** The symptom buttons offered for the current condition. */
    function SymptomOptions(): (r: seq<string>)
      reads this
      ensures |Symptoms.Base| <= |r| && r[..|Symptoms.Base|] == Symptoms.Base
      ensures Symptoms.NoDuplicates(r)
    {
      Symptoms.Options(condition)
    }

    /** The initial state; `today` is the date the clock would supply. */
    constructor (today: string)
      ensures Valid()
      ensures condition == None && CurrentScreen() == Onboarding
      ensures selectedDate == today && cycleData == map[]
      ensures CurrentDraft() == EmptyDraft
    {
      condition := None;
      selectedDate := today;
      cycleData := map[];
      flow := None;
      symptoms := [];
      notes := "";
      metrics := EmptyMetrics;
    }

    /** An onboarding button: sets the condition and nothing else. */
    method ChooseCondition(c: Condition)
      requires Valid()
      modifies this`condition
      ensures Valid()
      ensures condition == Some(c) && CurrentScreen() == MainView
      ensures SymptomOptions() == Symptoms.Options(Some(c))
      ensures selectedDate == old(selectedDate) && cycleData == old(cycleData)
      ensures CurrentDraft() == old(CurrentDraft())
    {
      condition := Some(c);
    }

    /** "Change condition": back to onboarding; the table, the selected date
        and the draft are kept. */
    method ResetCondition()
      requires Valid()
      modifies this`condition
      ensures Valid()
      ensures condition == None && CurrentScreen() == Onboarding
      ensures SymptomOptions() == Symptoms.Base
      ensures selectedDate == old(selectedDate) && cycleData == old(cycleData)
      ensures CurrentDraft() == old(CurrentDraft())
    {
      condition := None;
    }

    /** The date picker: selects `date` and loads its record into the
        editor, or clears the editor when there is none; unsaved edits are
        discarded. */
    method SelectDate(date: string)
      requires Valid()
      modifies this`selectedDate, this`flow, this`symptoms, this`notes, this`metrics
      ensures Valid()
      ensures selectedDate == date
      ensures CurrentDraft() == Load(cycleData, date)
      ensures date in cycleData ==> Record(date, CurrentDraft()) == cycleData[date]
      ensures date !in cycleData ==> CurrentDraft() == EmptyDraft
      ensures cycleData == old(cycleData) && condition == old(condition)
    {
      selectedDate := date;
      if date in cycleData {
        flow := cycleData[date].flow;
        symptoms := cycleData[date].symptoms;
        notes := cycleData[date].notes;
        metrics := cycleData[date].metrics.GetOr(EmptyMetrics);
      } else {
        flow := None;
        symptoms := [];
        notes := "";
        metrics := EmptyMetrics;
      }
    }

    /** "Save Entry": stores the draft under the selected date, replacing any
        record there; every other entry, the draft and the date are kept. */
    method Save()
      requires Valid()
      modifies this`cycleData
      ensures Valid()
      ensures cycleData == Saved(old(cycleData), selectedDate, CurrentDraft())
      ensures selectedDate in cycleData && cycleData[selectedDate] == Record(selectedDate, CurrentDraft())
      ensures forall k :: k in old(cycleData) && k != selectedDate ==> k in cycleData && cycleData[k] == old(cycleData)[k]
      ensures cycleData.Keys == old(cycleData).Keys + {selectedDate}
      ensures selectedDate == old(selectedDate) && CurrentDraft() == old(CurrentDraft())
      ensures condition == old(condition)
    {
      SavedWellKeyed(cycleData, selectedDate, CurrentDraft());
      cycleData := cycleData[selectedDate := CycleDay(selectedDate, flow, symptoms, notes, Some(metrics))];
    }

    /** A symptom button: flips the label's membership in the draft. */
    method ToggleSymptom(s: string)
      requires Valid()
      modifies this`symptoms
      ensures Valid()
      ensures symptoms == Symptoms.Toggle(old(symptoms), s)
      ensures s in symptoms <==> s !in old(symptoms)
      ensures forall t :: t != s ==> (t in symptoms <==> t in old(symptoms))
      ensures flow == old(flow) && notes == old(notes) && metrics == old(metrics)
      ensures selectedDate == old(selectedDate) && cycleData == old(cycleData)
    {
      Symptoms.ToggleNoDuplicates(symptoms, s);
      symptoms := Symptoms.Toggle(symptoms, s);
    }

    /** A flow button. */
    method SetFlow(f: Flow)
      requires Valid()
      modifies this`flow
      ensures Valid()
      ensures CurrentDraft() == old(CurrentDraft()).(flow := Some(f))
      ensures selectedDate == old(selectedDate) && cycleData == old(cycleData)
    {
      flow := Some(f);
    }

    /** The notes field. */
    method SetNotes(text: string)
      requires Valid()
      modifies this`notes
      ensures Valid()
      ensures CurrentDraft() == old(CurrentDraft()).(notes := text)
      ensures selectedDate == old(selectedDate) && cycleData == old(cycleData)
    {
      notes := text;
    }

    /** The weight field (PCOS and PCOD): merges one field into the metrics. */
    method SetWeight(w: Measurement)
      requires Valid()
      modifies this`metrics
      ensures Valid()
      ensures metrics.weight == Some(w)
      ensures metrics.hairLoss == old(metrics.hairLoss) && metrics.acne == old(metrics.acne)
      ensures metrics.insulinLevel == old(metrics.insulinLevel)
      ensures flow == old(flow) && symptoms == old(symptoms) && notes == old(notes)
      ensures selectedDate == old(selectedDate) && cycleData == old(cycleData)
    {
      metrics := metrics.(weight := Some(w));
    }

    /** The hair-loss selector (PCOS). */
    method SetHairLoss(h: Severity)
      requires Valid()
      modifies this`metrics
      ensures Valid()
      ensures metrics.hairLoss == Some(h)
      ensures metrics.weight == old(metrics.weight) && metrics.acne == old(metrics.acne)
      ensures metrics.insulinLevel == old(metrics.insulinLevel)
      ensures flow == old(flow) && symptoms == old(symptoms) && notes == old(notes)
      ensures selectedDate == old(selectedDate) && cycleData == old(cycleData)
    {
      metrics := metrics.(hairLoss := Some(h));
    }

    /** The insulin-level field (PCOS). */
    method SetInsulinLevel(v: Measurement)
      requires Valid()
      modifies this`metrics
      ensures Valid()
      ensures metrics.insulinLevel == Some(v)
      ensures metrics.weight == old(metrics.weight) && metrics.hairLoss == old(metrics.hairLoss)
      ensures metrics.acne == old(metrics.acne)
      ensures flow == old(flow) && symptoms == old(symptoms) && notes == old(notes)
      ensures selectedDate == old(selectedDate) && cycleData == old(cycleData)
    {
      metrics := metrics.(insulinLevel := Some(v));
    }

    /** The acne-severity selector (PCOD). */
    method SetAcne(a: Severity)
      requires Valid()
      modifies this`metrics
      ensures Valid()
      ensures metrics.acne == Some(a)
      ensures metrics.weight == old(metrics.weight) && metrics.hairLoss == old(metrics.hairLoss)
      ensures metrics.insulinLevel == old(metrics.insulinLevel)
      ensures flow == old(flow) && symptoms == old(symptoms) && notes == old(notes)
      ensures selectedDate == old(selectedDate) && cycleData == old(cycleData)
    {
      metrics := metrics.(acne := Some(a));
    }
  }

  /** Save, visit any other date, come back: the editor shows exactly what
      was saved, and the table holds the saved record. */
  method SaveAndRevisit(t: Tracker, other: string)
    requires t.Valid()
    modifies t
    ensures t.Valid()
    ensures t.selectedDate == old(t.selectedDate) && t.condition == old(t.condition)
    ensures t.CurrentDraft() == old(t.CurrentDraft())
    ensures t.cycleData == Saved(old(t.cycleData), old(t.selectedDate), old(t.CurrentDraft()))
  {
    var date := t.selectedDate;
    t.Save();
    t.SelectDate(other);
    t.SelectDate(date);
  }

  /** Selecting a date and saving without editing leaves the table as it
      was when the date had a record, and stores an empty record otherwise. */
  method SelectAndSave(t: Tracker, date: string)
    requires t.Valid()
    modifies t
    ensures t.Valid() && t.condition == old(t.condition)
    ensures t.selectedDate == date && t.CurrentDraft() == Load(old(t.cycleData), date)
    ensures date in old(t.cycleData) ==> t.cycleData == old(t.cycleData)
    ensures date !in old(t.cycleData) ==> t.cycleData == old(t.cycleData)[date := Record(date, EmptyDraft)]
  {
    t.SelectDate(date);
    if date in t.cycleData {
      SaveLoadedIsNoOp(t.cycleData, date);
    }
    t.Save();
  }

  /** Recording a day that has no record yet: select it, record medium flow,
      cramps, hair loss and a weight, save, look at another date and come
      back. The editor shows what was recorded, and the table holds it. */
  method RecordNewDay(t: Tracker, day: string, other: string, weight: Measurement)
    requires t.Valid() && day !in t.cycleData
    modifies t
    ensures t.Valid() && t.condition == old(t.condition) && t.selectedDate == day
    ensures t.CurrentDraft() ==
      Draft(Some(Medium), ["Cramps", "Hair Loss"], "", EmptyMetrics.(weight := Some(weight)))
    ensures t.cycleData == old(t.cycleData)[day := Record(day, t.CurrentDraft())]
  {
    t.SelectDate(day);
    t.SetFlow(Medium);
    assert t.symptoms == [];
    t.ToggleSymptom("Cramps");
    assert t.symptoms == ["Cramps"];
    assert "Hair Loss" !in t.symptoms;
    t.ToggleSymptom("Hair Loss");
    assert t.symptoms == ["Cramps", "Hair Loss"];
    t.SetWeight(weight);
    t.Save();
    t.SelectDate(other);
    t.SelectDate(day);
  }

  /** A PCOS session from the start: choose PCOS, then record 2024-03-01 as
      above. */
  method PcosSession(today: string, other: string, weight: Measurement) returns (t: Tracker)
    ensures t.Valid() && t.condition == Some(Pcos) && t.selectedDate == "2024-03-01"
    ensures t.CurrentDraft() ==
      Draft(Some(Medium), ["Cramps", "Hair Loss"], "", EmptyMetrics.(weight := Some(weight)))
    ensures t.cycleData == map["2024-03-01" := Record("2024-03-01", t.CurrentDraft())]
  {
    t := new Tracker(today);
    t.ChooseCondition(Pcos);
    RecordNewDay(t, "2024-03-01", other, weight);
  }
}
