# Luna Track day-record editor, in Dafny

Luna Track is a single-page React app for logging menstrual-cycle observations
by calendar day. Its only logic is the tracker view's editor state machine in
`src/App.tsx`. This project models that state machine:

- the condition tag (PCOS, PCOD, neither, or not chosen yet);
- the selected date;
- the date-keyed table of day records (`cycleData`);
- the unsaved editor draft: flow, symptom list, notes and metrics.

Each event handler is a method of the class `Tracker.Tracker`. The contracts
of the date-select, save, toggle and condition handlers tie the new state to
pure specification functions in `DayRecord` (`Load`, `Saved`) and `Symptoms`
(`Options`, `Toggle`). The class's `SymptomOptions` reads the vocabulary for
the current condition. The field setters state a one-field update of the old
draft. Lemmas about those functions prove the properties the app relies on:

- the save/select round trip;
- saving is idempotent;
- saving under one key leaves the other keys alone;
- toggling a symptom flips its membership, keeps every other label and its
  order, and appends an absent label at the end;
- toggling an absent label twice restores the list exactly, and toggling any
  label twice restores which labels are present.

Files:

- `Wrappers.dfy`: `Option`, standing for `null` and absent optional fields.
- `DayRecord.dfy`: the record, draft and metric types, and the loading and
  saving functions. `Record` builds the object literal that a save stores
  (lines 123-129); `Saved` and `FromRecord` state its properties.
- `Symptoms.dfy`: the symptom vocabularies, `filter` (`Remove`, line 136) and the toggle.
- `Tracker.dfy`: the stateful class, plus four client methods that run
  handler sequences.

Two details of the code worth knowing:

- Flow has three values (light, medium, heavy) plus "not recorded". There is
  no separate "none" value.
- Symptoms are an ordered list, not a set. Toggling appends at the end, and
  removal drops every copy of the label.

## Model

| member | source | states |
|---|---|---|
| `DayRecord.FromRecord` | src/App.tsx:107-111 | loading a record takes its flow, symptoms and notes as they are and its metrics, or `{}` when they are absent; re-saving the loaded draft under the record's own date gives back the record with absent metrics replaced by `{}` |
| `DayRecord.Load` | src/App.tsx:105-118 | a date with no record loads the empty draft (null flow, no symptoms, empty notes, `{}` metrics); a date with a record loads a draft that saves back to exactly that record (metrics defaulted to `{}` when absent) |
| `DayRecord.Saved` | src/App.tsx:120-131 | after a save, the keys are the old keys plus the selected date; the new entry carries the key as its date and the draft's fields, with its metrics present; every other entry is unchanged |
| `DayRecord.LoadSaved` | src/App.tsx:105-131 | loading the date just saved gives back exactly the saved draft |
| `DayRecord.LoadOtherAfterSave` | src/App.tsx:105-131 | saving under one date does not change what any other date loads |
| `DayRecord.SaveIdempotent` | src/App.tsx:120-131 | saving twice with the same draft equals saving once |
| `DayRecord.SavedWellKeyed` | src/App.tsx:120-131 | saving keeps every entry keyed by its own date, with metrics present |
| `DayRecord.SaveLoadedIsNoOp` | src/App.tsx:105-131 | on a well-keyed table, saving the draft just loaded from an existing record leaves the table unchanged |
| `Symptoms.Options` | src/App.tsx:30-62 | every vocabulary starts with the 7 base labels; PCOS is base plus its 6 extra labels (13 in all, including Hair Loss and Insulin Resistance); PCOD is base plus its 4 (11, including Pelvic Pain and not Insulin Resistance); neither and not-chosen give base alone; no list repeats a label |
| `Symptoms.VocabularyDuplicateFree` | src/App.tsx:30-51 | the base, PCOS and PCOD lists are each duplicate-free |
| `Symptoms.ConditionVocabularyExtendsBase` | src/App.tsx:30-51 | every base label is offered for PCOS and for PCOD, and each of them also offers a label that base lacks (a strict superset) |
| `Symptoms.RemoveMembership` | src/App.tsx:136 | a label survives `filter` exactly when it was in the list and differs from the removed one |
| `Symptoms.RemoveAbsent` | src/App.tsx:136 | filtering out an absent label returns the list unchanged |
| `Symptoms.RemoveAppend` | src/App.tsx:136 | filtering distributes over concatenation, so it keeps the order of the remaining labels |
| `Symptoms.RemoveNoDuplicates` | src/App.tsx:136 | filtering keeps a duplicate-free list duplicate-free |
| `Symptoms.Toggle` | src/App.tsx:133-139 | the toggled label is in the result exactly when it was not in the input; every other label keeps its membership; with the toggled label filtered out, input and result are the same list (the other labels keep their relative order); an absent label is appended at the end |
| `Symptoms.ToggleTwice` | src/App.tsx:135-137 | toggling an absent label twice restores the original list exactly |
| `Symptoms.ToggleTwiceMembership` | src/App.tsx:135-137 | toggling any label twice restores which labels are present (a label that was present comes back at the end, so the order may differ) |
| `Symptoms.ToggleNoDuplicates` | src/App.tsx:135-137 | toggling keeps a duplicate-free list duplicate-free |
| `Tracker.Tracker.SymptomOptions` | src/App.tsx:53-62 | the buttons offered for the stored condition start with the 7 base labels and repeat no label |
| `Tracker.Tracker.constructor` | src/App.tsx:20-28 | the initial state: no condition, the given date selected, an empty table, the empty draft |
| `Tracker.Tracker.ChooseCondition` | src/App.tsx:75-89 | an onboarding button sets the condition, which unlocks the main view and switches the symptom buttons to that condition's vocabulary; the table, the selected date and the draft are unchanged |
| `Tracker.Tracker.ResetCondition` | src/App.tsx:358 | "Change condition" resets the condition to none, which returns to onboarding and falls back to the base vocabulary; the table, the selected date and the draft are unchanged |
| `Tracker.Tracker.SelectDate` | src/App.tsx:105-118 | the selected date becomes `date`; the draft becomes the loaded record, or the empty draft when there is none; the table and the condition are unchanged |
| `Tracker.Tracker.Save` | src/App.tsx:120-131 | the table becomes `Saved(old table, selected date, draft)`: exactly one entry is written and the others are kept; the draft and the selected date are unchanged |
| `Tracker.Tracker.ToggleSymptom` | src/App.tsx:133-139 | the draft's symptoms become `Toggle(old symptoms, s)`, flipping the membership of `s` only; the other fields are unchanged |
| `Tracker.Tracker.SetFlow` | src/App.tsx:268 | a flow button sets the draft's flow and changes nothing else |
| `Tracker.Tracker.SetNotes` | src/App.tsx:306 | the notes field sets the draft's notes and changes nothing else |
| `Tracker.Tracker.SetWeight` | src/App.tsx:152 | the weight field (also line 191, the PCOD form) sets the weight and keeps the other metrics and draft fields |
| `Tracker.Tracker.SetHairLoss` | src/App.tsx:160 | the hair-loss selector sets the hair-loss metric and keeps the other metrics and draft fields |
| `Tracker.Tracker.SetInsulinLevel` | src/App.tsx:174 | the insulin field sets the insulin metric and keeps the other metrics and draft fields |
| `Tracker.Tracker.SetAcne` | src/App.tsx:199 | the acne selector sets the acne metric and keeps the other metrics and draft fields |
| `Tracker.SaveAndRevisit` | src/App.tsx:105-131 | save, select any other date, select the saved date again: the same date is selected, the draft is exactly what was saved, the table holds the saved record, and the condition is unchanged |
| `Tracker.SelectAndSave` | src/App.tsx:105-131 | selecting a date and saving without edits leaves the table unchanged when the date had a record, and otherwise adds an empty record for it; the date is selected, the editor shows the draft loaded for it, and the condition is unchanged |
| `Tracker.RecordNewDay` | src/App.tsx:105-199 | on a date with no record: select it, set medium flow, toggle Cramps and Hair Loss, set a weight, save, leave and come back. The editor then shows medium flow, symptoms [Cramps, Hair Loss] and that weight, and the table gains exactly that record |
| `Tracker.PcosSession` | src/App.tsx:75-199 | from the initial state: choose PCOS, then record 2024-03-01 as above. The condition is PCOS, and the table holds that one record |

`Tracker.Tracker.Valid` is the class invariant, and every handler keeps it:

- every stored record sits under its own date, with its metrics present;
- every symptom list, stored or in the editor, is duplicate-free.

## Left out

- Rendering, CSS, icons, tab switching (`activeTab`), the static insights text, the privacy text and the notification checkbox, which is wired to no state: none of them holds logic.
- The clock: the date that initially comes from `new Date().toISOString()` is the constructor's `today` parameter.
- `parseFloat` on the weight and insulin inputs, and the NaN it produces for text that is not numeric. Numeric metrics are an opaque `Measurement` (an `int` stand-in) that the setter stores as given.
- React's batched, asynchronous state updates and closure capture: each handler is one atomic sequential method.
- Date-string validation: the code performs none, so keys are arbitrary strings, including the empty string a cleared date input gives.
- Keys that JavaScript objects inherit from their prototype (such as `constructor`): `cycleData[date]` would find a value there with no record. A date input never supplies such a key, so the table is a plain map.
- The rendering gate at line 64 is modelled as `CurrentScreen`, not as a precondition on the main-view handlers. Their logic does not read the condition.
- The model does not restrict which labels can be toggled to the current vocabulary, just as the code does not: the buttons only offer vocabulary labels, but labels chosen under an earlier condition stay in the draft.
- The metric setters are available under every condition. The code renders the weight, hair-loss and insulin inputs only for PCOS, and the weight and acne inputs only for PCOD (lines 141-212). Metrics entered under one condition stay in the draft after the condition changes, as they do in the code.
