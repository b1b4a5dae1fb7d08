# Machine maintenance scheduler — verified model of the scheduling core

This project models the part of the machine maintenance scheduler (`script.js`, class
`MachineMaintenanceScheduler`) that has logic worth proving:

- **Schedule derivation.** A machine record becomes exactly three tasks taken from a fixed
  template table ("Check oil levels" High, "Inspect belts" Medium, "Clean filters" Medium).
  Each task starts as `Scheduled`. Task *i* is due on `lastServicedDate + daysToAdd * (i + 1)`.
  `daysToAdd` is 1, 7 or 30 for daily, weekly or monthly use, and 30 for anything else.
  Alongside the tasks, the generator builds an advisory from:
  - a machine profile, chosen by the first keyword group found in the lowercased name;
  - a commentary block for the usage frequency;
  - the whole days since the last service;
  - one of five templates, picked at random.

  The model also covers the priority badge lookup and the premium checklists attached to
  tasks.
- **Saved-schedule repository and session slot.** The `MaintenanceScheduler` class holds
  three things: the saved-schedule list, the machine list and the session slot
  (`currentSchedule`). Its operations are:
  - save appends one record, identified by the clock's decimal text, with due dates written
    as text;
  - load rehydrates the first record with the given id into the slot;
  - delete (once the user confirms) removes every record with the id;
  - reset empties the slot.

  Two ghost fields stand for the two local-store entries. Each mutation overwrites them with
  the whole list, and the class invariant `Valid()` says memory and store agree. The model
  proves the save→load round trip. It also proves that deleting a just-saved record restores
  the list.

Dates are day numbers and clock instants are milliseconds. The date-only form input parses
to midnight UTC, so a day `d` is the instant `d * 86400000`. The following are parameters of
the operations that use them:

- the clock (`new Date()`);
- the `Date.now()` readings;
- the `Math.random()` draw.

`generateMaintenanceSchedule` reads `Date.now()` once per task, so it takes one reading per
task. The task ids are distinct whenever the clock does not go back between readings. If the
clock steps back by a millisecond, two tasks share an id (`Schedule.ClockStepBackRepeatsId`).

A due date's ISO text is modelled as the signed decimal text of its day number
(`DecimalText`). The save/load codec only needs this text to read back to the same date. The
same codec is exact for `Date.now().toString()`, which gives the record ids.

`saveCurrentSchedule`, `deleteSavedSchedule` and `saveMachineData` update the in-memory list
first and then call `localStorage.setItem` without a `try`. A write that throws therefore leaves
the list changed and the stored copy as it was. The JSON export carries no task ids, so
importing it gives the session back only when the ids are supplied
(`Records.ExportRoundTripUpToIds`).

Files: `wrappers.dfy` (Option), `decimal_text.dfy` (codec), `text.dfy` (string operations),
`advisory.dfy` (advisory lookups), `schedule.dfy` (generator), `checklists.dfy`,
`records.dfy` (records, lookup, removal, card, export), `scheduler.dfy` (the class),
`scenarios.dfy` (worked examples: a weekly CNC mill, an unknown frequency, save then delete).

## Model

| member | source | states |
|---|---|---|
| DecimalText.NatToText | script.js:631 | the decimal text of a clock reading is a non-empty run of digits with no leading zero |
| DecimalText.NatRoundTrip | script.js:631 | reading back the decimal text of a natural number gives that number |
| DecimalText.IntRoundTrip | script.js:637 | a due date written as text by `DecimalText.IntToText` reads back by `DecimalText.TextToInt` as the same date |
| DecimalText.IntToTextInjective | script.js:631 | two clock readings give the same id text exactly when they are equal |
| Text.ToLower | script.js:109 | lowercasing keeps the length, maps each upper-case letter to its lower-case letter (code + 32), leaves no upper-case letter and changes nothing else |
| Text.ContainsIffOccurs | script.js:334 | `Text.Contains`, the model of `includes`, holds exactly when the keyword occurs at some position of the name |
| Text.ContainsGivesOccurrence | script.js:334 | a keyword `includes` finds occurs at a position of the name |
| Text.OccurrenceGivesContains | script.js:334 | a keyword occurring at any position of the name is found by `includes` |
| Text.CapitalizeFirst | script.js:712 | the usage label upper-cases the first letter and keeps the rest and the length |
| Text.Preview | script.js:738 | a reminder of at most 150 characters is shown whole; a longer one is shown as its first 150 characters followed by "..." |
| Advisory.FirstMatchingGroup | script.js:334-389 | the index returned is that of a matching keyword group with no earlier match; None exactly when no group matches |
| Advisory.ProfileByFirstMatch | script.js:320-391 | `Advisory.MachineSpecificIssues`, the model of `getMachineSpecificIssues`, gives machining, press, welding, pump or conveyor exactly when its keyword group is the first to match, and the default exactly when none matches |
| Advisory.FrequencySpecificWarnings | script.js:394-420 | the default block is chosen exactly for frequencies other than daily, weekly and monthly, and the weekly block carries the day count |
| Advisory.FrequencyWarningsDistinct | script.js:394-420 | each known frequency has its own block, and only the weekly block depends on the day count |
| Advisory.TemplateIndex | script.js:127 | the template index is the floor of five times the draw, so it lies in 0..4 |
| Advisory.EveryTemplateReachable | script.js:115-127 | each of the five templates is chosen for some draw |
| Advisory.DaysSinceService | script.js:107 | the day count is the floor of the elapsed time in days, and it is negative exactly when the service day is in the future |
| Schedule.DaysToAdd | script.js:76-83 | the offset is 1 exactly for daily, 7 exactly for weekly, and 30 for every other value |
| Schedule.GenerateAIReminder | script.js:106-113 | the advisory uses the template `Math.floor(random * 5)` picks (one of five), the machine's name and usage, the whole days since the last service, the first task's due date, the profile of the lowercased machine name and the warnings for the usage and those days |
| Schedule.GenerateMaintenanceSchedule | script.js:65-104 | yields three tasks following the template table in order, due at last service + offset*(i+1), with id clock[i]+i and the advisory; dates strictly increase and ids are distinct when the clock does not go back |
| Schedule.GeneratedScheduleProperties | script.js:70-98 | every generated schedule has priorities High/Medium/Medium, all tasks Scheduled, due dates evenly spaced by the offset and strictly increasing, distinct ids on a non-decreasing clock, and an advisory naming the earliest due date |
| Schedule.SameClockIds | script.js:91 | with one clock reading for the batch, the task ids are seed, seed+1 and seed+2 |
| Schedule.ClockStepBackRepeatsId | script.js:91 | a clock that steps back one millisecond between tasks gives two tasks the same id |
| Schedule.PriorityClass | script.js:798-805 | High, Medium and Low get their own badge classes, and every other priority gets the fallback |
| Schedule.PriorityClassesDistinct | script.js:798-805 | the three priorities get three different badges, and no template task gets the fallback |
| Checklists.PremiumChecklists | script.js:191-194 | only tasks whose name has a checklist are kept; each item carries that name's checklist; the result is empty exactly when no task has one |
| Checklists.PremiumChecklistsKeeps | script.js:191-194 | the items are exactly the table checklists of the input tasks whose name has one |
| Checklists.PremiumChecklistsAppend | script.js:191-194 | the filter keeps task order: the checklists of a concatenation are the concatenation of the checklists |
| Checklists.GeneratedTasksHaveChecklists | script.js:134-194 | a generated schedule yields all three checklists, in task order |
| Records.SerializeTask | script.js:635-638 | the stored due-date text of a task reads back as its due date |
| Records.DeserializeTask | script.js:755-758 | rehydrating a stored task inverts serialization exactly when the date text is the date's canonical text |
| Records.Snapshot | script.js:630-642 | the saved record carries the given id and save time, one stored task per task, and each stored date reads back as the task's date |
| Records.Rehydrate | script.js:753-773 | the loaded session takes the record's machine name, one task per stored task, and dates read from the stored text |
| Records.SaveLoadRoundTrip | script.js:753-773 | rehydrating the record saved from a session gives back that session exactly: machine data, tasks with their dates, advisory and generation time |
| Records.FindById | script.js:746 | the index found holds the id and no earlier record does; None exactly when no record has the id |
| Records.RemoveById | script.js:791 | no remaining record has the removed id, and the list never grows |
| Records.RemoveByIdKeeps | script.js:791 | the remaining records are exactly those whose id differs, and an absent id changes nothing |
| Records.RemoveByIdAppend | script.js:791 | removal keeps the order of the remaining records: it distributes over concatenation |
| Records.RemoveByIdIdempotent | script.js:791 | removing the same id twice is removing it once |
| Records.LoadAfterSave | script.js:745-773 | after saving under a fresh id, that id is found at the new last record, and loading it restores the session |
| Records.DeleteAfterSave | script.js:786-792 | deleting a record just saved under a fresh id restores the earlier list |
| Records.UpcomingTask | script.js:702 | the next-due index is the first task whose date is after now; None exactly when no task is |
| Records.UpcomingSplitsIncreasingTasks | script.js:702-703 | when due dates increase, every task from the next-due one on is upcoming |
| Records.SavedScheduleCard | script.js:699-731 | the card carries the record's id (for its Load and Delete buttons), machine name and save time, the task count, the capitalised usage and, as next due date, the date of the first task due after now (none exactly when no task is upcoming) |
| Records.ExportOf | script.js:857-870 | the export names the machine and has one entry per task, with the same name and status and a date text that reads back as the due date |
| Records.ExportRoundTripUpToIds | script.js:857-870 | importing the export document with the original task ids gives back the whole session (machine data, tasks, advisory, generation time): the export loses only the ids |
| Scheduler.MaintenanceScheduler.constructor | script.js:4-8 | both lists start as the store's entries (empty when absent), the slot starts empty, and memory agrees with the store |
| Scheduler.MaintenanceScheduler.HandleFormSubmit | script.js:31-53 | the slot holds the schedule generated from the submitted machine, and one machine entry with that schedule is appended and stored |
| Scheduler.MaintenanceScheduler.SaveMachineData | script.js:807-817 | appends exactly one machine entry and overwrites the stored list with the new list |
| Scheduler.MaintenanceScheduler.SaveCurrentSchedule | script.js:624-645 | with an empty slot nothing changes; otherwise exactly one record, the session's snapshot, is appended at the end, and the stored copy equals the new list |
| Scheduler.MaintenanceScheduler.LoadSavedSchedule | script.js:745-773 | an unknown id leaves the slot unchanged; otherwise the slot holds the rehydrated first record with that id |
| Scheduler.MaintenanceScheduler.DeleteSavedSchedule | script.js:786-796 | a known id with confirmation removes every record with it, keeping the rest in order; an unknown id or no confirmation leaves the list and store unchanged |
| Scheduler.MaintenanceScheduler.ResetForm | script.js:914-925 | the session slot is empty afterwards and the stored copies still match the lists |
| Scheduler.MaintenanceScheduler.GeneratePremiumChecklists | script.js:131-195 | no checklists without a current schedule; otherwise the checklists of its tasks |
| Scheduler.MaintenanceScheduler.ExportMaintenanceSchedule | script.js:851-870 | nothing to export exactly when the slot is empty; otherwise the export document of the current schedule |
| Scheduler.SaveThenLoad | script.js:624-773 | saving the session under a fresh id and then loading that id leaves the session as it was and the list one record longer |
| Scheduler.SaveThenDelete | script.js:624-796 | saving under a fresh id and then deleting that id with confirmation restores both the list and the stored copy |
| Scenarios.MillIsMachining | script.js:109-112 | "CNC Mill 3" is matched to the machining profile |

## Left out

- HTML rendering is not modelled, because it only writes markup:
  - `displayMaintenanceSchedule`, `createTaskRow` (including its Overdue badge), `displaySavedSchedules`;
  - `displayPremiumChecklists`, `showUpgradeAlert`, `togglePremiumChecklists` and the `isPremiumUser` gate;
  - `showNotification`, `showSuccessMessage`, `showMaintenanceSection`.
- PDF export (`exportAsPDF`) is not modelled: it is calls into a rendering library plus page layout.
- The JSON export's download (Blob, object URL, anchor click) is not modelled; only the export document is.
- Event wiring, keyboard shortcuts, form-draft autosave and `setTimeout` transitions are not modelled: they are UI plumbing.
- Storage is two ghost fields. `JSON.stringify`/`JSON.parse` are not modelled. A write that throws (quota exceeded) is not modelled either; the code does not handle it.
- Scheduler.MaintenanceScheduler.constructor: requires that every stored due-date text reads back as a date. Storage the scheduler did not write, which would load as an invalid date, is not modelled.
- The texts of the five advisory templates, of the six machine profiles and of the frequency blocks are not reproduced. A `Reminder` records the chosen template and the interpolated values. For checklists, only the title, estimated time and number of steps are kept.
- Text.Preview: is stated on any text, because the advisory is not rendered to text in this model. Lengths count characters, not UTF-16 code units.
- Text.ToLower: folds only ASCII letters, not all of Unicode.
- Text.CapitalizeFirst: upper-cases only an ASCII first letter, not all of Unicode.
- Advisory.TemplateIndex: states the range of the choice, not that the choice is uniform.
- ISO-8601 date text is not modelled: a due date's text is the decimal text of its day number. Calendar arithmetic, local time and daylight saving in `setDate`, and `toLocaleDateString` are not modelled.
- `generatedAt`, `savedAt` and `createdAt` are taken as already-formatted text.
- Schedule.DaysToAdd: the fallback for inherited object keys (such as `'constructor'`) is not modelled, and neither are those keys in `getPriorityClass` or the checklist table. These keys would yield a non-number instead of the fallback. The form only offers daily, weekly and monthly.
