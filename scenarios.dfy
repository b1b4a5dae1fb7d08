/** Worked scenarios, checked against the contracts of the generator and the scheduler. */
module Scenarios {
  import opened Wrappers
  import opened DecimalText
  import Text
  import opened Advisory
  import opened Schedule
  import opened Records
  import opened Scheduler

  /** Day number of 2024-01-01 (days since 1970-01-01). */
  const Jan1st2024: int := 19723

  /** A weekly CNC mill serviced on 2024-01-01: tasks due Jan 8, 15 and 22, High/Medium/Medium. */
  method ScenarioWeeklyMill(nowMs: int, seed: int, random: real)
    requires 0.0 <= random < 1.0
  {
    var machine := MachineData("CNC Mill 3", Jan1st2024, "weekly");
    var s := GenerateMaintenanceSchedule(machine, nowMs, [seed, seed, seed], random);
    GeneratedScheduleProperties(s, machine, nowMs, [seed, seed, seed], random);
    assert IsTaskAt(s.tasks[0], machine, seed, 0);
    assert IsTaskAt(s.tasks[1], machine, seed, 1);
    assert IsTaskAt(s.tasks[2], machine, seed, 2);
    assert [s.tasks[0].dueDate, s.tasks[1].dueDate, s.tasks[2].dueDate]
        == [Jan1st2024 + 7, Jan1st2024 + 14, Jan1st2024 + 21];
    assert [s.tasks[0].priority, s.tasks[1].priority, s.tasks[2].priority] == ["High", "Medium", "Medium"];
    MillIsMachining();
    assert s.aiReminder.issues == Machining;
  }

  /** "CNC Mill 3" lowercases to a name containing "cnc", so the machining profile applies. */
  lemma MillIsMachining()
    ensures MachineSpecificIssues(Text.ToLower("CNC Mill 3")) == Machining
  {
    var name := Text.ToLower("CNC Mill 3");
    assert name[..3] == "cnc";
    assert Text.Contains(name, KeywordGroups[0].keywords[0]);
    assert GroupMatches(KeywordGroups[0], name);
  }

  /** An unknown frequency falls back to thirty days: tasks due at +30, +60 and +90. */
  method ScenarioUnknownFrequency(nowMs: int, seed: int, random: real)
    requires 0.0 <= random < 1.0
  {
    var machine := MachineData("Line 4", Jan1st2024, "biweekly");
    var s := GenerateMaintenanceSchedule(machine, nowMs, [seed, seed, seed], random);
    assert IsTaskAt(s.tasks[0], machine, seed, 0);
    assert IsTaskAt(s.tasks[1], machine, seed, 1);
    assert IsTaskAt(s.tasks[2], machine, seed, 2);
    assert [s.tasks[0].dueDate, s.tasks[1].dueDate, s.tasks[2].dueDate]
        == [Jan1st2024 + 30, Jan1st2024 + 60, Jan1st2024 + 90];
    assert s.aiReminder.warnings == PatternIncomplete;
  }

  /** Generate, save, then delete by id on an empty store: the saved list is empty again. */
  method ScenarioSaveThenDelete(nowMs: int, seed: int, random: real, clock: nat)
    requires 0.0 <= random < 1.0
  {
    var app := new MaintenanceScheduler(None, None);
    var machine := MachineData("CNC Mill 3", Jan1st2024, "weekly");
    app.HandleFormSubmit(machine, nowMs, [seed, seed, seed], random, "2024-01-01T09:00:00.000Z", clock, "2024-01-01T09:00:00.000Z");
    app.SaveCurrentSchedule(clock, "2024-01-01T09:00:01.000Z");
    assert |app.savedSchedules| == 1 && app.savedSchedules[0].id == IntToText(clock);
    app.DeleteSavedSchedule(IntToText(clock), true);
    assert app.savedSchedules == [] && app.persisted == [];
  }
}
