/**
 * Schedule derivation: a machine record becomes exactly three dated maintenance tasks,
 * one per entry of a fixed template table, plus one advisory.
 *
 * Dates are day numbers. The clock (`new Date()`), the `Date.now()` readings used to number
 * the tasks (one per task, as the loop reads the clock on every step) and the
 * `Math.random()` draw that picks the advisory template are parameters.
 */
module Schedule {
  import Text
  import opened Advisory

  /** What the form submits: name, last-service day and usage frequency (free text). */
  datatype MachineData = MachineData(name: string, lastServicedDate: int, usageFrequency: string)

  datatype TaskTemplate = TaskTemplate(name: string, priority: string, description: string)

  /** The fixed maintenance task table, in order. */
  const MaintenanceTasks: seq<TaskTemplate> := [
    TaskTemplate("Check oil levels", "High", "Inspect and top up oil levels"),
    TaskTemplate("Inspect belts", "Medium", "Check for wear and proper tension"),
    TaskTemplate("Clean filters", "Medium", "Replace or clean air/oil filters")
  ]

  const Scheduled := "Scheduled"

  datatype Task = Task(
    id: int,
    name: string,
    dueDate: int,
    priority: string,
    status: string,
    description: string)

  datatype Schedule = Schedule(tasks: seq<Task>, aiReminder: Reminder)

  /** Days between successive tasks for each known usage frequency. */
  const FrequencyDays: map<string, nat> := map["daily" := 1, "weekly" := 7, "monthly" := 30]

  /** `frequencyDays[usageFrequency] || 30` */
  function DaysToAdd(usageFrequency: string): (d: nat)
    ensures d == 1 <==> usageFrequency == "daily"
    ensures d == 7 <==> usageFrequency == "weekly"
    ensures d == 30 <==> usageFrequency != "daily" && usageFrequency != "weekly"
  {
    if usageFrequency in FrequencyDays then FrequencyDays[usageFrequency] else 30
  }

  /** `generateAIReminder`: the advisory for a freshly generated task list. */
  function GenerateAIReminder(machine: MachineData, tasks: seq<Task>, nowMs: int, random: real): (r: Reminder)
    requires |tasks| > 0
    requires 0.0 <= random < 1.0
    ensures r.template < TemplateCount && r.template == TemplateIndex(random)
    ensures r.machineName == machine.name && r.usageFrequency == machine.usageFrequency
    ensures r.daysSinceService == DaysSinceService(nowMs, machine.lastServicedDate)
    ensures r.nextTaskDate == tasks[0].dueDate
    ensures r.issues == MachineSpecificIssues(Text.ToLower(machine.name))
    ensures r.warnings == FrequencySpecificWarnings(machine.usageFrequency, r.daysSinceService)
  {
    var days := DaysSinceService(nowMs, machine.lastServicedDate);
    Reminder(
      TemplateIndex(random),
      machine.name,
      machine.usageFrequency,
      days,
      tasks[0].dueDate,
      MachineSpecificIssues(Text.ToLower(machine.name)),
      FrequencySpecificWarnings(machine.usageFrequency, days))
  }

  /** Task `t` is the one the generator derives at position `index`. */
  ghost predicate IsTaskAt(t: Task, machine: MachineData, clock: int, index: nat)
    requires index < |MaintenanceTasks|
  {
    && t.id == clock + index
    && t.name == MaintenanceTasks[index].name
    && t.dueDate == machine.lastServicedDate + DaysToAdd(machine.usageFrequency) * (index + 1)
    && t.priority == MaintenanceTasks[index].priority
    && t.status == Scheduled
    && t.description == MaintenanceTasks[index].description
  }

  /** `s` is what `generateMaintenanceSchedule` yields for these inputs. */
  ghost predicate GeneratedFrom(s: Schedule, machine: MachineData, nowMs: int, clock: seq<int>, random: real)
    requires |clock| == |MaintenanceTasks|
    requires 0.0 <= random < 1.0
  {
    && |s.tasks| == |MaintenanceTasks|
    && (forall i :: 0 <= i < |s.tasks| ==> IsTaskAt(s.tasks[i], machine, clock[i], i))
    && s.aiReminder == GenerateAIReminder(machine, s.tasks, nowMs, random)
  }

  /** The clock never went back between two readings. */
  ghost predicate NonDecreasing(clock: seq<int>) {
    forall i, j :: 0 <= i < j < |clock| ==> clock[i] <= clock[j]
  }

  /**
   * `generateMaintenanceSchedule`; `clock[i]` is the `Date.now()` reading taken while
   * building task `i`.
   */
  method GenerateMaintenanceSchedule(machine: MachineData, nowMs: int, clock: seq<int>, random: real)
    returns (schedule: Schedule)
    requires |clock| == |MaintenanceTasks|
    requires 0.0 <= random < 1.0
    ensures GeneratedFrom(schedule, machine, nowMs, clock, random)
    ensures |schedule.tasks| == 3
    ensures forall i, j :: 0 <= i < j < |schedule.tasks| ==> schedule.tasks[i].dueDate < schedule.tasks[j].dueDate
    ensures NonDecreasing(clock) ==>
      forall i, j :: 0 <= i < j < |schedule.tasks| ==> schedule.tasks[i].id != schedule.tasks[j].id
  {
    var tasks: seq<Task> := [];
    var daysToAdd := DaysToAdd(machine.usageFrequency);
    for index := 0 to |MaintenanceTasks|
      invariant |tasks| == index
      invariant forall k :: 0 <= k < index ==> IsTaskAt(tasks[k], machine, clock[k], k)
    {
      var template := MaintenanceTasks[index];
      var dueDate := machine.lastServicedDate + daysToAdd * (index + 1);
      tasks := tasks + [Task(clock[index] + index, template.name, dueDate, template.priority, Scheduled, template.description)];
    }
    schedule := Schedule(tasks, GenerateAIReminder(machine, tasks, nowMs, random));
    GeneratedScheduleProperties(schedule, machine, nowMs, clock, random);
  }

  /**
   * What every generated schedule satisfies: three tasks with the template's
   * High/Medium/Medium priorities, all Scheduled; due dates strictly increasing and
   * evenly spaced by the frequency offset; ids distinct unless the clock went back; the
   * advisory's next task is the earliest one and its template is one of the five.
   */
  lemma GeneratedScheduleProperties(s: Schedule, machine: MachineData, nowMs: int, clock: seq<int>, random: real)
    requires |clock| == |MaintenanceTasks|
    requires 0.0 <= random < 1.0
    requires GeneratedFrom(s, machine, nowMs, clock, random)
    ensures |s.tasks| == 3
    ensures s.tasks[0].priority == "High" && s.tasks[1].priority == "Medium" && s.tasks[2].priority == "Medium"
    ensures forall i :: 0 <= i < |s.tasks| ==> s.tasks[i].status == Scheduled
    ensures forall i :: 0 <= i < |s.tasks| - 1 ==>
      s.tasks[i + 1].dueDate - s.tasks[i].dueDate == DaysToAdd(machine.usageFrequency)
    ensures forall i, j :: 0 <= i < j < |s.tasks| ==> s.tasks[i].dueDate < s.tasks[j].dueDate
    ensures NonDecreasing(clock) ==> forall i, j :: 0 <= i < j < |s.tasks| ==> s.tasks[i].id != s.tasks[j].id
    ensures forall i :: 0 <= i < |s.tasks| ==> s.aiReminder.nextTaskDate <= s.tasks[i].dueDate
    ensures s.aiReminder.template < TemplateCount
  {
    var d := DaysToAdd(machine.usageFrequency);
    forall i, j | 0 <= i < j < |s.tasks|
      ensures s.tasks[i].dueDate < s.tasks[j].dueDate
    {
      assert IsTaskAt(s.tasks[i], machine, clock[i], i) && IsTaskAt(s.tasks[j], machine, clock[j], j);
      assert d * (i + 1) < d * (j + 1) by {
        assert d * (j + 1) - d * (i + 1) == d * (j - i);
        assert d * (j - i) >= d;
      }
    }
  }

  /** With one clock reading for the whole batch the ids are `seed`, `seed + 1`, `seed + 2`. */
  lemma SameClockIds(s: Schedule, machine: MachineData, nowMs: int, seed: int, random: real)
    requires 0.0 <= random < 1.0
    requires GeneratedFrom(s, machine, nowMs, [seed, seed, seed], random)
    ensures [s.tasks[0].id, s.tasks[1].id, s.tasks[2].id] == [seed, seed + 1, seed + 2]
  {
    assert IsTaskAt(s.tasks[0], machine, seed, 0);
    assert IsTaskAt(s.tasks[1], machine, seed, 1);
    assert IsTaskAt(s.tasks[2], machine, seed, 2);
  }

  /**
   * A clock that steps back by one millisecond between two tasks gives them the same id:
   * distinct ids rest on the clock not going back.
   */
  lemma ClockStepBackRepeatsId(s: Schedule, machine: MachineData, nowMs: int, seed: int, random: real)
    requires 0.0 <= random < 1.0
    requires GeneratedFrom(s, machine, nowMs, [seed, seed - 1, seed - 1], random)
    ensures s.tasks[0].id == s.tasks[1].id
  {
    assert IsTaskAt(s.tasks[0], machine, seed, 0);
    assert IsTaskAt(s.tasks[1], machine, seed - 1, 1);
  }

  /** The badge classes of `getPriorityClass`, and its fallback. */
  const PriorityClasses: map<string, string> := map[
    "High" := "bg-red-100 text-red-800",
    "Medium" := "bg-yellow-100 text-yellow-800",
    "Low" := "bg-green-100 text-green-800"
  ]
  const FallbackPriorityClass := "bg-gray-100 text-gray-800"

  /** `getPriorityClass(priority)` */
  function PriorityClass(priority: string): (c: string)
    ensures priority in PriorityClasses ==> c == PriorityClasses[priority]
    ensures c == FallbackPriorityClass <==> priority !in PriorityClasses
  {
    if priority in PriorityClasses then PriorityClasses[priority] else FallbackPriorityClass
  }

  /** The three priorities get three different badges, and every template task has one of them. */
  lemma PriorityClassesDistinct()
    ensures PriorityClass("High") != PriorityClass("Medium")
    ensures PriorityClass("Medium") != PriorityClass("Low")
    ensures PriorityClass("High") != PriorityClass("Low")
    ensures forall t :: t in MaintenanceTasks ==> PriorityClass(t.priority) != FallbackPriorityClass
  {
  }
}
