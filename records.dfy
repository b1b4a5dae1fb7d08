/**
 * The records the scheduler keeps: the current (session) schedule, the saved-schedule
 * records written to storage, and the pure operations on them — the serialize /
 * rehydrate pair, lookup and removal by id, the summary shown on a saved-schedule card
 * and the JSON export document.
 */
module Records {
  import opened Wrappers
  import opened DecimalText
  import opened Advisory
  import opened Schedule

  /** The session slot's content: the form data, its schedule and when it was generated. */
  datatype CurrentSchedule = CurrentSchedule(machineData: MachineData, schedule: Schedule, generatedAt: string)

  /** A task as stored: the due date is text. */
  datatype SavedTask = SavedTask(
    id: int,
    name: string,
    dueDate: string,
    priority: string,
    status: string,
    description: string)

  datatype SavedSchedule = SavedSchedule(
    id: string,
    machineName: string,
    lastServicedDate: int,
    usageFrequency: string,
    tasks: seq<SavedTask>,
    aiReminder: Reminder,
    savedAt: string,
    generatedAt: string)

  /** An entry of the `machines` list written on every form submission. */
  datatype MachineEntry = MachineEntry(id: string, data: MachineData, schedule: Schedule, createdAt: string)

  /** `{...task, dueDate: task.dueDate.toISOString()}` */
  function SerializeTask(t: Task): (s: SavedTask)
    ensures TextToInt(s.dueDate) == Some(t.dueDate)
  {
    IntRoundTrip(t.dueDate);
    SavedTask(t.id, t.name, IntToText(t.dueDate), t.priority, t.status, t.description)
  }

  predicate WellFormedTask(s: SavedTask) {
    TextToInt(s.dueDate).Some?
  }

  /** Every stored due date reads back as a date. */
  predicate WellFormedRecord(r: SavedSchedule) {
    forall i :: 0 <= i < |r.tasks| ==> WellFormedTask(r.tasks[i])
  }

  /** `{...task, dueDate: new Date(task.dueDate)}` */
  function DeserializeTask(s: SavedTask): (t: Task)
    requires WellFormedTask(s)
    ensures SerializeTask(t) == s <==> IntToText(t.dueDate) == s.dueDate
  {
    Task(s.id, s.name, TextToInt(s.dueDate).value, s.priority, s.status, s.description)
  }

  function SerializeTasks(tasks: seq<Task>): (r: seq<SavedTask>)
    ensures |r| == |tasks|
    ensures forall i :: 0 <= i < |r| ==> r[i] == SerializeTask(tasks[i])
  {
    seq(|tasks|, i requires 0 <= i < |tasks| => SerializeTask(tasks[i]))
  }

  function DeserializeTasks(saved: seq<SavedTask>): (r: seq<Task>)
    requires forall i :: 0 <= i < |saved| ==> WellFormedTask(saved[i])
    ensures |r| == |saved|
  {
    seq(|saved|, i requires 0 <= i < |saved| => DeserializeTask(saved[i]))
  }

  /** The record `saveCurrentSchedule` appends, given its fresh id and save time. */
  function Snapshot(current: CurrentSchedule, id: string, savedAt: string): (r: SavedSchedule)
    ensures WellFormedRecord(r)
    ensures r.id == id && r.savedAt == savedAt
    ensures |r.tasks| == |current.schedule.tasks|
    ensures forall i :: 0 <= i < |r.tasks| ==>
      TextToInt(r.tasks[i].dueDate) == Some(current.schedule.tasks[i].dueDate)
  {
    SavedSchedule(
      id,
      current.machineData.name,
      current.machineData.lastServicedDate,
      current.machineData.usageFrequency,
      SerializeTasks(current.schedule.tasks),
      current.schedule.aiReminder,
      savedAt,
      current.generatedAt)
  }

  /** What `loadSavedSchedule` puts in the session slot for a stored record. */
  function Rehydrate(r: SavedSchedule): (current: CurrentSchedule)
    requires WellFormedRecord(r)
    ensures current.machineData.name == r.machineName
    ensures |current.schedule.tasks| == |r.tasks|
    ensures forall i :: 0 <= i < |r.tasks| ==>
      Some(current.schedule.tasks[i].dueDate) == TextToInt(r.tasks[i].dueDate)
  {
    CurrentSchedule(
      MachineData(r.machineName, r.lastServicedDate, r.usageFrequency),
      Schedule(DeserializeTasks(r.tasks), r.aiReminder),
      r.generatedAt)
  }

  /** Saving then rehydrating gives back the session exactly: same tasks, dates and advisory. */
  lemma SaveLoadRoundTrip(current: CurrentSchedule, id: string, savedAt: string)
    ensures Rehydrate(Snapshot(current, id, savedAt)) == current
  {
    var tasks := current.schedule.tasks;
    var back := DeserializeTasks(SerializeTasks(tasks));
    forall i | 0 <= i < |tasks|
      ensures back[i] == tasks[i]
    {
      IntRoundTrip(tasks[i].dueDate);
    }
    assert back == tasks;
  }

  /** `savedSchedules.find(s => s.id === id)`, as the index of the first match. */
  function FindById(saved: seq<SavedSchedule>, id: string): (r: Option<nat>)
    ensures r.Some? ==> r.value < |saved| && saved[r.value].id == id
    ensures r.Some? ==> forall k :: 0 <= k < r.value ==> saved[k].id != id
    ensures r.None? <==> forall k :: 0 <= k < |saved| ==> saved[k].id != id
  {
    if |saved| == 0 then None
    else if saved[0].id == id then Some(0)
    else
      match FindById(saved[1..], id)
      case None => None
      case Some(k) => Some(k + 1)
  }

  /** `savedSchedules.filter(s => s.id !== id)` */
  function RemoveById(saved: seq<SavedSchedule>, id: string): (r: seq<SavedSchedule>)
    ensures |r| <= |saved|
    ensures forall k :: 0 <= k < |r| ==> r[k].id != id
  {
    if |saved| == 0 then []
    else (if saved[0].id == id then [] else [saved[0]]) + RemoveById(saved[1..], id)
  }

  /** The records kept are exactly those with another id; with the id absent, all of them. */
  lemma {:induction false} RemoveByIdKeeps(saved: seq<SavedSchedule>, id: string)
    ensures forall s :: s in RemoveById(saved, id) <==> s in saved && s.id != id
    ensures FindById(saved, id).None? ==> RemoveById(saved, id) == saved
  {
    if |saved| > 0 {
      RemoveByIdKeeps(saved[1..], id);
      assert saved == [saved[0]] + saved[1..];
      if FindById(saved, id).None? {
        assert FindById(saved[1..], id).None?;
      }
    }
  }

  /** Removal keeps the other records in their order: it distributes over concatenation. */
  lemma {:induction false} RemoveByIdAppend(a: seq<SavedSchedule>, b: seq<SavedSchedule>, id: string)
    ensures RemoveById(a + b, id) == RemoveById(a, id) + RemoveById(b, id)
  {
    if a == [] {
      assert a + b == b;
    } else {
      var head := if a[0].id == id then [] else [a[0]];
      assert (a + b)[0] == a[0];
      assert (a + b)[1..] == a[1..] + b;
      RemoveByIdAppend(a[1..], b, id);
      calc {
        RemoveById(a + b, id);
        head + RemoveById(a[1..] + b, id);
        head + (RemoveById(a[1..], id) + RemoveById(b, id));
        (head + RemoveById(a[1..], id)) + RemoveById(b, id);
        RemoveById(a, id) + RemoveById(b, id);
      }
    }
  }

  /** Removing twice is removing once. */
  lemma RemoveByIdIdempotent(saved: seq<SavedSchedule>, id: string)
    ensures RemoveById(RemoveById(saved, id), id) == RemoveById(saved, id)
  {
    RemoveByIdKeeps(RemoveById(saved, id), id);
  }

  /** A fresh id is found at the end after saving, and loading it restores the session. */
  lemma LoadAfterSave(saved: seq<SavedSchedule>, current: CurrentSchedule, id: string, savedAt: string)
    requires FindById(saved, id).None?
    ensures FindById(saved + [Snapshot(current, id, savedAt)], id) == Some(|saved|)
    ensures Rehydrate((saved + [Snapshot(current, id, savedAt)])[|saved|]) == current
  {
    var saved' := saved + [Snapshot(current, id, savedAt)];
    assert saved'[|saved|].id == id;
    assert forall k :: 0 <= k < |saved| ==> saved'[k] == saved[k];
    SaveLoadRoundTrip(current, id, savedAt);
  }

  /** Deleting what was just saved under a fresh id restores the earlier list. */
  lemma DeleteAfterSave(saved: seq<SavedSchedule>, current: CurrentSchedule, id: string, savedAt: string)
    requires FindById(saved, id).None?
    ensures RemoveById(saved + [Snapshot(current, id, savedAt)], id) == saved
  {
    var snap := Snapshot(current, id, savedAt);
    RemoveByIdAppend(saved, [snap], id);
    RemoveByIdKeeps(saved, id);
    assert RemoveById([snap], id) == [] + RemoveById([snap][1..], id);
    assert [snap][1..] == [];
  }

  /** `new Date(task.dueDate) > new Date()`: an unreadable date compares false. */
  predicate IsUpcoming(t: SavedTask, nowMs: int) {
    match TextToInt(t.dueDate)
    case Some(day) => day * MsPerDay > nowMs
    case None => false
  }

  /** `schedule.tasks.find(task => new Date(task.dueDate) > new Date())`, as an index. */
  function UpcomingTask(tasks: seq<SavedTask>, nowMs: int): (r: Option<nat>)
    ensures r.Some? ==> r.value < |tasks| && IsUpcoming(tasks[r.value], nowMs)
    ensures r.Some? ==> forall k :: 0 <= k < r.value ==> !IsUpcoming(tasks[k], nowMs)
    ensures r.None? <==> forall k :: 0 <= k < |tasks| ==> !IsUpcoming(tasks[k], nowMs)
  {
    if |tasks| == 0 then None
    else if IsUpcoming(tasks[0], nowMs) then Some(0)
    else
      match UpcomingTask(tasks[1..], nowMs)
      case None => None
      case Some(k) => Some(k + 1)
  }

  /**
   * For stored tasks with increasing due dates (as every saved generated schedule has),
   * the card's next-due task splits the list: the tasks before it are all past, the
   * tasks from it on are all upcoming.
   */
  lemma UpcomingSplitsIncreasingTasks(tasks: seq<SavedTask>, days: seq<int>, nowMs: int)
    requires |days| == |tasks|
    requires forall i :: 0 <= i < |tasks| ==> TextToInt(tasks[i].dueDate) == Some(days[i])
    requires forall i, j :: 0 <= i < j < |days| ==> days[i] < days[j]
    ensures UpcomingTask(tasks, nowMs).Some? ==>
      forall k :: UpcomingTask(tasks, nowMs).value <= k < |tasks| ==> IsUpcoming(tasks[k], nowMs)
  {
    var r := UpcomingTask(tasks, nowMs);
    if r.Some? {
      var first := r.value;
      assert TextToInt(tasks[first].dueDate) == Some(days[first]);
      assert days[first] * MsPerDay > nowMs;
      forall k | first <= k < |tasks| ensures IsUpcoming(tasks[k], nowMs) {
        assert days[first] <= days[k];
        LaterDayLaterInstant(days[first], days[k]);
        assert TextToInt(tasks[k].dueDate) == Some(days[k]);
      }
    }
  }

  /** A later day starts at a later instant. */
  lemma LaterDayLaterInstant(a: int, b: int)
    requires a <= b
    ensures a * MsPerDay <= b * MsPerDay
  {
  }

  /** What a saved-schedule card shows besides markup. */
  datatype Card = Card(
    id: string,
    machineName: string,
    usage: string,
    taskCount: nat,
    nextDue: Option<int>,
    savedAt: string)

  /** `createSavedScheduleCard`: name, save time, usage label, task count and next due date of a record. */
  function SavedScheduleCard(r: SavedSchedule, nowMs: int): (c: Card)
    ensures c.id == r.id && c.machineName == r.machineName && c.savedAt == r.savedAt
    ensures c.taskCount == |r.tasks|
    ensures c.nextDue.None? <==> forall k :: 0 <= k < |r.tasks| ==> !IsUpcoming(r.tasks[k], nowMs)
    ensures c.nextDue.Some? ==> c.nextDue.value * MsPerDay > nowMs
    ensures c.nextDue.Some? ==>
              (UpcomingTask(r.tasks, nowMs).Some? &&
               Some(c.nextDue.value) == TextToInt(r.tasks[UpcomingTask(r.tasks, nowMs).value].dueDate))
    ensures c.usage == Text.CapitalizeFirst(r.usageFrequency)
  {
    var next := match UpcomingTask(r.tasks, nowMs)
      case None => None
      case Some(k) => TextToInt(r.tasks[k].dueDate);
    Card(r.id, r.machineName, Text.CapitalizeFirst(r.usageFrequency), |r.tasks|, next, r.savedAt)
  }

  /** One task of the JSON export: the id is not exported. */
  datatype ExportTask = ExportTask(name: string, dueDate: string, priority: string, status: string, description: string)

  datatype ExportDocument = ExportDocument(
    machine: string,
    lastServiced: int,
    usageFrequency: string,
    generatedOn: string,
    tasks: seq<ExportTask>,
    aiReminder: Reminder)

  /** The `exportData` object built by `exportMaintenanceSchedule`. */
  function ExportOf(current: CurrentSchedule): (doc: ExportDocument)
    ensures doc.machine == current.machineData.name
    ensures |doc.tasks| == |current.schedule.tasks|
    ensures forall i :: 0 <= i < |doc.tasks| ==>
      && TextToInt(doc.tasks[i].dueDate) == Some(current.schedule.tasks[i].dueDate)
      && doc.tasks[i].name == current.schedule.tasks[i].name
      && doc.tasks[i].status == current.schedule.tasks[i].status
  {
    var tasks := current.schedule.tasks;
    ExportDocument(
      current.machineData.name,
      current.machineData.lastServicedDate,
      current.machineData.usageFrequency,
      current.generatedAt,
      seq(|tasks|, i requires 0 <= i < |tasks| => ExportTask(
        tasks[i].name, SerializeTask(tasks[i]).dueDate, tasks[i].priority, tasks[i].status, tasks[i].description)),
      current.schedule.aiReminder)
  }

  /** Rebuilds task `i` from an export, given the id the export does not carry. */
  function ImportTask(e: ExportTask, id: int): (t: Task)
    requires TextToInt(e.dueDate).Some?
  {
    Task(id, e.name, TextToInt(e.dueDate).value, e.priority, e.status, e.description)
  }

  /** Rebuilds a session from an export document, given the task ids the document does not carry. */
  function ImportDocument(doc: ExportDocument, ids: seq<int>): (current: CurrentSchedule)
    requires |ids| == |doc.tasks|
    requires forall i :: 0 <= i < |doc.tasks| ==> TextToInt(doc.tasks[i].dueDate).Some?
    ensures |current.schedule.tasks| == |doc.tasks|
    ensures forall i :: 0 <= i < |ids| ==> current.schedule.tasks[i].id == ids[i]
  {
    CurrentSchedule(
      MachineData(doc.machine, doc.lastServiced, doc.usageFrequency),
      Schedule(seq(|ids|, i requires 0 <= i < |ids| => ImportTask(doc.tasks[i], ids[i])), doc.aiReminder),
      doc.generatedOn)
  }

  function TaskIds(tasks: seq<Task>): (ids: seq<int>)
    ensures |ids| == |tasks|
    ensures forall i :: 0 <= i < |tasks| ==> ids[i] == tasks[i].id
  {
    seq(|tasks|, i requires 0 <= i < |tasks| => tasks[i].id)
  }

  /**
   * The export loses exactly the task ids: importing the document with the original ids
   * gives back the whole session, machine data, tasks, advisory and generation time.
   */
  lemma ExportRoundTripUpToIds(current: CurrentSchedule)
    ensures ImportDocument(ExportOf(current), TaskIds(current.schedule.tasks)) == current
  {
    var tasks := current.schedule.tasks;
    var back := ImportDocument(ExportOf(current), TaskIds(tasks));
    forall i | 0 <= i < |tasks|
      ensures back.schedule.tasks[i] == tasks[i]
    {
      IntRoundTrip(tasks[i].dueDate);
    }
    assert back.schedule.tasks == tasks;
  }
}
