/**
 * The scheduler object: the list of saved schedules, the list of machines and the
 * session slot holding the schedule on screen. The local store is modelled by two ghost
 * fields that every mutation overwrites with the whole in-memory list.
 */
module Scheduler {
  import opened Wrappers
  import opened DecimalText
  import opened Schedule
  import opened Checklists
  import opened Records

  class MaintenanceScheduler {
    var machines: seq<MachineEntry>
    var savedSchedules: seq<SavedSchedule>
    var currentSchedule: Option<CurrentSchedule>

    /** The store's 'machines' entry. */
    ghost var storedMachines: seq<MachineEntry>
    /** The store's 'savedSchedules' entry. */
    ghost var persisted: seq<SavedSchedule>

    /** Memory and store agree, and every stored due date reads back as a date. */
    ghost predicate Valid()
      reads this
    {
      && persisted == savedSchedules
      && storedMachines == machines
      && forall r :: r in savedSchedules ==> WellFormedRecord(r)
    }

    /** Loads both lists from the store (a missing entry reads as empty); no current schedule. */
    constructor (machinesInStore: Option<seq<MachineEntry>>, schedulesInStore: Option<seq<SavedSchedule>>)
      requires forall r :: r in schedulesInStore.GetOr([]) ==> WellFormedRecord(r)
      ensures Valid()
      ensures machines == machinesInStore.GetOr([])
      ensures savedSchedules == schedulesInStore.GetOr([])
      ensures currentSchedule == None
    {
      machines := machinesInStore.GetOr([]);
      savedSchedules := schedulesInStore.GetOr([]);
      currentSchedule := None;
      storedMachines := machinesInStore.GetOr([]);
      persisted := schedulesInStore.GetOr([]);
    }

    /**
     * `handleFormSubmit`: generates the schedule for the submitted machine, puts it in the
     * session slot and records the machine.
     */
    method HandleFormSubmit(
      machine: MachineData, nowMs: int, clock: seq<int>, random: real,
      generatedAt: string, machineIdMs: nat, createdAt: string)
      requires Valid()
      requires |clock| == |MaintenanceTasks|
      requires 0.0 <= random < 1.0
      modifies this`currentSchedule, this`machines, this`storedMachines
      ensures Valid()
      ensures currentSchedule.Some?
      ensures currentSchedule.value.machineData == machine
      ensures currentSchedule.value.generatedAt == generatedAt
      ensures GeneratedFrom(currentSchedule.value.schedule, machine, nowMs, clock, random)
      ensures machines == old(machines)
        + [MachineEntry(IntToText(machineIdMs), machine, currentSchedule.value.schedule, createdAt)]
    {
      var schedule := GenerateMaintenanceSchedule(machine, nowMs, clock, random);
      currentSchedule := Some(CurrentSchedule(machine, schedule, generatedAt));
      SaveMachineData(machine, schedule, machineIdMs, createdAt);
    }

    /** `saveMachineData`: appends one machine entry and writes the whole list back. */
    method SaveMachineData(machine: MachineData, schedule: Schedule, idMs: nat, createdAt: string)
      requires Valid()
      modifies this`machines, this`storedMachines
      ensures Valid()
      ensures machines == old(machines) + [MachineEntry(IntToText(idMs), machine, schedule, createdAt)]
      ensures storedMachines == machines
    {
      machines := machines + [MachineEntry(IntToText(idMs), machine, schedule, createdAt)];
      storedMachines := machines;
    }

    /**
     * `saveCurrentSchedule`: with nothing in the session slot nothing changes; otherwise
     * one record, identified by the decimal text of the clock, is appended and the whole
     * list is written back.
     */
    method SaveCurrentSchedule(nowMs: nat, savedAt: string)
      requires Valid()
      modifies this`savedSchedules, this`persisted
      ensures Valid()
      ensures currentSchedule.None? ==> savedSchedules == old(savedSchedules)
      ensures currentSchedule.Some? ==>
        savedSchedules == old(savedSchedules) + [Snapshot(currentSchedule.value, IntToText(nowMs), savedAt)]
      ensures persisted == savedSchedules
    {
      if currentSchedule.None? {
        return;
      }
      var record := Snapshot(currentSchedule.value, IntToText(nowMs), savedAt);
      savedSchedules := savedSchedules + [record];
      persisted := savedSchedules;
    }

    /**
     * `loadSavedSchedule`: an unknown id leaves the session slot as it was; otherwise
     * the first record with that id is rehydrated into it.
     */
    method LoadSavedSchedule(id: string)
      requires Valid()
      modifies this`currentSchedule
      ensures Valid()
      ensures FindById(savedSchedules, id).None? ==> currentSchedule == old(currentSchedule)
      ensures FindById(savedSchedules, id).Some? ==>
        currentSchedule == Some(Rehydrate(savedSchedules[FindById(savedSchedules, id).value]))
    {
      var found := FindById(savedSchedules, id);
      if found.None? {
        return;
      }
      var record := savedSchedules[found.value];
      assert record in savedSchedules;
      currentSchedule := Some(Rehydrate(record));
    }

    /**
     * `deleteSavedSchedule`: when the id is known and the user confirms, every record
     * with that id is removed and the rest is written back; otherwise nothing changes.
     */
    method DeleteSavedSchedule(id: string, confirmed: bool)
      requires Valid()
      modifies this`savedSchedules, this`persisted
      ensures Valid()
      ensures FindById(old(savedSchedules), id).Some? && confirmed ==>
        savedSchedules == RemoveById(old(savedSchedules), id)
      ensures FindById(old(savedSchedules), id).None? || !confirmed ==>
        savedSchedules == old(savedSchedules)
      ensures persisted == savedSchedules
    {
      if FindById(savedSchedules, id).None? {
        return;
      }
      if confirmed {
        RemoveByIdKeeps(savedSchedules, id);
        savedSchedules := RemoveById(savedSchedules, id);
        persisted := savedSchedules;
      }
    }

    /** `resetForm`: empties the session slot. */
    method ResetForm()
      requires Valid()
      modifies this`currentSchedule
      ensures Valid()
      ensures currentSchedule == None
    {
      currentSchedule := None;
    }

    /** `generatePremiumChecklists`: none without a current schedule. */
    method GeneratePremiumChecklists() returns (items: seq<ChecklistItem>)
      ensures currentSchedule.None? ==> items == []
      ensures currentSchedule.Some? ==> items == PremiumChecklists(currentSchedule.value.schedule.tasks)
    {
      if currentSchedule.None? {
        return [];
      }
      items := PremiumChecklists(currentSchedule.value.schedule.tasks);
    }

    /** `exportMaintenanceSchedule`: the export document, or None when there is nothing to export. */
    method ExportMaintenanceSchedule() returns (doc: Option<ExportDocument>)
      ensures doc.None? <==> currentSchedule.None?
      ensures doc.Some? ==> doc.value == ExportOf(currentSchedule.value)
    {
      if currentSchedule.None? {
        return None;
      }
      doc := Some(ExportOf(currentSchedule.value));
    }
  }

  /** Saving the session under a fresh id and loading that id leaves the session as it was. */
  method SaveThenLoad(s: MaintenanceScheduler, nowMs: nat, savedAt: string)
    requires s.Valid()
    requires s.currentSchedule.Some?
    requires FindById(s.savedSchedules, IntToText(nowMs)).None?
    modifies s
    ensures s.Valid()
    ensures s.currentSchedule == old(s.currentSchedule)
    ensures |s.savedSchedules| == |old(s.savedSchedules)| + 1
  {
    ghost var before := s.savedSchedules;
    s.SaveCurrentSchedule(nowMs, savedAt);
    LoadAfterSave(before, s.currentSchedule.value, IntToText(nowMs), savedAt);
    s.LoadSavedSchedule(IntToText(nowMs));
  }

  /** Saving under a fresh id and deleting that id with confirmation restores the list. */
  method SaveThenDelete(s: MaintenanceScheduler, nowMs: nat, savedAt: string)
    requires s.Valid()
    requires s.currentSchedule.Some?
    requires FindById(s.savedSchedules, IntToText(nowMs)).None?
    modifies s
    ensures s.Valid()
    ensures s.savedSchedules == old(s.savedSchedules)
    ensures s.persisted == old(s.persisted)
  {
    ghost var before := s.savedSchedules;
    s.SaveCurrentSchedule(nowMs, savedAt);
    LoadAfterSave(before, s.currentSchedule.value, IntToText(nowMs), savedAt);
    DeleteAfterSave(before, s.currentSchedule.value, IntToText(nowMs), savedAt);
    s.DeleteSavedSchedule(IntToText(nowMs), true);
  }
}
