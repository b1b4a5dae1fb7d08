/**
 * Premium checklists: the detailed procedure attached to each task that has one, looked
 * up by task name. A checklist is kept here by its title, estimated time and number of
 * steps; the step texts, tools and safety notes are not reproduced.
 */
module Checklists {
  import opened Schedule

  datatype Checklist = Checklist(title: string, estimatedTime: string, stepCount: nat)

  datatype ChecklistItem = ChecklistItem(taskName: string, checklist: Checklist)

  /** The checklist table, keyed by task name. */
  const ChecklistTable: map<string, Checklist> := map[
    "Check oil levels" := Checklist("Oil Level Inspection & Maintenance", "25-30 minutes", 8),
    "Inspect belts" := Checklist("Drive Belt Inspection & Tensioning", "35-45 minutes", 9),
    "Clean filters" := Checklist("Air & Oil Filter Maintenance", "20-25 minutes", 10)
  ]

  /**
   * `tasks.map(task => ({taskName, checklist: checklists[task.name] || null}))
   *       .filter(item => item.checklist !== null)`
   */
  function PremiumChecklists(tasks: seq<Task>): (items: seq<ChecklistItem>)
    ensures |items| <= |tasks|
    ensures forall i :: 0 <= i < |items| ==>
      items[i].taskName in ChecklistTable && items[i].checklist == ChecklistTable[items[i].taskName]
    ensures items == [] <==> forall t :: t in tasks ==> t.name !in ChecklistTable
  {
    if tasks == [] then [] else ChecklistOf(tasks[0]) + PremiumChecklists(tasks[1..])
  }

  /** The item one task contributes: its checklist, or nothing when its name has none. */
  function ChecklistOf(t: Task): seq<ChecklistItem> {
    if t.name in ChecklistTable then [ChecklistItem(t.name, ChecklistTable[t.name])] else []
  }

  /** The items kept are exactly the checklists of the input tasks that have one. */
  lemma {:induction false} PremiumChecklistsKeeps(tasks: seq<Task>)
    ensures forall item :: item in PremiumChecklists(tasks) <==>
      exists t :: t in tasks && t.name in ChecklistTable && item == ChecklistItem(t.name, ChecklistTable[t.name])
  {
    if tasks != [] {
      PremiumChecklistsKeeps(tasks[1..]);
      assert tasks == [tasks[0]] + tasks[1..];
    }
  }

  /** The filter keeps task order: checklists of a concatenation concatenate. */
  lemma {:induction false} PremiumChecklistsAppend(a: seq<Task>, b: seq<Task>)
    ensures PremiumChecklists(a + b) == PremiumChecklists(a) + PremiumChecklists(b)
  {
    if a != [] {
      assert (a + b)[1..] == a[1..] + b;
      PremiumChecklistsAppend(a[1..], b);
    } else {
      assert a + b == b;
    }
  }

  /** Every task of a generated schedule has a checklist, so all three come back in task order. */
  lemma {:induction false} GeneratedTasksHaveChecklists(tasks: seq<Task>)
    requires |tasks| == |MaintenanceTasks|
    requires forall i :: 0 <= i < |tasks| ==> tasks[i].name == MaintenanceTasks[i].name
    ensures |PremiumChecklists(tasks)| == 3
    ensures forall i :: 0 <= i < 3 ==> PremiumChecklists(tasks)[i].taskName == tasks[i].name
  {
    assert tasks == [tasks[0]] + [tasks[1]] + [tasks[2]];
    PremiumChecklistsAppend([tasks[0]] + [tasks[1]], [tasks[2]]);
    PremiumChecklistsAppend([tasks[0]], [tasks[1]]);
    assert [tasks[0]][1..] == [];
    assert [tasks[1]][1..] == [];
    assert [tasks[2]][1..] == [];
  }
}
