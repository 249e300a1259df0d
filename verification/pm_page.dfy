/**
 * The preventive-maintenance page: search and status filter, the status counters, ticking checklist
 * items, completing a schedule, and the details dialog with its "Mark as Complete" button.
 */
module PmPage {
  import opened Options
  import opened Text
  import opened Seqs
  import opened Domain
  import opened AuthContext

  /** The search box (title or asset name) and the status select. */
  predicate Matches(pm: Pm, query: string, status: StatusFilter<PmStatus>) {
    (ContainsIgnoringCase(pm.title, query) || ContainsIgnoringCase(pm.assetName, query)) && status.Admits(pm.status)
  }

  /** `filteredSchedules` */
  function FilteredSchedules(schedules: seq<Pm>, query: string, status: StatusFilter<PmStatus>): (r: seq<Pm>)
    ensures forall pm :: pm in r <==> pm in schedules && Matches(pm, query, status)
  {
    Filter(schedules, pm => Matches(pm, query, status))
  }

  function CountStatus(schedules: seq<Pm>, s: PmStatus): nat {
    |Filter(schedules, (pm: Pm) => pm.status == s)|
  }

  datatype PmStats = PmStats(total: nat, scheduled: nat, inProgress: nat, overdue: nat)

  /** `stats` */
  function Stats(schedules: seq<Pm>): PmStats {
    PmStats(|schedules|, CountStatus(schedules, Scheduled), CountStatus(schedules, PmInProgress),
            CountStatus(schedules, Overdue))
  }

  /** The three counters and the uncounted completed schedules add up to the total. */
  lemma {:induction false} StatsAddUp(schedules: seq<Pm>)
    ensures Stats(schedules).scheduled + Stats(schedules).inProgress + Stats(schedules).overdue
          + CountStatus(schedules, Completed) == Stats(schedules).total
  {
    if schedules != [] {
      StatsAddUp(schedules[1..]);
    }
  }

  /** `pm.checklist.filter(c => c.completed).length`, shown as "n/m complete". */
  function CompletedItems(pm: Pm): (n: nat)
    ensures n <= |pm.checklist|
    ensures n == |pm.checklist| <==> AllItemsDone(pm)
  {
    var done := Filter(pm.checklist, (c: ChecklistItem) => c.completed);
    FilterAllOrNone(pm.checklist, (c: ChecklistItem) => c.completed);
    FilterPartition(pm.checklist, (c: ChecklistItem) => c.completed);
    NoneKeptIsEmpty(pm.checklist);
    |done|
  }

  lemma NoneKeptIsEmpty(items: seq<ChecklistItem>)
    ensures |Filter(items, (c: ChecklistItem) => !c.completed)| == 0 ==> forall c :: c in items ==> c.completed
  {
    var notDone := Filter(items, (c: ChecklistItem) => !c.completed);
    forall c | c in items && !c.completed
      ensures c in notDone
    {
    }
  }

  /** `checklist.every(c => c.completed)` */
  predicate AllItemsDone(pm: Pm) {
    forall c :: c in pm.checklist ==> c.completed
  }

  /** `checklist.map(item => item.id === itemId ? { ...item, completed } : item)` */
  function SetItem(items: seq<ChecklistItem>, itemId: string, completed: bool): (r: seq<ChecklistItem>)
    ensures |r| == |items|
    ensures forall j :: 0 <= j < |items| ==>
      && r[j].id == items[j].id && r[j].task == items[j].task
      && r[j].completed == if items[j].id == itemId then completed else items[j].completed
  {
    MapWhere(items, (c: ChecklistItem) => c.id == itemId, (c: ChecklistItem) => c.(completed := completed))
  }

  /** `handleChecklistUpdate`'s list update. */
  function ChecklistUpdate(schedules: seq<Pm>, pmId: string, itemId: string, completed: bool): (r: seq<Pm>)
    ensures |r| == |schedules|
    ensures forall i :: 0 <= i < |schedules| && schedules[i].id != pmId ==> r[i] == schedules[i]
    ensures forall i :: 0 <= i < |schedules| && schedules[i].id == pmId ==>
      && r[i].(checklist := schedules[i].checklist) == schedules[i]
      && r[i].checklist == SetItem(schedules[i].checklist, itemId, completed)
  {
    MapWhere(schedules, (pm: Pm) => pm.id == pmId, (pm: Pm) => pm.(checklist := SetItem(pm.checklist, itemId, completed)))
  }

  /** The same checklist update applied twice is applied once. */
  lemma ChecklistUpdateIdempotent(schedules: seq<Pm>, pmId: string, itemId: string, completed: bool)
    ensures ChecklistUpdate(ChecklistUpdate(schedules, pmId, itemId, completed), pmId, itemId, completed)
         == ChecklistUpdate(schedules, pmId, itemId, completed)
  {
    var once := ChecklistUpdate(schedules, pmId, itemId, completed);
    var twice := ChecklistUpdate(once, pmId, itemId, completed);
    forall i | 0 <= i < |schedules|
      ensures twice[i] == once[i]
    {
      if schedules[i].id == pmId {
        var c := once[i].checklist;
        assert SetItem(c, itemId, completed) == c;
      }
    }
  }

  /** `handleCompletePM`'s list update. */
  function CompletePm(schedules: seq<Pm>, pmId: string, today: string): (r: seq<Pm>)
    ensures |r| == |schedules|
    ensures forall i :: 0 <= i < |schedules| && schedules[i].id != pmId ==> r[i] == schedules[i]
    ensures forall i :: 0 <= i < |schedules| && schedules[i].id == pmId ==>
      r[i] == schedules[i].(status := Completed, completedDate := Some(today))
  {
    MapWhere(schedules, (pm: Pm) => pm.id == pmId, (pm: Pm) => pm.(status := Completed, completedDate := Some(today)))
  }

  /** The first schedule with that id. */
  function FindPm(schedules: seq<Pm>, id: string): (r: Option<Pm>)
    ensures r.Some? ==> r.value in schedules && r.value.id == id
    ensures r.None? <==> forall pm :: pm in schedules ==> pm.id != id
  {
    if schedules == [] then None
    else if schedules[0].id == id then Some(schedules[0])
    else FindPm(schedules[1..], id)
  }

  /** The checkboxes of a completed schedule are disabled. */
  predicate CheckboxEnabled(pm: Pm) {
    pm.status != Completed
  }

  /** "Mark as Complete" is shown and enabled for a schedule. */
  predicate CanMarkComplete(user: Option<User>, perms: RolePermissions, pm: Pm) {
    pm.status != Completed && HasPermission(user, perms, "update_pm") && AllItemsDone(pm)
  }

  /** The button as the dialog evaluates it: on the snapshot taken when the dialog was opened. */
  predicate SnapshotGate(user: Option<User>, perms: RolePermissions, selected: Option<Pm>) {
    selected.Some? && CanMarkComplete(user, perms, selected.value)
  }

  /** The button evaluated on the schedule as it currently is in the list. */
  predicate CurrentGate(user: Option<User>, perms: RolePermissions, selected: Option<Pm>, schedules: seq<Pm>) {
    selected.Some? && FindPm(schedules, selected.value.id).Some?
    && CanMarkComplete(user, perms, FindPm(schedules, selected.value.id).value)
  }

  /** Once completed, a schedule's checklist can no longer be ticked. */
  lemma CompletedChecklistIsLocked(schedules: seq<Pm>, pmId: string, today: string)
    ensures forall i :: 0 <= i < |schedules| && schedules[i].id == pmId ==>
      !CheckboxEnabled(CompletePm(schedules, pmId, today)[i])
  {
  }

  /** Looking a schedule up after a checklist update finds it with the updated checklist. */
  lemma {:induction false} FindAfterChecklistUpdate(schedules: seq<Pm>, pmId: string, itemId: string, completed: bool)
    ensures var before := FindPm(schedules, pmId);
      FindPm(ChecklistUpdate(schedules, pmId, itemId, completed), pmId)
        == if before.None? then None
           else Some(before.value.(checklist := SetItem(before.value.checklist, itemId, completed)))
  {
    if schedules != [] {
      var r := ChecklistUpdate(schedules, pmId, itemId, completed);
      assert r[1..] == ChecklistUpdate(schedules[1..], pmId, itemId, completed);
      FindAfterChecklistUpdate(schedules[1..], pmId, itemId, completed);
    }
  }

  /**
   * As written, the dialog keeps the snapshot: a schedule with one open item, ticked in the dialog,
   * is complete in the list while the button stays disabled.
   */
  lemma StaleSnapshotKeepsButtonDisabled()
    ensures var pm := Pm("pm-1", "a-1", "Compressor", "Monthly service", "", Monthly, "2026-01-10", None, "Tech",
                         Scheduled, [ChecklistItem("c-1", "Check oil", false)]);
      var user := Some(User("u-1", "eng@plant", "Eng", Engineer, ""));
      var perms := map[Engineer := ["update_pm"]];
      var after := ChecklistUpdate([pm], "pm-1", "c-1", true);
      && !SnapshotGate(user, perms, Some(pm))
      && CanMarkComplete(user, perms, after[0])
      && CurrentGate(user, perms, Some(pm), after)
  {
    var pm := Pm("pm-1", "a-1", "Compressor", "Monthly service", "", Monthly, "2026-01-10", None, "Tech",
                 Scheduled, [ChecklistItem("c-1", "Check oil", false)]);
    assert pm.checklist[0] in pm.checklist;
    var after := ChecklistUpdate([pm], "pm-1", "c-1", true);
    assert after[0].checklist == [ChecklistItem("c-1", "Check oil", true)];
    FindAfterChecklistUpdate([pm], "pm-1", "c-1", true);
  }

  /**
   * The reverse: unticking the only item of a fully ticked schedule leaves the button enabled on the
   * snapshot, so a schedule with an open item can be completed; the current list disables it.
   */
  lemma StaleSnapshotKeepsButtonEnabled()
    ensures var pm := Pm("pm-1", "a-1", "Compressor", "Monthly service", "", Monthly, "2026-01-10", None, "Tech",
                         Scheduled, [ChecklistItem("c-1", "Check oil", true)]);
      var user := Some(User("u-1", "eng@plant", "Eng", Engineer, ""));
      var perms := map[Engineer := ["update_pm"]];
      var after := ChecklistUpdate([pm], "pm-1", "c-1", false);
      && SnapshotGate(user, perms, Some(pm))
      && !AllItemsDone(after[0])
      && !CurrentGate(user, perms, Some(pm), after)
  {
    var pm := Pm("pm-1", "a-1", "Compressor", "Monthly service", "", Monthly, "2026-01-10", None, "Tech",
                 Scheduled, [ChecklistItem("c-1", "Check oil", true)]);
    var after := ChecklistUpdate([pm], "pm-1", "c-1", false);
    assert after[0].checklist == [ChecklistItem("c-1", "Check oil", false)];
    assert after[0].checklist[0] in after[0].checklist;
    FindAfterChecklistUpdate([pm], "pm-1", "c-1", false);
  }

  /** Evaluated on the current list, ticking the last open item enables the button. */
  lemma TickingLastItemEnablesButton(user: Option<User>, perms: RolePermissions, selected: Pm, schedules: seq<Pm>,
                                     itemId: string)
    requires FindPm(schedules, selected.id).Some?
    requires FindPm(schedules, selected.id).value.status != Completed
    requires HasPermission(user, perms, "update_pm")
    requires forall c :: c in FindPm(schedules, selected.id).value.checklist ==> c.id == itemId || c.completed
    ensures CurrentGate(user, perms, Some(selected), ChecklistUpdate(schedules, selected.id, itemId, true))
  {
    FindAfterChecklistUpdate(schedules, selected.id, itemId, true);
    var p := FindPm(schedules, selected.id).value;
    var items := SetItem(p.checklist, itemId, true);
    forall c | c in items
      ensures c.completed
    {
      var j :| 0 <= j < |items| && items[j] == c;
      assert p.checklist[j] in p.checklist;
    }
  }

  /** The page's state. */
  class PmState {
    var schedules: seq<Pm>
    var selectedPM: Option<Pm>
    var viewDialogOpen: bool

    constructor(initial: seq<Pm>)
      ensures schedules == initial && selectedPM.None? && !viewDialogOpen
    {
      schedules := initial;
      selectedPM := None;
      viewDialogOpen := false;
    }

    /** "View Details": remember the schedule and open the dialog. */
    method ViewDetails(pm: Pm)
      modifies this
      ensures selectedPM == Some(pm) && viewDialogOpen && schedules == old(schedules)
    {
      selectedPM := Some(pm);
      viewDialogOpen := true;
    }

    /** `handleChecklistUpdate`: only the list changes; the dialog's snapshot does not. */
    method HandleChecklistUpdate(pmId: string, itemId: string, completed: bool)
      modifies this
      ensures schedules == ChecklistUpdate(old(schedules), pmId, itemId, completed)
      ensures selectedPM == old(selectedPM) && viewDialogOpen == old(viewDialogOpen)
    {
      schedules := ChecklistUpdate(schedules, pmId, itemId, completed);
    }

    /** `handleCompletePM` */
    method HandleCompletePM(pmId: string, today: string)
      modifies this
      ensures schedules == CompletePm(old(schedules), pmId, today)
      ensures !viewDialogOpen && selectedPM == old(selectedPM)
    {
      schedules := CompletePm(schedules, pmId, today);
      viewDialogOpen := false;
    }

    /** The button as the page evaluates it. */
    predicate MarkCompleteEnabledAsWritten(user: Option<User>, perms: RolePermissions)
      reads this
    {
      SnapshotGate(user, perms, selectedPM)
    }

    /** The button as evidently intended: on the selected schedule's current state. */
    predicate MarkCompleteEnabled(user: Option<User>, perms: RolePermissions)
      reads this
    {
      CurrentGate(user, perms, selectedPM, schedules)
    }

    /** Ticking an item of the open dialog, whose checkboxes are disabled once the schedule is completed. */
    method TickItem(itemId: string, completed: bool)
      requires selectedPM.Some? && CheckboxEnabled(selectedPM.value)
      modifies this
      ensures schedules == ChecklistUpdate(old(schedules), old(selectedPM).value.id, itemId, completed)
      ensures selectedPM == old(selectedPM) && viewDialogOpen == old(viewDialogOpen)
    {
      HandleChecklistUpdate(selectedPM.value.id, itemId, completed);
    }

    /** Pressing the enabled button completes the selected schedule and closes the dialog. */
    method MarkComplete(user: Option<User>, perms: RolePermissions, today: string)
      requires MarkCompleteEnabled(user, perms)
      modifies this
      ensures schedules == CompletePm(old(schedules), old(selectedPM).value.id, today)
      ensures FindPm(schedules, old(selectedPM).value.id).Some?
      ensures FindPm(schedules, old(selectedPM).value.id).value.status == Completed
      ensures !viewDialogOpen
    {
      var id := selectedPM.value.id;
      ghost var before := schedules;
      HandleCompletePM(id, today);
      assert FindPm(before, id).value in before;
      ghost var i :| 0 <= i < |before| && before[i] == FindPm(before, id).value;
      assert schedules[i].id == id;
      var found := FindPm(schedules, id).value;
      ghost var k :| 0 <= k < |schedules| && schedules[k] == found;
      assert before[k].id == id;
    }
  }
}
