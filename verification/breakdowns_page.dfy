/**
 * The breakdown page: search and status filter, the status counters, reporting a breakdown and
 * the engineer's update. Ids, the date and the time of day are supplied by the caller.
 */
module BreakdownsPage {
  import opened Options
  import opened Text
  import opened Seqs
  import opened Domain
  import opened AuthContext

  /** The search box (asset name or issue) and the status select. */
  predicate Matches(bd: Breakdown, query: string, status: StatusFilter<BreakdownStatus>) {
    (ContainsIgnoringCase(bd.assetName, query) || ContainsIgnoringCase(bd.issue, query)) && status.Admits(bd.status)
  }

  /** `filteredBreakdowns` */
  function FilteredBreakdowns(bds: seq<Breakdown>, query: string, status: StatusFilter<BreakdownStatus>)
    : (r: seq<Breakdown>)
    ensures forall b :: b in r <==> b in bds && Matches(b, query, status)
  {
    Filter(bds, b => Matches(b, query, status))
  }

  predicate IsOpen(b: Breakdown) { b.status == Open }
  predicate IsInProgress(b: Breakdown) { b.status in {Acknowledged, BdInProgress} }
  predicate IsResolved(b: Breakdown) { b.status in {Resolved, Closed} }
  predicate IsCritical(b: Breakdown) { b.priority == Critical && b.status != Closed }

  datatype BreakdownStats = BreakdownStats(open: nat, inProgress: nat, critical: nat, resolved: nat)

  /** `stats` */
  function Stats(bds: seq<Breakdown>): BreakdownStats {
    BreakdownStats(|Filter(bds, IsOpen)|, |Filter(bds, IsInProgress)|, |Filter(bds, IsCritical)|,
                   |Filter(bds, IsResolved)|)
  }

  /** Every status falls in exactly one of the open, in-progress and resolved counters; a closed breakdown is never critical. */
  lemma {:induction false} StatusCountersPartition(bds: seq<Breakdown>)
    ensures Stats(bds).open + Stats(bds).inProgress + Stats(bds).resolved == |bds|
    ensures Stats(bds).critical + |Filter(bds, (b: Breakdown) => b.status == Closed)| <= |bds|
  {
    if bds != [] {
      StatusCountersPartition(bds[1..]);
    }
  }

  /** The report form's data. */
  datatype BreakdownDraft = BreakdownDraft(assetId: Option<string>, businessUnit: Option<string>, issue: Option<string>,
                                           priority: Option<Priority>)

  /** `mockAssets.find(a => a.id === data.assetId)?.assetName || ''` */
  function AssetNameOf(assets: seq<Asset>, assetId: Option<string>): (name: string)
    ensures assetId.None? ==> name == ""
    ensures name != "" ==> exists a :: a in assets && Some(a.id) == assetId && a.assetName == name
    ensures assetId.Some? && (forall a :: a in assets ==> a.id != assetId.value) ==> name == ""
    ensures forall i ::
      (0 <= i < |assets| && Some(assets[i].id) == assetId
       && forall j :: 0 <= j < i ==> assets[j].id != assets[i].id) ==> name == assets[i].assetName
  {
    if assets == [] || assetId.None? then ""
    else if assets[0].id == assetId.value then assets[0].assetName
    else AssetNameOf(assets[1..], assetId)
  }

  /** The breakdown `handleCreateBreakdown` builds. */
  function NewBreakdown(d: BreakdownDraft, id: string, today: string, timeOfDay: string, user: Option<User>,
                        assets: seq<Asset>): (b: Breakdown)
    ensures b.status == Open && b.priority == d.priority.GetOr(Medium)
    ensures b.operatorId == (if user.Some? then user.value.id else "")
    ensures b.engineerNotes.None? && b.resolvedDate.None? && b.downtime.None?
  {
    Breakdown(id, OrElse(d.assetId, ""), AssetNameOf(assets, d.assetId), today, timeOfDay, OrElse(d.businessUnit, ""),
              OrElse(if user.Some? then Some(user.value.id) else None, ""),
              OrElse(if user.Some? then Some(user.value.name) else None, ""),
              OrElse(d.issue, ""), Open, d.priority.GetOr(Medium), None, None, None, None, None)
  }

  /** The data the engineer form submits; `resolvedDate: Some(None)` is a present key holding undefined. */
  datatype EngineerPatch = EngineerPatch(
    status: Option<BreakdownStatus>, engineerNotes: Option<string>, rootCause: Option<string>,
    actionTaken: Option<string>, downtime: Option<int>, resolvedDate: Option<Option<string>>)

  /** `{ ...bd, ...data, status: data.status || bd.status }` */
  function ApplyPatch(bd: Breakdown, p: EngineerPatch): Breakdown {
    bd.(status := p.status.GetOr(bd.status),
        engineerNotes := if p.engineerNotes.Some? then p.engineerNotes else bd.engineerNotes,
        rootCause := if p.rootCause.Some? then p.rootCause else bd.rootCause,
        actionTaken := if p.actionTaken.Some? then p.actionTaken else bd.actionTaken,
        downtime := if p.downtime.Some? then p.downtime else bd.downtime,
        resolvedDate := p.resolvedDate.GetOr(bd.resolvedDate))
  }

  /** `handleEngineerUpdate`'s list update: nothing without a selection, else the selected id only. */
  function EngineerUpdate(bds: seq<Breakdown>, selected: Option<Breakdown>, p: EngineerPatch): (r: seq<Breakdown>)
    ensures selected.None? ==> r == bds
    ensures |r| == |bds|
    ensures selected.Some? ==> forall i :: 0 <= i < |bds| ==>
      r[i] == if bds[i].id == selected.value.id then ApplyPatch(bds[i], p) else bds[i]
  {
    if selected.None? then bds
    else MapWhere(bds, (b: Breakdown) => b.id == selected.value.id, (b: Breakdown) => ApplyPatch(b, p))
  }

  /** A patch without status keeps it, and the identity, asset and report fields never change. */
  lemma PatchLaws(bd: Breakdown, p: EngineerPatch)
    ensures p.status.None? ==> ApplyPatch(bd, p).status == bd.status
    ensures p.status.Some? ==> ApplyPatch(bd, p).status == p.status.value
    ensures var r := ApplyPatch(bd, p);
      && r.id == bd.id && r.assetId == bd.assetId && r.issue == bd.issue && r.priority == bd.priority
      && r.operatorId == bd.operatorId && r.entryDate == bd.entryDate
    ensures ApplyPatch(ApplyPatch(bd, p), p) == ApplyPatch(bd, p)
  {
  }

  /** The engineer form's fields. */
  datatype EngineerForm = EngineerForm(status: BreakdownStatus, engineerNotes: string, rootCause: string,
                                       actionTaken: string, downtime: int)

  /** The form opens with the breakdown's values, empty texts and zero standing in for missing ones. */
  function InitialEngineerForm(bd: Breakdown): EngineerForm {
    EngineerForm(bd.status, OrElse(bd.engineerNotes, ""), OrElse(bd.rootCause, ""), OrElse(bd.actionTaken, ""),
                 bd.downtime.GetOr(0))
  }

  /** `EngineerUpdateForm.handleSubmit`: a resolved date only with status resolved, otherwise an explicit undefined. */
  function SubmitEngineerForm(f: EngineerForm, today: string): (p: EngineerPatch)
    ensures p.resolvedDate.Some?
    ensures p.resolvedDate.value.Some? <==> f.status == Resolved
    ensures p.resolvedDate.value.Some? ==> p.resolvedDate.value.value == today
    ensures p.status == Some(f.status)
  {
    EngineerPatch(Some(f.status), Some(f.engineerNotes), Some(f.rootCause), Some(f.actionTaken), Some(f.downtime),
                  Some(if f.status == Resolved then Some(today) else None))
  }

  /**
   * After an engineer submission the breakdown has a resolved date exactly when it was submitted as
   * resolved: submitting any other status, closing included, clears an earlier resolved date.
   */
  lemma SubmissionSetsResolvedDate(bd: Breakdown, f: EngineerForm, today: string)
    ensures var r := ApplyPatch(bd, SubmitEngineerForm(f, today));
      && r.status == f.status
      && (r.resolvedDate.Some? <==> f.status == Resolved)
      && (f.status == Resolved ==> r.resolvedDate == Some(today))
  {
  }

  /** The Update button is offered to engineers and admins, on breakdowns that are not closed. */
  predicate CanUpdate(user: Option<User>, bd: Breakdown) {
    HasRole(user, [Engineer, Admin]) && bd.status != Closed
  }

  /**
   * The Update button guards the engineer update: opening the dialog needs an engineer or an admin,
   * and when ids are unique the update that follows (`EngineerUpdate` on the selected breakdown)
   * leaves every closed breakdown and every other breakdown as it was.
   */
  lemma {:induction false} GatedUpdateSparesClosed(user: Option<User>, bd: Breakdown, bds: seq<Breakdown>,
                                                   p: EngineerPatch)
    requires CanUpdate(user, bd)
    requires bd in bds
    requires forall i, j :: 0 <= i < j < |bds| ==> bds[i].id != bds[j].id
    ensures user.Some? && user.value.role != Operator && user.value.role != Manager
    ensures var r := EngineerUpdate(bds, Some(bd), p);
      forall i :: 0 <= i < |bds| && (bds[i].status == Closed || bds[i] != bd) ==> r[i] == bds[i]
  {
    var k :| 0 <= k < |bds| && bds[k] == bd;
  }

  /** The page's state. */
  class BreakdownsState {
    var breakdowns: seq<Breakdown>
    var selectedBreakdown: Option<Breakdown>
    var isDialogOpen: bool
    var engineerDialogOpen: bool

    constructor(initial: seq<Breakdown>)
      ensures breakdowns == initial && selectedBreakdown.None? && !isDialogOpen && !engineerDialogOpen
    {
      breakdowns := initial;
      selectedBreakdown := None;
      isDialogOpen := false;
      engineerDialogOpen := false;
    }

    /** `handleCreateBreakdown`: the new report goes first. */
    method HandleCreateBreakdown(d: BreakdownDraft, id: string, today: string, timeOfDay: string, user: Option<User>,
                                 assets: seq<Asset>)
      modifies this
      ensures breakdowns == [NewBreakdown(d, id, today, timeOfDay, user, assets)] + old(breakdowns)
      ensures !isDialogOpen && selectedBreakdown == old(selectedBreakdown) && engineerDialogOpen == old(engineerDialogOpen)
    {
      breakdowns := [NewBreakdown(d, id, today, timeOfDay, user, assets)] + breakdowns;
      isDialogOpen := false;
    }

    /** The Update button: remember the breakdown and open the engineer dialog. */
    method OpenEngineerDialog(user: Option<User>, bd: Breakdown)
      requires CanUpdate(user, bd)
      modifies this
      ensures selectedBreakdown == Some(bd) && engineerDialogOpen
      ensures breakdowns == old(breakdowns) && isDialogOpen == old(isDialogOpen)
    {
      selectedBreakdown := Some(bd);
      engineerDialogOpen := true;
    }

    /** `handleEngineerUpdate`: without a selection it returns before touching anything. */
    method HandleEngineerUpdate(p: EngineerPatch)
      modifies this
      ensures breakdowns == EngineerUpdate(old(breakdowns), old(selectedBreakdown), p)
      ensures engineerDialogOpen == (old(engineerDialogOpen) && old(selectedBreakdown).None?)
      ensures selectedBreakdown == old(selectedBreakdown) && isDialogOpen == old(isDialogOpen)
    {
      if selectedBreakdown.None? {
        return;
      }
      breakdowns := EngineerUpdate(breakdowns, selectedBreakdown, p);
      engineerDialogOpen := false;
    }
  }
}
