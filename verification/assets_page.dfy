/** The asset register page: search and status filter, the status counters, the add/edit form and deletion. */
module AssetsPage {
  import opened Options
  import opened Text
  import opened Seqs
  import opened Domain

  /** The search box (code, name or location) and the status select. */
  predicate Matches(a: Asset, query: string, status: StatusFilter<AssetStatus>) {
    && (ContainsIgnoringCase(a.assetCode, query) || ContainsIgnoringCase(a.assetName, query)
        || ContainsIgnoringCase(a.location, query))
    && status.Admits(a.status)
  }

  /** `filteredAssets` */
  function FilteredAssets(assets: seq<Asset>, query: string, status: StatusFilter<AssetStatus>): (r: seq<Asset>)
    ensures forall a :: a in r <==> a in assets && Matches(a, query, status)
  {
    Filter(assets, a => Matches(a, query, status))
  }

  /** Narrowing the status can only hide assets: a status-filtered list is part of the unfiltered one. */
  lemma StatusFilterNarrows(assets: seq<Asset>, query: string, s: AssetStatus)
    ensures FilteredAssets(assets, query, Only(s))
         == Filter(FilteredAssets(assets, query, All), (a: Asset) => a.status == s)
  {
    var p := (a: Asset) => Matches(a, query, All);
    var q := (a: Asset) => a.status == s;
    var r := (a: Asset) => Matches(a, query, Only(s));
    assert FilteredAssets(assets, query, All) == Filter(assets, p);
    assert FilteredAssets(assets, query, Only(s)) == Filter(assets, r);
    FilterFilter(assets, p, q, r);
  }

  function CountStatus(assets: seq<Asset>, s: AssetStatus): nat {
    |Filter(assets, (a: Asset) => a.status == s)|
  }

  datatype AssetStats = AssetStats(total: nat, active: nat, maintenance: nat, disposed: nat)

  /** `stats` */
  function Stats(assets: seq<Asset>): AssetStats {
    AssetStats(|assets|, CountStatus(assets, Active), CountStatus(assets, Maintenance), CountStatus(assets, Disposed))
  }

  /** The three counters and the uncounted inactive assets add up to the total. */
  lemma {:induction false} StatsAddUp(assets: seq<Asset>)
    ensures Stats(assets).active + Stats(assets).maintenance + Stats(assets).disposed + CountStatus(assets, Inactive)
         == Stats(assets).total
  {
    if assets != [] {
      StatsAddUp(assets[1..]);
    }
  }

  /** The add/edit form's data. */
  datatype AssetDraft = AssetDraft(
    assetCode: Option<string>, assetName: Option<string>, assetType: Option<AssetType>, status: Option<AssetStatus>,
    location: Option<string>, manufacturer: Option<string>, serialNumber: Option<string>, installDate: Option<string>)

  const EmptyDraft := AssetDraft(None, None, None, None, None, None, None, None)

  /** `{ ...a, ...formData }` */
  function Merge(a: Asset, d: AssetDraft): Asset {
    a.(assetCode := d.assetCode.GetOr(a.assetCode), assetName := d.assetName.GetOr(a.assetName),
       assetType := d.assetType.GetOr(a.assetType), status := d.status.GetOr(a.status),
       location := d.location.GetOr(a.location), manufacturer := d.manufacturer.GetOr(a.manufacturer),
       serialNumber := d.serialNumber.GetOr(a.serialNumber), installDate := d.installDate.GetOr(a.installDate))
  }

  /** The asset a new entry creates; the install date defaults to today. */
  function NewAsset(d: AssetDraft, id: string, today: string): Asset {
    Asset(id, OrElse(d.assetCode, ""), OrElse(d.assetName, ""), d.assetType.GetOr(Machine), d.status.GetOr(Active),
          OrElse(d.location, ""), OrElse(d.manufacturer, ""), OrElse(d.serialNumber, ""), OrElse(d.installDate, today),
          None, None)
  }

  /** `handleSaveAsset`'s list update. */
  function SaveAsset(assets: seq<Asset>, editing: Option<Asset>, d: AssetDraft, newId: string, today: string)
    : (r: seq<Asset>)
    ensures editing.Some? ==> |r| == |assets|
    ensures editing.Some? ==> forall i :: 0 <= i < |assets| ==>
      r[i] == if assets[i].id == editing.value.id then Merge(assets[i], d) else assets[i]
    ensures editing.None? ==> r == assets + [NewAsset(d, newId, today)]
  {
    if editing.Some? then MapWhere(assets, (a: Asset) => a.id == editing.value.id, (a: Asset) => Merge(a, d))
    else assets + [NewAsset(d, newId, today)]
  }

  /** An empty draft edits nothing, merging is idempotent, and a bare new asset is an active machine installed today. */
  lemma SaveLaws(a: Asset, d: AssetDraft, id: string, today: string)
    ensures Merge(a, EmptyDraft) == a
    ensures Merge(Merge(a, d), d) == Merge(a, d)
    ensures Merge(a, d).id == a.id
    ensures NewAsset(EmptyDraft, id, today) == Asset(id, "", "", Machine, Active, "", "", "", today, None, None)
  {
  }

  /** `handleDelete` after the confirmation. */
  function DeleteAsset(assets: seq<Asset>, id: string, confirmed: bool): (r: seq<Asset>)
    ensures !confirmed ==> r == assets
    ensures confirmed ==> forall a :: a in r <==> a in assets && a.id != id
  {
    if confirmed then Filter(assets, (a: Asset) => a.id != id) else assets
  }

  /** Deleting keeps the remaining assets in order: it distributes over any split of the list. */
  lemma DeleteKeepsOrder(front: seq<Asset>, back: seq<Asset>, id: string)
    ensures DeleteAsset(front + back, id, true) == DeleteAsset(front, id, true) + DeleteAsset(back, id, true)
  {
    FilterAppend(front, back, (a: Asset) => a.id != id);
  }

  /** The page's state. */
  class AssetsState {
    var assets: seq<Asset>
    var editingAsset: Option<Asset>
    var isDialogOpen: bool

    constructor(initial: seq<Asset>)
      ensures assets == initial && editingAsset.None? && !isDialogOpen
    {
      assets := initial;
      editingAsset := None;
      isDialogOpen := false;
    }

    /** `handleSaveAsset` */
    method HandleSaveAsset(d: AssetDraft, newId: string, today: string)
      modifies this
      ensures assets == SaveAsset(old(assets), old(editingAsset), d, newId, today)
      ensures !isDialogOpen && editingAsset.None?
    {
      assets := SaveAsset(assets, editingAsset, d, newId, today);
      isDialogOpen := false;
      editingAsset := None;
    }

    /** `handleDelete`; `confirmed` is the answer to the confirmation prompt. */
    method HandleDelete(id: string, confirmed: bool)
      modifies this
      ensures assets == DeleteAsset(old(assets), id, confirmed)
      ensures editingAsset == old(editingAsset) && isDialogOpen == old(isDialogOpen)
    {
      if confirmed {
        assets := DeleteAsset(assets, id, true);
      }
    }
  }
}
