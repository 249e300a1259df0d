/**
 * The spare-inventory page: search and category filter, stock classification, the add/edit form,
 * stock receipts and issues, and deletion. Ids and dates are supplied by the caller.
 */
module SparesPage {
  import opened Options
  import opened Text
  import opened Seqs
  import opened Domain

  datatype StockStatus = StockOk | StockWarning | StockCritical

  /** `getStockStatus`: critical at or below the minimum, warning up to one and a half times the minimum. */
  function GetStockStatus(spare: SparePart): (s: StockStatus)
    ensures s == StockCritical <==> spare.currentStock <= spare.minStock
    ensures s == StockWarning <==> spare.minStock < spare.currentStock && 2 * spare.currentStock <= 3 * spare.minStock
    ensures s == StockOk <==> spare.currentStock > spare.minStock && 2 * spare.currentStock > 3 * spare.minStock
  {
    if spare.currentStock <= spare.minStock then StockCritical
    else if spare.currentStock as real <= spare.minStock as real * 1.5 then StockWarning
    else StockOk
  }

  /** The category select: 'all' or one category. */
  datatype CategoryFilter = AllCategories | Category(name: string)

  /** The search box and the category select, both of which must accept a part. */
  predicate Matches(spare: SparePart, query: string, category: CategoryFilter) {
    && (ContainsIgnoringCase(spare.partCode, query) || ContainsIgnoringCase(spare.partName, query))
    && (category.AllCategories? || spare.category == category.name)
  }

  /** `filteredSpares` */
  function FilteredSpares(spares: seq<SparePart>, query: string, category: CategoryFilter): (r: seq<SparePart>)
    ensures forall s :: s in r <==> s in spares && Matches(s, query, category)
  {
    Filter(spares, s => Matches(s, query, category))
  }

  /** An empty search with every category shows the whole list, in its order. */
  lemma EmptySearchShowsAll(spares: seq<SparePart>)
    ensures FilteredSpares(spares, "", AllCategories) == spares
  {
    forall s | s in spares
      ensures Matches(s, "", AllCategories)
    {
      EmptyNeedle(Lower(s.partCode));
    }
    FilterAllOrNone(spares, s => Matches(s, "", AllCategories));
  }

  /** `lowStockItems` */
  function LowStockItems(spares: seq<SparePart>): (r: seq<SparePart>)
    ensures forall s :: s in r <==> s in spares && GetStockStatus(s) == StockCritical
  {
    Filter(spares, (s: SparePart) => s.currentStock <= s.minStock)
  }

  /** `categories`: each category once, in order of first appearance. */
  function Categories(spares: seq<SparePart>): seq<string> {
    Distinct(seq(|spares|, i requires 0 <= i < |spares| => spares[i].category))
  }

  datatype SpareStats = SpareStats(total: nat, lowStock: nat, categories: nat)

  /** `stats`, without the money total. */
  function Stats(spares: seq<SparePart>): SpareStats {
    SpareStats(|spares|, |LowStockItems(spares)|, |Categories(spares)|)
  }

  /** The low-stock count and the category count never exceed the number of parts; the categories are distinct. */
  lemma StatsBounds(spares: seq<SparePart>)
    ensures Stats(spares).lowStock <= Stats(spares).total
    ensures Stats(spares).categories <= Stats(spares).total
    ensures spares != [] ==> Stats(spares).categories >= 1
    ensures forall c :: c in Categories(spares) <==> exists s :: s in spares && s.category == c
  {
    var cats := seq(|spares|, i requires 0 <= i < |spares| => spares[i].category);
    if spares != [] {
      assert cats[0] in Categories(spares);
    }
    forall c | c in Categories(spares)
      ensures exists s :: s in spares && s.category == c
    {
      var i :| 0 <= i < |cats| && cats[i] == c;
      assert spares[i] in spares;
    }
    forall c | exists s :: s in spares && s.category == c
      ensures c in Categories(spares)
    {
      var s :| s in spares && s.category == c;
      var i :| 0 <= i < |spares| && spares[i] == s;
      assert cats[i] == c;
    }
  }

  /** The add/edit form's data: a field the form did not carry is missing. */
  datatype SpareDraft = SpareDraft(
    partCode: Option<string>, partName: Option<string>, category: Option<string>, currentStock: Option<int>,
    minStock: Option<int>, maxStock: Option<int>, unit: Option<string>, location: Option<string>,
    unitPrice: Option<real>)

  const EmptyDraft := SpareDraft(None, None, None, None, None, None, None, None, None)

  /** `{ ...s, ...formData }`: every field the form carries replaces the part's. */
  function Merge(s: SparePart, d: SpareDraft): SparePart {
    s.(partCode := d.partCode.GetOr(s.partCode), partName := d.partName.GetOr(s.partName),
       category := d.category.GetOr(s.category), currentStock := d.currentStock.GetOr(s.currentStock),
       minStock := d.minStock.GetOr(s.minStock), maxStock := d.maxStock.GetOr(s.maxStock),
       unit := d.unit.GetOr(s.unit), location := d.location.GetOr(s.location),
       unitPrice := d.unitPrice.GetOr(s.unitPrice))
  }

  /** The part a new entry creates, with the `||` defaults. */
  function NewSpare(d: SpareDraft, id: string): SparePart {
    SparePart(id, OrElse(d.partCode, ""), OrElse(d.partName, ""), OrElse(d.category, ""),
              d.currentStock.GetOr(0), d.minStock.GetOr(0), d.maxStock.GetOr(0), OrElse(d.unit, "pcs"),
              OrElse(d.location, ""), d.unitPrice.GetOr(0.0), None)
  }

  /** `handleSaveSpare`'s list update: merge into the edited part, or append a new part. */
  function SaveSpare(spares: seq<SparePart>, editing: Option<SparePart>, d: SpareDraft, newId: string)
    : (r: seq<SparePart>)
    ensures editing.Some? ==> |r| == |spares|
    ensures editing.Some? ==> forall i :: 0 <= i < |spares| ==>
      r[i] == if spares[i].id == editing.value.id then Merge(spares[i], d) else spares[i]
    ensures editing.None? ==> r == spares + [NewSpare(d, newId)]
  {
    if editing.Some? then MapWhere(spares, (s: SparePart) => s.id == editing.value.id, (s: SparePart) => Merge(s, d))
    else spares + [NewSpare(d, newId)]
  }

  /** An empty draft edits nothing, merging is idempotent, and the id and restock date are never touched. */
  lemma MergeLaws(s: SparePart, d: SpareDraft)
    ensures Merge(s, EmptyDraft) == s
    ensures Merge(Merge(s, d), d) == Merge(s, d)
    ensures Merge(s, d).id == s.id && Merge(s, d).lastRestocked == s.lastRestocked
  {
  }

  /** A new part without unit or numbers gets `pcs` and zeros. */
  lemma NewSpareDefaults(id: string)
    ensures NewSpare(EmptyDraft, id) == SparePart(id, "", "", "", 0, 0, 0, "pcs", "", 0.0, None)
  {
  }

  datatype TxnKind = In | Out

  /** `handleTransaction`'s list update; `today` is the date part of the current time. */
  function ApplyTransaction(spares: seq<SparePart>, spareId: string, kind: TxnKind, quantity: int, today: string)
    : (r: seq<SparePart>)
    ensures |r| == |spares|
    ensures forall i :: 0 <= i < |spares| && spares[i].id != spareId ==> r[i] == spares[i]
    ensures forall i :: 0 <= i < |spares| && spares[i].id == spareId ==>
      && r[i].currentStock == spares[i].currentStock + (if kind == In then quantity else -quantity)
      && r[i].(currentStock := spares[i].currentStock, lastRestocked := spares[i].lastRestocked) == spares[i]
      && (r[i].lastRestocked == if kind == In then Some(today) else spares[i].lastRestocked)
  {
    MapWhere(spares, (s: SparePart) => s.id == spareId,
      (s: SparePart) => s.(currentStock := if kind == In then s.currentStock + quantity else s.currentStock - quantity,
               lastRestocked := if kind == In then Some(today) else s.lastRestocked))
  }

  /** A receipt followed by an issue of the same quantity restores every stock level. */
  lemma ReceiptThenIssue(spares: seq<SparePart>, spareId: string, quantity: int, today: string)
    ensures var after := ApplyTransaction(ApplyTransaction(spares, spareId, In, quantity, today),
                                          spareId, Out, quantity, today);
      forall i :: 0 <= i < |spares| ==> after[i].currentStock == spares[i].currentStock
  {
  }

  /** `parseInt(value) || 1`: an unparsable or zero entry becomes 1. */
  function QuantityInput(parsed: Option<int>): (q: int)
    ensures q != 0
    ensures parsed.Some? && parsed.value != 0 ==> q == parsed.value
    ensures !(parsed.Some? && parsed.value != 0) ==> q == 1
  {
    if parsed.Some? && parsed.value != 0 then parsed.value else 1
  }

  /** `TransactionForm.handleSubmit`: the submitted transaction, or None when an issue exceeds the stock. */
  function SubmitTransaction(spare: SparePart, kind: TxnKind, quantity: int): (r: Option<(TxnKind, int)>)
    ensures r.None? <==> kind == Out && quantity > spare.currentStock
    ensures r.Some? ==> r.value == (kind, quantity)
  {
    if kind == Out && quantity > spare.currentStock then None else Some((kind, quantity))
  }

  /** An issue the form lets through never drives the part's stock below zero. */
  lemma AcceptedIssueKeepsStock(spares: seq<SparePart>, i: nat, quantity: int, today: string)
    requires i < |spares| && spares[i].currentStock >= 0
    requires SubmitTransaction(spares[i], Out, quantity).Some?
    ensures ApplyTransaction(spares, spares[i].id, Out, quantity, today)[i].currentStock >= 0
  {
  }

  /** `handleDelete` after the confirmation: drop every part with that id. */
  function DeleteSpare(spares: seq<SparePart>, id: string, confirmed: bool): (r: seq<SparePart>)
    ensures !confirmed ==> r == spares
    ensures confirmed ==> forall s :: s in r <==> s in spares && s.id != id
  {
    if confirmed then Filter(spares, (s: SparePart) => s.id != id) else spares
  }

  /** Deleting an id that is not in the list changes nothing; deleting twice is deleting once. */
  lemma DeleteLaws(spares: seq<SparePart>, id: string)
    ensures (forall s :: s in spares ==> s.id != id) ==> DeleteSpare(spares, id, true) == spares
    ensures DeleteSpare(DeleteSpare(spares, id, true), id, true) == DeleteSpare(spares, id, true)
  {
    var p := (s: SparePart) => s.id != id;
    FilterAllOrNone(spares, p);
    FilterAllOrNone(Filter(spares, p), p);
  }

  /** The page's state. */
  class SparesState {
    var spares: seq<SparePart>
    var editingSpare: Option<SparePart>
    var isDialogOpen: bool
    var transactionDialogOpen: bool

    constructor(initial: seq<SparePart>)
      ensures spares == initial && editingSpare.None? && !isDialogOpen && !transactionDialogOpen
    {
      spares := initial;
      editingSpare := None;
      isDialogOpen := false;
      transactionDialogOpen := false;
    }

    /** `handleSaveSpare` */
    method HandleSaveSpare(d: SpareDraft, newId: string)
      modifies this
      ensures spares == SaveSpare(old(spares), old(editingSpare), d, newId)
      ensures !isDialogOpen && editingSpare.None? && transactionDialogOpen == old(transactionDialogOpen)
    {
      spares := SaveSpare(spares, editingSpare, d, newId);
      isDialogOpen := false;
      editingSpare := None;
    }

    /** `handleTransaction` */
    method HandleTransaction(spareId: string, kind: TxnKind, quantity: int, today: string)
      modifies this
      ensures spares == ApplyTransaction(old(spares), spareId, kind, quantity, today)
      ensures !transactionDialogOpen && isDialogOpen == old(isDialogOpen) && editingSpare == old(editingSpare)
    {
      spares := ApplyTransaction(spares, spareId, kind, quantity, today);
      transactionDialogOpen := false;
    }

    /** `handleDelete`; `confirmed` is the user's answer to the confirmation prompt. */
    method HandleDelete(id: string, confirmed: bool)
      modifies this
      ensures spares == DeleteSpare(old(spares), id, confirmed)
      ensures isDialogOpen == old(isDialogOpen) && editingSpare == old(editingSpare)
      ensures transactionDialogOpen == old(transactionDialogOpen)
    {
      if confirmed {
        spares := DeleteSpare(spares, id, true);
      }
    }
  }
}
