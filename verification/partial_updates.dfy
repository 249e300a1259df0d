/** The rows of the four tables that the REST handlers update field by field. */
module ServerTables {
  import opened Options

  type RowId = string
  type UserId = string

  /** A field of a JSON body: left out (`undefined`), `null`, or a value. */
  datatype Json<T> = Absent | Null | Present(value: T)
  {
    /** The SQL value of a field that reaches the database: NULL for `null`. */
    function AsOption(): Option<T> {
      if Present? then Some(value) else None
    }
  }

  /**
   * The error the `postgres` client of db.js raises, before anything reaches the database, when a
   * query parameter is `undefined`: it sets no `transform.undefined`, so such a value is refused.
   */
  const UndefinedValue := "Undefined values are not allowed"

  /** public.asset_master */
  datatype AssetRow = AssetRow(
    assetCode: string, assetName: string, assetLocation: string, buName: string,
    assetType: string, manufacturer: string, modelNumber: string, modelName: string,
    installDate: string, assetStatus: string, warrantyExpiry: string, qrCode: string,
    updatedBy: Option<UserId>)

  /** public.bd_entry_operator */
  datatype BreakdownRow = BreakdownRow(
    shiftId: string, entryDate: string, entryTime: string, assetId: string, bdStatus: string,
    assetLocation: string, buName: string, operatorName: string, keyIssue: string,
    natureOfComplaint: string, note: string)

  /** public.spare_parts_inventory */
  datatype SpareRow = SpareRow(
    partCode: string, partName: string, partNo: string, minLevel: int, reorderLevel: int,
    currentStock: int, unitCost: real, supplier: string, spareLocation: string, buName: string,
    lastUpdatedBy: Option<UserId>)

  /** public.pm_schedule */
  datatype PmRow = PmRow(
    pmTitle: string, frequencyInterval: string, pmFrequencyInterval: string, lastPmDate: string,
    nextPmDate: string, checklistRef: string, status: string, responsiblePerson: string)
}

/**
 * The PUT handlers: an optional enum check, then `UPDATE ... SET col = COALESCE(value, col)` on the
 * row with the given id, 404 when no row has it, and 500 when the statement throws. A plain field
 * sent as `null` (SQL NULL) keeps the stored value; a supplied field overwrites it, enum fields in
 * their lower-case form and the breakdown shift in its upper-case form.
 *
 * A field converted with `?.` (the enums and the shift) is `undefined` when it is `null` or left
 * out, and so is `req.user?.id` without a user; the client refuses an `undefined` parameter, so the
 * statement throws with `UndefinedValue`. In the patches `None` is `null` for a plain field and
 * "`null` or left out" for a `?.` field.
 *
 * `fault` is any other error the statement throws: a lost connection, a value the column's type
 * refuses, or a plain field left out of the body.
 */
module PartialUpdates {
  import opened Options
  import opened Text
  import opened ServerTables
  import RequestValidation

  /** `COALESCE(value, column)` */
  function Coalesce<T>(value: Option<T>, stored: T): (r: T)
    ensures value.None? ==> r == stored
    ensures value.Some? ==> r == value.value
  {
    if value.Some? then value.value else stored
  }

  /** `value ?? earlier`: the later of two patches wins where it supplies a field. */
  function Later<T>(value: Option<T>, earlier: Option<T>): Option<T> {
    if value.Some? then value else earlier
  }

  /** COALESCE is idempotent, and two successive COALESCEs are one with the later value preferred. */
  lemma CoalesceLaws<T>(p: Option<T>, q: Option<T>, x: T)
    ensures Coalesce(p, Coalesce(p, x)) == Coalesce(p, x)
    ensures Coalesce(q, Coalesce(p, x)) == Coalesce(Later(q, p), x)
  {
  }

  /** `v?.toLowerCase()` */
  function LowerOpt(v: Option<string>): (r: Option<string>)
    ensures r.Some? <==> v.Some?
    ensures r.Some? ==> r.value == Lower(v.value)
  {
    if v.Some? then Some(Lower(v.value)) else None
  }

  /** `v?.toUpperCase()` */
  function UpperOpt(v: Option<string>): (r: Option<string>)
    ensures r.Some? <==> v.Some?
    ensures r.Some? ==> r.value == Upper(v.value)
  {
    if v.Some? then Some(Upper(v.value)) else None
  }

  /** The answer of a PUT handler; a `ServerError` carries the thrown message as its details. */
  datatype Response<R> =
    | BadRequest(message: string)
    | NotFound(message: string)
    | ServerError(message: string, details: string)
    | Ok(row: R)

  datatype AssetPatch = AssetPatch(
    assetCode: Option<string>, assetName: Option<string>, assetLocation: Option<string>,
    buName: Option<string>, assetType: Option<string>, manufacturer: Option<string>,
    modelNumber: Option<string>, modelName: Option<string>, installDate: Option<string>,
    assetStatus: Option<string>, warrantyExpiry: Option<string>, qrCode: Option<string>)

  const EmptyAssetPatch := AssetPatch(None, None, None, None, None, None, None, None, None, None, None, None)

  /** The SET list of PUT /api/assets/:id; `updated_by` is always the caller. */
  function ApplyAssetPatch(row: AssetRow, p: AssetPatch, user: Option<UserId>): AssetRow {
    AssetRow(
      Coalesce(p.assetCode, row.assetCode), Coalesce(p.assetName, row.assetName),
      Coalesce(p.assetLocation, row.assetLocation), Coalesce(p.buName, row.buName),
      Coalesce(LowerOpt(p.assetType), row.assetType), Coalesce(p.manufacturer, row.manufacturer),
      Coalesce(p.modelNumber, row.modelNumber), Coalesce(p.modelName, row.modelName),
      Coalesce(p.installDate, row.installDate), Coalesce(LowerOpt(p.assetStatus), row.assetStatus),
      Coalesce(p.warrantyExpiry, row.warrantyExpiry), Coalesce(p.qrCode, row.qrCode),
      user)
  }

  /** `asset_type?.toLowerCase()`, `asset_status?.toLowerCase()` or `req.user?.id` is undefined. */
  predicate AssetSendsUndefined(p: AssetPatch, user: Option<UserId>) {
    p.assetType.None? || p.assetStatus.None? || user.None?
  }

  /** PUT /api/assets/:id over the asset table. */
  function UpdateAsset(table: map<RowId, AssetRow>, id: RowId, p: AssetPatch, user: Option<UserId>,
                       fault: Option<string>)
    : (res: (Response<AssetRow>, map<RowId, AssetRow>))
    ensures res.0.BadRequest? <==> RequestValidation.ValidateAssetUpdate(p.assetStatus, p.assetType).Reject?
    ensures res.0.ServerError? <==>
      RequestValidation.ValidateAssetUpdate(p.assetStatus, p.assetType).Accept?
      && (AssetSendsUndefined(p, user) || fault.Some?)
    ensures res.0.ServerError? ==>
      && res.0.message == "Database error updating asset"
      && res.0.details == if AssetSendsUndefined(p, user) then UndefinedValue else fault.value
    ensures res.0.NotFound? <==>
      && RequestValidation.ValidateAssetUpdate(p.assetStatus, p.assetType).Accept?
      && !AssetSendsUndefined(p, user) && fault.None? && id !in table
    ensures res.0.NotFound? ==> res.0.message == "Asset not found"
    ensures !res.0.Ok? ==> res.1 == table
    ensures res.0.Ok? ==>
      && id in table
      && res.0.row == ApplyAssetPatch(table[id], p, user)
      && res.1.Keys == table.Keys
      && res.1[id] == res.0.row
      && (forall k :: k in table && k != id ==> res.1[k] == table[k])
  {
    var verdict := RequestValidation.ValidateAssetUpdate(p.assetStatus, p.assetType);
    if verdict.Reject? then (BadRequest(verdict.message), table)
    else if AssetSendsUndefined(p, user) then (ServerError("Database error updating asset", UndefinedValue), table)
    else if fault.Some? then (ServerError("Database error updating asset", fault.value), table)
    else if id !in table then (NotFound("Asset not found"), table)
    else
      var row := ApplyAssetPatch(table[id], p, user);
      (Ok(row), table[id := row])
  }

  /** The data columns of an asset, everything but the audit column. */
  function AssetData(r: AssetRow): AssetRow {
    r.(updatedBy := None)
  }

  /**
   * The all-NULL patch changes no data column. This is a law of the COALESCE statement, not a
   * behaviour of the handler: an empty body makes `asset_type?.toLowerCase()` undefined, so
   * `UpdateAsset` answers 500 before the statement runs (`NullAssetEnumIsRefused`).
   */
  lemma EmptyAssetPatchKeepsData(row: AssetRow, user: Option<UserId>)
    ensures AssetData(ApplyAssetPatch(row, EmptyAssetPatch, user)) == AssetData(row)
  {
  }

  /** A patch applied twice is the patch applied once. */
  lemma {:induction false} AssetPatchIdempotent(row: AssetRow, p: AssetPatch, user: Option<UserId>)
    ensures ApplyAssetPatch(ApplyAssetPatch(row, p, user), p, user) == ApplyAssetPatch(row, p, user)
  {
    if p.assetType.Some? { LowerFixesLowerCase(p.assetType.value); }
    if p.assetStatus.Some? { LowerFixesLowerCase(p.assetStatus.value); }
  }

  /** Asset type and status are stored lower-cased: a row with lower-case enums keeps them so. */
  predicate AssetEnumsLowerCase(r: AssetRow) {
    IsLowerCase(r.assetType) && IsLowerCase(r.assetStatus)
  }

  lemma {:induction false} AssetEnumsStayLowerCase(row: AssetRow, p: AssetPatch, user: Option<UserId>)
    requires AssetEnumsLowerCase(row)
    ensures AssetEnumsLowerCase(ApplyAssetPatch(row, p, user))
  {
    if p.assetType.Some? { LowerFixesLowerCase(p.assetType.value); }
    if p.assetStatus.Some? { LowerFixesLowerCase(p.assetStatus.value); }
  }

  /** A non-empty status that passes validation is stored as one of the four allowed values. */
  lemma AcceptedAssetStatusIsStored(table: map<RowId, AssetRow>, id: RowId, p: AssetPatch, user: Option<UserId>,
                                    fault: Option<string>)
    requires Truthy(p.assetStatus)
    requires UpdateAsset(table, id, p, user, fault).0.Ok?
    ensures UpdateAsset(table, id, p, user, fault).0.row.assetStatus in {"active", "under_amc", "inactive", "disposed"}
  {
  }

  /**
   * An empty status is falsy, so it skips validation and reaches the database: a column that takes
   * "" stores it over the old status, and a column whose type refuses it throws, which answers 500.
   */
  lemma EmptyAssetStatusOverwrites(table: map<RowId, AssetRow>, id: RowId, p: AssetPatch, user: Option<UserId>,
                                   fault: Option<string>)
    requires id in table
    requires p.assetStatus == Some("")
    ensures var res := UpdateAsset(table, id, p, user, fault);
      && (res.0.BadRequest? <==> RequestValidation.ValidateAssetUpdate(None, p.assetType).Reject?)
      && (!res.0.BadRequest? && p.assetType.Some? && user.Some? && fault.None? ==>
            res.0.Ok? && res.0.row.assetStatus == "")
      && (fault.Some? ==> !res.0.Ok? && res.1 == table)
  {
  }

  /** As written, a body without `asset_type` or `asset_status` never updates: the statement throws. */
  lemma NullAssetEnumIsRefused(table: map<RowId, AssetRow>, id: RowId, p: AssetPatch, user: Option<UserId>,
                               fault: Option<string>)
    requires p.assetType.None? || p.assetStatus.None?
    ensures UpdateAsset(table, id, p, user, fault).1 == table
    ensures var r := UpdateAsset(table, id, p, user, fault).0;
      r.ServerError? || r.BadRequest?
    ensures UpdateAsset(table, id, EmptyAssetPatch, user, fault).0 ==
      ServerError("Database error updating asset", "Undefined values are not allowed")
  {
  }

  datatype BreakdownPatch = BreakdownPatch(
    shiftId: Option<string>, entryDate: Option<string>, entryTime: Option<string>,
    assetId: Option<string>, bdStatus: Option<string>, assetLocation: Option<string>,
    buName: Option<string>, operatorName: Option<string>, keyIssue: Option<string>,
    natureOfComplaint: Option<string>, note: Option<string>)

  const EmptyBreakdownPatch := BreakdownPatch(None, None, None, None, None, None, None, None, None, None, None)

  /** The SET list of PUT /api/breakdowns/:id: shift upper-cased, status lower-cased. */
  function ApplyBreakdownPatch(row: BreakdownRow, p: BreakdownPatch): BreakdownRow {
    BreakdownRow(
      Coalesce(UpperOpt(p.shiftId), row.shiftId), Coalesce(p.entryDate, row.entryDate),
      Coalesce(p.entryTime, row.entryTime), Coalesce(p.assetId, row.assetId),
      Coalesce(LowerOpt(p.bdStatus), row.bdStatus), Coalesce(p.assetLocation, row.assetLocation),
      Coalesce(p.buName, row.buName), Coalesce(p.operatorName, row.operatorName),
      Coalesce(p.keyIssue, row.keyIssue), Coalesce(p.natureOfComplaint, row.natureOfComplaint),
      Coalesce(p.note, row.note))
  }

  /** `shift_id?.toUpperCase()` or `bd_status?.toLowerCase()` is undefined. */
  predicate BreakdownSendsUndefined(p: BreakdownPatch) {
    p.shiftId.None? || p.bdStatus.None?
  }

  /** PUT /api/breakdowns/:id over the operator-entry table. */
  function UpdateBreakdown(table: map<RowId, BreakdownRow>, id: RowId, p: BreakdownPatch,
                           fault: Option<string>)
    : (res: (Response<BreakdownRow>, map<RowId, BreakdownRow>))
    ensures res.0.BadRequest? <==> RequestValidation.ValidateBreakdownUpdate(p.bdStatus).Reject?
    ensures res.0.ServerError? <==>
      RequestValidation.ValidateBreakdownUpdate(p.bdStatus).Accept? && (BreakdownSendsUndefined(p) || fault.Some?)
    ensures res.0.ServerError? ==>
      && res.0.message == "Database error updating breakdown"
      && res.0.details == if BreakdownSendsUndefined(p) then UndefinedValue else fault.value
    ensures res.0.NotFound? <==>
      && RequestValidation.ValidateBreakdownUpdate(p.bdStatus).Accept?
      && !BreakdownSendsUndefined(p) && fault.None? && id !in table
    ensures res.0.NotFound? ==> res.0.message == "Breakdown not found"
    ensures !res.0.Ok? ==> res.1 == table
    ensures res.0.Ok? ==>
      && id in table
      && res.0.row == ApplyBreakdownPatch(table[id], p)
      && res.1.Keys == table.Keys
      && res.1[id] == res.0.row
      && (forall k :: k in table && k != id ==> res.1[k] == table[k])
  {
    var verdict := RequestValidation.ValidateBreakdownUpdate(p.bdStatus);
    if verdict.Reject? then (BadRequest(verdict.message), table)
    else if BreakdownSendsUndefined(p) then (ServerError("Database error updating breakdown", UndefinedValue), table)
    else if fault.Some? then (ServerError("Database error updating breakdown", fault.value), table)
    else if id !in table then (NotFound("Breakdown not found"), table)
    else
      var row := ApplyBreakdownPatch(table[id], p);
      (Ok(row), table[id := row])
  }

  /**
   * Laws of the COALESCE statement. The all-NULL patch is not one the handler applies: an empty
   * body leaves `shift_id?.toUpperCase()` undefined, so `UpdateBreakdown` answers 500 first.
   */
  lemma {:induction false} BreakdownPatchLaws(row: BreakdownRow, p: BreakdownPatch)
    ensures ApplyBreakdownPatch(row, EmptyBreakdownPatch) == row
    ensures ApplyBreakdownPatch(ApplyBreakdownPatch(row, p), p) == ApplyBreakdownPatch(row, p)
    ensures p.shiftId.Some? ==> IsUpperCase(ApplyBreakdownPatch(row, p).shiftId)
    ensures p.bdStatus.Some? ==> IsLowerCase(ApplyBreakdownPatch(row, p).bdStatus)
  {
    if p.shiftId.Some? { UpperFixesUpperCase(p.shiftId.value); }
    if p.bdStatus.Some? { LowerFixesLowerCase(p.bdStatus.value); }
  }

  datatype SparePatch = SparePatch(
    partCode: Option<string>, partName: Option<string>, partNo: Option<string>,
    minLevel: Option<int>, reorderLevel: Option<int>, currentStock: Option<int>,
    unitCost: Option<real>, supplier: Option<string>, spareLocation: Option<string>,
    buName: Option<string>)

  const EmptySparePatch := SparePatch(None, None, None, None, None, None, None, None, None, None)

  /** The SET list of PUT /api/spares/:id; `last_updated_by` is always the caller. */
  function ApplySparePatch(row: SpareRow, p: SparePatch, user: Option<UserId>): SpareRow {
    SpareRow(
      Coalesce(p.partCode, row.partCode), Coalesce(p.partName, row.partName),
      Coalesce(p.partNo, row.partNo), Coalesce(p.minLevel, row.minLevel),
      Coalesce(p.reorderLevel, row.reorderLevel), Coalesce(p.currentStock, row.currentStock),
      Coalesce(p.unitCost, row.unitCost), Coalesce(p.supplier, row.supplier),
      Coalesce(p.spareLocation, row.spareLocation), Coalesce(p.buName, row.buName),
      user)
  }

  /**
   * PUT /api/spares/:id: no validation, so the only failures are a throwing statement (`req.user?.id`
   * undefined, or a database error) and a missing id.
   */
  function UpdateSpare(table: map<RowId, SpareRow>, id: RowId, p: SparePatch, user: Option<UserId>,
                       fault: Option<string>)
    : (res: (Response<SpareRow>, map<RowId, SpareRow>))
    ensures !res.0.BadRequest?
    ensures res.0.ServerError? <==> user.None? || fault.Some?
    ensures res.0.ServerError? ==>
      && res.0.message == "Database error updating spare part"
      && res.0.details == if user.None? then UndefinedValue else fault.value
    ensures res.0.NotFound? <==> user.Some? && fault.None? && id !in table
    ensures res.0.NotFound? ==> res.0.message == "Spare part not found"
    ensures !res.0.Ok? ==> res.1 == table
    ensures res.0.Ok? ==>
      && id in table
      && res.0.row == ApplySparePatch(table[id], p, user)
      && res.1.Keys == table.Keys
      && res.1[id] == res.0.row
      && (forall k :: k in table && k != id ==> res.1[k] == table[k])
  {
    if user.None? then (ServerError("Database error updating spare part", UndefinedValue), table)
    else if fault.Some? then (ServerError("Database error updating spare part", fault.value), table)
    else if id !in table then (NotFound("Spare part not found"), table)
    else
      var row := ApplySparePatch(table[id], p, user);
      (Ok(row), table[id := row])
  }

  function SpareData(r: SpareRow): SpareRow {
    r.(lastUpdatedBy := None)
  }

  lemma {:induction false} SparePatchLaws(row: SpareRow, p: SparePatch, user: Option<UserId>)
    ensures SpareData(ApplySparePatch(row, EmptySparePatch, user)) == SpareData(row)
    ensures ApplySparePatch(ApplySparePatch(row, p, user), p, user) == ApplySparePatch(row, p, user)
    ensures p.currentStock.None? ==> ApplySparePatch(row, p, user).currentStock == row.currentStock
  {
  }

  datatype PmPatch = PmPatch(
    pmTitle: Option<string>, frequencyInterval: Option<string>, pmFrequencyInterval: Option<string>,
    lastPmDate: Option<string>, nextPmDate: Option<string>, checklistRef: Option<string>,
    status: Option<string>, responsiblePerson: Option<string>)

  const EmptyPmPatch := PmPatch(None, None, None, None, None, None, None, None)

  /** The SET list of PUT /api/pm/:id: status lower-cased. */
  function ApplyPmPatch(row: PmRow, p: PmPatch): PmRow {
    PmRow(
      Coalesce(p.pmTitle, row.pmTitle), Coalesce(p.frequencyInterval, row.frequencyInterval),
      Coalesce(p.pmFrequencyInterval, row.pmFrequencyInterval), Coalesce(p.lastPmDate, row.lastPmDate),
      Coalesce(p.nextPmDate, row.nextPmDate), Coalesce(p.checklistRef, row.checklistRef),
      Coalesce(LowerOpt(p.status), row.status), Coalesce(p.responsiblePerson, row.responsiblePerson))
  }

  /** PUT /api/pm/:id over the schedule table. */
  function UpdatePm(table: map<RowId, PmRow>, id: RowId, p: PmPatch, fault: Option<string>)
    : (res: (Response<PmRow>, map<RowId, PmRow>))
    ensures res.0.BadRequest? <==> RequestValidation.ValidatePmUpdate(p.status).Reject?
    ensures res.0.ServerError? <==> RequestValidation.ValidatePmUpdate(p.status).Accept? && (p.status.None? || fault.Some?)
    ensures res.0.ServerError? ==>
      && res.0.message == "Database error updating PM schedule"
      && res.0.details == if p.status.None? then UndefinedValue else fault.value
    ensures res.0.NotFound? <==>
      RequestValidation.ValidatePmUpdate(p.status).Accept? && p.status.Some? && fault.None? && id !in table
    ensures res.0.NotFound? ==> res.0.message == "PM schedule not found"
    ensures !res.0.Ok? ==> res.1 == table
    ensures res.0.Ok? ==>
      && id in table
      && res.0.row == ApplyPmPatch(table[id], p)
      && res.1.Keys == table.Keys
      && res.1[id] == res.0.row
      && (forall k :: k in table && k != id ==> res.1[k] == table[k])
  {
    var verdict := RequestValidation.ValidatePmUpdate(p.status);
    if verdict.Reject? then (BadRequest(verdict.message), table)
    else if p.status.None? then (ServerError("Database error updating PM schedule", UndefinedValue), table)
    else if fault.Some? then (ServerError("Database error updating PM schedule", fault.value), table)
    else if id !in table then (NotFound("PM schedule not found"), table)
    else
      var row := ApplyPmPatch(table[id], p);
      (Ok(row), table[id := row])
  }

  /**
   * Laws of the COALESCE statement. The all-NULL patch is not one the handler applies: an empty
   * body leaves `status?.toLowerCase()` undefined, so `UpdatePm` answers 500 first.
   */
  lemma {:induction false} PmPatchLaws(row: PmRow, p: PmPatch)
    ensures ApplyPmPatch(row, EmptyPmPatch) == row
    ensures ApplyPmPatch(ApplyPmPatch(row, p), p) == ApplyPmPatch(row, p)
    ensures p.status.Some? ==> IsLowerCase(ApplyPmPatch(row, p).status)
  {
    if p.status.Some? { LowerFixesLowerCase(p.status.value); }
  }
}
