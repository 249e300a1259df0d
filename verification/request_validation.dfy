/**
 * The enum checks the REST handlers run on request bodies before touching the database.
 * Most lists are compared against the lower-cased input; the utility type is compared as given.
 * A field that is absent or empty (falsy in JavaScript) is not checked by the optional validators.
 */
module RequestValidation {
  import opened Options
  import opened Text

  const AssetStatuses: seq<string> := ["active", "under_amc", "inactive", "disposed"]
  const AssetTypes: seq<string> := ["machine", "utility", "auxiliary"]
  const BreakdownStatuses: seq<string> := ["open", "ack", "in_progress", "resolved", "closed"]
  const PmStatuses: seq<string> := ["scheduled", "completed", "overdue"]
  const UtilityTypes: seq<string> := ["Power", "Water", "Air", "Gas"]
  const Directions: seq<string> := ["issue", "return"]
  const PmBdTypes: seq<string> := ["pm", "bd"]

  /** The messages of the create-time rejections. */
  const AssetStatusMessage := "Invalid asset_status value. Must be one of: active, under_amc, inactive, disposed"
  const AssetTypeMessage := "Invalid asset_type value. Must be one of: machine, utility, auxiliary"
  const PmStatusMessage := "Invalid status value. Must be one of: scheduled, completed, overdue"
  const UtilityTypeMessage := "Invalid utility type. Must be one of: Power, Water, Air, Gas"
  const DirectionMessage := "Invalid transaction direction. Must be \"issue\" or \"return\""
  const PmBdTypeMessage := "Invalid pm_bd_type. Must be \"pm\" or \"bd\""

  /** The outcome of a validator: go on, or answer with an HTTP status and an error message. */
  datatype Verdict = Accept | Reject(status: int, message: string)

  /** `v && !allowed.includes(v.toLowerCase())`: a supplied value whose lower-case form is not allowed. */
  predicate BadOptionalFolded(v: Option<string>, allowed: seq<string>) {
    Truthy(v) && Lower(v.value) !in allowed
  }

  /** POST /api/assets: status is checked before type, each only when supplied. */
  function ValidateAssetCreate(assetStatus: Option<string>, assetType: Option<string>): (r: Verdict)
    ensures r.Accept? <==>
      (!Truthy(assetStatus) || Lower(assetStatus.value) in {"active", "under_amc", "inactive", "disposed"})
      && (!Truthy(assetType) || Lower(assetType.value) in {"machine", "utility", "auxiliary"})
    ensures r.Reject? ==> r.status == 400
  {
    if BadOptionalFolded(assetStatus, AssetStatuses) then
      Reject(400, AssetStatusMessage)
    else if BadOptionalFolded(assetType, AssetTypes) then
      Reject(400, AssetTypeMessage)
    else Accept
  }

  /** PUT /api/assets/:id: the same two checks with shorter messages. */
  function ValidateAssetUpdate(assetStatus: Option<string>, assetType: Option<string>): (r: Verdict)
    ensures r.Accept? <==> ValidateAssetCreate(assetStatus, assetType).Accept?
    ensures r.Reject? ==> r.status == 400
  {
    if BadOptionalFolded(assetStatus, AssetStatuses) then Reject(400, "Invalid asset_status value")
    else if BadOptionalFolded(assetType, AssetTypes) then Reject(400, "Invalid asset_type value")
    else Accept
  }

  /** PUT /api/breakdowns/:id */
  function ValidateBreakdownUpdate(bdStatus: Option<string>): (r: Verdict)
    ensures r.Accept? <==>
      !Truthy(bdStatus) || Lower(bdStatus.value) in {"open", "ack", "in_progress", "resolved", "closed"}
    ensures r.Reject? ==> r.status == 400
  {
    if BadOptionalFolded(bdStatus, BreakdownStatuses) then Reject(400, "Invalid bd_status value") else Accept
  }

  /** POST /api/pm */
  function ValidatePmCreate(status: Option<string>): (r: Verdict)
    ensures r.Accept? <==> !Truthy(status) || Lower(status.value) in {"scheduled", "completed", "overdue"}
    ensures r.Reject? ==> r.status == 400
  {
    if BadOptionalFolded(status, PmStatuses) then
      Reject(400, PmStatusMessage)
    else Accept
  }

  /** PUT /api/pm/:id */
  function ValidatePmUpdate(status: Option<string>): (r: Verdict)
    ensures r.Accept? <==> ValidatePmCreate(status).Accept?
    ensures r.Reject? ==> r.status == 400
  {
    if BadOptionalFolded(status, PmStatuses) then Reject(400, "Invalid status value") else Accept
  }

  /** POST /api/utilities: a mandatory, case-sensitive check; a missing type is rejected. */
  function ValidateUtilityCreate(utilityType: Option<string>): (r: Verdict)
    ensures r.Accept? <==> utilityType.Some? && utilityType.value in {"Power", "Water", "Air", "Gas"}
    ensures r.Reject? ==> r.status == 400
  {
    if utilityType.None? || utilityType.value !in UtilityTypes then
      Reject(400, UtilityTypeMessage)
    else Accept
  }

  /**
   * POST /api/spares/transaction: the direction is mandatory and folded; the pm/bd type is checked
   * only when both it and the pm/bd id are supplied.
   */
  function ValidateTransaction(direction: Option<string>, pmBdId: Option<string>, pmBdType: Option<string>): (r: Verdict)
    ensures r.Accept? <==>
      direction.Some? && Lower(direction.value) in {"issue", "return"}
      && (Truthy(pmBdId) && Truthy(pmBdType) ==> Lower(pmBdType.value) in {"pm", "bd"})
    ensures r.Reject? ==> r.status == 400
  {
    if direction.None? || Lower(direction.value) !in Directions then
      Reject(400, DirectionMessage)
    else if Truthy(pmBdId) && Truthy(pmBdType) && Lower(pmBdType.value) !in PmBdTypes then
      Reject(400, PmBdTypeMessage)
    else Accept
  }

  /** A folded check gives the same answer for a value and for its lower-case form. */
  lemma FoldedCheckIgnoresCase(v: string, allowed: seq<string>)
    ensures BadOptionalFolded(Some(v), allowed) == BadOptionalFolded(Some(Lower(v)), allowed)
  {
    LowerFixesLowerCase(v);
    assert |Lower(v)| == |v|;
  }

  /** Lower-casing the input never changes a folded validator's verdict. */
  lemma FoldedValidatorsIgnoreCase(v: string, w: string)
    ensures ValidateAssetCreate(Some(v), Some(w)) == ValidateAssetCreate(Some(Lower(v)), Some(Lower(w)))
    ensures ValidateBreakdownUpdate(Some(v)) == ValidateBreakdownUpdate(Some(Lower(v)))
    ensures ValidatePmCreate(Some(v)) == ValidatePmCreate(Some(Lower(v)))
  {
    FoldedCheckIgnoresCase(v, AssetStatuses);
    FoldedCheckIgnoresCase(w, AssetTypes);
    FoldedCheckIgnoresCase(v, BreakdownStatuses);
    FoldedCheckIgnoresCase(v, PmStatuses);
  }

  /** The utility type is not folded: the lower-case spelling of an allowed type is refused. */
  lemma UtilityTypeIsCaseSensitive()
    ensures ValidateUtilityCreate(Some("Power")).Accept?
    ensures ValidateUtilityCreate(Some("power")).Reject?
    ensures ValidateUtilityCreate(None).Reject?
  {
  }

  /** An empty string is falsy, so the optional validators let it through unchecked. */
  lemma EmptyValuesSkipOptionalChecks()
    ensures ValidateAssetUpdate(Some(""), Some("")).Accept?
    ensures ValidateBreakdownUpdate(Some("")).Accept?
    ensures ValidatePmUpdate(Some("")).Accept?
    ensures ValidateTransaction(Some("return"), Some("7"), Some("")).Accept?
  {
    LowerFixesLowerCase("return");
    assert Lower("return") == "return";
  }
}
