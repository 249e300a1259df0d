/**
 * POST /api/spares/transaction: issue parts from, or return parts to, the spare-parts inventory.
 * The handler validates the body, then inside one database transaction reads the part, checks the
 * stock on an issue, computes the new balance, appends a row to the transaction log and rewrites the
 * part's stock. A failure anywhere inside the transaction rolls both writes back.
 */
module StockTransaction {
  import opened Options
  import opened Text
  import opened ServerTables
  import RequestValidation

  type PartId = RowId

  /**
   * The body of the request. `quantity` is the JSON number as sent. `direction` and `pmBdType` are
   * read only through `?.`, where a left-out field and `null` behave alike, so `None` stands for both.
   */
  datatype TxnRequest = TxnRequest(
    partId: PartId,
    quantity: int,
    direction: Option<string>,
    assetId: Json<string>,
    pmBdId: Json<string>,
    pmBdType: Option<string>,
    purpose: Json<string>)

  /** A row of spare_transactions. */
  datatype TxnRecord = TxnRecord(
    partId: PartId,
    partCode: string,
    quantity: int,
    direction: string,
    assetId: Option<string>,
    pmBdId: Option<string>,
    pmBdType: string,
    purpose: Option<string>,
    balanceAfter: int,
    createdBy: Option<UserId>)

  /**
   * A database error raised by one of the two writes (a constraint violation, a lost connection);
   * the database is not otherwise modelled, so the caller says which write, if any, fails.
   */
  datatype WriteFault = NoFault | InsertFails(message: string) | UpdateFails(message: string)

  /** The HTTP answer: 400 before the transaction, 500 for anything thrown inside it, 201 on success. */
  datatype Outcome =
    | BadRequest(message: string)
    | ServerError(message: string)
    | Created(txn: TxnRecord, inventory: SpareRow)
  {
    function Status(): int {
      match this
      case BadRequest(_) => 400
      case ServerError(_) => 500
      case Created(_, _) => 201
    }
  }

  /** The two tables the transaction touches. */
  datatype Db = Db(parts: map<PartId, SpareRow>, log: seq<TxnRecord>)

  const PartNotFound := "Spare part not found"
  const InsufficientStock := "Insufficient stock for issuance"
  const TransactionError := "Database transaction error"

  /** `err.message || 'Database transaction error'`: the answer of the catch block. */
  function ErrorText(message: string): (r: string)
    ensures message != "" ==> r == message
    ensures message == "" ==> r == TransactionError
  {
    OrElse(Some(message), TransactionError)
  }

  predicate IsIssue(req: TxnRequest)
    requires req.direction.Some?
  {
    Lower(req.direction.value) == "issue"
  }

  /** The stock after the transaction: lowered by an issue, raised by a return. */
  function NewStock(current: int, req: TxnRequest): int
    requires req.direction.Some?
  {
    if IsIssue(req) then current - req.quantity else current + req.quantity
  }

  /**
   * The INSERT has an `undefined` parameter: `pm_bd_type?.toLowerCase()` for a missing or null type,
   * a left-out `asset_id`, `pm_bd_id` or `purpose`, or `req.user?.id` without a user.
   */
  predicate SendsUndefined(req: TxnRequest, user: Option<UserId>) {
    req.pmBdType.None? || req.assetId.Absent? || req.pmBdId.Absent? || req.purpose.Absent? || user.None?
  }

  function Record(req: TxnRequest, row: SpareRow, user: Option<UserId>): TxnRecord
    requires req.direction.Some? && req.pmBdType.Some?
  {
    TxnRecord(req.partId, row.partCode, req.quantity, Lower(req.direction.value), req.assetId.AsOption(),
              req.pmBdId.AsOption(), Lower(req.pmBdType.value), req.purpose.AsOption(),
              NewStock(row.currentStock, req), user)
  }

  /** The handler as one atomic step over the two tables. */
  function Step(db: Db, req: TxnRequest, user: Option<UserId>, fault: WriteFault): (Outcome, Db) {
    var verdict := RequestValidation.ValidateTransaction(req.direction, req.pmBdId.AsOption(), req.pmBdType);
    if verdict.Reject? then (BadRequest(verdict.message), db)
    else if req.partId !in db.parts then (ServerError(PartNotFound), db)
    else
      var row := db.parts[req.partId];
      if IsIssue(req) && row.currentStock < req.quantity then (ServerError(InsufficientStock), db)
      else if SendsUndefined(req, user) then (ServerError(UndefinedValue), db)
      else if fault.InsertFails? then (ServerError(ErrorText(fault.message)), db)
      else if fault.UpdateFails? then (ServerError(ErrorText(fault.message)), db)
      else
        var txn := Record(req, row, user);
        var updated := row.(currentStock := txn.balanceAfter, lastUpdatedBy := user);
        (Created(txn, updated), Db(db.parts[req.partId := updated], db.log + [txn]))
  }

  /** The inventory table and the transaction log, updated in place by the handler. */
  class Inventory {
    var parts: map<PartId, SpareRow>
    var log: seq<TxnRecord>

    constructor (initial: map<PartId, SpareRow>)
      ensures parts == initial && log == []
    {
      parts := initial;
      log := [];
    }

    /** Runs one request; the new tables are exactly those of `Step`. */
    method PostTransaction(req: TxnRequest, user: Option<UserId>, fault: WriteFault) returns (outcome: Outcome)
      modifies this
      ensures (outcome, Db(parts, log)) == Step(Db(old(parts), old(log)), req, user, fault)
    {
      var verdict := RequestValidation.ValidateTransaction(req.direction, req.pmBdId.AsOption(), req.pmBdType);
      if verdict.Reject? {
        return BadRequest(verdict.message);
      }
      // sql.begin: remember the committed state so that a failing write can be rolled back
      var savedParts, savedLog := parts, log;
      // 1. read the part
      if req.partId !in parts {
        return ServerError(PartNotFound);
      }
      var row := parts[req.partId];
      var direction := Lower(req.direction.value);
      // 2. check the stock on an issue
      if direction == "issue" && row.currentStock < req.quantity {
        return ServerError(InsufficientStock);
      }
      // 3. compute the balance
      var newStock := if direction == "issue" then row.currentStock - req.quantity
                      else row.currentStock + req.quantity;
      // 4. insert the transaction row; the client refuses an undefined parameter before sending it
      if SendsUndefined(req, user) {
        return ServerError(UndefinedValue);
      }
      if fault.InsertFails? {
        return ServerError(ErrorText(fault.message));
      }
      var txn := TxnRecord(req.partId, row.partCode, req.quantity, direction, req.assetId.AsOption(),
                           req.pmBdId.AsOption(), Lower(req.pmBdType.value), req.purpose.AsOption(),
                           newStock, user);
      log := log + [txn];
      // 5. update the inventory row; a failure here undoes step 4
      if fault.UpdateFails? {
        parts, log := savedParts, savedLog;
        return ServerError(ErrorText(fault.message));
      }
      var updated := row.(currentStock := newStock, lastUpdatedBy := user);
      parts := parts[req.partId := updated];
      return Created(txn, updated);
    }
  }

  /** Either both tables change (one appended record, one rewritten part) or neither does. */
  lemma {:induction false} StepIsAtomic(db: Db, req: TxnRequest, user: Option<UserId>, fault: WriteFault)
    ensures var (o, db') := Step(db, req, user, fault);
      if o.Created? then
        && db'.log == db.log + [o.txn]
        && req.partId in db.parts
        && db'.parts == db.parts[req.partId := o.inventory]
        && db'.parts.Keys == db.parts.Keys
        && (o.txn.quantity != 0 ==> o.inventory != db.parts[req.partId])
      else db' == db
  {
    var (o, db') := Step(db, req, user, fault);
    if o.Created? {
      var row := db.parts[req.partId];
      assert o.inventory.currentStock == NewStock(row.currentStock, req);
      if o.txn.quantity != 0 {
        assert o.inventory.currentStock != row.currentStock;
      }
    }
  }

  /** A rejected direction or pm/bd type answers 400 whatever the tables hold: nothing is read. */
  lemma ValidationPrecedesReads(db1: Db, db2: Db, req: TxnRequest, user: Option<UserId>, fault: WriteFault)
    requires RequestValidation.ValidateTransaction(req.direction, req.pmBdId.AsOption(), req.pmBdType).Reject?
    ensures Step(db1, req, user, fault).0 == Step(db2, req, user, fault).0
    ensures Step(db1, req, user, fault).0.Status() == 400
    ensures Step(db1, req, user, fault).1 == db1
  {
  }

  /** The exact conditions for success, and the balance a successful transaction records. */
  lemma StepSucceedsExactly(db: Db, req: TxnRequest, user: Option<UserId>, fault: WriteFault)
    ensures var (o, db') := Step(db, req, user, fault);
      o.Created? <==>
        && RequestValidation.ValidateTransaction(req.direction, req.pmBdId.AsOption(), req.pmBdType).Accept?
        && req.partId in db.parts
        && !(Lower(req.direction.value) == "issue" && db.parts[req.partId].currentStock < req.quantity)
        && !SendsUndefined(req, user)
        && fault == NoFault
    ensures var (o, db') := Step(db, req, user, fault);
      o.Created? ==>
        var old_stock := db.parts[req.partId].currentStock;
        && o.txn.balanceAfter == db'.parts[req.partId].currentStock
        && (Lower(req.direction.value) == "issue" ==> db'.parts[req.partId].currentStock == old_stock - req.quantity)
        && (Lower(req.direction.value) == "return" ==> db'.parts[req.partId].currentStock == old_stock + req.quantity)
        && (forall id :: id in db.parts && id != req.partId ==> db'.parts[id] == db.parts[id])
  {
    var verdict := RequestValidation.ValidateTransaction(req.direction, req.pmBdId.AsOption(), req.pmBdType);
    if verdict.Accept? {
      assert Lower(req.direction.value) in {"issue", "return"};
    }
  }

  /** An unknown part or an over-large issue fails with 500 and leaves both tables as they were. */
  lemma FailedChecksChangeNothing(db: Db, req: TxnRequest, user: Option<UserId>, fault: WriteFault)
    requires RequestValidation.ValidateTransaction(req.direction, req.pmBdId.AsOption(), req.pmBdType).Accept?
    requires req.partId !in db.parts
          || (Lower(req.direction.value) == "issue" && db.parts[req.partId].currentStock < req.quantity)
    ensures Step(db, req, user, fault).0.Status() == 500
    ensures Step(db, req, user, fault).0.message ==
      if req.partId !in db.parts then "Spare part not found" else "Insufficient stock for issuance"
    ensures Step(db, req, user, fault).1 == db
  {
  }

  /**
   * A write that fails after the checks pass answers 500 with the database's message, or with the
   * fallback text when that message is empty, and the rollback leaves both tables as they were.
   */
  lemma WriteFaultsChangeNothing(db: Db, req: TxnRequest, user: Option<UserId>, fault: WriteFault)
    requires RequestValidation.ValidateTransaction(req.direction, req.pmBdId.AsOption(), req.pmBdType).Accept?
    requires req.partId in db.parts
    requires !(Lower(req.direction.value) == "issue" && db.parts[req.partId].currentStock < req.quantity)
    requires !SendsUndefined(req, user)
    requires fault != NoFault
    ensures Step(db, req, user, fault).0.Status() == 500
    ensures Step(db, req, user, fault).0.message ==
      if fault.message == "" then "Database transaction error" else fault.message
    ensures Step(db, req, user, fault).1 == db
  {
  }

  /**
   * As written, a request that passes the checks but leaves `pm_bd_type` out (or sends it as `null`),
   * or leaves out `asset_id`, `pm_bd_id` or `purpose`, never succeeds: the INSERT is refused before it
   * reaches the database, whatever the database would do, and nothing is written.
   */
  lemma UndefinedParameterIsRefused(db: Db, req: TxnRequest, user: Option<UserId>, fault: WriteFault)
    requires RequestValidation.ValidateTransaction(req.direction, req.pmBdId.AsOption(), req.pmBdType).Accept?
    requires req.partId in db.parts
    requires !(Lower(req.direction.value) == "issue" && db.parts[req.partId].currentStock < req.quantity)
    requires SendsUndefined(req, user)
    ensures Step(db, req, user, fault) == (ServerError("Undefined values are not allowed"), db)
  {
  }

  /** A plain issue with no PM or breakdown link (`pm_bd_type` null) is refused with 500. */
  lemma UnlinkedIssueIsRefused()
    ensures var db := Db(map["p" := SpareRow("SP-001", "Bearing", "", 5, 10, 20, 0.0, "", "", "", None)], []);
      var req := TxnRequest("p", 2, Some("issue"), Null, Null, None, Present("Restock"));
      var (o, db') := Step(db, req, Some("u"), NoFault);
      o.Status() == 500 && db' == db
  {
    var req := TxnRequest("p", 2, Some("issue"), Null, Null, None, Present("Restock"));
    LowerFixesLowerCase("issue");
    assert Lower("issue") == "issue";
    assert RequestValidation.ValidateTransaction(req.direction, req.pmBdId.AsOption(), req.pmBdType).Accept?;
  }

  /** A successful issue never leaves the part with negative stock, whatever it held before. */
  lemma IssueNeverGoesNegative(db: Db, req: TxnRequest, user: Option<UserId>, fault: WriteFault)
    requires req.direction.Some? && Lower(req.direction.value) == "issue"
    requires Step(db, req, user, fault).0.Created?
    ensures Step(db, req, user, fault).1.parts[req.partId].currentStock >= 0
    ensures Step(db, req, user, fault).0.txn.balanceAfter >= 0
  {
  }

  predicate NonNegativeStock(parts: map<PartId, SpareRow>) {
    forall id :: id in parts ==> parts[id].currentStock >= 0
  }

  /** Non-negative stock is kept by every request whose quantity is not negative. */
  lemma NonNegativeStockPreserved(db: Db, req: TxnRequest, user: Option<UserId>, fault: WriteFault)
    requires NonNegativeStock(db.parts)
    requires req.quantity >= 0
    ensures NonNegativeStock(Step(db, req, user, fault).1.parts)
  {
    var (o, db') := Step(db, req, user, fault);
    if o.Created? {
      forall id | id in db'.parts
        ensures db'.parts[id].currentStock >= 0
      {
        if id != req.partId {
          assert db'.parts[id] == db.parts[id];
        }
      }
    }
  }

  /** The quantity is never checked for sign: returning -5 from a stock of 2 is accepted and leaves -3. */
  lemma NegativeReturnIsAccepted()
    ensures var db := Db(map["p" := SpareRow("C-1", "Bearing", "", 1, 2, 2, 0.0, "", "", "", None)], []);
      var req := TxnRequest("p", -5, Some("return"), Null, Null, Some("pm"), Null);
      var (o, db') := Step(db, req, Some("u"), NoFault);
      o.Created? && db'.parts["p"].currentStock == -3
  {
    var req := TxnRequest("p", -5, Some("return"), Null, Null, Some("pm"), Null);
    LowerFixesLowerCase("return");
    assert Lower("return") == "return";
    assert !IsIssue(req);
    assert RequestValidation.ValidateTransaction(req.direction, req.pmBdId.AsOption(), req.pmBdType).Accept?;
  }

  /** The most recent logged balance of a part, if the log mentions it. */
  function LastBalance(log: seq<TxnRecord>, id: PartId): Option<int>
  {
    if log == [] then None
    else if log[|log| - 1].partId == id then Some(log[|log| - 1].balanceAfter)
    else LastBalance(log[..|log| - 1], id)
  }

  /** The log agrees with the inventory: each part's latest logged balance is its current stock. */
  predicate LedgerAgrees(db: Db) {
    forall id :: id in db.parts && LastBalance(db.log, id).Some? ==>
      LastBalance(db.log, id).value == db.parts[id].currentStock
  }

  /** Every transaction, successful or not, keeps the log in agreement with the inventory. */
  lemma LedgerAgreementPreserved(db: Db, req: TxnRequest, user: Option<UserId>, fault: WriteFault)
    requires LedgerAgrees(db)
    ensures LedgerAgrees(Step(db, req, user, fault).1)
  {
    var (o, db') := Step(db, req, user, fault);
    if o.Created? {
      assert db'.log[..|db'.log| - 1] == db.log;
      forall id | id in db'.parts && LastBalance(db'.log, id).Some?
        ensures LastBalance(db'.log, id).value == db'.parts[id].currentStock
      {
        if id != req.partId {
          assert LastBalance(db'.log, id) == LastBalance(db.log, id);
        }
      }
    }
  }

  /** Issuing 2 from a stock of 20 succeeds and records a balance of 18. */
  lemma IssueTwoFromTwenty()
    ensures var db := Db(map["p" := SpareRow("SP-001", "Bearing", "", 5, 10, 20, 0.0, "", "", "", None)], []);
      var req := TxnRequest("p", 2, Some("issue"), Present("1"), Present("1"), Some("bd"), Present("Test transaction"));
      var (o, db') := Step(db, req, Some("u"), NoFault);
      o.Created? && o.txn.balanceAfter == 18 && db'.parts["p"].currentStock == 18 && |db'.log| == 1
  {
    var req := TxnRequest("p", 2, Some("issue"), Present("1"), Present("1"), Some("bd"), Present("Test transaction"));
    LowerFixesLowerCase("issue");
    LowerFixesLowerCase("bd");
    assert Lower("issue") == "issue" && Lower("bd") == "bd";
    assert IsIssue(req);
    assert RequestValidation.ValidateTransaction(req.direction, req.pmBdId.AsOption(), req.pmBdType).Accept?;
  }
}
