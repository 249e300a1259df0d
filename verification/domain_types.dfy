/** The records and enumerations the front end works on. */
module Domain {
  import opened Options

  datatype UserRole = Operator | Engineer | Manager | Admin

  /** The role as the string the front end stores and compares. */
  function RoleName(r: UserRole): string {
    match r
    case Operator => "operator"
    case Engineer => "engineer"
    case Manager => "manager"
    case Admin => "admin"
  }

  datatype User = User(id: string, email: string, name: string, role: UserRole, createdAt: string)

  datatype AssetStatus = Active | Inactive | Maintenance | Disposed
  datatype AssetType = Machine | Equipment | Tool | Vehicle | Auxiliary

  datatype Asset = Asset(
    id: string, assetCode: string, assetName: string, assetType: AssetType, status: AssetStatus,
    location: string, manufacturer: string, serialNumber: string, installDate: string,
    lastMaintenance: Option<string>, qrCode: Option<string>)

  datatype PmStatus = Scheduled | PmInProgress | Completed | Overdue
  datatype PmFrequency = Daily | Weekly | Monthly | Quarterly | Yearly

  datatype ChecklistItem = ChecklistItem(id: string, task: string, completed: bool)

  datatype Pm = Pm(
    id: string, assetId: string, assetName: string, title: string, description: string,
    frequency: PmFrequency, scheduledDate: string, completedDate: Option<string>, assignedTo: string,
    status: PmStatus, checklist: seq<ChecklistItem>)

  datatype BreakdownStatus = Open | Acknowledged | BdInProgress | Resolved | Closed
  datatype Priority = Low | Medium | High | Critical

  datatype Breakdown = Breakdown(
    id: string, assetId: string, assetName: string, entryDate: string, entryTime: string,
    businessUnit: string, operatorId: string, operatorName: string, issue: string,
    status: BreakdownStatus, priority: Priority, engineerNotes: Option<string>,
    resolvedDate: Option<string>, rootCause: Option<string>, actionTaken: Option<string>,
    downtime: Option<int>)

  datatype SparePart = SparePart(
    id: string, partCode: string, partName: string, category: string, currentStock: int,
    minStock: int, maxStock: int, unit: string, location: string, unitPrice: real,
    lastRestocked: Option<string>)

  datatype UtilityType = Power | Gas | Water | CompressedAir

  datatype UtilityLog = UtilityLog(
    id: string, utilityType: UtilityType, readingValue: real, unit: string, samplePoint: string,
    assetId: Option<string>, recordedAt: string, recordedBy: string)

  /** A status filter select: the 'all' option or one status. */
  datatype StatusFilter<T(==)> = All | Only(status: T) {
    predicate Admits(s: T) {
      All? || status == s
    }
  }
}
