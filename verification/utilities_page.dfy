/**
 * The utilities page: the latest reading per utility type, the log list with its new-entry form,
 * and the form's unit choices. Parsing `recordedAt` into a time is a parameter (`timeOf`).
 */
module UtilitiesPage {
  import opened Options
  import opened Text
  import opened Seqs
  import opened Domain

  /** The key order of `utilityConfig`. */
  const UtilityOrder: seq<UtilityType> := [Power, Gas, Water, CompressedAir]

  function Caption(t: UtilityType): string {
    match t
    case Power => "Power"
    case Gas => "Gas"
    case Water => "Water"
    case CompressedAir => "Compressed Air"
  }

  /** `logs.filter(l => l.utilityType === type)` */
  function OfType(logs: seq<UtilityLog>, t: UtilityType): seq<UtilityLog> {
    Filter(logs, (l: UtilityLog) => l.utilityType == t)
  }

  /**
   * The position `sort(by recordedAt, newest first)[0]` picks: the sort is stable, so it is the
   * first log carrying the greatest time.
   */
  function LatestIndex(logs: seq<UtilityLog>, timeOf: string -> int): (i: nat)
    requires logs != []
    ensures i < |logs|
    ensures forall j :: 0 <= j < |logs| ==> timeOf(logs[j].recordedAt) <= timeOf(logs[i].recordedAt)
    ensures forall j :: 0 <= j < i ==> timeOf(logs[j].recordedAt) < timeOf(logs[i].recordedAt)
  {
    if |logs| == 1 then 0
    else
      var k := 1 + LatestIndex(logs[1..], timeOf);
      if timeOf(logs[0].recordedAt) >= timeOf(logs[k].recordedAt) then 0 else k
  }

  /** The card of one utility type. */
  datatype Reading = Reading(utilityType: UtilityType, caption: string, reading: real, unit: string,
                             samplePoint: string, recordedAt: string)

  /** One entry of `latestReadings`; a type without logs shows zero and empty texts. */
  function ReadingFor(logs: seq<UtilityLog>, t: UtilityType, timeOf: string -> int): (r: Reading)
    ensures r.utilityType == t
    ensures OfType(logs, t) == [] ==> r == Reading(t, Caption(t), 0.0, "", "", "")
    ensures OfType(logs, t) != [] ==>
      exists l :: l in logs && l.utilityType == t && r.reading == l.readingValue && r.unit == l.unit
                && (forall m :: m in logs && m.utilityType == t ==> timeOf(m.recordedAt) <= timeOf(l.recordedAt))
    ensures OfType(logs, t) != [] ==>
      var ofType := OfType(logs, t);
      var l := ofType[LatestIndex(ofType, timeOf)];
      r == Reading(t, Caption(t), l.readingValue, l.unit, l.samplePoint, l.recordedAt)
  {
    var ofType := OfType(logs, t);
    if ofType == [] then Reading(t, Caption(t), 0.0, "", "", "")
    else
      var latest := ofType[LatestIndex(ofType, timeOf)];
      assert latest in ofType;
      Reading(t, Caption(t), latest.readingValue, OrElse(Some(latest.unit), ""), OrElse(Some(latest.samplePoint), ""),
              OrElse(Some(latest.recordedAt), ""))
  }

  /** `latestReadings` */
  function LatestReadings(logs: seq<UtilityLog>, timeOf: string -> int): (r: seq<Reading>)
    ensures |r| == |UtilityOrder|
    ensures forall k :: 0 <= k < |r| ==> r[k] == ReadingFor(logs, UtilityOrder[k], timeOf)
  {
    seq(|UtilityOrder|, k requires 0 <= k < |UtilityOrder| => ReadingFor(logs, UtilityOrder[k], timeOf))
  }

  /** Exactly one card per utility type. */
  lemma OneReadingPerType(logs: seq<UtilityLog>, timeOf: string -> int, t: UtilityType)
    ensures exists k :: 0 <= k < 4 && LatestReadings(logs, timeOf)[k].utilityType == t
    ensures forall j, k :: 0 <= j < k < 4 ==>
      LatestReadings(logs, timeOf)[j].utilityType != LatestReadings(logs, timeOf)[k].utilityType
  {
    var r := LatestReadings(logs, timeOf);
    assert forall k :: 0 <= k < 4 ==> r[k].utilityType == UtilityOrder[k];
    OrderIsDistinct();
    var k := match t case Power => 0 case Gas => 1 case Water => 2 case CompressedAir => 3;
    assert r[k].utilityType == t;
  }

  lemma OrderIsDistinct()
    ensures forall j, k :: 0 <= j < k < |UtilityOrder| ==> UtilityOrder[j] != UtilityOrder[k]
  {
  }

  /** The form's data: every field may be missing. */
  datatype LogDraft = LogDraft(utilityType: Option<UtilityType>, readingValue: Option<real>, unit: Option<string>,
                               samplePoint: Option<string>)

  /** The log `handleCreateLog` builds from the form, with a fresh id, the current time and the signed-in user. */
  function NewLog(data: LogDraft, id: string, now: string, user: Option<User>): (l: UtilityLog)
    ensures l.utilityType == data.utilityType.GetOr(Power)
    ensures l.readingValue == data.readingValue.GetOr(0.0)
    ensures l.unit == OrElse(data.unit, "") && l.samplePoint == OrElse(data.samplePoint, "")
    ensures l.recordedAt == now && l.assetId.None?
    ensures l.recordedBy == if user.Some? then user.value.name else ""
  {
    UtilityLog(id, data.utilityType.GetOr(Power), data.readingValue.GetOr(0.0), OrElse(data.unit, ""),
               OrElse(data.samplePoint, ""), None, now, OrElse(if user.Some? then Some(user.value.name) else None, ""))
  }

  /** `logs.slice(0, 10)`: the newest ten at most. */
  function RecentLogs(logs: seq<UtilityLog>): (r: seq<UtilityLog>)
    ensures |r| == if |logs| < 10 then |logs| else 10
    ensures r == logs[..|r|]
  {
    if |logs| < 10 then logs else logs[..10]
  }

  /** The page's own state. */
  class UtilityLogBook {
    var logs: seq<UtilityLog>
    var isDialogOpen: bool

    constructor(initial: seq<UtilityLog>)
      ensures logs == initial && !isDialogOpen
    {
      logs := initial;
      isDialogOpen := false;
    }

    /** `handleCreateLog`: prepend the new log and close the dialog. */
    method HandleCreateLog(data: LogDraft, id: string, now: string, user: Option<User>)
      modifies this
      ensures logs == [NewLog(data, id, now, user)] + old(logs)
      ensures !isDialogOpen
    {
      logs := [NewLog(data, id, now, user)] + logs;
      isDialogOpen := false;
    }
  }

  /** A log recorded no earlier than every log of its type becomes that type's reading, and heads the recent list. */
  lemma NewestLogIsShown(logs: seq<UtilityLog>, data: LogDraft, id: string, now: string,
                         user: Option<User>, timeOf: string -> int)
    requires forall m :: m in logs && m.utilityType == data.utilityType.GetOr(Power) ==> timeOf(m.recordedAt) <= timeOf(now)
    ensures var n := NewLog(data, id, now, user);
      && ReadingFor([n] + logs, n.utilityType, timeOf).reading == n.readingValue
      && ReadingFor([n] + logs, n.utilityType, timeOf).recordedAt == now
      && RecentLogs([n] + logs)[0] == n
  {
    HeadIsReading(NewLog(data, id, now, user), logs, timeOf);
  }

  /** The reading of a type is taken from a prepended log that is at least as recent as the others of its type. */
  lemma HeadIsReading(n: UtilityLog, logs: seq<UtilityLog>, timeOf: string -> int)
    requires forall m :: m in logs && m.utilityType == n.utilityType ==> timeOf(m.recordedAt) <= timeOf(n.recordedAt)
    ensures ReadingFor([n] + logs, n.utilityType, timeOf).reading == n.readingValue
    ensures ReadingFor([n] + logs, n.utilityType, timeOf).recordedAt == n.recordedAt
  {
    var t := n.utilityType;
    FilterAppend([n], logs, (l: UtilityLog) => l.utilityType == t);
    var ofType := OfType([n] + logs, t);
    assert ofType == [n] + OfType(logs, t);
    assert forall j :: 1 <= j < |ofType| ==> ofType[j] in OfType(logs, t);
    FirstIsLatest(ofType, timeOf);
  }

  /** When the first log is at least as recent as all others, it is the one the stable sort puts first. */
  lemma FirstIsLatest(logs: seq<UtilityLog>, timeOf: string -> int)
    requires logs != []
    requires forall j :: 0 <= j < |logs| ==> timeOf(logs[j].recordedAt) <= timeOf(logs[0].recordedAt)
    ensures LatestIndex(logs, timeOf) == 0
  {
  }

  /** `unitOptions` */
  function UnitOptions(t: UtilityType): (units: seq<string>)
    ensures units != []
  {
    match t
    case Power => ["kWh", "kW", "A"]
    case Gas => ["m³", "L"]
    case Water => ["m³", "L"]
    case CompressedAir => ["bar", "psi", "m³/min"]
  }

  /** The form state. */
  datatype LogForm = LogForm(utilityType: UtilityType, readingValue: real, unit: string, samplePoint: string)

  const InitialForm := LogForm(Power, 0.0, "kWh", "")

  /** Selecting another utility type resets the unit to that type's first option and keeps the other fields. */
  function ChangeType(form: LogForm, t: UtilityType): (f: LogForm)
    ensures f.utilityType == t && f.unit in UnitOptions(t)
    ensures f.readingValue == form.readingValue && f.samplePoint == form.samplePoint
  {
    form.(utilityType := t, unit := UnitOptions(t)[0])
  }

  /** The form always offers a unit of its own type: initially, and after any change of type. */
  lemma FormUnitMatchesType(form: LogForm, t: UtilityType)
    ensures InitialForm.unit == UnitOptions(InitialForm.utilityType)[0]
    ensures ChangeType(form, t).unit == UnitOptions(t)[0]
  {
  }
}
