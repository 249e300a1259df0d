/** The KPI page: each metric is rated against two fixed thresholds, and the downtime panel adds up. */
module Kpi {
  datatype KpiStatus = Good | Warning | Critical {
    /** 0 is the best rating, 2 the worst. */
    function Rank(): nat {
      match this
      case Good => 0
      case Warning => 1
      case Critical => 2
    }
  }

  datatype KpiMetrics = KpiMetrics(mttr: real, mtbf: real, uptime: real, oee: real,
                                   plannedDowntime: real, unplannedDowntime: real)

  /** A metric where smaller is better: good below the first bound, warning below the second. */
  function RateLowerIsBetter(x: real, goodBelow: real, warnBelow: real): (s: KpiStatus)
    ensures s == Good <==> x < goodBelow
    ensures s == Warning <==> !(x < goodBelow) && x < warnBelow
    ensures s == Critical <==> !(x < goodBelow) && !(x < warnBelow)
  {
    if x < goodBelow then Good else if x < warnBelow then Warning else Critical
  }

  /** A metric where larger is better: good above the first bound, warning above the second. */
  function RateHigherIsBetter(x: real, goodAbove: real, warnAbove: real): (s: KpiStatus)
    ensures s == Good <==> x > goodAbove
    ensures s == Warning <==> !(x > goodAbove) && x > warnAbove
    ensures s == Critical <==> !(x > goodAbove) && !(x > warnAbove)
  {
    if x > goodAbove then Good else if x > warnAbove then Warning else Critical
  }

  /** MTTR: good under 3 hours, warning under 4. */
  function MttrStatus(mttr: real): (s: KpiStatus)
    ensures s == Good <==> mttr < 3.0
    ensures s == Warning <==> 3.0 <= mttr < 4.0
    ensures s == Critical <==> mttr >= 4.0
  {
    RateLowerIsBetter(mttr, 3.0, 4.0)
  }

  /** MTBF: good over 150 hours, warning over 100. */
  function MtbfStatus(mtbf: real): (s: KpiStatus)
    ensures s == Good <==> mtbf > 150.0
    ensures s == Warning <==> 100.0 < mtbf <= 150.0
    ensures s == Critical <==> mtbf <= 100.0
  {
    RateHigherIsBetter(mtbf, 150.0, 100.0)
  }

  /** Uptime: good over 95 %, warning over 90 %. */
  function UptimeStatus(uptime: real): (s: KpiStatus)
    ensures s == Good <==> uptime > 95.0
    ensures s == Warning <==> 90.0 < uptime <= 95.0
    ensures s == Critical <==> uptime <= 90.0
  {
    RateHigherIsBetter(uptime, 95.0, 90.0)
  }

  /** OEE: good over 85 %, warning over 75 %. */
  function OeeStatus(oee: real): (s: KpiStatus)
    ensures s == Good <==> oee > 85.0
    ensures s == Warning <==> 75.0 < oee <= 85.0
    ensures s == Critical <==> oee <= 75.0
  {
    RateHigherIsBetter(oee, 85.0, 75.0)
  }

  /** Improving a metric (a lower MTTR, a higher MTBF, uptime or OEE) never worsens its rating. */
  lemma RatingsAreMonotone(x: real, y: real)
    ensures x <= y ==> MttrStatus(y).Rank() >= MttrStatus(x).Rank()
    ensures x <= y ==> MtbfStatus(y).Rank() <= MtbfStatus(x).Rank()
    ensures x <= y ==> UptimeStatus(y).Rank() <= UptimeStatus(x).Rank()
    ensures x <= y ==> OeeStatus(y).Rank() <= OeeStatus(x).Rank()
  {
  }

  /** The total in the downtime panel. */
  function TotalDowntime(m: KpiMetrics): (t: real)
    ensures t - m.unplannedDowntime == m.plannedDowntime
    ensures m.plannedDowntime >= 0.0 && m.unplannedDowntime >= 0.0 ==>
      t >= m.plannedDowntime && t >= m.unplannedDowntime
  {
    m.plannedDowntime + m.unplannedDowntime
  }
}
