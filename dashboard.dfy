/** The backend's aggregation view `dashboard_stats` and the `fetch_live`
    action of the satellite view set (backend/monitor/views.py). Query
    results are taken as given, already in the order the queries request:
    newest scan, newest reading and newest report first. For scans that
    order is a precondition, so that `SatRisk` is shown to read the newest. */
module Dashboard {
  import opened Models
  import opened Counting

  /** How many of the newest readings and reports the aggregation inspects. */
  const RecentLimit: nat := 10

  /** A reading is an anomaly when its pH leaves [6.5, 8.5] or its turbidity exceeds 5 NTU. */
  predicate IsSensorAnomaly(s: SensorReading)
  {
    s.ph < 6.5 || s.ph > 8.5 || s.turbidity > 5.0
  }

  /** A report counts as a health issue when its severity is above 5. */
  predicate IsSevereReport(h: HealthReport)
  {
    h.severity > 5
  }

  /** Scans as `order_by('-captured_at')` returns them: capture times never increase. */
  ghost predicate ScansNewestFirst(s: seq<SatelliteScan>)
  {
    forall i, j :: 0 <= i < j < |s| ==> s[i].capturedAt >= s[j].capturedAt
  }

  /** The risk score of a scan captured no earlier than any other, or 0 when
      there is no scan (ties in `captured_at` may be broken either way). */
  function SatRisk(scansNewestFirst: seq<SatelliteScan>): (r: real)
    requires ScansNewestFirst(scansNewestFirst)
    ensures scansNewestFirst == [] ==> r == 0.0
    ensures scansNewestFirst != [] ==>
      exists k :: 0 <= k < |scansNewestFirst| && r == scansNewestFirst[k].riskScore
        && forall j :: 0 <= j < |scansNewestFirst| ==> scansNewestFirst[j].capturedAt <= scansNewestFirst[k].capturedAt
  {
    if |scansNewestFirst| == 0 then 0.0 else scansNewestFirst[0].riskScore
  }

  /** The aggregate threat level. */
  datatype Tier = Low | Moderate | Critical

  /** The tier decision of the view: the critical test first, then the elevated one. */
  function Classify(satRisk: real, sensorIssues: nat, healthIssues: nat): Tier
  {
    if satRisk > 70.0 || sensorIssues > 2 || healthIssues > 2 then Critical
    else if satRisk > 40.0 || sensorIssues > 0 || healthIssues > 0 then Moderate
    else Low
  }

  /** Tiers ordered by urgency. */
  function Rank(t: Tier): (r: nat)
    ensures r <= 2
  {
    match t
    case Low => 0
    case Moderate => 1
    case Critical => 2
  }

  /** The level a single layer asks for on its own: 2 critical, 1 elevated, 0 quiet. */
  function SatelliteLevel(satRisk: real): nat
  {
    if satRisk > 70.0 then 2 else if satRisk > 40.0 then 1 else 0
  }

  function IssueLevel(issues: nat): nat
  {
    if issues > 2 then 2 else if issues > 0 then 1 else 0
  }

  function Max(a: nat, b: nat): nat
  {
    if a < b then b else a
  }

  /** The tier is the worst of the three layers' own levels. */
  lemma ClassifyIsWorstLayer(satRisk: real, sensorIssues: nat, healthIssues: nat)
    ensures Rank(Classify(satRisk, sensorIssues, healthIssues))
         == Max(SatelliteLevel(satRisk), Max(IssueLevel(sensorIssues), IssueLevel(healthIssues)))
  {
  }

  /** The three tiers, each stated by its own thresholds. */
  lemma ClassifyThresholds(satRisk: real, sensorIssues: nat, healthIssues: nat)
    ensures Classify(satRisk, sensorIssues, healthIssues) == Critical
        <==> satRisk > 70.0 || sensorIssues > 2 || healthIssues > 2
    ensures Classify(satRisk, sensorIssues, healthIssues) == Moderate
        <==> !(satRisk > 70.0 || sensorIssues > 2 || healthIssues > 2)
             && (satRisk > 40.0 || sensorIssues > 0 || healthIssues > 0)
    ensures Classify(satRisk, sensorIssues, healthIssues) == Low
        <==> satRisk <= 40.0 && sensorIssues == 0 && healthIssues == 0
  {
  }

  /** Raising any of the three inputs never lowers the tier. */
  lemma ClassifyMonotone(satRisk: real, sensorIssues: nat, healthIssues: nat,
                         satRisk': real, sensorIssues': nat, healthIssues': nat)
    requires satRisk <= satRisk' && sensorIssues <= sensorIssues' && healthIssues <= healthIssues'
    ensures Rank(Classify(satRisk, sensorIssues, healthIssues))
         <= Rank(Classify(satRisk', sensorIssues', healthIssues'))
  {
    ClassifyIsWorstLayer(satRisk, sensorIssues, healthIssues);
    ClassifyIsWorstLayer(satRisk', sensorIssues', healthIssues');
  }

  /** The colour class the response carries for a tier. */
  function TierColor(t: Tier): string
  {
    match t
    case Low => "text-green-400"
    case Moderate => "text-yellow-400"
    case Critical => "text-red-500"
  }

  /** The message the response carries for a tier. */
  function TierMessage(t: Tier): string
  {
    match t
    case Low => "Systems Nominal"
    case Moderate => "Elevated Risk Detected"
    case Critical => "Immediate Action Required"
  }

  /** Colour and message never disagree with the tier: each of them alone determines it. */
  lemma PresentationDeterminesTier(t: Tier, u: Tier)
    ensures TierColor(t) == TierColor(u) <==> t == u
    ensures TierMessage(t) == TierMessage(u) <==> t == u
  {
  }

  /** The JSON body of `dashboard_stats`. */
  datatype Stats = Stats(
    overallRisk: Tier,
    statusMessage: string,
    statusColor: string,
    satelliteAlerts: nat,
    sensorAnomalies: nat,
    healthReports: nat)

  /** `dashboard_stats`: count the anomalies among the ten newest readings and
      the severe reports among the ten newest reports, take the newest scan's
      risk, and derive the tier with its colour and message. `healthReports`
      is the total number of reports, not the severe count. */
  method DashboardStats(scansNewestFirst: seq<SatelliteScan>,
                        sensorsNewestFirst: seq<SensorReading>,
                        reportsNewestFirst: seq<HealthReport>)
    returns (stats: Stats)
    requires ScansNewestFirst(scansNewestFirst)
    ensures stats.sensorAnomalies == Count(Take(sensorsNewestFirst, RecentLimit), IsSensorAnomaly)
    ensures stats.sensorAnomalies <= RecentLimit && stats.sensorAnomalies <= |sensorsNewestFirst|
    ensures stats.overallRisk == Classify(SatRisk(scansNewestFirst), stats.sensorAnomalies,
                                          Count(Take(reportsNewestFirst, RecentLimit), IsSevereReport))
    ensures stats.statusColor == TierColor(stats.overallRisk)
    ensures stats.statusMessage == TierMessage(stats.overallRisk)
    ensures stats.satelliteAlerts == if SatRisk(scansNewestFirst) > 50.0 then 1 else 0
    ensures stats.healthReports == |reportsNewestFirst|
  {
    var satRisk := if |scansNewestFirst| > 0 then scansNewestFirst[0].riskScore else 0.0;

    var recentSensors := Take(sensorsNewestFirst, RecentLimit);
    var sensorIssues := 0;
    for i := 0 to |recentSensors|
      invariant sensorIssues == Count(recentSensors[..i], IsSensorAnomaly)
    {
      CountSnoc(recentSensors[..i], recentSensors[i], IsSensorAnomaly);
      assert recentSensors[..i + 1] == recentSensors[..i] + [recentSensors[i]];
      if IsSensorAnomaly(recentSensors[i]) {
        sensorIssues := sensorIssues + 1;
      }
    }
    assert recentSensors[..|recentSensors|] == recentSensors;

    var recentReports := Take(reportsNewestFirst, RecentLimit);
    var healthIssues := 0;
    for i := 0 to |recentReports|
      invariant healthIssues == Count(recentReports[..i], IsSevereReport)
    {
      CountSnoc(recentReports[..i], recentReports[i], IsSevereReport);
      assert recentReports[..i + 1] == recentReports[..i] + [recentReports[i]];
      if IsSevereReport(recentReports[i]) {
        healthIssues := healthIssues + 1;
      }
    }
    assert recentReports[..|recentReports|] == recentReports;

    var overallStatus, statusColor, statusMessage := Low, "text-green-400", "Systems Nominal";
    if satRisk > 70.0 || sensorIssues > 2 || healthIssues > 2 {
      overallStatus, statusColor, statusMessage := Critical, "text-red-500", "Immediate Action Required";
    } else if satRisk > 40.0 || sensorIssues > 0 || healthIssues > 0 {
      overallStatus, statusColor, statusMessage := Moderate, "text-yellow-400", "Elevated Risk Detected";
    }

    stats := Stats(overallStatus, statusMessage, statusColor,
                   if satRisk > 50.0 then 1 else 0, sensorIssues, |reportsNewestFirst|);
  }

  /** A dashboard with no anomalous reading among the ten newest, no severe
      report among the ten newest and a newest scan at or below 40 is LOW,
      and conversely. */
  lemma LowIffQuiet(scansNewestFirst: seq<SatelliteScan>,
                    sensorsNewestFirst: seq<SensorReading>,
                    reportsNewestFirst: seq<HealthReport>)
    requires ScansNewestFirst(scansNewestFirst)
    ensures Classify(SatRisk(scansNewestFirst),
                     Count(Take(sensorsNewestFirst, RecentLimit), IsSensorAnomaly),
                     Count(Take(reportsNewestFirst, RecentLimit), IsSevereReport)) == Low
        <==> SatRisk(scansNewestFirst) <= 40.0
             && (forall i :: 0 <= i < |Take(sensorsNewestFirst, RecentLimit)| ==>
                   !IsSensorAnomaly(sensorsNewestFirst[i]))
             && (forall i :: 0 <= i < |Take(reportsNewestFirst, RecentLimit)| ==>
                   !IsSevereReport(reportsNewestFirst[i]))
  {
    var rs := Take(sensorsNewestFirst, RecentLimit);
    var hs := Take(reportsNewestFirst, RecentLimit);
    CountZeroIff(rs, IsSensorAnomaly);
    CountZeroIff(hs, IsSevereReport);
    assert forall i :: 0 <= i < |rs| ==> rs[i] == sensorsNewestFirst[i];
    assert forall i :: 0 <= i < |hs| ==> hs[i] == reportsNewestFirst[i];
  }

  // ---------------------------------------------------------------------------
  // fetch_live

  /** The request body of `fetch_live`; a missing field is `None`. */
  datatype LiveRequest = LiveRequest(locationName: Option<string>, lat: Option<real>, lon: Option<real>)

  /** A bounding box `[min_lon, min_lat, max_lon, max_lat]`. */
  datatype BBox = BBox(minLon: real, minLat: real, maxLon: real, maxLat: real)

  /** The three responses of `fetch_live`. */
  datatype LiveResponse =
    | Created(scan: SatelliteScan)   // 201
    | ServiceUnavailable             // 503
    | BadRequest                     // 400

  function StatusCode(r: LiveResponse): int
  {
    match r
    case Created(_) => 201
    case ServiceUnavailable => 503
    case BadRequest => 400
  }

  /** Half the side of the box, in degrees. */
  const Delta: real := 0.05

  /** The box of side 2 * Delta centred on (lon, lat). */
  function BoundingBox(lat: real, lon: real): (b: BBox)
    ensures b.minLon < b.maxLon && b.minLat < b.maxLat
    ensures b.maxLon - b.minLon == 2.0 * Delta && b.maxLat - b.minLat == 2.0 * Delta
    ensures (b.minLon + b.maxLon) / 2.0 == lon && (b.minLat + b.maxLat) / 2.0 == lat
  {
    BBox(lon - Delta, lat - Delta, lon + Delta, lat + Delta)
  }

  function GetOr<T>(o: Option<T>, default: T): T
  {
    match o
    case Some(v) => v
    case None => default
  }

  /** `fetch_live`: a missing coordinate reads as 0, and a zero coordinate is
      refused; otherwise the imagery service is asked for the box around the
      point (`service` stands for SentinelService.fetch_satellite_image). */
  function FetchLive(req: LiveRequest, service: (BBox, string) -> Option<SatelliteScan>): (r: LiveResponse)
    ensures r.BadRequest? <==> GetOr(req.lat, 0.0) == 0.0 || GetOr(req.lon, 0.0) == 0.0
    ensures !r.BadRequest? ==>
      var answer := service(BoundingBox(GetOr(req.lat, 0.0), GetOr(req.lon, 0.0)),
                            GetOr(req.locationName, "Unknown Region"));
      (r.Created? <==> answer.Some?) && (r.Created? ==> r.scan == answer.value)
    ensures StatusCode(r) in {201, 503, 400}
  {
    var locationName := GetOr(req.locationName, "Unknown Region");
    var lat := GetOr(req.lat, 0.0);
    var lon := GetOr(req.lon, 0.0);
    if lat != 0.0 && lon != 0.0 then
      match service(BoundingBox(lat, lon), locationName)
      case Some(instance) => Created(instance)
      case None => ServiceUnavailable
    else
      BadRequest
  }

  /** The status is 201 exactly when the service produced a scan, and 400 exactly when a coordinate is zero or missing. */
  lemma FetchLiveStatus(req: LiveRequest, service: (BBox, string) -> Option<SatelliteScan>)
    ensures StatusCode(FetchLive(req, service)) == 400
        <==> req.lat.None? || req.lon.None? || req.lat.value == 0.0 || req.lon.value == 0.0
    ensures StatusCode(FetchLive(req, service)) == 201 <==> FetchLive(req, service).Created?
  {
  }
}
