/**
 * The background exception monitor: five detectors over one shipment, the
 * aggregator that stamps their findings, the dispatcher that counts HTTP-200
 * replies from the crew-handling endpoint, one monitoring cycle with its run
 * statistics, and the `running` loop.
 *
 * Everything the Python service reads from SQLite, from the HTTP endpoint or
 * from the clock is an input here.
 */
module ExceptionMonitor {
  import opened Common

  const DelayThresholdHours: real := 24.0
  const DelayHighHours: real := 48.0
  const MlConfidenceThreshold: real := 0.70
  const MlHighConfidence: real := 0.85
  const DefaultPredictedDelayHours: real := 24.0
  const TempDeviationThreshold: real := 5.0
  const MilestoneDelayThresholdHours: real := 72.0
  const SecondsPerHour: real := 3600.0
  const SuccessStatus: int := 200

  /** A numeric column as `shipment.get(key, default)` sees it. */
  datatype NumField = Absent | Null | Num(v: real)

  /** A text column as `shipment.get(key, default)` sees it. */
  datatype TextField = NoText | NullText | Text(s: string)

  /** One row of the shipments table, as far as the detectors read it. */
  datatype Shipment = Shipment(
    id: int,
    status: Option<string>,
    delayHours: NumField,
    mlDelayConfidence: NumField,
    predictedDelayHours: NumField,
    geofenceViolation: bool,  // Python truthiness of the stored flag
    currentLocation: TextField)

  /** A reefer container row: `container_id, current_temp, target_temp`. */
  datatype ReeferRow = ReeferRow(containerId: string, currentTemp: Option<real>, targetTemp: Option<real>)

  /**
   * A milestone's `expected_time`: empty or NULL, a string `fromisoformat`
   * rejects, or an instant in seconds.
   */
  datatype ExpectedTime = Missing | Unparseable | At(seconds: int)

  /** A pending milestone row (its `actual_time` is NULL). */
  datatype MilestoneRow = MilestoneRow(name: string, expected: ExpectedTime)

  /**
   * What the store holds for one shipment: the shipment row, the reply to the
   * reefer-container query and the reply to the pending-milestone query
   * (already in `expected_time` order, as the SQL asks).
   */
  datatype Snapshot = Snapshot(
    shipment: Shipment,
    reefers: StoreReply<ReeferRow>,
    pendingMilestones: StoreReply<MilestoneRow>)

  datatype ExceptionKind = Delay | MlPrediction | TemperatureDeviation | GeofenceViolation | MissingMilestone

  /** The type-specific payload of an exception record. */
  datatype Detail =
    | DelayDetail(delayHours: real)
    | MlDetail(mlConfidence: real, predictedDelayHours: Option<real>)
    | TemperatureDetail(containerId: string, currentTemp: real, targetTemp: real, deviation: real)
    | GeofenceDetail(currentLocation: Option<string>)
    | MilestoneDetail(milestoneName: string, hoursOverdue: real)

  /** What one detector returns when it fires. */
  datatype Finding = Finding(kind: ExceptionKind, severity: Severity, detail: Detail)

  /** A finding stamped with `shipment_id` and `detected_at` by the aggregator. */
  datatype ExceptionRecord = ExceptionRecord(finding: Finding, shipmentId: int, detectedAt: int)

  /** Position of each detector in the aggregator's fixed list of checks. */
  function KindRank(k: ExceptionKind): nat
  {
    match k
    case Delay => 0
    case MlPrediction => 1
    case TemperatureDeviation => 2
    case GeofenceViolation => 3
    case MissingMilestone => 4
  }

  function SeverityRank(s: Severity): nat
  {
    match s
    case Low => 0
    case Medium => 1
    case High => 2
  }

  function Abs(x: real): real
  {
    if x < 0.0 then -x else x
  }

  // ---------------------------------------------------------------- detectors

  /**
   * `_check_delay_exception`: a missing `delay_hours` counts as 0; a NULL one
   * makes the comparison raise, which the detector catches.
   */
  function CheckDelay(s: Shipment): (r: Option<Finding>)
    ensures r.Some? <==> s.delayHours.Num? && s.delayHours.v > DelayThresholdHours
    ensures r.Some? ==>
      && r.value.kind == Delay
      && r.value.detail == DelayDetail(s.delayHours.v)
      && r.value.severity in {Medium, High}
      && (r.value.severity == High <==> s.delayHours.v > DelayHighHours)
  {
    if s.delayHours.Null? then None
    else
      var hours := match s.delayHours case Num(h) => h case _ => 0.0;
      if hours > DelayThresholdHours then
        Some(Finding(Delay, if hours > DelayHighHours then High else Medium, DelayDetail(hours)))
      else
        None
  }

  /**
   * `_check_ml_prediction`: reads the stored `ml_delay_confidence` (it does
   * not call the predictor); `predicted_delay_hours` defaults to 24.
   */
  function CheckMlPrediction(s: Shipment): (r: Option<Finding>)
    ensures r.Some? <==> s.mlDelayConfidence.Num? && s.mlDelayConfidence.v > MlConfidenceThreshold
    ensures r.Some? ==>
      && r.value.kind == MlPrediction
      && r.value.severity in {Medium, High}
      && (r.value.severity == High <==> s.mlDelayConfidence.v > MlHighConfidence)
      && r.value.detail.MlDetail?
      && r.value.detail.mlConfidence == s.mlDelayConfidence.v
      && (s.predictedDelayHours.Absent? ==> r.value.detail.predictedDelayHours == Some(DefaultPredictedDelayHours))
      && (s.predictedDelayHours.Num? ==> r.value.detail.predictedDelayHours == Some(s.predictedDelayHours.v))
      && (s.predictedDelayHours.Null? ==> r.value.detail.predictedDelayHours == None)
  {
    if s.mlDelayConfidence.Null? then None
    else
      var confidence := match s.mlDelayConfidence case Num(c) => c case _ => 0.0;
      var predicted :=
        match s.predictedDelayHours
        case Absent => Some(DefaultPredictedDelayHours)
        case Null => None
        case Num(h) => Some(h);
      if confidence > MlConfidenceThreshold then
        Some(Finding(MlPrediction, if confidence > MlHighConfidence then High else Medium,
                     MlDetail(confidence, predicted)))
      else
        None
  }

  /** Both temperatures are known and they differ by more than 5.0 degrees. */
  predicate Deviates(row: ReeferRow)
  {
    && row.currentTemp.Some?
    && row.targetTemp.Some?
    && Abs(row.currentTemp.value - row.targetTemp.value) > TempDeviationThreshold
  }

  /** Index of the first deviating row, or `|rows|` when none deviates. */
  function FirstDeviating(rows: seq<ReeferRow>): (k: nat)
    ensures k <= |rows|
    ensures forall j :: 0 <= j < k ==> !Deviates(rows[j])
    ensures k < |rows| ==> Deviates(rows[k])
  {
    if rows == [] then 0
    else if Deviates(rows[0]) then 0
    else 1 + FirstDeviating(rows[1..])
  }

  function TemperatureDetailOf(row: ReeferRow): Detail
    requires Deviates(row)
  {
    TemperatureDetail(row.containerId, row.currentTemp.value, row.targetTemp.value,
                      Abs(row.currentTemp.value - row.targetTemp.value))
  }

  /** What `_check_temperature_deviation` returns: nothing when the query fails. */
  function TemperatureFinding(reply: StoreReply<ReeferRow>): (r: Option<Finding>)
    ensures reply.StoreError? ==> r.None?
  {
    match reply
    case StoreError => None
    case Rows(rows) =>
      var k := FirstDeviating(rows);
      if k < |rows| then Some(Finding(TemperatureDeviation, High, TemperatureDetailOf(rows[k]))) else None
  }

  /**
   * The temperature check fires exactly when some reefer row deviates, and
   * then reports, with high severity, the first deviating row.
   */
  lemma TemperatureFindingMeaning(reply: StoreReply<ReeferRow>)
    ensures var r := TemperatureFinding(reply);
      r.Some? <==> reply.Rows? && exists i :: 0 <= i < |reply.rows| && Deviates(reply.rows[i])
    ensures var r := TemperatureFinding(reply);
      r.Some? ==>
        && r.value.kind == TemperatureDeviation
        && r.value.severity == High
        && exists k :: && 0 <= k < |reply.rows|
                       && Deviates(reply.rows[k])
                       && (forall j :: 0 <= j < k ==> !Deviates(reply.rows[j]))
                       && r.value.detail == TemperatureDetailOf(reply.rows[k])
  {
    if reply.Rows? {
      var k := FirstDeviating(reply.rows);
      if k < |reply.rows| {
        assert Deviates(reply.rows[k]);
      }
    }
  }

  /** `_check_temperature_deviation`: scans the reefer rows and returns at the first deviation. */
  method CheckTemperature(reply: StoreReply<ReeferRow>) returns (r: Option<Finding>)
    ensures r == TemperatureFinding(reply)
  {
    if reply.StoreError? {
      return None;
    }
    var rows := reply.rows;
    var i := 0;
    while i < |rows|
      invariant 0 <= i <= |rows|
      invariant forall j :: 0 <= j < i ==> !Deviates(rows[j])
    {
      var row := rows[i];
      if row.currentTemp.Some? && row.targetTemp.Some? {
        var deviation := Abs(row.currentTemp.value - row.targetTemp.value);
        if deviation > TempDeviationThreshold {
          assert FirstDeviating(rows) == i;
          assert TemperatureFinding(reply) == Some(Finding(TemperatureDeviation, High, TemperatureDetailOf(row)));
          return Some(Finding(TemperatureDeviation, High,
                              TemperatureDetail(row.containerId, row.currentTemp.value, row.targetTemp.value, deviation)));
        }
      }
      i := i + 1;
    }
    assert FirstDeviating(rows) == |rows|;
    return None;
  }

  /** `(now - expected).total_seconds() / 3600`. */
  function HoursLate(now: int, expected: int): real
  {
    (now - expected) as real / SecondsPerHour
  }

  /** A parsed milestone more than 72 hours past its expected time. */
  predicate Overdue(m: MilestoneRow, now: int)
  {
    m.expected.At? && HoursLate(now, m.expected.seconds) > MilestoneDelayThresholdHours
  }

  /** A row that ends the scan: an overdue milestone, or one whose parse raises. */
  predicate Decisive(m: MilestoneRow, now: int)
  {
    m.expected.Unparseable? || Overdue(m, now)
  }

  /** Index of the first row that ends the scan, or `|rows|`. */
  function FirstDecisive(rows: seq<MilestoneRow>, now: int): (k: nat)
    ensures k <= |rows|
    ensures forall j :: 0 <= j < k ==> !Decisive(rows[j], now)
    ensures k < |rows| ==> Decisive(rows[k], now)
  {
    if rows == [] then 0
    else if Decisive(rows[0], now) then 0
    else 1 + FirstDecisive(rows[1..], now)
  }

  /**
   * What `_check_missing_milestones` returns: the first pending milestone
   * more than 72 hours late, provided no earlier row has an expected time
   * that fails to parse (the parse error is caught outside the loop and
   * ends the check with no finding).
   */
  function MilestoneFinding(reply: StoreReply<MilestoneRow>, now: int): (r: Option<Finding>)
    ensures r.Some? <==>
      reply.Rows? &&
      exists k :: && 0 <= k < |reply.rows|
                  && Overdue(reply.rows[k], now)
                  && forall j :: 0 <= j < k ==> !Decisive(reply.rows[j], now)
    ensures r.Some? ==>
      && r.value.kind == MissingMilestone
      && r.value.severity == Medium
      && exists k :: && 0 <= k < |reply.rows|
                     && Overdue(reply.rows[k], now)
                     && (forall j :: 0 <= j < k ==> !Decisive(reply.rows[j], now))
                     && r.value.detail == MilestoneDetail(reply.rows[k].name, HoursLate(now, reply.rows[k].expected.seconds))
  {
    match reply
    case StoreError => None
    case Rows(rows) =>
      var k := FirstDecisive(rows, now);
      if k < |rows| && rows[k].expected.At? then
        Some(Finding(MissingMilestone, Medium,
                     MilestoneDetail(rows[k].name, HoursLate(now, rows[k].expected.seconds))))
      else
        None
  }

  /** `_check_missing_milestones`: scans the pending milestones in order with early return. */
  method CheckMilestones(reply: StoreReply<MilestoneRow>, now: int) returns (r: Option<Finding>)
    ensures r == MilestoneFinding(reply, now)
  {
    if reply.StoreError? {
      return None;
    }
    var rows := reply.rows;
    var i := 0;
    while i < |rows|
      invariant 0 <= i <= |rows|
      invariant forall j :: 0 <= j < i ==> !Decisive(rows[j], now)
    {
      var m := rows[i];
      match m.expected {
        case Missing =>
        case Unparseable =>
          assert FirstDecisive(rows, now) == i;
          return None;
        case At(t) =>
          var hoursLate := HoursLate(now, t);
          if hoursLate > MilestoneDelayThresholdHours {
            assert FirstDecisive(rows, now) == i;
            return Some(Finding(MissingMilestone, Medium, MilestoneDetail(m.name, hoursLate)));
          }
      }
      i := i + 1;
    }
    return None;
  }

  /** `_check_geofence_violation`: `current_location` defaults to "Unknown". */
  function CheckGeofence(s: Shipment): (r: Option<Finding>)
    ensures r.Some? <==> s.geofenceViolation
    ensures r.Some? ==>
      && r.value.kind == GeofenceViolation
      && r.value.severity == High
      && r.value.detail.GeofenceDetail?
      && (s.currentLocation.NoText? ==> r.value.detail.currentLocation == Some("Unknown"))
      && (s.currentLocation.Text? ==> r.value.detail.currentLocation == Some(s.currentLocation.s))
  {
    if s.geofenceViolation then
      var location :=
        match s.currentLocation
        case NoText => Some("Unknown")
        case NullText => None
        case Text(l) => Some(l);
      Some(Finding(GeofenceViolation, High, GeofenceDetail(location)))
    else
      None
  }

  // --------------------------------------------------------------- aggregator

  /** The five detector outcomes, in the aggregator's fixed order. */
  function DetectorResults(snap: Snapshot, now: int): (rs: seq<Option<Finding>>)
    ensures |rs| == 5
    ensures RankedOutcomes(rs)
  {
    [ CheckDelay(snap.shipment),
      CheckMlPrediction(snap.shipment),
      TemperatureFinding(snap.reefers),
      CheckGeofence(snap.shipment),
      MilestoneFinding(snap.pendingMilestones, now) ]
  }

  /** The findings of those detectors that fired, in order. */
  function Present(rs: seq<Option<Finding>>): (fs: seq<Finding>)
    ensures |fs| <= |rs|
  {
    if rs == [] then []
    else Present(rs[..|rs| - 1]) + (if rs[|rs| - 1].Some? then [rs[|rs| - 1].value] else [])
  }

  /** Each finding as an exception record of the given shipment and detection time. */
  function Stamp(fs: seq<Finding>, shipmentId: int, detectedAt: int): (es: seq<ExceptionRecord>)
    ensures |es| == |fs|
  {
    if fs == [] then []
    else Stamp(fs[..|fs| - 1], shipmentId, detectedAt) + [ExceptionRecord(fs[|fs| - 1], shipmentId, detectedAt)]
  }

  lemma {:induction false} StampAt(fs: seq<Finding>, shipmentId: int, detectedAt: int)
    ensures forall i :: 0 <= i < |fs| ==> Stamp(fs, shipmentId, detectedAt)[i] == ExceptionRecord(fs[i], shipmentId, detectedAt)
  {
    if fs != [] {
      StampAt(fs[..|fs| - 1], shipmentId, detectedAt);
    }
  }

  /** What `_detect_exceptions` returns for one shipment. */
  function Findings(snap: Snapshot, now: int, detectedAt: int): seq<ExceptionRecord>
  {
    Stamp(Present(DetectorResults(snap, now)), snap.shipment.id, detectedAt)
  }

  /** The outcome at position k can only be a finding of the k-th kind. */
  predicate RankedOutcomes(rs: seq<Option<Finding>>)
  {
    forall k :: 0 <= k < |rs| && rs[k].Some? ==> KindRank(rs[k].value.kind) == k
  }

  /** Every present finding is the outcome at its own kind's position. */
  lemma {:induction false} PresentSound(rs: seq<Option<Finding>>)
    requires RankedOutcomes(rs)
    ensures forall i :: 0 <= i < |Present(rs)| ==>
      KindRank(Present(rs)[i].kind) < |rs| && rs[KindRank(Present(rs)[i].kind)] == Some(Present(rs)[i])
  {
    if rs != [] {
      var n := |rs| - 1;
      var front := rs[..n];
      assert forall k :: 0 <= k < n ==> front[k] == rs[k];
      PresentSound(front);
    }
  }

  /** Present findings come in strictly increasing kind order. */
  lemma {:induction false} PresentOrdered(rs: seq<Option<Finding>>)
    requires RankedOutcomes(rs)
    ensures forall i :: 0 <= i < |Present(rs)| ==> KindRank(Present(rs)[i].kind) < |rs|
    ensures forall i, j :: 0 <= i < j < |Present(rs)| ==>
      KindRank(Present(rs)[i].kind) < KindRank(Present(rs)[j].kind)
  {
    if rs != [] {
      var n := |rs| - 1;
      var front := rs[..n];
      assert forall k :: 0 <= k < n ==> front[k] == rs[k];
      PresentOrdered(front);
    }
  }

  /** Every outcome that fired shows up among the present findings. */
  lemma {:induction false} PresentComplete(rs: seq<Option<Finding>>)
    requires RankedOutcomes(rs)
    ensures forall k :: 0 <= k < |rs| && rs[k].Some? ==>
      exists i :: 0 <= i < |Present(rs)| && KindRank(Present(rs)[i].kind) == k
  {
    if rs != [] {
      var n := |rs| - 1;
      var front := rs[..n];
      assert forall k :: 0 <= k < n ==> front[k] == rs[k];
      assert RankedOutcomes(front);
      PresentComplete(front);
      var p := Present(front);
      var tail := if rs[n].Some? then [rs[n].value] else [];
      assert Present(rs) == p + tail;
      forall k | 0 <= k < |rs| && rs[k].Some?
        ensures exists i :: 0 <= i < |Present(rs)| && KindRank(Present(rs)[i].kind) == k
      {
        if k == n {
          assert tail == [rs[n].value];
          assert Present(rs)[|p|] == rs[n].value;
          assert KindRank(rs[n].value.kind) == n;
          assert 0 <= |p| < |Present(rs)| && KindRank(Present(rs)[|p|].kind) == k;
        } else {
          assert front[k] == rs[k] && front[k].Some?;
          var i :| 0 <= i < |p| && KindRank(p[i].kind) == k;
          assert Present(rs)[i] == p[i];
          assert 0 <= i < |Present(rs)| && KindRank(Present(rs)[i].kind) == k;
        }
      }
    }
  }

  /** Dispatches check number `k` of the aggregator's list. */
  method RunCheck(k: nat, snap: Snapshot, now: int) returns (r: Option<Finding>)
    requires k < 5
    ensures r == DetectorResults(snap, now)[k]
  {
    if k == 0 {
      r := CheckDelay(snap.shipment);
    } else if k == 1 {
      r := CheckMlPrediction(snap.shipment);
    } else if k == 2 {
      r := CheckTemperature(snap.reefers);
    } else if k == 3 {
      r := CheckGeofence(snap.shipment);
    } else {
      r := CheckMilestones(snap.pendingMilestones, now);
    }
  }

  /** Appending one outcome appends its finding, if any, to the present findings. */
  lemma PresentSnoc(rs: seq<Option<Finding>>, k: nat)
    requires k < |rs|
    ensures Present(rs[..k + 1]) == Present(rs[..k]) + (if rs[k].Some? then [rs[k].value] else [])
  {
    assert rs[..k + 1][..k] == rs[..k];
  }

  /** Stamping distributes over appending one finding. */
  lemma StampSnoc(fs: seq<Finding>, f: Finding, shipmentId: int, detectedAt: int)
    ensures Stamp(fs + [f], shipmentId, detectedAt)
      == Stamp(fs, shipmentId, detectedAt) + [ExceptionRecord(f, shipmentId, detectedAt)]
  {
    assert (fs + [f])[..|fs|] == fs;
  }

  /**
   * The exceptions of one shipment: at most five, all stamped with its id and
   * the detection time, each the outcome of its own detector, in the fixed
   * detector order.
   */
  lemma FindingsOrdered(snap: Snapshot, now: int, detectedAt: int)
    ensures var found := Findings(snap, now, detectedAt);
      && |found| <= 5
      && (forall i :: 0 <= i < |found| ==>
            found[i].shipmentId == snap.shipment.id && found[i].detectedAt == detectedAt
            && DetectorResults(snap, now)[KindRank(found[i].finding.kind)] == Some(found[i].finding))
      && (forall i, j :: 0 <= i < j < |found| ==>
            KindRank(found[i].finding.kind) < KindRank(found[j].finding.kind))
  {
    var rs := DetectorResults(snap, now);
    PresentSound(rs);
    PresentOrdered(rs);
    StampAt(Present(rs), snap.shipment.id, detectedAt);
  }

  /** A shipment has an exception of a kind exactly when that kind's detector fires. */
  lemma FindingsByKind(snap: Snapshot, now: int, detectedAt: int, kind: ExceptionKind)
    ensures var found := Findings(snap, now, detectedAt);
      (exists i :: 0 <= i < |found| && found[i].finding.kind == kind) <==>
      DetectorResults(snap, now)[KindRank(kind)].Some?
  {
    var rs := DetectorResults(snap, now);
    var ps := Present(rs);
    var found := Findings(snap, now, detectedAt);
    StampAt(ps, snap.shipment.id, detectedAt);
    if rs[KindRank(kind)].Some? {
      PresentComplete(rs);
      var i :| 0 <= i < |ps| && KindRank(ps[i].kind) == KindRank(kind);
      assert found[i].finding.kind == kind;
    } else {
      PresentSound(rs);
    }
  }

  /**
   * `_detect_exceptions`: runs the five checks in order and appends every
   * finding stamped with the shipment's id and the detection time.
   */
  method DetectExceptions(snap: Snapshot, now: int, detectedAt: int) returns (found: seq<ExceptionRecord>)
    ensures found == Findings(snap, now, detectedAt)
  {
    ghost var rs := DetectorResults(snap, now);
    found := [];
    var k := 0;
    while k < 5
      invariant 0 <= k <= 5
      invariant found == Stamp(Present(rs[..k]), snap.shipment.id, detectedAt)
    {
      var r := RunCheck(k, snap, now);
      PresentSnoc(rs, k);
      if r.Some? {
        StampSnoc(Present(rs[..k]), r.value, snap.shipment.id, detectedAt);
        found := found + [ExceptionRecord(r.value, snap.shipment.id, detectedAt)];
      } else {
        assert Present(rs[..k]) + [] == Present(rs[..k]);
      }
      k := k + 1;
    }
    assert rs[..5] == rs;
  }

  /**
   * Two runs over the same snapshot at the same clock reading produce the
   * same exceptions, apart from `detected_at`.
   */
  lemma FindingsIgnoreStamp(snap: Snapshot, now: int, at1: int, at2: int)
    ensures |Findings(snap, now, at1)| == |Findings(snap, now, at2)|
    ensures forall i :: 0 <= i < |Findings(snap, now, at1)| ==>
      Findings(snap, now, at1)[i].(detectedAt := at2) == Findings(snap, now, at2)[i]
  {
    var ps := Present(DetectorResults(snap, now));
    StampAt(ps, snap.shipment.id, at1);
    StampAt(ps, snap.shipment.id, at2);
  }

  /** A larger delay never makes the delay detector quieter or its severity lower. */
  lemma DelayEscalationMonotone(a: Shipment, b: Shipment)
    requires a.delayHours.Num? && b.delayHours.Num? && a.delayHours.v <= b.delayHours.v
    ensures CheckDelay(a).Some? ==> CheckDelay(b).Some?
    ensures CheckDelay(a).Some? ==> SeverityRank(CheckDelay(a).value.severity) <= SeverityRank(CheckDelay(b).value.severity)
  {
  }

  /** A higher stored confidence never makes the ML detector quieter or its severity lower. */
  lemma MlEscalationMonotone(a: Shipment, b: Shipment)
    requires a.mlDelayConfidence.Num? && b.mlDelayConfidence.Num?
    requires a.mlDelayConfidence.v <= b.mlDelayConfidence.v
    ensures CheckMlPrediction(a).Some? ==> CheckMlPrediction(b).Some?
    ensures CheckMlPrediction(a).Some? ==>
      SeverityRank(CheckMlPrediction(a).value.severity) <= SeverityRank(CheckMlPrediction(b).value.severity)
  {
  }

  // --------------------------------------------------------------- dispatcher

  /** The endpoint's answer to one POST: a status code, or a transport failure. */
  datatype Reply = Status(code: int) | TransportError

  /** The JSON body POSTed for one exception. */
  datatype A2AMessage = A2AMessage(
    skill: string, crew: string, shipmentId: int, exceptionType: string, severity: string, details: ExceptionRecord)

  function KindName(k: ExceptionKind): string
  {
    match k
    case Delay => "delay"
    case MlPrediction => "ml_prediction"
    case TemperatureDeviation => "temperature_deviation"
    case GeofenceViolation => "geofence_violation"
    case MissingMilestone => "missing_milestone"
  }

  function SeverityName(s: Severity): string
  {
    match s
    case Low => "low"
    case Medium => "medium"
    case High => "high"
  }

  function MessageFor(e: ExceptionRecord): A2AMessage
  {
    A2AMessage("handle-exception", "exception", e.shipmentId,
               KindName(e.finding.kind), SeverityName(e.finding.severity), e)
  }

  /** The reply to the i-th POST; a POST without a recorded reply failed in transport. */
  function ReplyAt(replies: seq<Reply>, i: nat): Reply
  {
    if i < |replies| then replies[i] else TransportError
  }

  predicate Delivered(r: Reply)
  {
    r.Status? && r.code == SuccessStatus
  }

  /** How many of the first n POSTs were answered with status 200. */
  function CountDelivered(replies: seq<Reply>, n: nat): (c: nat)
    ensures c <= n
  {
    if n == 0 then 0
    else CountDelivered(replies, n - 1) + (if Delivered(ReplyAt(replies, n - 1)) then 1 else 0)
  }

  /**
   * `_notify_a2a_server`: POSTs one message per exception, in order, and
   * counts the 200 replies; a failed POST does not stop the later ones.
   */
  method NotifyA2AServer(exceptions: seq<ExceptionRecord>, replies: seq<Reply>)
    returns (sent: nat, posted: seq<A2AMessage>)
    ensures sent == CountDelivered(replies, |exceptions|)
    ensures sent <= |exceptions|
    ensures |posted| == |exceptions|
    ensures forall i :: 0 <= i < |exceptions| ==> posted[i] == MessageFor(exceptions[i])
  {
    sent := 0;
    posted := [];
    var i := 0;
    while i < |exceptions|
      invariant 0 <= i <= |exceptions|
      invariant sent == CountDelivered(replies, i)
      invariant |posted| == i
      invariant forall j :: 0 <= j < i ==> posted[j] == MessageFor(exceptions[j])
    {
      var message := MessageFor(exceptions[i]);
      posted := posted + [message];
      var reply := ReplyAt(replies, i);
      if reply.Status? && reply.code == SuccessStatus {
        sent := sent + 1;
      }
      i := i + 1;
    }
  }

  /** If every reply is a 200, every exception counts as sent. */
  lemma {:induction false} AllDelivered(replies: seq<Reply>, n: nat)
    requires n <= |replies|
    requires forall i :: 0 <= i < n ==> Delivered(replies[i])
    ensures CountDelivered(replies, n) == n
  {
    if n > 0 {
      AllDelivered(replies, n - 1);
    }
  }

  // ---------------------------------------------------------------- one cycle

  predicate IsActive(snap: Snapshot)
  {
    snap.shipment.status != Some("delivered")
  }

  /**
   * `_get_active_shipments`: the shipments whose status is not "delivered",
   * in the store's order; a failing query yields no shipments.
   */
  function ActiveShipments(reply: StoreReply<Snapshot>): (active: seq<Snapshot>)
    ensures reply.StoreError? ==> active == []
    ensures reply.Rows? ==> |active| == CountIf(reply.rows, IsActive)
  {
    match reply
    case StoreError => []
    case Rows(rows) => Filter(rows, IsActive)
  }

  /** Exactly the shipments not yet delivered are monitored. */
  lemma ActiveShipmentsExact(reply: StoreReply<Snapshot>)
    ensures forall s :: s in ActiveShipments(reply) ==> IsActive(s) && reply.Rows? && s in reply.rows
    ensures reply.Rows? ==>
      forall i :: 0 <= i < |reply.rows| && IsActive(reply.rows[i]) ==> reply.rows[i] in ActiveShipments(reply)
  {
    if reply.Rows? {
      FilterSound(reply.rows, IsActive);
      forall i | 0 <= i < |reply.rows| && IsActive(reply.rows[i])
        ensures reply.rows[i] in ActiveShipments(reply)
      {
        FilterKeepsAll(reply.rows, IsActive, i);
      }
    }
  }

  /** The exceptions of all shipments, concatenated in shipment order. */
  function AllFindings(shipments: seq<Snapshot>, now: int, detectedAt: int): seq<ExceptionRecord>
  {
    if shipments == [] then []
    else AllFindings(shipments[..|shipments| - 1], now, detectedAt)
         + Findings(shipments[|shipments| - 1], now, detectedAt)
  }

  /** Sum of the per-shipment finding counts. */
  function FindingCount(shipments: seq<Snapshot>, now: int, detectedAt: int): nat
  {
    if shipments == [] then 0
    else |Findings(shipments[0], now, detectedAt)| + FindingCount(shipments[1..], now, detectedAt)
  }

  lemma {:induction false} FindingCountAppend(a: seq<Snapshot>, b: seq<Snapshot>, now: int, detectedAt: int)
    ensures FindingCount(a + b, now, detectedAt) == FindingCount(a, now, detectedAt) + FindingCount(b, now, detectedAt)
  {
    if a == [] {
      assert a + b == b;
    } else {
      assert (a + b)[1..] == a[1..] + b;
      FindingCountAppend(a[1..], b, now, detectedAt);
    }
  }

  /** The number of collected exceptions is the sum of the per-shipment counts, each at most five. */
  lemma {:induction false} AllFindingsCount(shipments: seq<Snapshot>, now: int, detectedAt: int)
    ensures |AllFindings(shipments, now, detectedAt)| == FindingCount(shipments, now, detectedAt)
    ensures FindingCount(shipments, now, detectedAt) <= 5 * |shipments|
  {
    if shipments != [] {
      var n := |shipments| - 1;
      AllFindingsCount(shipments[..n], now, detectedAt);
      assert shipments == shipments[..n] + [shipments[n]];
      FindingCountAppend(shipments[..n], [shipments[n]], now, detectedAt);
      assert FindingCount([shipments[n]], now, detectedAt) == |Findings(shipments[n], now, detectedAt)|;
    }
  }

  /** The loop of `run_once` that gathers the exceptions of every active shipment. */
  method CollectExceptions(shipments: seq<Snapshot>, now: int) returns (all: seq<ExceptionRecord>)
    ensures all == AllFindings(shipments, now, now)
    ensures |all| == FindingCount(shipments, now, now)
  {
    all := [];
    var i := 0;
    while i < |shipments|
      invariant 0 <= i <= |shipments|
      invariant all == AllFindings(shipments[..i], now, now)
    {
      var found := DetectExceptions(shipments[i], now, now);
      assert shipments[..i + 1][..i] == shipments[..i];
      all := all + found;
      i := i + 1;
    }
    assert shipments[..|shipments|] == shipments;
    AllFindingsCount(shipments, now, now);
  }

  /** Statistics of one monitoring cycle. */
  datatype RunStats = RunStats(
    timestamp: int,
    exceptionsFound: nat,
    shipmentsChecked: nat,
    notificationsSent: nat,
    durationMs: nat,
    error: Option<string>)

  /**
   * Everything one cycle reads from outside: the shipments query with each
   * shipment's container and milestone rows, the endpoint's replies, whether
   * the HTTP client itself failed to open, the clock, whether the INSERT of
   * the run row succeeded, and whether `stop_monitoring` was called while the
   * cycle ran.
   */
  datatype CycleInput = CycleInput(
    shipments: StoreReply<Snapshot>,
    replies: seq<Reply>,
    clientFault: Option<string>,
    now: int,
    durationMs: nat,
    logWritten: bool,
    stopRequested: bool)

  /** The statistics `run_once` returns for one cycle. */
  function CycleStats(c: CycleInput): RunStats
  {
    var active := ActiveShipments(c.shipments);
    var all := AllFindings(active, c.now, c.now);
    if all != [] && c.clientFault.Some? then
      RunStats(c.now, 0, 0, 0, c.durationMs, c.clientFault)
    else
      RunStats(c.now, |all|, |active|, CountDelivered(c.replies, |all|), c.durationMs, None)
  }

  /**
   * A completed cycle reports every active shipment as checked, the sum of
   * their finding counts as found, and never more notifications than
   * exceptions; a failed cycle reports zeros and carries its error.
   */
  lemma CycleStatsMeaning(c: CycleInput)
    ensures var st := CycleStats(c);
      && st.notificationsSent <= st.exceptionsFound
      && (st.error.None? ==>
            && st.shipmentsChecked == |ActiveShipments(c.shipments)|
            && st.exceptionsFound == FindingCount(ActiveShipments(c.shipments), c.now, c.now)
            && st.exceptionsFound <= 5 * st.shipmentsChecked)
      && (st.error.Some? ==> st.exceptionsFound == 0 && st.shipmentsChecked == 0 && st.notificationsSent == 0)
      && (c.clientFault.None? ==> st.error.None?)
  {
    AllFindingsCount(ActiveShipments(c.shipments), c.now, c.now);
  }

  /** A cycle in which nothing is detected completes even if the HTTP client is broken. */
  lemma QuietCycleIgnoresClient(c: CycleInput)
    requires AllFindings(ActiveShipments(c.shipments), c.now, c.now) == []
    ensures CycleStats(c).error.None? && CycleStats(c).notificationsSent == 0
  {
  }

  /** The `exception_monitor_runs` table, which only ever grows. */
  class RunTable {
    var rows: seq<RunStats>

    constructor ()
      ensures rows == []
    {
      rows := [];
    }
  }

  /** The monitor's in-memory state. */
  class Monitor {
    var running: bool
    var lastRunTime: Option<int>
    var totalRuns: nat

    constructor ()
      ensures !running && lastRunTime == None && totalRuns == 0
    {
      running := false;
      lastRunTime := None;
      totalRuns := 0;
    }

    /** `_log_run_to_database`: appends the row; a failing INSERT is swallowed. */
    method LogRunToDatabase(stats: RunStats, written: bool, table: RunTable)
      modifies table
      ensures table.rows == if written then old(table.rows) + [stats] else old(table.rows)
    {
      if written {
        table.rows := table.rows + [stats];
      }
    }

    /**
     * `run_once`: collects the exceptions of every active shipment, notifies
     * the endpoint when there are any, logs the run and bumps `total_runs`.
     * When the HTTP client cannot be opened the cycle returns zero counts with
     * the error and changes nothing.
     */
    method RunOnce(c: CycleInput, table: RunTable) returns (stats: RunStats)
      modifies this, table
      ensures stats == CycleStats(c)
      ensures running == old(running)
      ensures stats.error.None? ==> totalRuns == old(totalRuns) + 1 && lastRunTime == Some(c.now)
      ensures stats.error.Some? ==> totalRuns == old(totalRuns) && lastRunTime == old(lastRunTime)
      ensures table.rows == if stats.error.None? && c.logWritten then old(table.rows) + [stats] else old(table.rows)
    {
      var shipments := ActiveShipments(c.shipments);
      var all := CollectExceptions(shipments, c.now);
      var notificationsSent := 0;
      if all != [] {
        if c.clientFault.Some? {
          return RunStats(c.now, 0, 0, 0, c.durationMs, c.clientFault);
        }
        var posted;
        notificationsSent, posted := NotifyA2AServer(all, c.replies);
      }
      stats := RunStats(c.now, |all|, |shipments|, notificationsSent, c.durationMs, None);
      LogRunToDatabase(stats, c.logWritten, table);
      lastRunTime := Some(c.now);
      totalRuns := totalRuns + 1;
    }

    /** `stop_monitoring`: clears the flag the loop tests. */
    method StopMonitoring()
      modifies this`running
      ensures !running
    {
      running := false;
    }

    /** One turn of the monitoring loop: a cycle, then the stop request it may carry. */
    method RunScheduledCycle(c: CycleInput, table: RunTable) returns (stats: RunStats)
      modifies this, table
      ensures stats == CycleStats(c)
      ensures running == (old(running) && !c.stopRequested)
      ensures totalRuns == old(totalRuns) + (if stats.error.None? then 1 else 0)
      ensures table.rows == old(table.rows) + (if stats.error.None? && c.logWritten then [stats] else [])
    {
      stats := RunOnce(c, table);
      if c.stopRequested {
        StopMonitoring();
      }
    }

    /**
     * `start_monitoring`: sets `running` and runs cycles while it stays set.
     * The scheduled cycles are given in advance; the loop stops after the
     * first cycle during which a stop was requested.
     */
    method StartMonitoring(cycles: seq<CycleInput>, table: RunTable) returns (history: seq<RunStats>)
      modifies this, table
      ensures |history| == CyclesRun(cycles)
      ensures history == StatsOf(cycles[..|history|])
      ensures running <==> !StopRequested(cycles)
      ensures totalRuns == old(totalRuns) + Successes(history)
      ensures table.rows == old(table.rows) + Persisted(history, cycles)
    {
      ghost var runs0 := totalRuns;
      ghost var rows0 := table.rows;
      running := true;
      history := [];
      var i := 0;
      assert cycles[0..] == cycles;
      while running && i < |cycles|
        invariant i <= |cycles| && |history| == i
        invariant running ==>
          CyclesRun(cycles) == i + CyclesRun(cycles[i..]) && StopRequested(cycles) == StopRequested(cycles[i..])
        invariant !running ==> CyclesRun(cycles) == i && StopRequested(cycles)
        invariant history == StatsOf(cycles[..i])
        invariant totalRuns == runs0 + Successes(history)
        invariant table.rows == rows0 + Persisted(history, cycles)
        decreases |cycles| - i
      {
        ScheduleStep(cycles, i);
        ghost var before := table.rows;
        var stats := RunScheduledCycle(cycles[i], table);
        StatsStep(cycles, i, history, stats);
        SuccessesStep(history, stats);
        PersistedStep(rows0, before, history, cycles, stats);
        history := history + [stats];
        i := i + 1;
      }
    }
  }

  /** Whether some scheduled cycle carries a stop request. */
  predicate StopRequested(cycles: seq<CycleInput>)
  {
    cycles != [] && (cycles[0].stopRequested || StopRequested(cycles[1..]))
  }

  /** How many scheduled cycles the loop runs: up to and including the first that requests a stop. */
  function CyclesRun(cycles: seq<CycleInput>): (n: nat)
    ensures n <= |cycles|
  {
    if cycles == [] then 0
    else if cycles[0].stopRequested then 1
    else 1 + CyclesRun(cycles[1..])
  }

  lemma ScheduleStep(cycles: seq<CycleInput>, i: nat)
    requires i < |cycles|
    ensures CyclesRun(cycles[i..]) == if cycles[i].stopRequested then 1 else 1 + CyclesRun(cycles[i + 1..])
    ensures StopRequested(cycles[i..]) == (cycles[i].stopRequested || StopRequested(cycles[i + 1..]))
  {
    assert cycles[i..][1..] == cycles[i + 1..];
  }

  /** The loop stops right after the first cycle that requests a stop, and runs every cycle otherwise. */
  lemma {:induction false} CyclesRunMeaning(cycles: seq<CycleInput>)
    ensures StopRequested(cycles) <==> exists j :: 0 <= j < |cycles| && cycles[j].stopRequested
    ensures !StopRequested(cycles) ==> CyclesRun(cycles) == |cycles|
    ensures StopRequested(cycles) ==>
      && 0 < CyclesRun(cycles)
      && cycles[CyclesRun(cycles) - 1].stopRequested
      && forall j :: 0 <= j < CyclesRun(cycles) - 1 ==> !cycles[j].stopRequested
  {
    if cycles != [] {
      CyclesRunMeaning(cycles[1..]);
      if !cycles[0].stopRequested {
        forall j | 0 <= j < |cycles[1..]| ensures cycles[1..][j] == cycles[j + 1] {}
        if StopRequested(cycles[1..]) {
          var n := CyclesRun(cycles[1..]);
          assert cycles[n].stopRequested;
        }
        if exists j :: 0 <= j < |cycles| && cycles[j].stopRequested {
          var j :| 0 <= j < |cycles| && cycles[j].stopRequested;
          assert cycles[1..][j - 1].stopRequested;
        }
      }
    }
  }

  /** The statistics of each cycle in turn. */
  function StatsOf(cycles: seq<CycleInput>): (history: seq<RunStats>)
    ensures |history| == |cycles|
  {
    if cycles == [] then [] else StatsOf(cycles[..|cycles| - 1]) + [CycleStats(cycles[|cycles| - 1])]
  }

  /** The cycles that completed without error, each of which bumps `total_runs`. */
  function Successes(history: seq<RunStats>): nat
  {
    if history == [] then 0
    else Successes(history[..|history| - 1]) + (if history[|history| - 1].error.None? then 1 else 0)
  }

  /**
   * The run rows persisted when `history` holds the statistics of the first
   * cycles: those of completed cycles whose INSERT succeeded.
   */
  function Persisted(history: seq<RunStats>, cycles: seq<CycleInput>): seq<RunStats>
  {
    if history == [] || |cycles| < |history| then []
    else
      var n := |history| - 1;
      Persisted(history[..n], cycles)
      + (if history[n].error.None? && cycles[n].logWritten then [history[n]] else [])
  }

  /** One more cycle extends each of the loop's summaries by that cycle's contribution. */
  lemma StatsStep(cycles: seq<CycleInput>, i: nat, history: seq<RunStats>, stats: RunStats)
    requires i < |cycles|
    requires history == StatsOf(cycles[..i]) && stats == CycleStats(cycles[i])
    ensures history + [stats] == StatsOf(cycles[..i + 1])
  {
    var prefix := cycles[..i + 1];
    assert prefix[..i] == cycles[..i];
    assert prefix[i] == cycles[i];
  }

  lemma SuccessesStep(history: seq<RunStats>, stats: RunStats)
    ensures Successes(history + [stats]) == Successes(history) + (if stats.error.None? then 1 else 0)
  {
    assert (history + [stats])[..|history|] == history;
  }

  lemma PersistedStep(rows0: seq<RunStats>, before: seq<RunStats>, history: seq<RunStats>, cycles: seq<CycleInput>, stats: RunStats)
    requires |history| < |cycles|
    requires before == rows0 + Persisted(history, cycles)
    ensures before + (if stats.error.None? && cycles[|history|].logWritten then [stats] else [])
      == rows0 + Persisted(history + [stats], cycles)
  {
    assert (history + [stats])[..|history|] == history;
    var tail := if stats.error.None? && cycles[|history|].logWritten then [stats] else [];
    assert Persisted(history + [stats], cycles) == Persisted(history, cycles) + tail;
    AppendAssoc(rows0, Persisted(history, cycles), tail);
  }

  /** `total_runs` grows by at most one per cycle, and only completed cycles are persisted. */
  lemma {:induction false} SuccessesBound(history: seq<RunStats>, cycles: seq<CycleInput>)
    requires |history| <= |cycles|
    ensures Successes(history) <= |history|
    ensures |Persisted(history, cycles)| <= Successes(history)
    ensures forall r :: r in Persisted(history, cycles) ==> r in history && r.error.None?
  {
    if history != [] {
      var n := |history| - 1;
      SuccessesBound(history[..n], cycles);
      assert forall r :: r in history[..n] ==> r in history;
    }
  }

  // ---------------------------------------------------------------- scenarios

  /** A shipment 50 hours late raises one high-severity delay exception. */
  lemma DelayScenario(s: Shipment)
    requires s.delayHours == Num(50.0)
    ensures CheckDelay(s) == Some(Finding(Delay, High, DelayDetail(50.0)))
  {
  }

  /** Exactly 24 hours is not a delay exception; exactly 48 is a medium one. */
  lemma DelayBoundaries(s: Shipment, t: Shipment)
    requires s.delayHours == Num(24.0) && t.delayHours == Num(48.0)
    ensures CheckDelay(s) == None
    ensures CheckDelay(t).Some? && CheckDelay(t).value.severity == Medium
  {
  }

  /** A reefer at -12.0 with target -18.0 deviates by 6.0 and raises a high temperature exception. */
  lemma ReeferScenario()
    ensures TemperatureFinding(Rows([ReeferRow("C1", Some(-12.0), Some(-18.0))]))
      == Some(Finding(TemperatureDeviation, High, TemperatureDetail("C1", -12.0, -18.0, 6.0)))
  {
    assert FirstDeviating([ReeferRow("C1", Some(-12.0), Some(-18.0))]) == 0;
  }

  /** A pending milestone expected 100 hours ago is reported 100 hours overdue, severity medium. */
  lemma MilestoneScenario(now: int)
    ensures MilestoneFinding(Rows([MilestoneRow("departed", At(now - 360000))]), now)
      == Some(Finding(MissingMilestone, Medium, MilestoneDetail("departed", 100.0)))
  {
    var rows := [MilestoneRow("departed", At(now - 360000))];
    assert HoursLate(now, now - 360000) == 100.0;
    assert FirstDecisive(rows, now) == 0;
  }

  /** Three exceptions with one non-200 reply: two notifications are counted. */
  lemma DispatcherPartialFailure()
    ensures CountDelivered([Status(200), Status(500), Status(200)], 3) == 2
  {
  }
}
