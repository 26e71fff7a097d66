/**
 * Live container tracking over the table of sensor-equipped containers: the
 * temperature reading with its reefer setpoint, the alert rules over
 * temperature deviation, shock events and battery level, the shaping of the
 * live answer and the listing of tracked containers.
 *
 * The mock generators draw GPS drift, temperatures, humidity, shock events
 * and door events at random; here those draws are inputs, as are the clock
 * stamps.
 */
module ContainerTracking {
  import opened Common

  /** One entry of the sensor table, keyed by container number. */
  datatype SensorProfile = SensorProfile(
    containerNumber: string,
    containerType: string,
    currentShipment: string,
    gpsEnabled: bool,
    tempSensor: bool,
    humiditySensor: bool,
    shockSensor: bool,
    doorSensor: bool,
    batteryLevel: int,
    lastSync: string)

  /** The table the service starts with; `lastSync` is the clock stamp taken at start-up. */
  function DefaultSensors(lastSync: string): seq<SensorProfile>
  {
    [ SensorProfile("MAEU1234567", "40HC Reefer", "job-2025-001", true, true, true, true, true, 87, lastSync),
      SensorProfile("MSCU7654321", "40HC Standard", "job-2025-002", true, false, false, true, true, 64, lastSync),
      SensorProfile("TEMU9876543", "20DC Standard", "job-2025-005", true, false, false, true, true, 92, lastSync) ]
  }

  /** Container numbers are the table's keys: no number appears twice. */
  predicate DistinctNumbers(sensors: seq<SensorProfile>)
  {
    forall i, j :: 0 <= i < j < |sensors| ==> sensors[i].containerNumber != sensors[j].containerNumber
  }

  /** `container_number in self.container_sensors`, and the entry it finds. */
  function Lookup(sensors: seq<SensorProfile>, number: string): (r: Option<SensorProfile>)
    ensures r.Some? ==> r.value in sensors && r.value.containerNumber == number
    ensures r.None? <==> forall i :: 0 <= i < |sensors| ==> sensors[i].containerNumber != number
  {
    if sensors == [] then None
    else if sensors[0].containerNumber == number then Some(sensors[0])
    else Lookup(sensors[1..], number)
  }

  // ---------------------------------------------------------------------
  // Temperature
  // ---------------------------------------------------------------------

  /** `temp_c * 9/5 + 32`, before rounding. */
  function Fahrenheit(celsius: real): real
  {
    celsius * 9.0 / 5.0 + 32.0
  }

  /** The conversion is invertible and increasing, and the scales meet at -40. */
  lemma FahrenheitFacts(c: real, d: real)
    ensures (Fahrenheit(c) - 32.0) * 5.0 / 9.0 == c
    ensures c < d ==> Fahrenheit(c) < Fahrenheit(d)
    ensures Fahrenheit(c) == c <==> c == -40.0
    ensures Fahrenheit(0.0) == 32.0 && Fahrenheit(100.0) == 212.0
  {
  }

  /** The setpoint of a reefer container. */
  const ReeferSetpoint: real := -18.0

  /** A live temperature reading; setpoint and deviation only for reefers. */
  datatype TempReading = TempReading(celsius: real, fahrenheit: real, setpoint: Option<real>, deviation: Option<real>, timestamp: string)

  /** Reefer containers are recognised by the `MAEU` prefix appearing in their number. */
  predicate IsReefer(number: string)
  {
    IsSubstring("MAEU", number)
  }

  /** `_generate_live_temperature` given the drawn Celsius value. */
  function LiveTemperature(number: string, celsius: real, timestamp: string): (t: TempReading)
  {
    var setpoint := if IsReefer(number) then Some(ReeferSetpoint) else None;
    TempReading(celsius, Fahrenheit(celsius), setpoint, if setpoint.Some? then Some(celsius - setpoint.value) else None, timestamp)
  }

  /** Only reefers carry a setpoint, always -18 °C, and their deviation is the reading minus it. */
  lemma LiveTemperatureMeaning(number: string, celsius: real, timestamp: string)
    ensures var t := LiveTemperature(number, celsius, timestamp);
      (t.setpoint.Some? <==> IsReefer(number))
      && (t.deviation.Some? <==> t.setpoint.Some?)
      && (t.setpoint.Some? ==> t.setpoint.value == -18.0 && t.deviation.value == celsius + 18.0)
      && t.celsius == (t.fahrenheit - 32.0) * 5.0 / 9.0
  {
    FahrenheitFacts(celsius, celsius);
  }

  // ---------------------------------------------------------------------
  // Alerts
  // ---------------------------------------------------------------------

  /** A recorded shock, newest first in the list the generator returns. */
  datatype ShockEvent = ShockEvent(timestamp: string, severity: Severity, gForce: real, durationMs: int, location: string)

  /** The alerts, with the value each message quotes. */
  datatype Alert =
    | TemperatureDeviation(severity: Severity, deviation: real, timestamp: string)
    | ShockImpact(severity: Severity, gForce: real, timestamp: string)
    | LowBattery(severity: Severity, level: int, timestamp: string)

  function Abs(x: real): real
  {
    if x < 0.0 then -x else x
  }

  /** The shocks that count: severity high or medium. */
  predicate Serious(e: ShockEvent)
  {
    e.severity == High || e.severity == Medium
  }

  /** The temperature alert, if the reading deviates (truthily) by more than 2 degrees. */
  function TemperatureAlert(temp: Option<TempReading>): Option<Alert>
  {
    if temp.Some? && temp.value.deviation.Some? && temp.value.deviation.value != 0.0 && Abs(temp.value.deviation.value) > 2.0 then
      var d := temp.value.deviation.value;
      Some(TemperatureDeviation(if Abs(d) > 3.0 then High else Medium, d, temp.value.timestamp))
    else None
  }

  /** The shock alert: copied from the first serious shock, if any. */
  function ShockAlert(shocks: seq<ShockEvent>): Option<Alert>
  {
    var serious := Filter(shocks, Serious);
    if serious == [] then None
    else Some(ShockImpact(serious[0].severity, serious[0].gForce, serious[0].timestamp))
  }

  /** The battery alert, below 20 percent. */
  function BatteryAlert(level: int, lastSync: string): Option<Alert>
  {
    if level < 20 then Some(LowBattery(if level < 10 then High else Medium, level, lastSync)) else None
  }

  function AsList(a: Option<Alert>): seq<Alert>
  {
    if a.Some? then [a.value] else []
  }

  /** `_generate_alerts`: temperature, shock and battery alerts, in that order. */
  function Alerts(level: int, lastSync: string, temp: Option<TempReading>, shocks: seq<ShockEvent>): seq<Alert>
  {
    AsList(TemperatureAlert(temp)) + AsList(ShockAlert(shocks)) + AsList(BatteryAlert(level, lastSync))
  }

  /** The first serious shock, by position. */
  function FirstSerious(shocks: seq<ShockEvent>): (r: Option<nat>)
    ensures r.Some? ==> r.value < |shocks| && Serious(shocks[r.value])
    ensures r.Some? ==> forall j :: 0 <= j < r.value ==> !Serious(shocks[j])
    ensures r.None? ==> forall j :: 0 <= j < |shocks| ==> !Serious(shocks[j])
  {
    if shocks == [] then None
    else if Serious(shocks[0]) then Some(0)
    else match FirstSerious(shocks[1..])
      case None => None
      case Some(k) => Some(k + 1)
  }

  /** Helper: the first element kept by the filter is the first serious shock. */
  lemma {:induction false} FilterHead(shocks: seq<ShockEvent>)
    ensures Filter(shocks, Serious) == [] <==> FirstSerious(shocks).None?
    ensures Filter(shocks, Serious) != [] ==> Filter(shocks, Serious)[0] == shocks[FirstSerious(shocks).value]
  {
    if shocks != [] && !Serious(shocks[0]) {
      FilterHead(shocks[1..]);
    }
  }

  /** The rule for each alert: when it is raised and with which severity. */
  lemma AlertRules(level: int, lastSync: string, temp: Option<TempReading>, shocks: seq<ShockEvent>)
    ensures var t := TemperatureAlert(temp);
      (t.Some? <==> temp.Some? && temp.value.deviation.Some? && Abs(temp.value.deviation.value) > 2.0)
      && (t.Some? ==> t.value.deviation == temp.value.deviation.value
                      && (t.value.severity == High <==> Abs(temp.value.deviation.value) > 3.0)
                      && t.value.severity != Low)
    ensures var s := ShockAlert(shocks);
      (s.Some? <==> exists i :: 0 <= i < |shocks| && Serious(shocks[i]))
      && (s.Some? ==> var i := FirstSerious(shocks).value;
                      s.value == ShockImpact(shocks[i].severity, shocks[i].gForce, shocks[i].timestamp)
                      && s.value.severity != Low)
    ensures var b := BatteryAlert(level, lastSync);
      (b.Some? <==> level < 20)
      && (b.Some? ==> (b.value.severity == High <==> level < 10) && b.value.severity != Low)
  {
    FilterHead(shocks);
  }

  /** At most one alert of each kind, in the order temperature, shock, battery. */
  lemma AlertsOrder(level: int, lastSync: string, temp: Option<TempReading>, shocks: seq<ShockEvent>)
    ensures var a := Alerts(level, lastSync, temp, shocks);
      |a| <= 3
      && (forall i, j :: 0 <= i < j < |a| ==> Rank(a[i]) < Rank(a[j]))
      && (|a| == 3 <==> TemperatureAlert(temp).Some? && ShockAlert(shocks).Some? && level < 20)
  {
  }

  /** The position of an alert kind in the fixed order. */
  function Rank(a: Alert): nat
  {
    match a
    case TemperatureDeviation(_, _, _) => 0
    case ShockImpact(_, _, _) => 1
    case LowBattery(_, _, _) => 2
  }

  /** A reefer holding its reading within 2 degrees of -18 °C raises no temperature alert, and one outside does. */
  lemma ReeferTemperatureBand(number: string, celsius: real, timestamp: string)
    requires IsReefer(number)
    ensures TemperatureAlert(Some(LiveTemperature(number, celsius, timestamp))).Some? <==> celsius < -20.0 || celsius > -16.0
  {
  }

  /** `_generate_alerts`: appends each alert whose rule fires. */
  method GenerateAlerts(profile: SensorProfile, temp: Option<TempReading>, shocks: seq<ShockEvent>) returns (alerts: seq<Alert>)
    ensures alerts == Alerts(profile.batteryLevel, profile.lastSync, temp, shocks)
  {
    alerts := [];
    if temp.Some? && temp.value.deviation.Some? && temp.value.deviation.value != 0.0 && Abs(temp.value.deviation.value) > 2.0 {
      var d := temp.value.deviation.value;
      alerts := alerts + [TemperatureDeviation(if Abs(d) > 3.0 then High else Medium, d, temp.value.timestamp)];
    }
    var serious := Filter(shocks, Serious);
    if serious != [] {
      alerts := alerts + [ShockImpact(serious[0].severity, serious[0].gForce, serious[0].timestamp)];
    }
    if profile.batteryLevel < 20 {
      alerts := alerts + [LowBattery(if profile.batteryLevel < 10 then High else Medium, profile.batteryLevel, profile.lastSync)];
    }
  }

  // ---------------------------------------------------------------------
  // Live tracking
  // ---------------------------------------------------------------------

  /** A GPS fix: the container's base position plus the drawn drift. */
  datatype GpsFix = GpsFix(latitude: real, longitude: real, accuracyMeters: int, timestamp: string)

  /** The base position of the three demonstration containers; any other container sits at (0, 0). */
  function BasePosition(number: string): (real, real)
  {
    if number == "MAEU1234567" then (37.776995, -122.420063)
    else if number == "MSCU7654321" then (40.712776, -74.005974)
    else if number == "TEMU9876543" then (1.352083, 103.819839)
    else (0.0, 0.0)
  }

  datatype DoorAction = Opened | Closed
  datatype DoorEvent = DoorEvent(timestamp: string, action: DoorAction, location: string, authorized: bool)

  /** The values the mock generators drew for one call, and the clock stamp of the readings. */
  datatype Draws = Draws(
    latDrift: real,
    lonDrift: real,
    accuracyMeters: int,
    celsius: real,
    humidityPercent: real,
    shocks: seq<ShockEvent>,
    doors: seq<DoorEvent>,
    now: string)

  /** What `track_container_live` answers. */
  datatype LiveTracking =
    | UnknownContainer(containerNumber: string)
    | Live(
        containerNumber: string,
        containerType: string,
        shipmentId: string,
        batteryLevel: int,
        lastSync: string,
        gps: Option<GpsFix>,
        temperature: Option<TempReading>,
        humidityPercent: Option<real>,
        shockEvents: Option<seq<ShockEvent>>,
        doorEvents: Option<seq<DoorEvent>>,
        doorClosed: Option<bool>,
        alerts: seq<Alert>)

  /** `track_container_live` as a value. */
  function LiveTrackingFor(sensors: seq<SensorProfile>, number: string, draws: Draws): LiveTracking
    requires draws.doors != []
  {
    match Lookup(sensors, number)
    case None => UnknownContainer(number)
    case Some(p) => LiveView(p, number, draws)
  }

  /** The answer for a registered container: one part per sensor it carries, then the alerts. */
  function LiveView(p: SensorProfile, number: string, draws: Draws): LiveTracking
    requires draws.doors != []
  {
    var base := BasePosition(number);
    var temp := if p.tempSensor then Some(LiveTemperature(number, draws.celsius, draws.now)) else None;
    var shocks := if p.shockSensor then draws.shocks else [];
    Live(number, p.containerType, p.currentShipment, p.batteryLevel, p.lastSync,
      if p.gpsEnabled then Some(GpsFix(base.0 + draws.latDrift, base.1 + draws.lonDrift, draws.accuracyMeters, draws.now)) else None,
      temp,
      if p.humiditySensor then Some(draws.humidityPercent) else None,
      if p.shockSensor then Some(draws.shocks) else None,
      if p.doorSensor then Some(if |draws.doors| <= 5 then draws.doors else draws.doors[..5]) else None,
      if p.doorSensor then Some(draws.doors[0].action == Closed) else None,
      Alerts(p.batteryLevel, p.lastSync, temp, shocks))
  }

  /**
   * `track_container_live`: an unknown number is answered at once; for a
   * registered one the answer is filled in sensor by sensor.
   */
  method TrackContainerLive(sensors: seq<SensorProfile>, number: string, draws: Draws) returns (r: LiveTracking)
    requires draws.doors != []
    ensures r == LiveTrackingFor(sensors, number, draws)
  {
    var found := Lookup(sensors, number);
    if found.None? {
      return UnknownContainer(number);
    }
    r := FillLive(found.value, number, draws);
  }

  /**
   * The sensor-by-sensor part of `track_container_live`, with the alerts
   * computed from what was filled in. The door generator always yields at
   * least two events, so the newest one exists.
   */
  method FillLive(p: SensorProfile, number: string, draws: Draws) returns (r: LiveTracking)
    requires draws.doors != []
    ensures r == LiveView(p, number, draws)
  {
    var gps, temp, humidity, shockEvents, doorEvents, doorClosed := None, None, None, None, None, None;
    if p.gpsEnabled {
      var base := BasePosition(number);
      gps := Some(GpsFix(base.0 + draws.latDrift, base.1 + draws.lonDrift, draws.accuracyMeters, draws.now));
    }
    if p.tempSensor {
      temp := Some(LiveTemperature(number, draws.celsius, draws.now));
    }
    if p.humiditySensor {
      humidity := Some(draws.humidityPercent);
    }
    if p.shockSensor {
      shockEvents := Some(draws.shocks);
    }
    if p.doorSensor {
      doorEvents := Some(if |draws.doors| <= 5 then draws.doors else draws.doors[..5]);
      doorClosed := Some(draws.doors[0].action == Closed);
    }
    var alerts := GenerateAlerts(p, temp, if shockEvents.Some? then shockEvents.value else []);
    r := Live(number, p.containerType, p.currentShipment, p.batteryLevel, p.lastSync, gps, temp, humidity, shockEvents, doorEvents, doorClosed, alerts);
  }

  /**
   * An unregistered number is reported as unknown; a registered one echoes
   * its table entry, shows at most the five newest door events and the door
   * as closed exactly when the newest event closed it.
   */
  lemma LiveTrackingMeaning(sensors: seq<SensorProfile>, number: string, draws: Draws)
    requires draws.doors != []
    ensures var r := LiveTrackingFor(sensors, number, draws);
      (r.UnknownContainer? <==> forall i :: 0 <= i < |sensors| ==> sensors[i].containerNumber != number)
      && (r.Live? ==> exists i :: 0 <= i < |sensors| && sensors[i].containerNumber == number
                       && r.containerType == sensors[i].containerType && r.shipmentId == sensors[i].currentShipment
                       && r.batteryLevel == sensors[i].batteryLevel)
      && (r.Live? && r.doorEvents.Some? ==>
            |r.doorEvents.value| <= 5 && r.doorEvents.value <= draws.doors
            && (r.doorClosed == Some(true) <==> draws.doors[0].action == Closed))
      && (r.Live? ==> (r.temperature.Some? && r.temperature.value.setpoint.Some? <==> r.temperature.Some? && IsReefer(number)))
  {
    var found := Lookup(sensors, number);
    if found.Some? {
      var i :| 0 <= i < |sensors| && sensors[i] == found.value;
    }
  }

  /** A summary row of `get_all_tracked_containers`. */
  datatype TrackedContainer = TrackedContainer(containerNumber: string, containerType: string, shipment: string, battery: int)

  function Summary(p: SensorProfile): TrackedContainer
  {
    TrackedContainer(p.containerNumber, p.containerType, p.currentShipment, p.batteryLevel)
  }

  /** `get_all_tracked_containers`: one summary per table entry, in table order. */
  function AllTracked(sensors: seq<SensorProfile>): (list: seq<TrackedContainer>)
    ensures |list| == |sensors|
    ensures forall i :: 0 <= i < |sensors| ==> list[i] == Summary(sensors[i])
  {
    if sensors == [] then [] else [Summary(sensors[0])] + AllTracked(sensors[1..])
  }

  /** Every listed container can be tracked live, and the live answer agrees with its summary. */
  lemma ListedContainersAreTracked(sensors: seq<SensorProfile>, draws: Draws, i: nat)
    requires DistinctNumbers(sensors) && i < |sensors| && draws.doors != []
    ensures var s := AllTracked(sensors)[i];
      var r := LiveTrackingFor(sensors, s.containerNumber, draws);
      r.Live? && r.containerType == s.containerType && r.shipmentId == s.shipment && r.batteryLevel == s.battery
  {
    var number := sensors[i].containerNumber;
    var found := Lookup(sensors, number);
    var j :| 0 <= j < |sensors| && sensors[j] == found.value;
    assert sensors[j].containerNumber == sensors[i].containerNumber;
  }
}
