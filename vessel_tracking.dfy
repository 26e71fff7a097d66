/**
 * Vessel tracking over the table of known vessels: the lookup by name, IMO
 * number or MMSI, the mock position with its speed, heading and navigational
 * status, the position record written for the history, and the history
 * read-back.
 *
 * The random variations of position, speed and heading are inputs, as is the
 * clock stamp; the position store is reached through the record the lookup
 * asks to insert and the rows a history query returns.
 */
module VesselTracking {
  import opened Common
  import Database

  /** One entry of the vessel table, keyed by its upper-case name. */
  datatype VesselInfo = VesselInfo(
    name: string,
    imo: string,
    mmsi: string,
    vesselType: string,
    flag: string,
    dwt: int,
    baseLat: real,
    baseLon: real,
    baseSpeed: real,
    baseHeading: real)

  /** The table the service starts with, in insertion order. */
  function DefaultVessels(): seq<VesselInfo>
  {
    [ VesselInfo("MAERSK SEALAND", "9321483", "235012345", "Container Ship", "Denmark", 170794, 37.7749, -122.4194, 12.5, 270.0),
      VesselInfo("MSC GULSUN", "9839030", "235098765", "Container Ship", "Liberia", 232618, 34.0522, -118.2437, 0.0, 0.0),
      VesselInfo("EVER GIVEN", "9811000", "235055566", "Container Ship", "Panama", 220940, 1.2921, 103.8558, 15.3, 90.0),
      VesselInfo("CMA CGM ANTOINE", "9454436", "235077788", "Container Ship", "France", 185000, 31.2304, 121.4737, 14.2, 180.0) ]
  }

  /** `get_all_tracked_vessels`: the table's names, in table order. */
  function VesselNames(table: seq<VesselInfo>): (names: seq<string>)
    ensures |names| == |table|
    ensures forall i :: 0 <= i < |table| ==> names[i] == table[i].name
  {
    if table == [] then [] else [table[0].name] + VesselNames(table[1..])
  }

  // ---------------------------------------------------------------------
  // Lookup
  // ---------------------------------------------------------------------

  /** `s.upper()` on ASCII text. */
  function Upper(s: string): (u: string)
    ensures |u| == |s|
    ensures forall i :: 0 <= i < |s| ==> u[i] == UpperChar(s[i])
  {
    if s == [] then [] else [UpperChar(s[0])] + Upper(s[1..])
  }

  /** The one criterion a lookup uses: the name if given, else the IMO number, else the MMSI. */
  datatype Criterion = NameContains(upper: string) | ImoIs(imo: string) | MmsiIs(mmsi: string) | NoCriterion

  function CriterionOf(vesselName: Option<string>, imoNumber: Option<string>, mmsi: Option<string>): Criterion
  {
    if Truthy(vesselName) then NameContains(Upper(vesselName.value))
    else if Truthy(imoNumber) then ImoIs(imoNumber.value)
    else if Truthy(mmsi) then MmsiIs(mmsi.value)
    else NoCriterion
  }

  /** A name matches when the upper-cased query occurs in it; numbers must be equal. */
  predicate Matches(v: VesselInfo, c: Criterion)
  {
    match c
    case NameContains(upper) => IsSubstring(upper, v.name)
    case ImoIs(imo) => v.imo == imo
    case MmsiIs(mmsi) => v.mmsi == mmsi
    case NoCriterion => false
  }

  /** The first table entry at or after `from` matching the criterion. */
  function FirstMatchFrom(table: seq<VesselInfo>, c: Criterion, from: nat): (r: Option<nat>)
    requires from <= |table|
    ensures r.Some? ==> from <= r.value < |table| && Matches(table[r.value], c)
    ensures r.Some? ==> forall j :: from <= j < r.value ==> !Matches(table[j], c)
    ensures r.None? ==> forall j :: from <= j < |table| ==> !Matches(table[j], c)
    decreases |table| - from
  {
    if from == |table| then None
    else if Matches(table[from], c) then Some(from)
    else FirstMatchFrom(table, c, from + 1)
  }

  /** One scan over the table that stops at the first match (`for ... break`). */
  method Scan(table: seq<VesselInfo>, c: Criterion) returns (found: Option<nat>)
    ensures found == FirstMatchFrom(table, c, 0)
  {
    found := None;
    var i := 0;
    while i < |table|
      invariant 0 <= i <= |table|
      invariant FirstMatchFrom(table, c, 0) == FirstMatchFrom(table, c, i)
    {
      if Matches(table[i], c) {
        found := Some(i);
        break;
      }
      i := i + 1;
    }
  }

  // ---------------------------------------------------------------------
  // Mock position
  // ---------------------------------------------------------------------

  /** The random variations drawn for one position. */
  datatype Variation = Variation(lat: real, lon: real, speed: real, heading: real)

  /** The navigational status derived from the speed in knots. */
  datatype NavStatus = AtAnchor | Moored | SlowSpeed | UnderwayUsingEngine

  function StatusOf(speed: real): NavStatus
  {
    if speed < 0.5 then (if speed < 0.1 then AtAnchor else Moored)
    else if speed < 5.0 then SlowSpeed
    else UnderwayUsingEngine
  }

  /** The status bands partition the speeds: below 0.1, [0.1, 0.5), [0.5, 5) and from 5 knots. */
  lemma StatusBands(speed: real)
    ensures StatusOf(speed) == AtAnchor <==> speed < 0.1
    ensures StatusOf(speed) == Moored <==> 0.1 <= speed < 0.5
    ensures StatusOf(speed) == SlowSpeed <==> 0.5 <= speed < 5.0
    ensures StatusOf(speed) == UnderwayUsingEngine <==> 5.0 <= speed
  {
  }

  /** `max(0, x)`. */
  function NonNegative(x: real): (r: real)
    ensures r >= 0.0 && r >= x
    ensures r == x || r == 0.0
  {
    if x < 0.0 then 0.0 else x
  }

  /** Python's `h % 360` on a float: floored, so the result lies in [0, 360). */
  function Mod360(h: real): real
  {
    h - 360.0 * ((h / 360.0).Floor as real)
  }

  /** A real with no fractional part. */
  predicate IsWhole(x: real)
  {
    x.Floor as real == x
  }

  /** The heading is normalised into [0, 360) and differs from the raw heading by whole turns. */
  lemma Mod360Range(h: real)
    ensures 0.0 <= Mod360(h) < 360.0
    ensures IsWhole((h - Mod360(h)) / 360.0)
    ensures 0.0 <= h < 360.0 ==> Mod360(h) == h
  {
    var f := (h / 360.0).Floor;
    assert f as real <= h / 360.0 < f as real + 1.0;
    assert Mod360(h) == h - 360.0 * f as real;
    if 0.0 <= h < 360.0 {
      assert 0.0 <= h / 360.0 < 1.0;
      assert f == 0;
    }
  }

  /** The port a vessel heads for and its arrival time, `("Unknown", None)` for a vessel not in the port list. */
  function NextPort(name: string): (string, Option<string>)
  {
    if name == "MAERSK SEALAND" then ("Oakland", Some("2025-01-25T14:00:00Z"))
    else if name == "MSC GULSUN" then ("Los Angeles", Some("2025-01-20T10:00:00Z"))
    else if name == "EVER GIVEN" then ("Singapore", Some("2025-01-19T08:00:00Z"))
    else if name == "CMA CGM ANTOINE" then ("Shanghai", Some("2025-01-22T16:00:00Z"))
    else ("Unknown", None)
  }

  /** A position as `_generate_mock_position` reports it (before rounding). */
  datatype MockPosition = MockPosition(lat: real, lon: real, speed: real, heading: real, status: NavStatus, nextPort: string, eta: Option<string>)

  /** `_generate_mock_position` given the drawn variations. */
  function MockPositionOf(v: VesselInfo, d: Variation): MockPosition
  {
    var speed := NonNegative(v.baseSpeed + d.speed);
    var port := NextPort(v.name);
    MockPosition(v.baseLat + d.lat, v.baseLon + d.lon, speed, Mod360(v.baseHeading + d.heading), StatusOf(speed), port.0, port.1)
  }

  /** Speed is never negative, heading lies in [0, 360), and the status follows the reported speed. */
  lemma MockPositionBounds(v: VesselInfo, d: Variation)
    ensures var p := MockPositionOf(v, d);
      p.speed >= 0.0 && 0.0 <= p.heading < 360.0 && p.status == StatusOf(p.speed)
      && (v.baseSpeed + d.speed <= 0.0 ==> p.status == AtAnchor)
      && (p.nextPort == "Unknown" <==> p.eta.None?)
  {
    Mod360Range(v.baseHeading + d.heading);
  }

  // ---------------------------------------------------------------------
  // Tracking
  // ---------------------------------------------------------------------

  /** The row written to `vessel_positions` for the history. */
  datatype PositionRecord = PositionRecord(
    vesselName: string, imo: string, mmsi: string, lat: real, lon: real, speed: real, heading: real,
    status: NavStatus, nextPort: string, eta: Option<string>, timestamp: string)

  /** What `track_vessel` answers. */
  datatype VesselTrackingResult =
    | VesselNotFound(searchedFor: Option<string>)
    | Tracked(vesselName: string, imo: string, mmsi: string, vesselType: string, flag: string, dwt: int,
              position: MockPosition, lastUpdated: string)

  /** `vessel_name or imo_number or mmsi`. */
  function SearchedFor(vesselName: Option<string>, imoNumber: Option<string>, mmsi: Option<string>): Option<string>
  {
    if Truthy(vesselName) then vesselName else if Truthy(imoNumber) then imoNumber else mmsi
  }

  /** `track_vessel` as a value: the answer, and the position record it inserts. */
  function TrackingFor(table: seq<VesselInfo>, vesselName: Option<string>, imoNumber: Option<string>, mmsi: Option<string>,
                       d: Variation, now: string): (VesselTrackingResult, Option<PositionRecord>)
  {
    match FirstMatchFrom(table, CriterionOf(vesselName, imoNumber, mmsi), 0)
    case None => (VesselNotFound(SearchedFor(vesselName, imoNumber, mmsi)), None)
    case Some(i) =>
      var v := table[i];
      var p := MockPositionOf(v, d);
      (Tracked(v.name, v.imo, v.mmsi, v.vesselType, v.flag, v.dwt, p, now),
       Some(PositionRecord(v.name, v.imo, v.mmsi, p.lat, p.lon, p.speed, p.heading, p.status, p.nextPort, p.eta, now)))
  }

  /** `track_vessel`: one scan under the criterion that applies, then the position, its record and the answer. */
  method TrackVessel(table: seq<VesselInfo>, vesselName: Option<string>, imoNumber: Option<string>, mmsi: Option<string>,
                     d: Variation, now: string)
    returns (result: VesselTrackingResult, inserted: Option<PositionRecord>)
    ensures (result, inserted) == TrackingFor(table, vesselName, imoNumber, mmsi, d, now)
  {
    var found: Option<nat> := None;
    if Truthy(vesselName) {
      found := Scan(table, NameContains(Upper(vesselName.value)));
    } else if Truthy(imoNumber) {
      found := Scan(table, ImoIs(imoNumber.value));
    } else if Truthy(mmsi) {
      found := Scan(table, MmsiIs(mmsi.value));
    } else {
      assert FirstMatchFrom(table, NoCriterion, 0).None?;
    }
    if found.None? {
      result, inserted := VesselNotFound(SearchedFor(vesselName, imoNumber, mmsi)), None;
      return;
    }
    var v := table[found.value];
    var p := MockPositionOf(v, d);
    inserted := Some(PositionRecord(v.name, v.imo, v.mmsi, p.lat, p.lon, p.speed, p.heading, p.status, p.nextPort, p.eta, now));
    result := Tracked(v.name, v.imo, v.mmsi, v.vesselType, v.flag, v.dwt, p, now);
  }

  /**
   * A given name decides alone: the answer is the first vessel whose name
   * contains the upper-cased query, and if none does the lookup fails even
   * when the IMO number or MMSI would match. A failed lookup inserts nothing;
   * a found vessel's record repeats the answer.
   */
  lemma NamePrecedence(table: seq<VesselInfo>, vesselName: Option<string>, imoNumber: Option<string>, mmsi: Option<string>,
                       d: Variation, now: string)
    requires Truthy(vesselName)
    ensures var (r, ins) := TrackingFor(table, vesselName, imoNumber, mmsi, d, now);
      (r.VesselNotFound? <==> forall j :: 0 <= j < |table| ==> !IsSubstring(Upper(vesselName.value), table[j].name))
      && (r.Tracked? ==> exists i :: 0 <= i < |table| && r.vesselName == table[i].name
                           && IsSubstring(Upper(vesselName.value), table[i].name)
                           && forall j :: 0 <= j < i ==> !IsSubstring(Upper(vesselName.value), table[j].name))
  {
  }

  /** Without a name, an IMO number is matched exactly, and the MMSI is used only when neither is given. */
  lemma NumberLookups(table: seq<VesselInfo>, imoNumber: Option<string>, mmsi: Option<string>, d: Variation, now: string)
    ensures Truthy(imoNumber) ==>
      var (r, _) := TrackingFor(table, None, imoNumber, mmsi, d, now);
      (r.VesselNotFound? <==> forall j :: 0 <= j < |table| ==> table[j].imo != imoNumber.value)
      && (r.Tracked? ==> r.imo == imoNumber.value)
    ensures !Truthy(imoNumber) && Truthy(mmsi) ==>
      var (r, _) := TrackingFor(table, None, imoNumber, mmsi, d, now);
      (r.VesselNotFound? <==> forall j :: 0 <= j < |table| ==> table[j].mmsi != mmsi.value)
      && (r.Tracked? ==> r.mmsi == mmsi.value)
    ensures !Truthy(imoNumber) && !Truthy(mmsi) ==> TrackingFor(table, None, imoNumber, mmsi, d, now).0.VesselNotFound?
  {
  }

  /** A failed lookup writes nothing; a successful one writes the position it reports. */
  lemma InsertMatchesAnswer(table: seq<VesselInfo>, vesselName: Option<string>, imoNumber: Option<string>, mmsi: Option<string>,
                            d: Variation, now: string)
    ensures var (r, ins) := TrackingFor(table, vesselName, imoNumber, mmsi, d, now);
      (ins.None? <==> r.VesselNotFound?)
      && (r.Tracked? ==> ins.value.vesselName == r.vesselName && ins.value.imo == r.imo && ins.value.mmsi == r.mmsi
                         && ins.value.speed == r.position.speed && ins.value.heading == r.position.heading
                         && ins.value.status == r.position.status && ins.value.timestamp == r.lastUpdated)
  {
  }

  // ---------------------------------------------------------------------
  // History
  // ---------------------------------------------------------------------

  /** Python's `s[:limit]`: a negative limit counts from the end. */
  function SlicePrefix<T>(s: seq<T>, limit: int): (r: seq<T>)
    ensures r <= s
    ensures limit >= 0 ==> |r| == if limit < |s| then limit else |s|
    ensures limit < 0 ==> |r| == if -limit < |s| then |s| + limit else 0
  {
    if limit >= 0 then (if limit < |s| then s[..limit] else s)
    else if -limit < |s| then s[..|s| + limit]
    else []
  }

  /**
   * `get_vessel_history`: the positions the name query returns, cut to the
   * limit. The query filters on the name with a LIKE pattern and returns at
   * most the ten newest positions.
   */
  function History(positions: seq<PositionRecord>, limit: int): seq<PositionRecord>
  {
    SlicePrefix(positions, limit)
  }

  /** The history is a prefix of the query result, never longer than a non-negative limit, and read with the name filter alone. */
  lemma HistoryMeaning(vesselName: string, positions: seq<PositionRecord>, limit: int)
    ensures History(positions, limit) <= positions
    ensures limit >= 0 ==> |History(positions, limit)| <= limit
    ensures vesselName != "" ==> Database.VesselParams(Some(vesselName), None) == ["%" + vesselName + "%"]
  {
  }
}
