/**
 * Multimodal journey tracking: the progress percentage over the transport
 * legs, the search for the current mode and location, the hand-off events
 * between consecutive legs, the journey listing and the shaping of the
 * tracking answer for one shipment.
 *
 * The shipment rows and the transport-leg rows the service reads from the
 * store are inputs; the `last_updated` clock stamp is left out.
 */
module Multimodal {
  import opened Common
  import Database

  /** One row of `transport_legs`, in `leg_number` order as the store returns them. */
  datatype Leg = Leg(
    legNumber: int,
    mode: string,
    carrier: Option<string>,
    vehicle: Option<string>,
    fromLocation: string,
    toLocation: string,
    status: string,
    departedAt: Option<string>,
    arrivedAt: Option<string>,
    eta: Option<string>,
    distanceKm: Option<real>)

  predicate Completed(leg: Leg)
  {
    leg.status == "completed"
  }

  predicate InTransit(leg: Leg)
  {
    leg.status == "in_transit"
  }

  /** A leg that is under way: in transit, loading or unloading. */
  predicate Active(leg: Leg)
  {
    leg.status == "in_transit" || leg.status == "loading" || leg.status == "unloading"
  }

  predicate AllCompleted(legs: seq<Leg>)
  {
    forall i :: 0 <= i < |legs| ==> Completed(legs[i])
  }

  // ---------------------------------------------------------------------
  // Progress
  // ---------------------------------------------------------------------

  /**
   * `_calculate_progress` before rounding: a completed leg counts whole, a
   * leg in transit counts half, as a percentage of all legs.
   */
  function Progress(legs: seq<Leg>): real
  {
    if legs == [] then 0.0
    else ((CountIf(legs, Completed) as real + CountIf(legs, InTransit) as real * 0.5) / |legs| as real) * 100.0
  }

  /** Progress is a percentage, and it reaches 100 exactly when there are legs and all of them are completed. */
  lemma ProgressBounds(legs: seq<Leg>)
    ensures 0.0 <= Progress(legs) <= 100.0
    ensures Progress(legs) == 100.0 <==> legs != [] && AllCompleted(legs)
  {
    if legs != [] {
      var c := CountIf(legs, Completed);
      var t := CountIf(legs, InTransit);
      CountIfDisjoint(legs, Completed, InTransit);
      CountIfAll(legs, Completed);
      Percentage(c as real + t as real * 0.5, |legs| as real);
    }
  }

  /** Helper: a share of a positive whole, as a percentage, lies in [0, 100] and is 100 only for the whole. */
  lemma Percentage(part: real, whole: real)
    requires 0.0 <= part <= whole && 0.0 < whole
    ensures 0.0 <= (part / whole) * 100.0 <= 100.0
    ensures (part / whole) * 100.0 == 100.0 <==> part == whole
  {
    var q := part / whole;
    assert (1.0 - q) * whole == whole - part;
    ProductSign(1.0 - q, whole);
    ProductSign(q, whole);
  }

  /** Helper: multiplying by a positive real keeps the sign. */
  lemma ProductSign(a: real, b: real)
    requires 0.0 < b
    ensures 0.0 < a * b <==> 0.0 < a
    ensures a * b == 0.0 <==> a == 0.0
  {
  }

  // ---------------------------------------------------------------------
  // Current mode and location
  // ---------------------------------------------------------------------

  /** The first active leg at or after `from`, if any. */
  function FirstActiveFrom(legs: seq<Leg>, from: nat): (r: Option<nat>)
    requires from <= |legs|
    ensures r.Some? ==> from <= r.value < |legs| && Active(legs[r.value])
    ensures r.Some? ==> forall j :: from <= j < r.value ==> !Active(legs[j])
    ensures r.None? ==> forall j :: from <= j < |legs| ==> !Active(legs[j])
    decreases |legs| - from
  {
    if from == |legs| then None
    else if Active(legs[from]) then Some(from)
    else FirstActiveFrom(legs, from + 1)
  }

  /** The current transport mode (none without legs) and location. */
  datatype Position = Position(mode: Option<string>, location: string)

  /** Where an active leg puts the shipment: at its origin until it has departed, en route afterwards. */
  function ActivePosition(leg: Leg): Position
  {
    Position(Some(leg.mode), if leg.departedAt.None? then leg.fromLocation else "En route")
  }

  /** `_determine_current_mode_and_location`. */
  function CurrentPosition(legs: seq<Leg>): Position
  {
    if legs == [] then Position(None, "Unknown")
    else
      match FirstActiveFrom(legs, 0)
      case Some(i) => ActivePosition(legs[i])
      case None =>
        if AllCompleted(legs) then Position(Some(legs[|legs| - 1].mode), legs[|legs| - 1].toLocation)
        else Position(Some(legs[0].mode), legs[0].fromLocation)
  }

  /**
   * The first active leg decides the position; without one, a fully
   * completed journey ends at the last leg's destination and any other
   * journey sits at the first leg's origin; no legs give an unknown place.
   */
  lemma CurrentPositionMeaning(legs: seq<Leg>)
    ensures legs == [] ==> CurrentPosition(legs) == Position(None, "Unknown")
    ensures forall i :: (0 <= i < |legs| && Active(legs[i]) && (forall j :: 0 <= j < i ==> !Active(legs[j]))
      ==> CurrentPosition(legs) == ActivePosition(legs[i]))
    ensures legs != [] && AllCompleted(legs)
      ==> CurrentPosition(legs) == Position(Some(legs[|legs| - 1].mode), legs[|legs| - 1].toLocation)
    ensures legs != [] && (forall i :: 0 <= i < |legs| ==> !Active(legs[i])) && !AllCompleted(legs)
      ==> CurrentPosition(legs) == Position(Some(legs[0].mode), legs[0].fromLocation)
    ensures CurrentPosition(legs).mode.Some? <==> legs != []
  {
    if legs != [] {
      var r := FirstActiveFrom(legs, 0);
      if r.Some? {
        forall i | 0 <= i < |legs| && Active(legs[i]) && (forall j :: 0 <= j < i ==> !Active(legs[j]))
          ensures i == r.value
        {
        }
        assert !Completed(legs[r.value]);
      }
    }
  }

  // ---------------------------------------------------------------------
  // Hand-off events
  // ---------------------------------------------------------------------

  /** `s.title()` on ASCII text: a letter after a letter goes lower-case, any other letter upper-case. */
  function TitleFrom(s: string, afterLetter: bool): (t: string)
    ensures |t| == |s|
  {
    if s == [] then []
    else [if afterLetter then LowerChar(s[0]) else UpperChar(s[0])] + TitleFrom(s[1..], IsAsciiLetter(s[0]))
  }

  function TitleCase(s: string): string
  {
    TitleFrom(s, false)
  }

  /** A hand-off: the mode change, where it happens and when the earlier leg arrived. */
  datatype Handoff = Handoff(event: string, location: string, timestamp: string)

  /** The hand-off after leg `i`, which has arrived, into leg `i + 1`. */
  function HandoffAt(legs: seq<Leg>, i: nat): Handoff
    requires i + 1 < |legs| && legs[i].arrivedAt.Some?
  {
    Handoff(TitleCase(legs[i].mode) + " to " + TitleCase(legs[i + 1].mode), legs[i].toLocation, legs[i].arrivedAt.value)
  }

  /** The hand-offs after the first `k` legs of a journey, each into its successor. */
  function HandoffsBefore(legs: seq<Leg>, k: nat): (hs: seq<Handoff>)
    requires k == 0 || k < |legs|
    ensures |hs| <= k
  {
    if k == 0 then []
    else HandoffsBefore(legs, k - 1) + (if Truthy(legs[k - 1].arrivedAt) then [HandoffAt(legs, k - 1)] else [])
  }

  /** The positions of the legs that hand off, among the first `k`. */
  function HandoffLegs(legs: seq<Leg>, k: nat): seq<nat>
    requires k <= |legs|
  {
    if k == 0 then []
    else HandoffLegs(legs, k - 1) + (if Truthy(legs[k - 1].arrivedAt) then [k - 1] else [])
  }

  /** `_identify_handoff_events` as a value: one hand-off per adjacent pair of legs. */
  function Handoffs(legs: seq<Leg>): seq<Handoff>
  {
    if legs == [] then [] else HandoffsBefore(legs, |legs| - 1)
  }

  /** Helper: the hand-off list and the handing-off legs line up, entry by entry. */
  lemma {:induction false} HandoffsIndexed(legs: seq<Leg>, k: nat)
    requires k == 0 || k < |legs|
    ensures |HandoffsBefore(legs, k)| == |HandoffLegs(legs, k)|
    ensures forall j :: 0 <= j < |HandoffLegs(legs, k)| ==>
      HandoffLegs(legs, k)[j] < k && Truthy(legs[HandoffLegs(legs, k)[j]].arrivedAt)
      && HandoffsBefore(legs, k)[j] == HandoffAt(legs, HandoffLegs(legs, k)[j])
  {
    if k > 0 {
      HandoffsIndexed(legs, k - 1);
    }
  }

  /** Helper: the handing-off legs come in increasing order and include every arrived leg among the first `k`. */
  lemma {:induction false} HandoffLegsOrdered(legs: seq<Leg>, k: nat)
    requires k <= |legs|
    ensures forall j :: 0 <= j < |HandoffLegs(legs, k)| ==> HandoffLegs(legs, k)[j] < k
    ensures forall j1, j2 :: 0 <= j1 < j2 < |HandoffLegs(legs, k)| ==> HandoffLegs(legs, k)[j1] < HandoffLegs(legs, k)[j2]
    ensures forall i :: 0 <= i < k && Truthy(legs[i].arrivedAt) ==> i in HandoffLegs(legs, k)
  {
    if k > 0 {
      HandoffLegsOrdered(legs, k - 1);
    }
  }

  /** Every hand-off is some arrived leg's, every arrived leg with a successor hands off, and there are fewer hand-offs than legs. */
  lemma HandoffsMembers(legs: seq<Leg>)
    ensures |Handoffs(legs)| <= if legs == [] then 0 else |legs| - 1
    ensures forall h :: h in Handoffs(legs) ==> exists i :: 0 <= i && i + 1 < |legs| && Truthy(legs[i].arrivedAt) && h == HandoffAt(legs, i)
    ensures forall i :: 0 <= i && i + 1 < |legs| && Truthy(legs[i].arrivedAt) ==> HandoffAt(legs, i) in Handoffs(legs)
  {
    if legs != [] {
      var k := |legs| - 1;
      HandoffsIndexed(legs, k);
      HandoffLegsOrdered(legs, k);
      var hs, ix := HandoffsBefore(legs, k), HandoffLegs(legs, k);
      forall h | h in hs
        ensures exists i :: 0 <= i && i + 1 < |legs| && Truthy(legs[i].arrivedAt) && h == HandoffAt(legs, i)
      {
        var j :| 0 <= j < |hs| && hs[j] == h;
        assert h == HandoffAt(legs, ix[j]);
      }
      forall i | 0 <= i && i + 1 < |legs| && Truthy(legs[i].arrivedAt)
        ensures HandoffAt(legs, i) in hs
      {
        assert i in ix;
        var j :| 0 <= j < |ix| && ix[j] == i;
        assert hs[j] == HandoffAt(legs, i);
      }
    }
  }

  /** `_identify_handoff_events`: walks the adjacent pairs and appends a hand-off after each arrived leg. */
  method IdentifyHandoffs(legs: seq<Leg>) returns (handoffs: seq<Handoff>)
    ensures handoffs == Handoffs(legs)
  {
    handoffs := [];
    var i := 0;
    while i + 1 < |legs|
      invariant i == 0 || i < |legs|
      invariant handoffs == HandoffsBefore(legs, i)
    {
      var current, next := legs[i], legs[i + 1];
      if Truthy(current.arrivedAt) {
        handoffs := handoffs + [Handoff(TitleCase(current.mode) + " to " + TitleCase(next.mode), current.toLocation, current.arrivedAt.value)];
      }
      i := i + 1;
    }
  }

  // ---------------------------------------------------------------------
  // Journey listing
  // ---------------------------------------------------------------------

  /** One journey entry; the optional keys are present only when the leg's value is truthy. */
  datatype JourneyLeg = JourneyLeg(
    legNumber: int,
    mode: string,
    carrier: Option<string>,
    vehicle: Option<string>,
    from: string,
    to: string,
    status: string,
    departed: Option<string>,
    arrived: Option<string>,
    eta: Option<string>,
    distanceKm: Option<real>)

  /** Python truthiness of an optional number: `None` and zero are false. */
  predicate TruthyNumber(x: Option<real>)
  {
    x.Some? && x.value != 0.0
  }

  /** A text value kept only when truthy. */
  function KeepTruthy(s: Option<string>): (r: Option<string>)
    ensures r.Some? <==> Truthy(s)
    ensures r.Some? ==> r == s
  {
    if Truthy(s) then s else None
  }

  function JourneyLegOf(leg: Leg): JourneyLeg
  {
    JourneyLeg(leg.legNumber, leg.mode, leg.carrier, leg.vehicle, leg.fromLocation, leg.toLocation, leg.status,
      KeepTruthy(leg.departedAt), KeepTruthy(leg.arrivedAt), KeepTruthy(leg.eta),
      if TruthyNumber(leg.distanceKm) then leg.distanceKm else None)
  }

  /** The journey entries of all legs, in leg order. */
  function JourneyOf(legs: seq<Leg>): (js: seq<JourneyLeg>)
    ensures |js| == |legs|
    ensures forall i :: 0 <= i < |legs| ==> js[i] == JourneyLegOf(legs[i])
  {
    if legs == [] then [] else [JourneyLegOf(legs[0])] + JourneyOf(legs[1..])
  }

  /** The journey loop: one entry per leg, the optional keys copied when truthy. */
  method FormatJourney(legs: seq<Leg>) returns (journey: seq<JourneyLeg>)
    ensures journey == JourneyOf(legs)
  {
    journey := [];
    for i := 0 to |legs|
      invariant |journey| == i
      invariant forall k :: 0 <= k < i ==> journey[k] == JourneyLegOf(legs[k])
    {
      var leg := legs[i];
      var departed, arrived, eta, distance := None, None, None, None;
      if Truthy(leg.departedAt) {
        departed := leg.departedAt;
      }
      if Truthy(leg.arrivedAt) {
        arrived := leg.arrivedAt;
      }
      if Truthy(leg.eta) {
        eta := leg.eta;
      }
      if TruthyNumber(leg.distanceKm) {
        distance := leg.distanceKm;
      }
      journey := journey + [JourneyLeg(leg.legNumber, leg.mode, leg.carrier, leg.vehicle, leg.fromLocation, leg.toLocation, leg.status,
        departed, arrived, eta, distance)];
    }
  }

  predicate StillOpen(j: JourneyLeg)
  {
    j.status != "completed"
  }

  /** The journey shown: every entry with history, otherwise only the entries not yet completed. */
  function VisibleJourney(journey: seq<JourneyLeg>, includeHistory: bool): seq<JourneyLeg>
  {
    if includeHistory then journey else Filter(journey, StillOpen)
  }

  /** Helper: the open entries and the completed legs together account for every leg. */
  lemma {:induction false} OpenCount(legs: seq<Leg>)
    ensures CountIf(JourneyOf(legs), StillOpen) + CountIf(legs, Completed) == |legs|
  {
    if legs != [] {
      assert JourneyOf(legs)[1..] == JourneyOf(legs[1..]);
      OpenCount(legs[1..]);
    }
  }

  /**
   * With history the journey lists every leg in order; without it, it lists
   * exactly the legs not completed, one entry each.
   */
  lemma JourneyHistory(legs: seq<Leg>)
    ensures VisibleJourney(JourneyOf(legs), true) == JourneyOf(legs)
    ensures forall j :: j in VisibleJourney(JourneyOf(legs), false) ==> exists i :: 0 <= i < |legs| && !Completed(legs[i]) && j == JourneyLegOf(legs[i])
    ensures forall i :: 0 <= i < |legs| && !Completed(legs[i]) ==> JourneyLegOf(legs[i]) in VisibleJourney(JourneyOf(legs), false)
    ensures |VisibleJourney(JourneyOf(legs), false)| == |legs| - CountIf(legs, Completed)
  {
    var js := JourneyOf(legs);
    FilterSound(js, StillOpen);
    OpenCount(legs);
    forall j | j in Filter(js, StillOpen)
      ensures exists i :: 0 <= i < |legs| && !Completed(legs[i]) && j == JourneyLegOf(legs[i])
    {
      var i :| 0 <= i < |js| && js[i] == j;
      assert j == JourneyLegOf(legs[i]);
    }
    forall i | 0 <= i < |legs| && !Completed(legs[i])
      ensures JourneyLegOf(legs[i]) in Filter(js, StillOpen)
    {
      FilterKeepsAll(js, StillOpen, i);
    }
  }

  // ---------------------------------------------------------------------
  // The tracking answer
  // ---------------------------------------------------------------------

  /** One row of `shipments`, as far as the tracker reads it. */
  datatype ShipmentRecord = ShipmentRecord(
    id: int,
    jobNumber: Option<string>,
    containerNumber: Option<string>,
    status: string,
    origin: string,
    destination: string)

  /**
   * The answer of `track_multimodal_shipment`: not found (with what was
   * searched for), the basic shipment view when no leg is stored, or the
   * full multimodal view.
   */
  datatype Tracking =
    | NotFound(searchedFor: Option<string>)
    | Basic(shipment: ShipmentRecord, currentLocation: string, progress: real)
    | Full(shipment: ShipmentRecord, currentMode: Option<string>, currentLocation: string,
           journey: seq<JourneyLeg>, progress: real, handoffs: seq<Handoff>,
           totalLegs: nat, completedLegs: nat)

  /** The message of a miss: `job_number or shipment_id`, where an absent value prints as `None`. */
  function NotFoundMessage(searchedFor: Option<string>): string
  {
    "No shipment found matching: " + (if searchedFor.Some? then searchedFor.value else "None")
  }

  /** The filters the lookup passes to the shipment query: the job number when truthy, nothing otherwise. */
  function JobFilters(jobNumber: Option<string>): map<string, string>
  {
    if Truthy(jobNumber) then map["job_number" := jobNumber.value] else map[]
  }

  /** With a job number the lookup filters on it alone; without one it reads every shipment, whatever the shipment id. */
  lemma JobFiltersQuery(jobNumber: Option<string>)
    ensures Truthy(jobNumber) ==> Database.ShipmentsParams(Some(JobFilters(jobNumber))) == [jobNumber.value]
    ensures !Truthy(jobNumber) ==> Database.ShipmentsQuery(Some(JobFilters(jobNumber))) == "SELECT * FROM shipments"
    ensures !Truthy(jobNumber) ==> Database.ShipmentsParams(Some(JobFilters(jobNumber))) == []
  {
    var f := JobFilters(jobNumber);
    if Truthy(jobNumber) {
      assert Database.ShipmentFilterColumns(Some(f)) == ["job_number"];
    } else {
      Database.UnfilteredShipmentsQuery(Some(f));
    }
  }

  /** The view of a shipment with no stored legs: half-way while in transit, at the origin while loading. */
  function BasicView(s: ShipmentRecord): Tracking
  {
    Basic(s, if s.status == "loading" then s.origin else s.destination, if s.status == "in_transit" then 50.0 else 0.0)
  }

  /**
   * `track_multimodal_shipment` given the rows the shipment query returned
   * and the legs stored for the first of them.
   */
  function TrackingFor(shipmentId: Option<string>, jobNumber: Option<string>, includeHistory: bool,
                       shipments: seq<ShipmentRecord>, legs: seq<Leg>): Tracking
  {
    if shipments == [] then NotFound(if Truthy(jobNumber) then jobNumber else shipmentId)
    else if legs == [] then BasicView(shipments[0])
    else
      var pos := CurrentPosition(legs);
      Full(shipments[0], pos.mode, pos.location, VisibleJourney(JourneyOf(legs), includeHistory),
           Progress(legs), Handoffs(legs), |legs|, CountIf(legs, Completed))
  }

  /** `track_multimodal_shipment`: the filters it queries with and its answer. */
  method TrackMultimodalShipment(shipmentId: Option<string>, jobNumber: Option<string>, includeHistory: bool,
                                 shipments: seq<ShipmentRecord>, legs: seq<Leg>)
    returns (filters: map<string, string>, result: Tracking)
    ensures filters == JobFilters(jobNumber)
    ensures result == TrackingFor(shipmentId, jobNumber, includeHistory, shipments, legs)
  {
    filters := map[];
    if Truthy(jobNumber) {
      filters := filters["job_number" := jobNumber.value];
    }
    if shipments == [] {
      result := NotFound(if Truthy(jobNumber) then jobNumber else shipmentId);
      return;
    }
    var shipment := shipments[0];
    if legs == [] {
      result := BasicView(shipment);
      return;
    }
    var progress := Progress(legs);
    var position := CurrentPosition(legs);
    var handoffs := IdentifyHandoffs(legs);
    var journey := FormatJourney(legs);
    if !includeHistory {
      journey := Filter(journey, StillOpen);
    }
    result := Full(shipment, position.mode, position.location, journey, progress, handoffs, |legs|, CountIf(legs, Completed));
  }

  /**
   * A lookup finds nothing exactly when the query returned no row; without
   * legs it answers the basic view (the origin while loading, the
   * destination otherwise; 50 % while in transit, 0 % otherwise); otherwise
   * it reports the current position and handoffs of the legs, counts every
   * leg and never more completed legs than legs.
   */
  lemma TrackingShape(shipmentId: Option<string>, jobNumber: Option<string>, includeHistory: bool,
                      shipments: seq<ShipmentRecord>, legs: seq<Leg>)
    ensures var r := TrackingFor(shipmentId, jobNumber, includeHistory, shipments, legs);
      (r.NotFound? <==> shipments == [])
      && (r.NotFound? && Truthy(jobNumber) ==> NotFoundMessage(r.searchedFor) == "No shipment found matching: " + jobNumber.value)
      && (r.Basic? <==> shipments != [] && legs == [])
      && (r.Basic? ==> r.shipment == shipments[0])
      && (r.Basic? ==> r.progress == if shipments[0].status == "in_transit" then 50.0 else 0.0)
      && (r.Basic? ==> r.currentLocation == if shipments[0].status == "loading" then shipments[0].origin else shipments[0].destination)
      && (r.Full? ==> r.shipment == shipments[0] && r.totalLegs == |legs| && r.completedLegs <= r.totalLegs)
      && (r.Full? ==> r.completedLegs == CountIf(legs, Completed) && r.handoffs == Handoffs(legs))
      && (r.Full? ==> r.currentMode == CurrentPosition(legs).mode && r.currentLocation == CurrentPosition(legs).location)
      && (r.Full? ==> 0.0 <= r.progress <= 100.0)
  {
    ProgressBounds(legs);
  }

  /** The shipment id only names a miss: whenever a shipment is found, the answer does not depend on it. */
  lemma ShipmentIdOnlyNamesTheMiss(id1: Option<string>, id2: Option<string>, jobNumber: Option<string>, includeHistory: bool,
                                   shipments: seq<ShipmentRecord>, legs: seq<Leg>)
    requires shipments != []
    ensures TrackingFor(id1, jobNumber, includeHistory, shipments, legs) == TrackingFor(id2, jobNumber, includeHistory, shipments, legs)
  {
  }

  /** `get_transport_modes`. */
  function TransportModes(): (modes: seq<string>)
    ensures |modes| == 5
  {
    ["ocean", "air", "rail", "truck", "barge"]
  }
}
