/**
 * The public tracking-link service: unauthenticated links that let a
 * customer follow one shipment. The link table is a map from token to
 * link; instants are whole seconds on the service's clock, and the clock
 * readings and the UUID4 draws are parameters.
 */
module PublicTracking {
  import opened Common

  const SecondsPerDay := 86400

  /** `max_attempts` of the token generator. */
  const MaxAttempts := 10

  /** A row of the `public_tracking_links` table, keyed by its token. */
  datatype Link = Link(shipmentId: string, expiresAt: int, createdAt: int)

  /** What the `COUNT(*)` query on the shipments table answers. */
  datatype CountReply = Counted(count: nat) | QueryFailed

  /**
   * `_shipment_exists`: a positive count, a zero count (any plausible id
   * is let through) and a failed query all answer yes.
   */
  function ShipmentExists(reply: CountReply): (found: bool)
    ensures found
  {
    match reply
    case QueryFailed => true
    case Counted(n) => if n == 0 then true else n > 0
  }

  /** The first of the attempts `from` .. `MaxAttempts - 1` whose candidate token is not yet stored. */
  function FirstFreshFrom(candidates: seq<string>, links: map<string, Link>, from: nat): (r: Option<nat>)
    requires from <= MaxAttempts <= |candidates|
    decreases MaxAttempts - from
    ensures r.Some? ==> from <= r.value < MaxAttempts && candidates[r.value] !in links
    ensures r.Some? ==> forall j :: from <= j < r.value ==> candidates[j] in links
    ensures r.None? <==> forall j :: from <= j < MaxAttempts ==> candidates[j] in links
  {
    if from == MaxAttempts then None
    else if candidates[from] !in links then Some(from)
    else FirstFreshFrom(candidates, links, from + 1)
  }

  /** The token the generator settles on, if any of its attempts is fresh. */
  function FreshToken(candidates: seq<string>, links: map<string, Link>): (token: Option<string>)
    requires MaxAttempts <= |candidates|
    ensures token.Some? ==> token.value !in links && token.value in candidates[..MaxAttempts]
    ensures token.None? ==> forall j :: 0 <= j < MaxAttempts ==> candidates[j] in links
  {
    match FirstFreshFrom(candidates, links, 0)
    case None => None
    case Some(i) => Some(candidates[i])
  }

  /** What `generate_tracking_link` answers, or the exception it raises. */
  datatype LinkResult =
    | Created(trackingUrl: string, token: string, expiresAt: int, shipmentId: string)
    | InvalidShipmentId
    | ShipmentNotFound(missing: string)
    | TokensExhausted

  /** What `validate_token` answers for a live token. */
  datatype Validation = Validation(shipmentId: string, expiresAt: int, createdAt: int, isValid: bool)

  /**
   * `validate_token`: nothing for an unknown token or one whose expiry lies
   * before `now`; otherwise the stored link, marked valid.
   */
  function Validate(links: map<string, Link>, token: string, now: int): (r: Option<Validation>)
    ensures r.None? <==> token !in links || now > links[token].expiresAt
    ensures r.Some? ==> r.value.isValid && r.value.shipmentId == links[token].shipmentId
    ensures r.Some? ==> r.value.expiresAt == links[token].expiresAt && r.value.createdAt == links[token].createdAt
  {
    if token !in links then None
    else
      var link := links[token];
      if now > link.expiresAt then None else Some(Validation(link.shipmentId, link.expiresAt, link.createdAt, true))
  }

  /** A row of the listing query: the links of one shipment, newest first. */
  datatype Row = Row(token: string, expiresAt: int, createdAt: int)

  /** An entry of `get_tracking_links_for_shipment`. */
  datatype ListedLink = ListedLink(token: string, trackingUrl: string, expiresAt: int, createdAt: int, isValid: bool)

  function Listed(baseUrl: string, row: Row, now: int): ListedLink
  {
    ListedLink(row.token, baseUrl + "/" + row.token, row.expiresAt, row.createdAt, now <= row.expiresAt)
  }

  /**
   * The rows the store answers to the listing query: every link of the
   * shipment exactly once, in non-increasing `created_at` order.
   */
  predicate Answers(links: map<string, Link>, shipmentId: string, rows: seq<Row>)
  {
    && (forall i :: 0 <= i < |rows| ==>
          rows[i].token in links && links[rows[i].token] == Link(shipmentId, rows[i].expiresAt, rows[i].createdAt))
    && (forall t :: t in links && links[t].shipmentId == shipmentId ==> exists i :: 0 <= i < |rows| && rows[i].token == t)
    && (forall i, j :: 0 <= i < j < |rows| ==> rows[i].token != rows[j].token)
    && (forall i, j :: 0 <= i < j < |rows| ==> rows[i].createdAt >= rows[j].createdAt)
  }

  class PublicTrackingService {
    /** The `public_tracking_links` table. */
    var links: map<string, Link>
    const baseUrl: string
    const tokenExpiryDays: int

    constructor (stored: map<string, Link>)
      ensures links == stored
      ensures baseUrl == "https://track.cwlogistics.com" && tokenExpiryDays == 30
    {
      links := stored;
      baseUrl := "https://track.cwlogistics.com";
      tokenExpiryDays := 30;
    }

    /**
     * `_generate_unique_token`: draws up to `MaxAttempts` candidates and
     * keeps the first that is not stored yet; `None` stands for the
     * RuntimeError raised when all of them are taken.
     */
    method GenerateUniqueToken(candidates: seq<string>) returns (token: Option<string>)
      requires MaxAttempts <= |candidates|
      ensures token == FreshToken(candidates, links)
    {
      for attempt := 0 to MaxAttempts
        invariant FirstFreshFrom(candidates, links, 0) == FirstFreshFrom(candidates, links, attempt)
      {
        if candidates[attempt] !in links {
          return Some(candidates[attempt]);
        }
      }
      return None;
    }

    /**
     * `generate_tracking_link`: rejects an empty id before touching the
     * store, then draws a fresh token, stores the link under it with an
     * expiry `tokenExpiryDays` after `now`, and answers the public URL.
     * `storedAt` is the clock reading taken when the row is written.
     */
    method GenerateTrackingLink(shipmentId: string, countReply: CountReply, candidates: seq<string>, now: int, storedAt: int)
      returns (r: LinkResult)
      requires MaxAttempts <= |candidates|
      modifies this
      ensures shipmentId == [] ==> r == InvalidShipmentId && links == old(links)
      ensures shipmentId != [] && FreshToken(candidates, old(links)).None? ==> r == TokensExhausted && links == old(links)
      ensures shipmentId != [] && FreshToken(candidates, old(links)).Some? ==>
        var token := FreshToken(candidates, old(links)).value;
        var expiresAt := now + tokenExpiryDays * SecondsPerDay;
        && r == Created(baseUrl + "/" + token, token, expiresAt, shipmentId)
        && links == old(links)[token := Link(shipmentId, expiresAt, storedAt)]
    {
      if shipmentId == [] {
        return InvalidShipmentId;
      }
      if !ShipmentExists(countReply) {
        return ShipmentNotFound(shipmentId);
      }
      var token := GenerateUniqueToken(candidates);
      if token.None? {
        return TokensExhausted;
      }
      var expiresAt := now + tokenExpiryDays * SecondsPerDay;
      links := links[token.value := Link(shipmentId, expiresAt, storedAt)];
      r := Created(baseUrl + "/" + token.value, token.value, expiresAt, shipmentId);
    }

    /**
     * `get_tracking_links_for_shipment`: one entry per row, in row order,
     * valid unless expired. The clock is read once per row, so `clock[i]` is
     * the instant row `i` is judged at.
     */
    method GetTrackingLinksForShipment(rows: seq<Row>, clock: seq<int>) returns (listing: seq<ListedLink>)
      requires |clock| == |rows|
      ensures |listing| == |rows|
      ensures forall i :: 0 <= i < |rows| ==> listing[i] == Listed(baseUrl, rows[i], clock[i])
    {
      listing := [];
      for i := 0 to |rows|
        invariant |listing| == i
        invariant forall k :: 0 <= k < i ==> listing[k] == Listed(baseUrl, rows[k], clock[k])
      {
        listing := listing + [Listed(baseUrl, rows[i], clock[i])];
      }
    }
  }

  /**
   * A freshly stored link validates, for the shipment it was made for, up to
   * and including its expiry instant and not after; every other token
   * validates as before.
   */
  lemma StoredLinkValidates(links: map<string, Link>, token: string, link: Link, t: int)
    ensures Validate(links[token := link], token, t).Some? <==> t <= link.expiresAt
    ensures t <= link.expiresAt ==> Validate(links[token := link], token, t).value.shipmentId == link.shipmentId
    ensures forall other :: other != token ==> Validate(links[token := link], other, t) == Validate(links, other, t)
  {
  }

  /**
   * Round trip: a link generated at `now` for `shipmentId` validates to that
   * shipment at every instant of the following thirty days.
   */
  lemma GeneratedLinkRoundTrip(links: map<string, Link>, shipmentId: string, now: int, storedAt: int, token: string, t: int)
    requires now <= t <= now + 30 * SecondsPerDay
    ensures var r := Validate(links[token := Link(shipmentId, now + 30 * SecondsPerDay, storedAt)], token, t);
      r.Some? && r.value.shipmentId == shipmentId && r.value.isValid
    ensures Validate(links[token := Link(shipmentId, now + 30 * SecondsPerDay, storedAt)], token, now + 30 * SecondsPerDay + 1).None?
  {
    StoredLinkValidates(links, token, Link(shipmentId, now + 30 * SecondsPerDay, storedAt), t);
  }

  /**
   * Over the rows the store answers, the listing marks a link valid exactly
   * when `validate_token` accepts it at the instant its row was judged, names
   * every link of the shipment and only those, and puts the newest first.
   */
  lemma ListingMeaning(links: map<string, Link>, shipmentId: string, rows: seq<Row>, baseUrl: string, clock: seq<int>,
                       listing: seq<ListedLink>)
    requires Answers(links, shipmentId, rows)
    requires |clock| == |rows|
    requires |listing| == |rows| && forall i :: 0 <= i < |rows| ==> listing[i] == Listed(baseUrl, rows[i], clock[i])
    ensures forall i :: 0 <= i < |listing| ==> (listing[i].isValid <==> Validate(links, listing[i].token, clock[i]).Some?)
    ensures forall i :: 0 <= i < |listing| ==> listing[i].token in links && links[listing[i].token].shipmentId == shipmentId
    ensures forall t :: t in links && links[t].shipmentId == shipmentId ==>
      exists i :: 0 <= i < |listing| && listing[i].token == t && listing[i].trackingUrl == baseUrl + "/" + t
    ensures forall i, j :: 0 <= i < j < |listing| ==> listing[i].createdAt >= listing[j].createdAt
  {
    forall t | t in links && links[t].shipmentId == shipmentId
      ensures exists i :: 0 <= i < |listing| && listing[i].token == t && listing[i].trackingUrl == baseUrl + "/" + t
    {
      var i :| 0 <= i < |rows| && rows[i].token == t;
      assert listing[i] == Listed(baseUrl, rows[i], clock[i]);
    }
  }

  /**
   * The clock only moves forward while the listing is built, so once a link
   * is listed as expired every later row with no later expiry is listed
   * expired too.
   */
  lemma ListingExpiryPersists(rows: seq<Row>, baseUrl: string, clock: seq<int>, listing: seq<ListedLink>, i: nat, j: nat)
    requires |clock| == |rows|
    requires |listing| == |rows| && forall k :: 0 <= k < |rows| ==> listing[k] == Listed(baseUrl, rows[k], clock[k])
    requires i < j < |rows| && clock[i] <= clock[j] && rows[j].expiresAt <= rows[i].expiresAt
    ensures !listing[i].isValid ==> !listing[j].isValid
  {
    assert listing[i] == Listed(baseUrl, rows[i], clock[i]);
    assert listing[j] == Listed(baseUrl, rows[j], clock[j]);
  }
}
