/**
 * Customer notifications: validation of the notification type and language,
 * the English e-mail templates, placeholder substitution in the body, the
 * channels a message goes out on, the ML-gated proactive delay warning and
 * the bulk sender's success accounting.
 *
 * The notification id (clock plus a random UUID), the percentage text of the
 * confidence and the store's replies are inputs.
 */
module Notifications {
  import opened Common

  const TrackingBaseUrl := "https://track.cwlogistics.com/"
  const TrackingPlaceholder := "{tracking_url}"
  /** The key of the delayed template's reason placeholder. */
  const DelayReasonKey := "delay_reason"
  /** The closing lines every e-mail body shares. */
  const Closing := "\n\nBest regards,\nCW Logistics Team\n"
  const WarningConfidenceThreshold: real := 0.70

  /** The columns of a shipments row the notification reads. */
  datatype ShipmentRow = ShipmentRow(containerNumber: string, origin: string, destination: string, status: string)

  /** The `shipment_data` dictionary handed to the template. */
  datatype ShipmentInfo = ShipmentInfo(id: string, origin: string, destination: string, containerNumber: string, status: string)

  /** The placeholder data used when the shipment cannot be read. */
  function PlaceholderInfo(shipmentId: string): ShipmentInfo
  {
    ShipmentInfo(shipmentId, "Origin Port", "Destination Port", "N/A", "unknown")
  }

  /** The outcome of a Python call: it raised, or it returned the store's reply. */
  datatype CallOutcome = CallRaised | Returned(reply: StoreReply<ShipmentRow>)

  /**
   * Calling `query_shipments` with the given keyword arguments: its only
   * parameter is `filters`, so any other keyword raises `TypeError` before
   * the store is reached.
   */
  function CallQueryShipments(keywords: seq<string>, reply: StoreReply<ShipmentRow>): (out: CallOutcome)
    ensures out.CallRaised? <==> exists k :: k in keywords && k != "filters"
    ensures out.Returned? ==> out.reply == reply
  {
    if exists k :: k in keywords && k != "filters" then CallRaised else Returned(reply)
  }

  /**
   * The shipment data `send_status_update` builds, as written: it calls
   * `query_shipments(job_number=...)`, and reads a returned row by position
   * although rows are dictionaries keyed by column name; either failure is
   * caught and the placeholder data used. `None` is the no-rows case, which
   * leaves `shipment_data` unset.
   */
  function ShipmentInfoAsWritten(shipmentId: string, reply: StoreReply<ShipmentRow>): (info: Option<ShipmentInfo>)
  {
    match CallQueryShipments(["job_number"], reply)
    case CallRaised => Some(PlaceholderInfo(shipmentId))
    case Returned(StoreError) => Some(PlaceholderInfo(shipmentId))
    case Returned(Rows(rows)) =>
      if rows == [] then None
      else Some(PlaceholderInfo(shipmentId))  // `shipment[2]` on a dict raises KeyError
  }

  /** As written, the stored shipment never reaches the message: every reply yields the placeholder data. */
  lemma AsWrittenIgnoresStore(shipmentId: string, reply: StoreReply<ShipmentRow>)
    ensures ShipmentInfoAsWritten(shipmentId, reply) == Some(PlaceholderInfo(shipmentId))
  {
    assert "job_number" in ["job_number"] && "job_number" != "filters";
  }

  /** A stored shipment from Shanghai is announced as leaving "Origin Port". */
  lemma AsWrittenLosesOrigin()
    ensures var reply := Rows([ShipmentRow("MAEU1234567", "Shanghai", "Los Angeles", "in_transit")]);
      && ShipmentInfoAsWritten("JOB-1", reply).value.origin == "Origin Port"
      && ShipmentInfoFor("JOB-1", reply).origin == "Shanghai"
  {
    AsWrittenIgnoresStore("JOB-1", Rows([ShipmentRow("MAEU1234567", "Shanghai", "Los Angeles", "in_transit")]));
  }

  /**
   * The shipment data as evidently intended: the first row matching the job
   * number, read by column name; the placeholder data when the store fails or
   * nothing matches. The last case is part of the correction: with the query
   * and the reads repaired but nothing else, no match would leave
   * `shipment_data` unset and the template would raise `AttributeError`.
   */
  function ShipmentInfoFor(shipmentId: string, reply: StoreReply<ShipmentRow>): (info: ShipmentInfo)
    ensures info.id == shipmentId
    ensures reply.Rows? && reply.rows != [] ==>
      var row := reply.rows[0];
      info == ShipmentInfo(shipmentId, row.origin, row.destination, row.containerNumber, row.status)
    ensures reply.StoreError? || reply.rows == [] ==> info == PlaceholderInfo(shipmentId)
  {
    match reply
    case StoreError => PlaceholderInfo(shipmentId)
    case Rows(rows) =>
      if rows == [] then PlaceholderInfo(shipmentId)
      else ShipmentInfo(shipmentId, rows[0].origin, rows[0].destination, rows[0].containerNumber, rows[0].status)
  }

  /** The seven notification types. */
  datatype Kind = Departed | InTransit | Arrived | CustomsCleared | Delivered | Delayed | ExceptionNotice

  /** The name of a type as callers pass it. */
  function KindName(k: Kind): string
  {
    match k
    case Departed => "departed"
    case InTransit => "in_transit"
    case Arrived => "arrived"
    case CustomsCleared => "customs_cleared"
    case Delivered => "delivered"
    case Delayed => "delayed"
    case ExceptionNotice => "exception"
  }

  /** `notification_type in NOTIFICATION_TYPES`, answering with the type found. */
  function ParseKind(name: string): (k: Option<Kind>)
    ensures k.Some? ==> KindName(k.value) == name
    ensures k.None? ==> forall other :: KindName(other) != name
  {
    if name == "departed" then Some(Departed)
    else if name == "in_transit" then Some(InTransit)
    else if name == "arrived" then Some(Arrived)
    else if name == "customs_cleared" then Some(CustomsCleared)
    else if name == "delivered" then Some(Delivered)
    else if name == "delayed" then Some(Delayed)
    else if name == "exception" then Some(ExceptionNotice)
    else None
  }

  /** Every type's name is recognised as that type. */
  lemma ParseKindName(k: Kind)
    ensures ParseKind(KindName(k)) == Some(k)
  {
  }

  /** The supported languages. */
  datatype Language = En | Es | Zh

  /** `language in LANGUAGES`, answering with the language found. */
  function ParseLanguage(code: string): Option<Language>
  {
    if code == "en" then Some(En)
    else if code == "es" then Some(Es)
    else if code == "zh" then Some(Zh)
    else None
  }

  /** The language used: the requested one when supported, English otherwise. */
  function EffectiveLanguage(code: string): (l: Language)
    ensures ParseLanguage(code).Some? ==> l == ParseLanguage(code).value
    ensures ParseLanguage(code).None? ==> l == En
  {
    match ParseLanguage(code)
    case Some(l) => l
    case None => En
  }

  /** An e-mail template: subject and body. */
  datatype Template = Template(subject: string, body: string)

  /** The body of a type up to its closing lines, which all bodies share. */
  function BodyOpening(k: Kind, d: ShipmentInfo): string
  {
    var id := d.id;
    match k
    case Departed =>
      "Dear Customer,\n\nYour shipment " + id + " has departed from " + d.origin
      + " and is now on its way to " + d.destination + ".\n\nShipment Details:\n- Shipment ID: " + id
      + "\n- Container: " + d.containerNumber + "\n- Origin: " + d.origin
      + "\n- Destination: " + d.destination + "\n\n"
    case InTransit =>
      "Dear Customer,\n\nYour shipment " + id + " is currently in transit from " + d.origin
      + " to " + d.destination + ".\n\nCurrent Status: In Transit\nContainer: " + d.containerNumber + "\n\n"
    case Arrived =>
      "Dear Customer,\n\nGreat news! Your shipment " + id + " has arrived at " + d.destination
      + ".\n\nShipment Details:\n- Shipment ID: " + id + "\n- Container: " + d.containerNumber
      + "\n- Destination: " + d.destination
      + "\n\nNext steps: The shipment will proceed to customs clearance.\n\n"
    case CustomsCleared =>
      "Dear Customer,\n\nYour shipment " + id
      + " has successfully cleared customs and is being prepared for final delivery.\n\nShipment Details:\n- Shipment ID: "
      + id + "\n- Container: " + d.containerNumber + "\n- Location: " + d.destination
      + "\n\nYour shipment will be delivered soon.\n\n"
    case Delivered =>
      "Dear Customer,\n\nYour shipment " + id + " has been successfully delivered!\n\nShipment Details:\n- Shipment ID: "
      + id + "\n- Container: " + d.containerNumber + "\n- Delivered to: " + d.destination
      + "\n\nThank you for choosing CW Logistics.\n\n"
    case Delayed =>
      DelayedLead(d) + Placeholder(DelayReasonKey) + DelayedTail
    case ExceptionNotice =>
      "Dear Customer,\n\nAn exception has been detected for your shipment " + id
      + ".\n\nShipment Details:\n- Shipment ID: " + id + "\n- Container: " + d.containerNumber
      + "\n- Issue: {exception_details}\n\nOur team is investigating and will provide updates soon.\n\n"
  }

  /** The delayed body up to its reason placeholder. */
  function DelayedLead(d: ShipmentInfo): string
  {
    "Dear Customer,\n\n" + "We want to inform you that your shipment " + d.id
    + " may experience a delay.\n\n" + "Shipment Details:\n- Shipment ID: " + d.id + "\n- Container: "
    + d.containerNumber + "\n- Route: " + d.origin + " to " + d.destination + "\n\nReason: "
  }

  /** The delayed body after its reason placeholder, up to the tracking line. */
  const DelayedTail := "\n\n" + "We are working to minimize the impact " + "and will keep you updated.\n\n"

  /** A whole body: the opening of its type, the tracking line with its placeholder, and the shared closing. */
  function FramedBody(opening: string): string
  {
    opening + "Track your shipment: " + TrackingPlaceholder + Closing
  }

  /** The subject line of a type. */
  function Subject(k: Kind, d: ShipmentInfo): string
  {
    match k
    case Departed => "Your shipment " + d.id + " has departed"
    case InTransit => "Shipment " + d.id + " is in transit"
    case Arrived => "Shipment " + d.id + " has arrived at " + d.destination
    case CustomsCleared => "Shipment " + d.id + " cleared customs"
    case Delivered => "Shipment " + d.id + " has been delivered"
    case Delayed => "Important: Shipment " + d.id + " may be delayed"
    case ExceptionNotice => "Attention: Exception for shipment " + d.id
  }

  /** The type whose template `_get_email_template` picks: the named one, or in-transit for an unknown name. */
  function TemplateKind(name: string): (k: Kind)
    ensures ParseKind(name).Some? ==> k == ParseKind(name).value
    ensures ParseKind(name).None? ==> k == InTransit
  {
    match ParseKind(name)
    case Some(k) => k
    case None => InTransit
  }

  /**
   * `_get_email_template`: the English template of the type, whatever the
   * language (only English exists), and the in-transit template for a type
   * outside the list.
   */
  function EmailTemplate(name: string, language: Language, d: ShipmentInfo): Template
  {
    var k := TemplateKind(name);
    Template(
      Subject(k, d),
      FramedBody(BodyOpening(k, d)))
  }

  /** The language never changes the template. */
  lemma TemplateIgnoresLanguage(name: string, language: Language, d: ShipmentInfo)
    ensures EmailTemplate(name, language, d) == EmailTemplate(name, En, d)
  {
  }

  /** A name outside the list gets the in-transit template. */
  lemma UnknownTypeGetsInTransit(name: string, language: Language, d: ShipmentInfo)
    requires ParseKind(name).None?
    ensures EmailTemplate(name, language, d) == EmailTemplate(KindName(InTransit), language, d)
  {
    ParseKindName(InTransit);
  }

  /** Python's `s.replace(pattern, replacement)`: every non-overlapping occurrence, scanning left to right. */
  function ReplaceAll(s: string, pattern: string, replacement: string): (r: string)
    requires pattern != []
    decreases |s|
  {
    if |s| < |pattern| then s
    else if s[..|pattern|] == pattern then replacement + ReplaceAll(s[|pattern|..], pattern, replacement)
    else [s[0]] + ReplaceAll(s[1..], pattern, replacement)
  }

  /** A string without the pattern is left alone. */
  lemma {:induction false} ReplaceAllAbsent(s: string, pattern: string, replacement: string)
    requires pattern != [] && !IsSubstring(pattern, s)
    ensures ReplaceAll(s, pattern, replacement) == s
    decreases |s|
  {
    if |s| >= |pattern| {
      ReplaceAllAbsent(s[1..], pattern, replacement);
      assert [s[0]] + s[1..] == s;
    }
  }

  /** Wherever the pattern occurs, the replacement ends up in the result. */
  lemma {:induction false} ReplaceAllInserts(s: string, pattern: string, replacement: string)
    requires pattern != [] && IsSubstring(pattern, s)
    ensures IsSubstring(replacement, ReplaceAll(s, pattern, replacement))
    decreases |s|
  {
    if s[..|pattern|] == pattern {
      PrefixIsSubstring(replacement, ReplaceAll(s[|pattern|..], pattern, replacement));
    } else {
      ReplaceAllInserts(s[1..], pattern, replacement);
      SubstringCons(replacement, s[0], ReplaceAll(s[1..], pattern, replacement));
    }
  }

  /** Replacing a pattern by itself changes nothing. */
  lemma {:induction false} ReplaceAllIdentity(s: string, pattern: string)
    requires pattern != []
    ensures ReplaceAll(s, pattern, pattern) == s
    decreases |s|
  {
    if |s| >= |pattern| {
      if s[..|pattern|] == pattern {
        ReplaceAllIdentity(s[|pattern|..], pattern);
        assert s[..|pattern|] + s[|pattern|..] == s;
      } else {
        ReplaceAllIdentity(s[1..], pattern);
        assert [s[0]] + s[1..] == s;
      }
    }
  }

  /** A stretch without the pattern's first character passes through a replacement untouched. */
  lemma {:induction false} ReplaceAllSkips(a: string, t: string, pattern: string, replacement: string)
    requires pattern != [] && pattern[0] !in a
    ensures ReplaceAll(a + t, pattern, replacement) == a + ReplaceAll(t, pattern, replacement)
    decreases |a|
  {
    if a == [] {
      assert a + t == t;
    } else if |a + t| >= |pattern| {
      assert (a + t)[..|pattern|][0] == a[0];
      assert (a + t)[1..] == a[1..] + t;
      ReplaceAllSkips(a[1..], t, pattern, replacement);
      assert [a[0]] + (a[1..] + ReplaceAll(t, pattern, replacement)) == a + ReplaceAll(t, pattern, replacement);
    }
  }

  /** A character followed by something other than the pattern's second character is passed over. */
  lemma ReplaceAllSkipsOne(c: char, t: string, pattern: string, replacement: string)
    requires |pattern| >= 2 && t != [] && t[0] != pattern[1]
    ensures ReplaceAll([c] + t, pattern, replacement) == [c] + ReplaceAll(t, pattern, replacement)
  {
    if |[c] + t| >= |pattern| {
      assert ([c] + t)[..|pattern|][1] == t[0];
      assert ([c] + t)[1..] == t;
    }
  }

  /** A text starting with the pattern has it replaced there first. */
  lemma ReplaceAllLeading(pattern: string, t: string, replacement: string)
    requires pattern != []
    ensures ReplaceAll(pattern + t, pattern, replacement) == replacement + ReplaceAll(t, pattern, replacement)
  {
    assert (pattern + t)[..|pattern|] == pattern;
    assert (pattern + t)[|pattern|..] == t;
  }

  /**
   * A brace-led pattern passes over brace-free text and over a brace that
   * opens some other placeholder: one whose next character differs from the
   * pattern's.
   */
  lemma ReplaceAllPastBrace(a: string, b: string, t: string, pattern: string, replacement: string)
    requires |pattern| >= 2 && pattern[0] == '{' && '{' !in a && '{' !in b
    requires b != [] && b[0] != pattern[1]
    ensures ReplaceAll(a + ['{'] + b + t, pattern, replacement) == a + ['{'] + b + ReplaceAll(t, pattern, replacement)
  {
    assert a + ['{'] + b + t == a + (['{'] + (b + t));
    ReplaceAllSkips(a, ['{'] + (b + t), pattern, replacement);
    ReplaceAllSkipsOne('{', b + t, pattern, replacement);
    ReplaceAllSkips(b, t, pattern, replacement);
  }

  /** A string is a substring of anything it begins. */
  lemma PrefixIsSubstring(a: string, b: string)
    ensures IsSubstring(a, a + b)
  {
    assert (a + b)[..|a|] == a;
  }

  /** Putting a character in front keeps a substring a substring. */
  lemma SubstringCons(sub: string, c: char, s: string)
    requires IsSubstring(sub, s)
    ensures IsSubstring(sub, [c] + s)
  {
    assert ([c] + s)[1..] == s;
  }

  /** A string occurs in any concatenation that contains it. */
  lemma {:induction false} SubstringOfConcat(a: string, sub: string, b: string)
    ensures IsSubstring(sub, a + sub + b)
    decreases |a|
  {
    if a == [] {
      assert a + sub + b == sub + b;
      PrefixIsSubstring(sub, b);
    } else {
      SubstringOfConcat(a[1..], sub, b);
      assert a + sub + b == [a[0]] + (a[1..] + sub + b);
      SubstringCons(sub, a[0], a[1..] + sub + b);
    }
  }

  /** The text `{key}` that an extra entry replaces. */
  function Placeholder(key: string): string
  {
    "{" + key + "}"
  }

  /** The `additional_data` entries, in insertion order, with values already passed through `str()`. */
  type ExtraData = seq<(string, string)>

  /** The body after replacing `{key}` by its value for each entry in turn. */
  function ApplyData(body: string, data: ExtraData): string
  {
    if data == [] then body
    else
      var (key, value) := data[|data| - 1];
      ReplaceAll(ApplyData(body, data[..|data| - 1]), Placeholder(key), value)
  }

  /** Entries whose placeholder is absent from the body leave it unchanged. */
  lemma {:induction false} ApplyDataAbsent(body: string, data: ExtraData)
    requires forall i :: 0 <= i < |data| ==> !IsSubstring(Placeholder(data[i].0), body)
    ensures ApplyData(body, data) == body
  {
    if data != [] {
      ApplyDataAbsent(body, data[..|data| - 1]);
      ReplaceAllAbsent(body, Placeholder(data[|data| - 1].0), data[|data| - 1].1);
    }
  }

  /** Entries each of whose replacements leaves the body alone leave it unchanged together. */
  lemma {:induction false} ApplyDataFixed(body: string, data: ExtraData)
    requires forall i :: 0 <= i < |data| ==> ReplaceAll(body, Placeholder(data[i].0), data[i].1) == body
    ensures ApplyData(body, data) == body
  {
    if data != [] {
      var prefix := data[..|data| - 1];
      assert forall i :: 0 <= i < |prefix| ==> prefix[i] == data[i];
      ApplyDataFixed(body, prefix);
    }
  }

  /** A delivery channel. */
  datatype Channel = EmailChannel | SmsChannel

  /**
   * The result of `send_status_update`. An error keeps the rejected type
   * (its message is `InvalidTypeMessage` of it); a sent notification keeps
   * its type and the shipment data its template was filled with, from which
   * `MessagePreview` gives the preview text.
   */
  datatype StatusUpdate =
    | InvalidType(rejectedType: string)
    | Sent(
        notificationId: string,
        shipmentId: string,
        kind: Kind,
        channels: seq<Channel>,
        recipientEmail: Option<string>,
        recipientPhone: Option<string>,
        language: Language,
        shipment: ShipmentInfo,
        trackingUrl: string)

  /** `r.get("success")` is truthy: only a sent notification carries it. */
  predicate Succeeded(r: StatusUpdate)
  {
    r.Sent?
  }

  /** The error message for a type outside the list. */
  function InvalidTypeMessage(notificationType: string): string
  {
    "Invalid notification type: " + notificationType
    + ". Must be one of ['departed', 'in_transit', 'arrived', 'customs_cleared', 'delivered', 'delayed', 'exception']"
  }

  /** The `message_preview` of a sent notification: its template's subject line. */
  function MessagePreview(r: StatusUpdate): string
    requires r.Sent?
  {
    Subject(r.kind, r.shipment)
  }

  /** The tracking URL: the one given when truthy, the public tracking page of the shipment otherwise. */
  function TrackingUrl(shipmentId: string, given: Option<string>): (url: string)
    ensures Truthy(given) ==> url == given.value
    ensures !Truthy(given) ==> url == TrackingBaseUrl + shipmentId
  {
    if Truthy(given) then given.value else TrackingBaseUrl + shipmentId
  }

  /** The channels used: e-mail, then SMS, each only with a truthy address and in mock mode. */
  function Channels(email: Option<string>, phone: Option<string>, mockMode: bool): (channels: seq<Channel>)
    ensures EmailChannel in channels <==> Truthy(email) && mockMode
    ensures SmsChannel in channels <==> Truthy(phone) && mockMode
    ensures |channels| <= 2
    ensures |channels| == 2 ==> channels == [EmailChannel, SmsChannel]
  {
    (if Truthy(email) && mockMode then [EmailChannel] else [])
    + (if Truthy(phone) && mockMode then [SmsChannel] else [])
  }

  /** What `send_status_update` returns once the type is known to be in the list. */
  function SentFor(
    mockMode: bool, shipmentId: string, k: Kind, email: Option<string>,
    phone: Option<string>, language: string, trackingUrl: Option<string>,
    reply: StoreReply<ShipmentRow>, notificationId: string): (r: StatusUpdate)
    ensures r.Sent?
  {
    Sent(notificationId, shipmentId, k, Channels(email, phone, mockMode),
         email, phone, EffectiveLanguage(language), ShipmentInfoFor(shipmentId, reply),
         TrackingUrl(shipmentId, trackingUrl))
  }

  /** What `send_status_update` returns for its arguments, the store's reply and the generated id. */
  function StatusUpdateFor(
    mockMode: bool, shipmentId: string, notificationType: string, email: Option<string>,
    phone: Option<string>, language: string, trackingUrl: Option<string>,
    reply: StoreReply<ShipmentRow>, notificationId: string): StatusUpdate
  {
    match ParseKind(notificationType)
    case None => InvalidType(notificationType)
    case Some(k) => SentFor(mockMode, shipmentId, k, email, phone, language, trackingUrl, reply, notificationId)
  }

  /**
   * What `send_status_update` returns as written, built on
   * `ShipmentInfoAsWritten`; `None` stands for the `AttributeError` that an
   * unset `shipment_data` raises in the template.
   */
  function StatusUpdateAsWritten(
    mockMode: bool, shipmentId: string, notificationType: string, email: Option<string>,
    phone: Option<string>, language: string, trackingUrl: Option<string>,
    reply: StoreReply<ShipmentRow>, notificationId: string): Option<StatusUpdate>
  {
    match ParseKind(notificationType)
    case None => Some(InvalidType(notificationType))
    case Some(k) =>
      match ShipmentInfoAsWritten(shipmentId, reply)
      case None => None
      case Some(info) =>
        Some(Sent(notificationId, shipmentId, k, Channels(email, phone, mockMode), email, phone,
                  EffectiveLanguage(language), info, TrackingUrl(shipmentId, trackingUrl)))
  }

  /**
   * As written, `send_status_update` never raises and answers every store
   * reply as the corrected service answers a failing store.
   */
  lemma AsWrittenUpdateIsStoreError(
    mockMode: bool, shipmentId: string, notificationType: string, email: Option<string>,
    phone: Option<string>, language: string, trackingUrl: Option<string>,
    reply: StoreReply<ShipmentRow>, notificationId: string)
    ensures StatusUpdateAsWritten(mockMode, shipmentId, notificationType, email, phone, language, trackingUrl, reply, notificationId)
         == Some(StatusUpdateFor(mockMode, shipmentId, notificationType, email, phone, language, trackingUrl, StoreError, notificationId))
  {
    AsWrittenIgnoresStore(shipmentId, reply);
  }

  /** `send_status_update` refuses exactly the types outside the list. */
  lemma StatusUpdateValidity(
    mockMode: bool, shipmentId: string, notificationType: string, email: Option<string>,
    phone: Option<string>, language: string, trackingUrl: Option<string>,
    reply: StoreReply<ShipmentRow>, notificationId: string)
    ensures var r := StatusUpdateFor(mockMode, shipmentId, notificationType, email, phone, language, trackingUrl, reply, notificationId);
      r.InvalidType? <==> forall k :: KindName(k) != notificationType
  {
    if ParseKind(notificationType).Some? {
      assert KindName(ParseKind(notificationType).value) == notificationType;
    }
  }

  /**
   * A sent notification echoes the request: its id, shipment, type and
   * recipients, the requested language when supported and English otherwise,
   * and a channel for each truthy address in mock mode.
   */
  lemma StatusUpdateEchoes(
    mockMode: bool, shipmentId: string, notificationType: string, email: Option<string>,
    phone: Option<string>, language: string, trackingUrl: Option<string>,
    reply: StoreReply<ShipmentRow>, notificationId: string)
    ensures var r := StatusUpdateFor(mockMode, shipmentId, notificationType, email, phone, language, trackingUrl, reply, notificationId);
      r.Sent? ==>
        && r.shipmentId == shipmentId && KindName(r.kind) == notificationType
        && r.notificationId == notificationId
        && r.recipientEmail == email && r.recipientPhone == phone
        && (ParseLanguage(language).Some? ==> r.language == ParseLanguage(language).value)
        && (ParseLanguage(language).None? ==> r.language == En)
        && (EmailChannel in r.channels <==> Truthy(email) && mockMode)
        && (SmsChannel in r.channels <==> Truthy(phone) && mockMode)
        && (Truthy(trackingUrl) ==> r.trackingUrl == trackingUrl.value)
        && (!Truthy(trackingUrl) ==> r.trackingUrl == TrackingBaseUrl + shipmentId)
  {
  }

  /** A sent notification previews the subject of its type's template, filled with the shipment's details. */
  lemma StatusUpdatePreview(
    mockMode: bool, shipmentId: string, notificationType: string, email: Option<string>,
    phone: Option<string>, language: string, trackingUrl: Option<string>,
    reply: StoreReply<ShipmentRow>, notificationId: string)
    ensures var r := StatusUpdateFor(mockMode, shipmentId, notificationType, email, phone, language, trackingUrl, reply, notificationId);
      r.Sent? ==> MessagePreview(r) == EmailTemplate(notificationType, r.language, ShipmentInfoFor(shipmentId, reply)).subject
  {
  }

  /** Substituting the tracking URL into any framed body puts the URL in the text. */
  lemma FramedBodyQuotesUrl(opening: string, url: string)
    ensures IsSubstring(url, ReplaceAll(FramedBody(opening), TrackingPlaceholder, url))
  {
    SubstringOfConcat(opening + "Track your shipment: ", TrackingPlaceholder, Closing);
    ReplaceAllInserts(FramedBody(opening), TrackingPlaceholder, url);
  }

  /**
   * The e-mail body a sent notification carries (the mock sender logs it):
   * the template of its type with the tracking URL substituted, then each
   * extra entry.
   */
  function MessageBody(
    shipmentId: string, notificationType: string, language: string, trackingUrl: Option<string>,
    extra: ExtraData, reply: StoreReply<ShipmentRow>): string
  {
    var template := EmailTemplate(notificationType, EffectiveLanguage(language), ShipmentInfoFor(shipmentId, reply));
    ApplyData(ReplaceAll(template.body, TrackingPlaceholder, TrackingUrl(shipmentId, trackingUrl)), extra)
  }

  /** Without extra data, the body quotes the tracking URL, since every template (the fallback included) carries its placeholder. */
  lemma BodyQuotesTrackingUrl(
    shipmentId: string, notificationType: string, language: string, trackingUrl: Option<string>,
    reply: StoreReply<ShipmentRow>)
    ensures IsSubstring(TrackingUrl(shipmentId, trackingUrl), MessageBody(shipmentId, notificationType, language, trackingUrl, [], reply))
  {
    FramedBodyQuotesUrl(BodyOpening(TemplateKind(notificationType), ShipmentInfoFor(shipmentId, reply)), TrackingUrl(shipmentId, trackingUrl));
  }

  /**
   * With extra data, the body still quotes the tracking URL when no entry's
   * placeholder occurs in the body it is applied to: the entries then change
   * nothing.
   */
  lemma BodyQuotesTrackingUrlWithData(
    shipmentId: string, notificationType: string, language: string, trackingUrl: Option<string>,
    extra: ExtraData, reply: StoreReply<ShipmentRow>)
    requires forall i :: 0 <= i < |extra| ==>
      !IsSubstring(Placeholder(extra[i].0), MessageBody(shipmentId, notificationType, language, trackingUrl, [], reply))
    ensures MessageBody(shipmentId, notificationType, language, trackingUrl, extra, reply)
         == MessageBody(shipmentId, notificationType, language, trackingUrl, [], reply)
    ensures IsSubstring(TrackingUrl(shipmentId, trackingUrl), MessageBody(shipmentId, notificationType, language, trackingUrl, extra, reply))
  {
    var template := EmailTemplate(notificationType, EffectiveLanguage(language), ShipmentInfoFor(shipmentId, reply));
    var withUrl := ReplaceAll(template.body, TrackingPlaceholder, TrackingUrl(shipmentId, trackingUrl));
    assert MessageBody(shipmentId, notificationType, language, trackingUrl, [], reply) == withUrl;
    ApplyDataAbsent(withUrl, extra);
    BodyQuotesTrackingUrl(shipmentId, notificationType, language, trackingUrl, reply);
  }

  /** What the caller passes as `ml_prediction_data`: nothing (or an empty dictionary), or the entries read with their defaults. */
  datatype PredictionData =
    | NoData
    | Data(willDelay: bool, confidence: real, riskFactors: seq<string>, predictedDelayHours: int)

  /** The result of `proactive_delay_warning`. */
  datatype Warning =
    | NoPredictionData(shipmentId: string)
    | NotNeeded(shipmentId: string, mlConfidence: real)
    | Warned(
        shipmentId: string,
        mlConfidence: real,
        riskFactors: seq<string>,
        predictedDelayHours: int,
        notificationId: Option<string>,
        notification: StatusUpdate)
    | WarningError(shipmentId: string)

  /** The warning's `success` entry. */
  predicate WarningSucceeded(w: Warning)
  {
    w.NotNeeded? || w.Warned?
  }

  /** The gate: a predicted delay with confidence of at least 0.70. */
  predicate WarningDue(will: bool, confidence: real)
  {
    will && confidence >= WarningConfidenceThreshold
  }

  /** The risk text: the factors joined by ", ", or "Multiple factors" when there are none. */
  function RiskMessage(riskFactors: seq<string>): (msg: string)
    ensures riskFactors == [] ==> msg == "Multiple factors"
    ensures |riskFactors| == 1 ==> msg == riskFactors[0]
  {
    if riskFactors == [] then "Multiple factors" else Join(riskFactors, ", ")
  }

  /** The delay text: "N hours" for a positive N, "significant delay" otherwise. */
  function DelayMessage(hours: int): (msg: string)
    ensures hours <= 0 ==> msg == "significant delay"
    ensures hours > 0 ==> msg == NatToString(hours) + " hours"
  {
    if hours > 0 then IntToString(hours) + " hours" else "significant delay"
  }

  /** The extra template data of a warning, in the order the dictionary is built. */
  function WarningData(confidenceText: string, riskFactors: seq<string>, hours: int): (data: ExtraData)
    ensures |data| == 4
  {
    [ ("ml_confidence", confidenceText),
      ("risk_factors", RiskMessage(riskFactors)),
      ("predicted_delay", DelayMessage(hours)),
      ("action_recommended", "Please contact your logistics coordinator for alternative routing options") ]
  }

  /** Shipment data none of whose template fields holds a brace, so none can open a placeholder. */
  predicate Braceless(d: ShipmentInfo)
  {
    '{' !in d.id && '{' !in d.origin && '{' !in d.destination && '{' !in d.containerNumber
  }

  /** The opening sentence of the delayed body carries no brace. */
  lemma DelayedGreetingBraceless()
    ensures '{' !in "Dear Customer,\n\n" + "We want to inform you that your shipment "
  {
  }

  /** The text between the shipment id and its repetition in the delayed body carries no brace. */
  lemma DelayedDetailsBraceless()
    ensures '{' !in " may experience a delay.\n\n" + "Shipment Details:\n- Shipment ID: "
  {
  }

  /** The lead of the delayed body carries a brace only where its shipment data does. */
  lemma DelayedLeadBraceless(d: ShipmentInfo)
    requires Braceless(d)
    ensures '{' !in DelayedLead(d)
  {
    DelayedGreetingBraceless();
    DelayedDetailsBraceless();
    assert '{' !in "\n- Container: " && '{' !in "\n- Route: " && '{' !in " to " && '{' !in "\n\nReason: ";
  }

  /** The tail of the delayed body carries no brace. */
  lemma DelayedTailBraceless()
    ensures '{' !in DelayedTail
  {
  }

  /** The closing lines carry no brace. */
  lemma ClosingBraceless()
    ensures '{' !in Closing
  {
  }

  /** The fixed text after the reason placeholder, and the public tracking address, carry no brace. */
  lemma DelayedTextBraceless()
    ensures '{' !in DelayedTail && '{' !in "Track your shipment: " && '{' !in Closing && '{' !in TrackingBaseUrl
  {
    DelayedTailBraceless();
    ClosingBraceless();
    assert '{' !in "Track your shipment: " && '{' !in TrackingBaseUrl;
  }

  /** The body of a "delayed" notification without a given URL: its template with the public tracking page, then the extra data. */
  lemma DelayedMessageBody(shipmentId: string, language: string, extra: ExtraData, reply: StoreReply<ShipmentRow>)
    ensures var d := ShipmentInfoFor(shipmentId, reply);
      MessageBody(shipmentId, KindName(Delayed), language, None, extra, reply)
      == ApplyData(ReplaceAll(FramedBody(DelayedLead(d) + Placeholder(DelayReasonKey) + DelayedTail), TrackingPlaceholder, TrackingBaseUrl + shipmentId), extra)
  {
    var d := ShipmentInfoFor(shipmentId, reply);
    DelayedTemplateBody(EffectiveLanguage(language), d);
    assert TrackingUrl(shipmentId, None) == TrackingBaseUrl + shipmentId;
  }

  /** The "delayed" type's template body: the delayed opening in the common frame. */
  lemma DelayedTemplateBody(language: Language, d: ShipmentInfo)
    ensures EmailTemplate(KindName(Delayed), language, d).body
         == FramedBody(DelayedLead(d) + Placeholder(DelayReasonKey) + DelayedTail)
  {
    ParseKindName(Delayed);
    assert TemplateKind(KindName(Delayed)) == Delayed;
  }

  /** The delayed body as sent without extra data: the reason placeholder kept, the URL in the tracking line. */
  function DelayedBody(d: ShipmentInfo, url: string): string
  {
    DelayedLead(d) + Placeholder(DelayReasonKey) + DelayedTail + "Track your shipment: " + url + Closing
  }

  /** The delayed template around its single brace before the tracking placeholder. */
  lemma DelayedFrame(d: ShipmentInfo)
    ensures FramedBody(DelayedLead(d) + Placeholder(DelayReasonKey) + DelayedTail)
         == DelayedLead(d) + ['{'] + (DelayReasonKey + "}" + DelayedTail + "Track your shipment: ") + (TrackingPlaceholder + Closing)
  {
  }

  /** The text between the two braces of the delayed template carries none, and begins like the reason's key. */
  lemma DelayedMiddle()
    ensures var rest := DelayReasonKey + "}" + DelayedTail + "Track your shipment: ";
      '{' !in rest && rest != [] && rest[0] == 'd'
  {
    DelayedTextBraceless();
    assert '{' !in DelayReasonKey + "}";
  }

  /** The tracking placeholder opens with a brace followed by 't'. */
  lemma TrackingPlaceholderOpens()
    ensures |TrackingPlaceholder| >= 2 && TrackingPlaceholder[0] == '{' && TrackingPlaceholder[1] == 't'
  {
  }

  /** The delayed body around the brace of its reason placeholder. */
  lemma DelayedBodySplit(d: ShipmentInfo, url: string)
    ensures DelayedBody(d, url)
         == DelayedLead(d) + ['{'] + (DelayReasonKey + "}" + DelayedTail + "Track your shipment: ") + (url + Closing)
  {
  }

  /** Substituting the URL into the delayed template replaces its tracking placeholder and nothing else. */
  lemma DelayedBodyWithUrl(d: ShipmentInfo, url: string)
    requires Braceless(d) && '{' !in url
    ensures ReplaceAll(FramedBody(DelayedLead(d) + Placeholder(DelayReasonKey) + DelayedTail), TrackingPlaceholder, url)
         == DelayedBody(d, url)
  {
    var rest := DelayReasonKey + "}" + DelayedTail + "Track your shipment: ";
    DelayedLeadBraceless(d);
    DelayedMiddle();
    ClosingBraceless();
    DelayedFrame(d);
    DelayedBodySplit(d, url);
    TrackingPlaceholderOpens();
    ReplaceAllPastBrace(DelayedLead(d), rest, TrackingPlaceholder + Closing, TrackingPlaceholder, url);
    ReplaceAllLeading(TrackingPlaceholder, Closing, url);
    ReplaceAllSkips(Closing, [], TrackingPlaceholder, url);
    assert Closing + [] == Closing;
  }

  /** In the delayed body, a key not beginning like the reason's has nothing to replace. */
  lemma DelayedBodyKeepsKey(d: ShipmentInfo, url: string, key: string, value: string)
    requires Braceless(d) && '{' !in url
    requires key != [] && key[0] != DelayReasonKey[0]
    ensures ReplaceAll(DelayedBody(d, url), Placeholder(key), value) == DelayedBody(d, url)
  {
    var rest := DelayReasonKey + "}" + DelayedTail + "Track your shipment: " + url + Closing;
    DelayedLeadBraceless(d);
    DelayedTextBraceless();
    assert '{' !in DelayReasonKey + "}";
    assert DelayedBody(d, url) == DelayedLead(d) + ['{'] + rest + [];
    ReplaceAllPastBrace(DelayedLead(d), rest, [], Placeholder(key), value);
  }

  /** None of the warning's keys begins like the reason's, so its data leaves the delayed body alone. */
  lemma WarningDataKeepsBody(d: ShipmentInfo, url: string, confidenceText: string, riskFactors: seq<string>, hours: int)
    requires Braceless(d) && '{' !in url
    ensures ApplyData(DelayedBody(d, url), WarningData(confidenceText, riskFactors, hours)) == DelayedBody(d, url)
  {
    var data := WarningData(confidenceText, riskFactors, hours);
    forall i | 0 <= i < |data|
      ensures ReplaceAll(DelayedBody(d, url), Placeholder(data[i].0), data[i].1) == DelayedBody(d, url)
    {
      DelayedBodyKeepsKey(d, url, data[i].0, data[i].1);
    }
    ApplyDataFixed(DelayedBody(d, url), data);
  }

  /**
   * The warning's data as written never reaches the message: none of its
   * keys names a placeholder of the "delayed" template, so the body sent is
   * the plain delayed body, without the risk factors or the predicted delay.
   */
  lemma WarningDataUnused(
    shipmentId: string, language: string, confidenceText: string, riskFactors: seq<string>, hours: int,
    reply: StoreReply<ShipmentRow>)
    requires Braceless(ShipmentInfoFor(shipmentId, reply))
    ensures MessageBody(shipmentId, KindName(Delayed), language, None, WarningData(confidenceText, riskFactors, hours), reply)
         == MessageBody(shipmentId, KindName(Delayed), language, None, [], reply)
  {
    var d := ShipmentInfoFor(shipmentId, reply);
    var url := TrackingBaseUrl + shipmentId;
    DelayedTextBraceless();
    DelayedMessageBody(shipmentId, language, [], reply);
    DelayedMessageBody(shipmentId, language, WarningData(confidenceText, riskFactors, hours), reply);
    DelayedBodyWithUrl(d, url);
    WarningDataKeepsBody(d, url, confidenceText, riskFactors, hours);
  }

  /** The reason a corrected warning gives: its risk text, then its delay text. */
  function WarningReason(riskFactors: seq<string>, hours: int): string
  {
    RiskMessage(riskFactors) + "; predicted delay: " + DelayMessage(hours)
  }

  /** The warning's data with the template's reason entry added, so the details reach the body. */
  function WarningDataCorrected(confidenceText: string, riskFactors: seq<string>, hours: int): (data: ExtraData)
    ensures |data| == 5 && data[..4] == WarningData(confidenceText, riskFactors, hours)
    ensures data[4] == (DelayReasonKey, WarningReason(riskFactors, hours))
  {
    WarningData(confidenceText, riskFactors, hours) + [(DelayReasonKey, WarningReason(riskFactors, hours))]
  }

  /** The delayed body at its reason placeholder. */
  lemma DelayedReasonSplit(d: ShipmentInfo, url: string)
    ensures DelayedBody(d, url) == DelayedLead(d) + (Placeholder(DelayReasonKey) + (DelayedTail + "Track your shipment: " + url + Closing))
  {
  }

  /** The corrected data puts the warning's reason in place of the template's reason placeholder, and changes nothing else. */
  lemma CorrectedDataFillsReason(d: ShipmentInfo, url: string, confidenceText: string, riskFactors: seq<string>, hours: int)
    requires Braceless(d) && '{' !in url
    ensures ApplyData(DelayedBody(d, url), WarningDataCorrected(confidenceText, riskFactors, hours))
         == DelayedLead(d) + (WarningReason(riskFactors, hours) + (DelayedTail + "Track your shipment: " + url + Closing))
  {
    var data := WarningDataCorrected(confidenceText, riskFactors, hours);
    var reason := WarningReason(riskFactors, hours);
    WarningDataKeepsBody(d, url, confidenceText, riskFactors, hours);
    assert ApplyData(DelayedBody(d, url), data[..4]) == DelayedBody(d, url);
    var after := DelayedTail + "Track your shipment: " + url + Closing;
    var key := Placeholder(DelayReasonKey);
    DelayedLeadBraceless(d);
    DelayedTextBraceless();
    DelayedReasonSplit(d, url);
    ReplaceAllSkips(DelayedLead(d), key + after, key, reason);
    ReplaceAllLeading(key, after, reason);
    ReplaceAllSkips(after, [], key, reason);
    assert after + [] == after;
  }

  /** Wherever the reason stands, the risk text and the delay text stand with it. */
  lemma ReasonQuotesDetails(before: string, riskFactors: seq<string>, hours: int, after: string)
    ensures IsSubstring(RiskMessage(riskFactors), before + (WarningReason(riskFactors, hours) + after))
    ensures IsSubstring(DelayMessage(hours), before + (WarningReason(riskFactors, hours) + after))
  {
    var risk := RiskMessage(riskFactors);
    var delay := DelayMessage(hours);
    var text := before + (WarningReason(riskFactors, hours) + after);
    assert text == before + risk + ("; predicted delay: " + delay + after);
    SubstringOfConcat(before, risk, "; predicted delay: " + delay + after);
    assert text == before + risk + "; predicted delay: " + delay + after;
    SubstringOfConcat(before + risk + "; predicted delay: ", delay, after);
  }

  /** With the corrected data, the delayed body states the risk factors and the predicted delay as its reason. */
  lemma CorrectedWarningReachesBody(
    shipmentId: string, language: string, confidenceText: string, riskFactors: seq<string>, hours: int,
    reply: StoreReply<ShipmentRow>)
    requires Braceless(ShipmentInfoFor(shipmentId, reply))
    ensures var body := MessageBody(shipmentId, KindName(Delayed), language, None, WarningDataCorrected(confidenceText, riskFactors, hours), reply);
      && IsSubstring(RiskMessage(riskFactors), body)
      && IsSubstring(DelayMessage(hours), body)
  {
    var d := ShipmentInfoFor(shipmentId, reply);
    var url := TrackingBaseUrl + shipmentId;
    DelayedTextBraceless();
    DelayedMessageBody(shipmentId, language, WarningDataCorrected(confidenceText, riskFactors, hours), reply);
    DelayedBodyWithUrl(d, url);
    CorrectedDataFillsReason(d, url, confidenceText, riskFactors, hours);
    ReasonQuotesDetails(DelayedLead(d), riskFactors, hours, DelayedTail + "Track your shipment: " + url + Closing);
  }

  /**
   * What `proactive_delay_warning` returns. `listing` is the reply to its
   * `query_shipments(filters={"id": ...})` call, whose failure is caught;
   * `reply` is the job-number lookup of the notification it sends. That
   * notification is handed `WarningData`, which its body never shows
   * (`WarningDataUnused`); the returned dictionary does not carry it either.
   */
  function WarningFor(
    mockMode: bool, shipmentId: string, email: Option<string>, phone: Option<string>,
    language: string, prediction: PredictionData,
    listing: StoreReply<ShipmentRow>, reply: StoreReply<ShipmentRow>, notificationId: string): Warning
  {
    match prediction
    case NoData => NoPredictionData(shipmentId)
    case Data(will, confidence, factors, hours) =>
      if !WarningDue(will, confidence) then NotNeeded(shipmentId, confidence)
      else if listing.StoreError? then WarningError(shipmentId)
      else
        var sent := SentFor(mockMode, shipmentId, Delayed, email, phone, language, None, reply, notificationId);
        Warned(shipmentId, confidence, factors, hours, Some(sent.notificationId), sent)
  }

  /**
   * The gate of `proactive_delay_warning`: without data it fails; with data
   * it sends exactly when a delay is predicted with confidence of at least
   * 0.70 (0.70 itself sends), as a "delayed" notification that is always
   * sent and whose id it reports; below the gate it succeeds without sending.
   */
  lemma WarningGate(
    mockMode: bool, shipmentId: string, email: Option<string>, phone: Option<string>,
    language: string, prediction: PredictionData,
    listing: StoreReply<ShipmentRow>, reply: StoreReply<ShipmentRow>, notificationId: string)
    ensures var w := WarningFor(mockMode, shipmentId, email, phone, language, prediction, listing, reply, notificationId);
      && (prediction.NoData? ==> w.NoPredictionData? && !WarningSucceeded(w))
      && (prediction.Data? && !WarningDue(prediction.willDelay, prediction.confidence) ==>
            w == NotNeeded(shipmentId, prediction.confidence) && WarningSucceeded(w))
      && (w.Warned? <==> prediction.Data? && WarningDue(prediction.willDelay, prediction.confidence) && listing.Rows?)
      && (w.Warned? ==>
            && w.notification == StatusUpdateFor(mockMode, shipmentId, KindName(Delayed), email, phone, language, None, reply, notificationId)
            && w.notification.Sent?
            && w.notification.kind == Delayed
            && w.notificationId == Some(notificationId)
            && w.riskFactors == prediction.riskFactors)
  {
    ParseKindName(Delayed);
  }

  /** Confidence exactly at the threshold sends; just below does not. */
  lemma WarningThresholdScenario(shipmentId: string, reply: StoreReply<ShipmentRow>)
    ensures WarningFor(true, shipmentId, None, None, "en", Data(true, 0.70, [], 36), Rows([]), reply, "N-1").Warned?
    ensures WarningFor(true, shipmentId, None, None, "en", Data(true, 0.69, [], 36), Rows([]), reply, "N-1").NotNeeded?
  {
  }

  /** The summary `send_bulk_notifications` returns. */
  datatype BulkSummary = BulkSummary(total: nat, successful: nat, failed: int, results: seq<StatusUpdate>)

  /**
   * The per-shipment results of a bulk send, in input order; the i-th call
   * draws `notificationIds(i)`, so a repeated shipment id still gets a fresh
   * notification id.
   */
  function BulkResults(
    mockMode: bool, ids: seq<string>, notificationType: string, language: string,
    store: string -> StoreReply<ShipmentRow>, notificationIds: nat -> string): (results: seq<StatusUpdate>)
    ensures |results| == |ids|
    ensures forall i :: 0 <= i < |ids| ==>
      results[i] == StatusUpdateFor(mockMode, ids[i], notificationType, None, None, language, None, store(ids[i]), notificationIds(i))
  {
    if ids == [] then []
    else
      var id := ids[|ids| - 1];
      BulkResults(mockMode, ids[..|ids| - 1], notificationType, language, store, notificationIds)
      + [StatusUpdateFor(mockMode, id, notificationType, None, None, language, None, store(id), notificationIds(|ids| - 1))]
  }

  /** Every bulk result shares the validity of the one notification type. */
  lemma {:induction false} BulkOutcome(
    mockMode: bool, ids: seq<string>, notificationType: string, language: string,
    store: string -> StoreReply<ShipmentRow>, notificationIds: nat -> string)
    ensures var results := BulkResults(mockMode, ids, notificationType, language, store, notificationIds);
      CountIf(results, Succeeded) == if ParseKind(notificationType).Some? then |ids| else 0
  {
    if ids != [] {
      var prefix := ids[..|ids| - 1];
      var id := ids[|ids| - 1];
      BulkOutcome(mockMode, prefix, notificationType, language, store, notificationIds);
      CountIfAppend(
        BulkResults(mockMode, prefix, notificationType, language, store, notificationIds),
        [StatusUpdateFor(mockMode, id, notificationType, None, None, language, None, store(id), notificationIds(|ids| - 1))],
        Succeeded);
    }
  }

  /** The loop of `send_status_update` that replaces `{key}` by its value for each extra entry in turn. */
  method FillExtraData(body0: string, extra: ExtraData) returns (body: string)
    ensures body == ApplyData(body0, extra)
  {
    body := body0;
    var i := 0;
    while i < |extra|
      invariant i <= |extra|
      invariant body == ApplyData(body0, extra[..i])
    {
      var (key, value) := extra[i];
      assert extra[..i + 1][..i] == extra[..i];
      body := ReplaceAll(body, Placeholder(key), value);
      i := i + 1;
    }
    assert extra[..|extra|] == extra;
  }

  /** The notification service; `mockMode` logs messages instead of handing them to an e-mail or SMS provider. */
  class NotificationService {
    const mockMode: bool

    constructor(mockMode: bool)
      ensures this.mockMode == mockMode
    {
      this.mockMode := mockMode;
    }

    /**
     * `send_status_update`: validate the type, settle the language, fill the
     * template, substitute the tracking URL and then each extra entry, and
     * pick the channels.
     */
    method SendStatusUpdate(
      shipmentId: string, notificationType: string, email: Option<string>, phone: Option<string>,
      language: string, trackingUrl: Option<string>, extra: ExtraData,
      reply: StoreReply<ShipmentRow>, notificationId: string) returns (r: StatusUpdate, body: string)
      ensures r == StatusUpdateFor(mockMode, shipmentId, notificationType, email, phone, language, trackingUrl, reply, notificationId)
      ensures r.Sent? ==> body == MessageBody(shipmentId, notificationType, language, trackingUrl, extra, reply)
      ensures r.InvalidType? ==> body == ""
    {
      var kind := ParseKind(notificationType);
      if kind.None? {
        return InvalidType(notificationType), "";
      }
      var lang := EffectiveLanguage(language);
      var info := ShipmentInfoFor(shipmentId, reply);
      var template := EmailTemplate(notificationType, lang, info);
      var url := TrackingUrl(shipmentId, trackingUrl);
      body := FillExtraData(ReplaceAll(template.body, TrackingPlaceholder, url), extra);
      var channels := SelectChannels(email, phone);
      r := Sent(notificationId, shipmentId, kind.value, channels, email, phone, lang, info, url);
    }

    /** The channel list of `send_status_update`, built by appending. */
    method SelectChannels(email: Option<string>, phone: Option<string>) returns (channels: seq<Channel>)
      ensures channels == Channels(email, phone, mockMode)
    {
      channels := [];
      if Truthy(email) && mockMode {
        channels := channels + [EmailChannel];
      }
      if Truthy(phone) && mockMode {
        channels := channels + [SmsChannel];
      }
    }

    /**
     * `proactive_delay_warning`: the confidence gate, then a "delayed"
     * notification handed the risk details (see `SendDelayedNotice`).
     */
    method ProactiveDelayWarning(
      shipmentId: string, email: Option<string>, phone: Option<string>, language: string,
      prediction: PredictionData, confidenceText: string,
      listing: StoreReply<ShipmentRow>, reply: StoreReply<ShipmentRow>, notificationId: string) returns (w: Warning)
      ensures w == WarningFor(mockMode, shipmentId, email, phone, language, prediction, listing, reply, notificationId)
    {
      match prediction
      case NoData =>
        w := NoPredictionData(shipmentId);
      case Data(will, confidence, factors, hours) =>
        if !will || confidence < WarningConfidenceThreshold {
          w := NotNeeded(shipmentId, confidence);
        } else if listing.StoreError? {
          w := WarningError(shipmentId);
        } else {
          var sent, id, body;
          sent, id, body := SendDelayedNotice(shipmentId, email, phone, language, confidenceText, factors, hours, reply, notificationId);
          w := Warned(shipmentId, confidence, factors, hours, Some(id), sent);
        }
    }

    /**
     * The "delayed" status update a warning sends, handed the warning's data
     * as extra entries: that type is always in the list, so it is always
     * sent, and its body is the delayed template with the data applied
     * (which, by `WarningDataUnused`, leaves it as it was).
     */
    method SendDelayedNotice(
      shipmentId: string, email: Option<string>, phone: Option<string>, language: string,
      confidenceText: string, riskFactors: seq<string>, hours: int,
      reply: StoreReply<ShipmentRow>, notificationId: string)
      returns (sent: StatusUpdate, id: string, body: string)
      ensures sent == SentFor(mockMode, shipmentId, Delayed, email, phone, language, None, reply, notificationId)
      ensures id == sent.notificationId
      ensures body == MessageBody(shipmentId, KindName(Delayed), language, None, WarningData(confidenceText, riskFactors, hours), reply)
    {
      var data := WarningData(confidenceText, riskFactors, hours);
      ParseKindName(Delayed);
      sent, body := SendStatusUpdate(shipmentId, KindName(Delayed), email, phone, language, None, data, reply, notificationId);
      id := sent.notificationId;
    }

    /** One `send_status_update` call of the bulk sender: no recipients, no URL and no extra data. */
    method SendToShipment(
      shipmentId: string, notificationType: string, language: string,
      reply: StoreReply<ShipmentRow>, notificationId: string) returns (r: StatusUpdate)
      ensures r == StatusUpdateFor(mockMode, shipmentId, notificationType, None, None, language, None, reply, notificationId)
    {
      var body;
      r, body := SendStatusUpdate(shipmentId, notificationType, None, None, language, None, [], reply, notificationId);
    }

    /**
     * `send_bulk_notifications`: one status update per id without recipients,
     * then the totals; `successful` counts results whose `success` is truthy.
     */
    method SendBulkNotifications(
      ids: seq<string>, notificationType: string, language: string,
      store: string -> StoreReply<ShipmentRow>, notificationIds: nat -> string) returns (summary: BulkSummary)
      ensures summary.results == BulkResults(mockMode, ids, notificationType, language, store, notificationIds)
      ensures summary.total == |ids|
      ensures summary.successful == CountIf(summary.results, Succeeded)
      ensures summary.successful + summary.failed == summary.total
    {
      var results: seq<StatusUpdate> := [];
      var i := 0;
      while i < |ids|
        invariant i <= |ids|
        invariant results == BulkResults(mockMode, ids[..i], notificationType, language, store, notificationIds)
      {
        var id := ids[i];
        var r := SendToShipment(id, notificationType, language, store(id), notificationIds(i));
        assert ids[..i + 1][..i] == ids[..i];
        results := results + [r];
        i := i + 1;
      }
      assert ids[..|ids|] == ids;
      var successful := CountIf(results, Succeeded);
      summary := BulkSummary(|ids|, successful, |ids| - successful, results);
    }
  }
}
