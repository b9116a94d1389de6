/** The driver-proximity push handler (send-driver-location-notification):
    it settles on a distance and an ETA (the request's own, or derived),
    sorts the distance into one of three tiers, and sends the tier's
    message to every active device of the customer. */
module DriverLocationNotification {
  import opened JsValues
  import opened Fcm

  /** The three distance tiers, each with its own `type` tag. */
  datatype Tier = VeryNear | Nearby | LocationUpdate

  const VeryNearLimitKm: real := 0.5
  const NearbyLimitKm: real := 1.5
  /** Kilometres covered per minute in the ETA estimate (30 km/h). */
  const KmPerMinute: real := 0.5

  /** The tier chosen for a distance in km: below 0.5 very near, below 1.5
      nearby, anything else a plain location update. */
  function TierFor(distance: real): (t: Tier)
    ensures t == VeryNear <==> distance < VeryNearLimitKm
    ensures t == Nearby <==> VeryNearLimitKm <= distance < NearbyLimitKm
    ensures t == LocationUpdate <==> NearbyLimitKm <= distance
  {
    if distance < VeryNearLimitKm then VeryNear
    else if distance < NearbyLimitKm then Nearby
    else LocationUpdate
  }

  /** The `type` entry of the data payload for a tier. */
  function TypeTag(t: Tier): (tag: string)
  {
    match t
    case VeryNear => "driver_very_near"
    case Nearby => "driver_nearby"
    case LocationUpdate => "driver_location_update"
  }

  /** How far a tier is from the customer, nearest first. */
  function Remoteness(t: Tier): nat
  {
    match t
    case VeryNear => 0
    case Nearby => 1
    case LocationUpdate => 2
  }

  /** A shorter distance never selects a more remote tier. */
  lemma TierMonotone(d1: real, d2: real)
    requires d1 <= d2
    ensures Remoteness(TierFor(d1)) <= Remoteness(TierFor(d2))
  {
  }

  /** The `type` tag alone tells the client which tier was chosen. */
  lemma TypeTagIdentifiesTier(t1: Tier, t2: Tier)
    requires TypeTag(t1) == TypeTag(t2)
    ensures t1 == t2
  {
  }

  /** `Math.ceil`. */
  function Ceil(x: real): (c: int)
    ensures c as real - 1.0 < x <= c as real
  {
    var f := x.Floor;
    if f as real == x then f else f + 1
  }

  /** `payload.distance_km || calculateDistance(...)`: the supplied distance
      unless it is absent or zero; `computedKm` is the great-circle distance
      between driver and customer. A supplied zero never wins. */
  function ChosenDistance(supplied: Option<real>, computedKm: real): (distance: real)
    ensures NumberTruthy(supplied) ==> distance == supplied.value
    ensures !NumberTruthy(supplied) ==> distance == computedKm
    ensures distance == 0.0 ==> computedKm == 0.0
  {
    if NumberTruthy(supplied) then supplied.value else computedKm
  }

  /** `payload.eta_minutes || Math.ceil(distance / 0.5)`: the supplied ETA
      unless it is absent or zero, otherwise the fewest whole minutes in
      which 0.5 km per minute covers the distance. */
  function ChosenEta(supplied: Option<real>, distance: real): (eta: real)
    ensures NumberTruthy(supplied) ==> eta == supplied.value
    ensures !NumberTruthy(supplied) ==>
      eta == eta.Floor as real && (eta - 1.0) * KmPerMinute < distance <= eta * KmPerMinute
  {
    if NumberTruthy(supplied) then supplied.value else Ceil(distance / KmPerMinute) as real
  }

  /** Number-to-text conversions the bodies and the data payload use:
      `show` is `String(x)` / `x.toString()`, `fixed1` is `x.toFixed(1)`. */
  datatype NumberFormat = NumberFormat(show: real -> string, fixed1: real -> string)

  /** The notification text chosen for a tier. */
  datatype DriverNotice = DriverNotice(title: string, body: string, tier: Tier)

  // The tier titles as the handler's source file stores them: each begins
  // with an emoji whose UTF-8 bytes were read back as Windows-1252 text.
  const VeryNearTitle: string := "\U{F0}\U{178}\U{201C} Driver is Very Close!"
  const NearbyTitle: string := "\U{F0}\U{178}\U{203A}\U{B5} Driver Nearby"
  const LocationUpdateTitle: string := "\U{F0}\U{178}\U{201C}\U{B1} Driver Location Update"

  /** The end of the very-near body. */
  function MinuteTail(eta: real): string
  {
    " minute" + (if eta > 1.0 then "s" else "") + ". Get ready!"
  }

  /** The `notification` value of the if/else-if chain. */
  function DriverNotification(driverName: string, distance: real, eta: real, fmt: NumberFormat): (n: DriverNotice)
    ensures n.tier == TierFor(distance)
  {
    match TierFor(distance)
    case VeryNear =>
      DriverNotice(VeryNearTitle,
        driverName + " is arriving in about " + fmt.show(eta) + MinuteTail(eta), VeryNear)
    case Nearby =>
      DriverNotice(NearbyTitle,
        driverName + " is " + fmt.fixed1(distance) + " km away (" + fmt.show(eta) + " min)", Nearby)
    case LocationUpdate =>
      DriverNotice(LocationUpdateTitle,
        driverName + " is on the way - " + fmt.fixed1(distance) + " km away (ETA: " + fmt.show(eta) + " min)",
        LocationUpdate)
  }

  /** The very-near body says "minutes" exactly when the ETA exceeds one
      minute, and "minute" otherwise. */
  lemma MinuteWording(driverName: string, distance: real, eta: real, fmt: NumberFormat)
    requires TierFor(distance) == VeryNear
    ensures EndsWith(DriverNotification(driverName, distance, eta, fmt).body, "minutes. Get ready!") <==> eta > 1.0
    ensures EndsWith(DriverNotification(driverName, distance, eta, fmt).body, " minute. Get ready!") <==> eta <= 1.0
  {
    var body := DriverNotification(driverName, distance, eta, fmt).body;
    var head := driverName + " is arriving in about " + fmt.show(eta);
    assert body == head + MinuteTail(eta);
    if eta > 1.0 {
      assert body == head + " minutes. Get ready!";
      assert body[|body| - 19..] == "minutes. Get ready!";
      assert body[|body| - 19] != " minute. Get ready!"[0];
    } else {
      assert body == head + " minute. Get ready!";
      assert body[|body| - 19..] == " minute. Get ready!";
      assert body[|body| - 19] != "minutes. Get ready!"[0];
    }
  }

  /** With no ETA supplied, a driver strictly between 0 and 0.5 km away is
      announced as very near and arriving in about 1 minute. */
  lemma CloseDriverArrivesInOneMinute(driverName: string, distance: real, fmt: NumberFormat)
    requires 0.0 < distance < VeryNearLimitKm
    ensures ChosenEta(None, distance) == 1.0
    ensures EndsWith(DriverNotification(driverName, distance, ChosenEta(None, distance), fmt).body,
                     " minute. Get ready!")
  {
    var eta := ChosenEta(None, distance);
    assert 0.0 < eta < 2.0;
    MinuteWording(driverName, distance, eta, fmt);
  }

  /** The request body (the four coordinates only feed the distance
      computation, so `computedKm` stands in for them). */
  datatype DriverPayload = DriverPayload(
    orderId: string,
    userId: string,
    driverName: string,
    driverPhone: Option<string>,
    distanceKm: Option<real>,
    etaMinutes: Option<real>)

  /** The JSON the handler answers with. */
  datatype DriverResponse =
    | NoDevicesFound                                          // { success: false, message: 'No devices found' }
    | DriverSent(sent: nat, distanceKm: real, etaMinutes: real)  // { success: true, sent, distance_km, eta_minutes }
  {
    predicate Success() { DriverSent? }
  }

  /** What one invocation produces: HTTP status, response body, and the
      messages handed to FCM in dispatch order. */
  datatype DriverReply = DriverReply(httpStatus: int, response: DriverResponse, outbox: seq<Message>)

  /** The message sent to `token`. */
  function DriverMessage(token: string, n: DriverNotice, p: DriverPayload, distance: real, eta: real, fmt: NumberFormat): (m: Message)
  {
    Message(
      token,
      Notification(n.title, n.body, None),
      map[
        "type" := TypeTag(n.tier),
        "order_id" := p.orderId,
        "driver_name" := p.driverName,
        "driver_phone" := StringOrEmpty(p.driverPhone),
        "distance" := fmt.show(distance),
        "eta" := fmt.show(eta)],
      AndroidConfig(HighPriority, AndroidNotification(DefaultSound, ChannelId, Some("PRIORITY_HIGH"), None, None)),
      ApnsConfig(Aps(DefaultSound, 1, Some(1)), None))
  }

  /** The handler. `devices` is the `fcm_token` column of the customer's
      active `user_devices` rows (`None` when the query failed or returned
      null); `outcomes[i]` is whether the send to the i-th device succeeded. */
  function SendDriverLocationNotification(
    p: DriverPayload, devices: Option<seq<string>>, computedKm: real, fmt: NumberFormat, outcomes: seq<bool>): (r: DriverReply)
    requires |outcomes| == |ListOrEmpty(devices)|
    ensures r.httpStatus == 200
    ensures r.response.Success() <==> NonEmptyList(devices)
    ensures !r.response.Success() ==> r.outbox == []
    ensures r.response.Success() ==>
      var distance := r.response.distanceKm;
      var eta := r.response.etaMinutes;
      (NumberTruthy(p.distanceKm) ==> distance == p.distanceKm.value) &&
      (!NumberTruthy(p.distanceKm) ==> distance == computedKm) &&
      eta == ChosenEta(p.etaMinutes, distance) &&
      SameMessageToEach(r.outbox, devices.value,
        DriverMessage("", DriverNotification(p.driverName, distance, eta, fmt), p, distance, eta, fmt)) &&
      (forall m | m in r.outbox :: m.data["type"] == TypeTag(TierFor(distance))) &&
      r.response.sent == CountSuccesses(outcomes) && r.response.sent <= |r.outbox|
  {
    if !NonEmptyList(devices) then
      DriverReply(200, NoDevicesFound, [])
    else
      var tokens := devices.value;
      var distance := ChosenDistance(p.distanceKm, computedKm);
      var eta := ChosenEta(p.etaMinutes, distance);
      var n := DriverNotification(p.driverName, distance, eta, fmt);
      var outbox := seq(|tokens|, i requires 0 <= i < |tokens| => DriverMessage(tokens[i], n, p, distance, eta, fmt));
      DriverReply(200, DriverSent(CountSuccesses(outcomes), distance, eta), outbox)
  }
}
