/** The order-status push handler (send-order-notification): a status
    string picks a `{title, body}` template from a fixed table, falling back
    to a generic "Order Update" text, and the message is sent to every active
    device of the ordering user. */
module OrderNotification {
  import opened JsValues
  import opened Fcm

  /** The `{ title, body }` pair a status maps to. */
  datatype Template = Template(title: string, body: string)

  const ConfirmedTitle: string := "\U{2705} Order Confirmed"
  const PreparingTitle: string := "\U{1F468}\U{200D}\U{1F373} Preparing Your Food"
  const ReadyTitle: string := "\U{2728} Order Ready"
  const OnTheWayTitle: string := "\U{1F6F5} On the Way"
  const NearbyTitle: string := "\U{1F4CD} Driver Nearby"
  const DeliveredTitle: string := "\U{1F389} Delivered!"
  const CancelledTitle: string := "\U{274C} Order Cancelled"
  const FallbackTitle: string := "Order Update"

  /** The seven keys of the `notifications` table. */
  const KnownStatuses: set<string> := {
    "confirmed", "preparing", "ready_for_pickup", "out_for_delivery",
    "nearby", "delivered", "cancelled"
  }

  /** The names an ordinary JavaScript object literal inherits from
      `Object.prototype`; indexing the table with one of them yields a
      truthy function (or, for `__proto__`, an object) with no title and
      no body. */
  const ObjectPrototypeKeys: set<string> := {
    "constructor", "hasOwnProperty", "isPrototypeOf", "propertyIsEnumerable",
    "toString", "toLocaleString", "valueOf", "__proto__",
    "__defineGetter__", "__defineSetter__", "__lookupGetter__", "__lookupSetter__"
  }

  /** The out_for_delivery body without its ETA suffix. */
  function OnTheWayBody(restaurantName: string): string
  {
    "Your order from " + restaurantName + " is on the way!"
  }

  /** The table's own entry for `status`, if it has one. */
  function OwnTemplate(status: string, restaurantName: string, estimatedTime: Option<string>): (entry: Option<Template>)
  {
    if status == "confirmed" then
      Some(Template(ConfirmedTitle, "Your order from " + restaurantName + " has been confirmed."))
    else if status == "preparing" then
      Some(Template(PreparingTitle, restaurantName + " is preparing your order."))
    else if status == "ready_for_pickup" then
      Some(Template(ReadyTitle, "Your order from " + restaurantName + " is ready for pickup!"))
    else if status == "out_for_delivery" then
      Some(Template(OnTheWayTitle,
        if StringTruthy(estimatedTime)
        then OnTheWayBody(restaurantName) + " ETA: " + estimatedTime.value
        else OnTheWayBody(restaurantName)))
    else if status == "nearby" then
      Some(Template(NearbyTitle, "Your driver is less than 1 km away!"))
    else if status == "delivered" then
      Some(Template(DeliveredTitle, "Your order from " + restaurantName + " has been delivered. Enjoy your meal!"))
    else if status == "cancelled" then
      Some(Template(CancelledTitle, "Your order from " + restaurantName + " has been cancelled."))
    else
      None
  }

  /** The generic template for a status the table does not know. */
  function FallbackTemplate(status: string, restaurantName: string): Template
  {
    Template(FallbackTitle, "Your order from " + restaurantName + " status: " + status)
  }

  /** `getNotificationForStatus` as written: `notifications[status] || {…}`.
      `None` stands for the inherited member that the lookup returns for a
      name of `Object.prototype`: a truthy value with no title or body. */
  function NotificationForStatusAsWritten(status: string, restaurantName: string, estimatedTime: Option<string>): (n: Option<Template>)
    ensures n.None? <==> status in ObjectPrototypeKeys
  {
    match OwnTemplate(status, restaurantName, estimatedTime)
    case Some(t) => Some(t)
    case None => if status in ObjectPrototypeKeys then None else Some(FallbackTemplate(status, restaurantName))
  }

  /** `getNotificationForStatus` with the table consulted for its own keys
      only: every status string yields a template, a known status its own
      one and any other the generic "Order Update" text naming the
      restaurant and echoing the raw status. */
  function NotificationForStatus(status: string, restaurantName: string, estimatedTime: Option<string>): (t: Template)
    ensures t.title != "" && t.body != ""
    ensures status in KnownStatuses <==> t.title != FallbackTitle
    ensures status !in KnownStatuses ==>
      t.title == FallbackTitle && Contains(t.body, restaurantName) && Contains(t.body, status)
  {
    match OwnTemplate(status, restaurantName, estimatedTime)
    case Some(t) => t
    case None =>
      var fb := FallbackTemplate(status, restaurantName);
      ContainsMiddle("Your order from ", restaurantName, " status: " + status);
      assert fb.body == "Your order from " + restaurantName + (" status: " + status);
      ContainsMiddle("Your order from " + restaurantName + " status: ", status, "");
      assert fb.body == "Your order from " + restaurantName + " status: " + status + "";
      fb
  }

  /** The discrepancy: for the status "constructor" the lookup as written
      finds no template, where the generic fallback was evidently meant. */
  lemma InheritedStatusNameFindsNoTemplate(restaurantName: string, estimatedTime: Option<string>)
    ensures NotificationForStatusAsWritten("constructor", restaurantName, estimatedTime).None?
    ensures NotificationForStatus("constructor", restaurantName, estimatedTime)
      == FallbackTemplate("constructor", restaurantName)
  {
    assert "constructor" in ObjectPrototypeKeys;
  }

  /** Away from the inherited names the lookup as written and the corrected
      one agree. */
  lemma AsWrittenAgreesOffPrototype(status: string, restaurantName: string, estimatedTime: Option<string>)
    requires status !in ObjectPrototypeKeys
    ensures NotificationForStatusAsWritten(status, restaurantName, estimatedTime)
      == Some(NotificationForStatus(status, restaurantName, estimatedTime))
  {
  }

  /** The title alone tells which known status was sent: the seven titles
      differ from one another (and from the fallback title). */
  lemma TitleIdentifiesStatus(s1: string, r1: string, e1: Option<string>, s2: string, r2: string, e2: Option<string>)
    requires s1 in KnownStatuses
    requires NotificationForStatus(s1, r1, e1).title == NotificationForStatus(s2, r2, e2).title
    ensures s1 == s2
  {
  }

  /** The title depends on the status alone, never on the restaurant name
      or the estimated time. */
  lemma TitleFixedPerStatus(status: string, r1: string, e1: Option<string>, r2: string, e2: Option<string>)
    ensures NotificationForStatus(status, r1, e1).title == NotificationForStatus(status, r2, e2).title
  {
  }

  /** The out_for_delivery body gains the suffix " ETA: <estimatedTime>"
      exactly when an estimated time is present and non-empty. */
  lemma OnTheWayEtaSuffix(restaurantName: string, estimatedTime: Option<string>)
    ensures StringTruthy(estimatedTime) ==>
      NotificationForStatus("out_for_delivery", restaurantName, estimatedTime).body
        == NotificationForStatus("out_for_delivery", restaurantName, None).body + " ETA: " + estimatedTime.value
    ensures !StringTruthy(estimatedTime) ==>
      NotificationForStatus("out_for_delivery", restaurantName, estimatedTime)
        == NotificationForStatus("out_for_delivery", restaurantName, None)
  {
  }

  /** The nearby text names neither the restaurant nor the ETA. */
  lemma NearbyIgnoresOrderDetails(r1: string, e1: Option<string>, r2: string, e2: Option<string>)
    ensures NotificationForStatus("nearby", r1, e1) == NotificationForStatus("nearby", r2, e2)
  {
  }

  /** Only out_for_delivery looks at the estimated time. */
  lemma EtaOnlyMattersOnTheWay(status: string, restaurantName: string, e1: Option<string>, e2: Option<string>)
    requires status != "out_for_delivery"
    ensures NotificationForStatus(status, restaurantName, e1) == NotificationForStatus(status, restaurantName, e2)
  {
  }

  /** The request body `{order_id, user_id, status, restaurant_name, estimated_time?}`. */
  datatype OrderPayload = OrderPayload(
    orderId: string,
    userId: string,
    status: string,
    restaurantName: string,
    estimatedTime: Option<string>)

  /** The JSON the handler answers with. */
  datatype OrderResponse =
    | NoDevicesFound                      // { success: false, message: 'No devices found' }
    | OrderSent(sent: nat, total: nat)    // { success: true, sent, total }
  {
    predicate Success() { OrderSent? }
  }

  /** What one invocation produces: HTTP status, response body, and the
      messages handed to FCM in dispatch order. */
  datatype OrderReply = OrderReply(httpStatus: int, response: OrderResponse, outbox: seq<Message>)

  /** The message sent to `token`. */
  function OrderMessage(token: string, t: Template, p: OrderPayload): (m: Message)
  {
    Message(
      token,
      Notification(t.title, t.body, None),
      map["type" := "order_status", "order_id" := p.orderId, "status" := p.status],
      AndroidConfig(HighPriority, AndroidNotification(DefaultSound, ChannelId, None, None, None)),
      ApnsConfig(Aps(DefaultSound, 1, None), None))
  }

  /** The handler. `devices` is the `fcm_token` column of the user's active
      `user_devices` rows (`None` when the query failed or returned null);
      `outcomes[i]` is whether the send to the i-th device succeeded. */
  function SendOrderNotification(p: OrderPayload, devices: Option<seq<string>>, outcomes: seq<bool>): (r: OrderReply)
    requires |outcomes| == |ListOrEmpty(devices)|
    ensures r.httpStatus == 200
    ensures r.response.Success() <==> NonEmptyList(devices)
    ensures !r.response.Success() ==> r.outbox == []
    ensures r.response.Success() ==>
      SameMessageToEach(r.outbox, devices.value,
        OrderMessage("", NotificationForStatus(p.status, p.restaurantName, p.estimatedTime), p))
    ensures r.response.Success() ==>
      r.response.total == |r.outbox| && r.response.sent == CountSuccesses(outcomes) &&
      r.response.sent <= r.response.total
  {
    if !NonEmptyList(devices) then
      OrderReply(200, NoDevicesFound, [])
    else
      var tokens := devices.value;
      var t := NotificationForStatus(p.status, p.restaurantName, p.estimatedTime);
      var outbox := seq(|tokens|, i requires 0 <= i < |tokens| => OrderMessage(tokens[i], t, p));
      OrderReply(200, OrderSent(CountSuccesses(outcomes), |outbox|), outbox)
  }
}
