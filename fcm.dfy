/** The push messages the three notification handlers hand to Firebase Cloud
    Messaging (the `message` object of an HTTP v1 `messages:send` request),
    the device rows they read, and the success count they report.

    Each handler carries its own copy of `sendFCMNotification`; the copies
    differ only in the platform options they set, so the message shape is
    declared once here and each handler module fills it in. */
module Fcm {
  import opened JsValues

  /** A row of `user_devices`: the registration token and its owner. */
  datatype Device = Device(fcmToken: string, userId: string)

  /** `message.notification`: what the device shows. */
  datatype Notification = Notification(title: string, body: string, image: Option<string>)

  /** `message.android.notification`. */
  datatype AndroidNotification = AndroidNotification(
    sound: string,
    channelId: string,
    notificationPriority: Option<string>,
    color: Option<string>,
    image: Option<string>)

  /** `message.android`. */
  datatype AndroidConfig = AndroidConfig(priority: string, notification: AndroidNotification)

  /** `message.apns.payload.aps`. */
  datatype Aps = Aps(sound: string, badge: int, contentAvailable: Option<int>)

  /** `message.apns`; `fcmOptionsImage` is `apns.fcm_options.image`. */
  datatype ApnsConfig = ApnsConfig(aps: Aps, fcmOptionsImage: Option<string>)

  /** One FCM message, addressed to one device token. */
  datatype Message = Message(
    token: string,
    notification: Notification,
    data: map<string, string>,
    android: AndroidConfig,
    apns: ApnsConfig)

  const ChannelId: string := "food_delivery_channel"
  const DefaultSound: string := "default"
  const HighPriority: string := "high"

  /** Every message in `outbox` is `proto` addressed to the matching token:
      all devices get the same notification, data and platform options. */
  predicate SameMessageToEach(outbox: seq<Message>, tokens: seq<string>, proto: Message)
  {
    |outbox| == |tokens| &&
    forall i | 0 <= i < |outbox| :: outbox[i] == proto.(token := tokens[i])
  }

  /** `results.filter(r => r.success).length`, where `results[i]` says
      whether the i-th send succeeded. */
  function CountSuccesses(results: seq<bool>): (n: nat)
    ensures n <= |results|
    ensures n == |results| <==> forall i | 0 <= i < |results| :: results[i]
    ensures n == 0 <==> forall i | 0 <= i < |results| :: !results[i]
  {
    if results == [] then 0
    else
      var rest := CountSuccesses(results[1..]);
      assert forall i | 1 <= i < |results| :: results[i] == results[1..][i - 1];
      (if results[0] then 1 else 0) + rest
  }

  /** Counting over two runs of sends is the sum of their counts; this is
      what lets a batched send add up its per-batch counts. */
  lemma {:induction false} CountSuccessesAppend(a: seq<bool>, b: seq<bool>)
    ensures CountSuccesses(a + b) == CountSuccesses(a) + CountSuccesses(b)
  {
    if a == [] {
      assert a + b == b;
    } else {
      assert (a + b)[1..] == a[1..] + b;
      CountSuccessesAppend(a[1..], b);
    }
  }

  /** The count is the number of `true` entries, independent of order. */
  lemma {:induction false} CountSuccessesIsMultiplicity(results: seq<bool>)
    ensures CountSuccesses(results) == multiset(results)[true]
  {
    if results != [] {
      assert results == [results[0]] + results[1..];
      CountSuccessesIsMultiplicity(results[1..]);
    }
  }

  /** Per-token isolation: turning one successful send into a failure lowers
      the count by exactly one, so no other send's outcome is lost. */
  lemma {:induction false} OneFailureCostsOne(results: seq<bool>, i: nat)
    requires i < |results| && results[i]
    ensures CountSuccesses(results[i := false]) == CountSuccesses(results) - 1
  {
    if i == 0 {
      assert results[i := false][1..] == results[1..];
    } else {
      assert results[i := false][1..] == results[1..][i - 1 := false];
      OneFailureCostsOne(results[1..], i - 1);
    }
  }
}
