/** The promotional broadcast handler (send-promotional-notification): it
    reads the active devices (optionally only those of listed users),
    optionally keeps only devices whose user has a profile, sends the
    caller's title and body to them in batches of 500, logs the campaign
    and reports how many sends succeeded. */
module PromotionalNotification {
  import opened JsValues
  import opened Fcm

  /** Devices sent to per round of concurrent sends. */
  const BatchSize: nat := 500
  const PromoColor: string := "#FF6B35"

  /** The request body. */
  datatype PromoPayload = PromoPayload(
    title: string,
    body: string,
    imageUrl: Option<string>,
    actionUrl: Option<string>,
    targetUsers: Option<seq<string>>,
    targetSegments: Option<seq<string>>,
    restaurantId: Option<string>)

  /** `a` is `b` with some elements left out, the rest kept in order. */
  predicate IsSubsequence<T(==)>(a: seq<T>, b: seq<T>)
    decreases |b|
  {
    if b == [] then a == []
    else (a != [] && a[0] == b[0] && IsSubsequence(a[1..], b[1..])) || IsSubsequence(a, b[1..])
  }

  /** The devices whose owner is among `userIds`, in their original order:
      both the store-side `.in('user_id', …)` and the
      `devices.filter(d => ids.includes(d.user_id))` of the segment step. */
  function KeepUsers(devices: seq<Device>, userIds: seq<string>): (kept: seq<Device>)
    ensures |kept| <= |devices|
    ensures forall d | d in kept :: d in devices && d.userId in userIds
  {
    if devices == [] then []
    else
      var rest := KeepUsers(devices[1..], userIds);
      if devices[0].userId in userIds then [devices[0]] + rest else rest
  }

  /** Nothing is reordered: the kept devices are a subsequence. */
  lemma {:induction false} KeepUsersIsSubsequence(devices: seq<Device>, userIds: seq<string>)
    ensures IsSubsequence(KeepUsers(devices, userIds), devices)
  {
    if devices != [] {
      var kept := KeepUsers(devices, userIds);
      var rest := KeepUsers(devices[1..], userIds);
      KeepUsersIsSubsequence(devices[1..], userIds);
      if devices[0].userId in userIds {
        assert kept[1..] == rest;
      } else {
        assert kept == rest;
      }
    }
  }

  /** Nothing is lost or duplicated: each device of a listed user is kept
      as often as it occurs, every other device is dropped. */
  lemma {:induction false} KeepUsersMultiplicity(devices: seq<Device>, userIds: seq<string>, d: Device)
    ensures multiset(KeepUsers(devices, userIds))[d] == if d.userId in userIds then multiset(devices)[d] else 0
  {
    if devices != [] {
      KeepUsersMultiplicity(devices[1..], userIds, d);
      assert devices == [devices[0]] + devices[1..];
    }
  }

  /** `KeepUsersMultiplicity` for every device at once. */
  lemma KeepUsersExact(devices: seq<Device>, userIds: seq<string>)
    ensures forall d :: multiset(KeepUsers(devices, userIds))[d]
                        == if d.userId in userIds then multiset(devices)[d] else 0
  {
    forall d ensures multiset(KeepUsers(devices, userIds))[d]
                     == if d.userId in userIds then multiset(devices)[d] else 0 {
      KeepUsersMultiplicity(devices, userIds, d);
    }
  }

  /** The device query: active rows, narrowed to `target_users` when that
      list is non-empty. With a non-empty list, every active device of a
      listed user is returned, as often as it occurs, and no other. */
  function QueryDevices(active: seq<Device>, targetUsers: Option<seq<string>>): (devices: seq<Device>)
    ensures forall d | d in devices :: d in active
    ensures NonEmptyList(targetUsers) ==> forall d | d in devices :: d.userId in targetUsers.value
    ensures NonEmptyList(targetUsers) ==>
      forall d :: multiset(devices)[d] == if d.userId in targetUsers.value then multiset(active)[d] else 0
    ensures !NonEmptyList(targetUsers) ==> devices == active
  {
    if NonEmptyList(targetUsers) then
      KeepUsersExact(active, targetUsers.value);
      KeepUsers(active, targetUsers.value)
    else active
  }

  /** `targetDevices` after the segment step. `profiles` is the `id` column
      the profile query returned (`None` when it returned null); the
      segment names themselves take no part. */
  function TargetDevices(devices: seq<Device>, targetSegments: Option<seq<string>>, profiles: Option<seq<string>>): (targets: seq<Device>)
  {
    if NonEmptyList(targetSegments) && profiles.Some? then KeepUsers(devices, profiles.value) else devices
  }

  /** With segments and a profile result, the targets are an
      order-preserving subsequence of the devices holding exactly the
      devices whose user has a profile; otherwise they are the devices. */
  lemma TargetDevicesSpec(devices: seq<Device>, targetSegments: Option<seq<string>>, profiles: Option<seq<string>>)
    ensures NonEmptyList(targetSegments) && profiles.Some? ==>
      var targets := TargetDevices(devices, targetSegments, profiles);
      IsSubsequence(targets, devices) &&
      forall d :: multiset(targets)[d] == if d.userId in profiles.value then multiset(devices)[d] else 0
    ensures !(NonEmptyList(targetSegments) && profiles.Some?) ==>
      TargetDevices(devices, targetSegments, profiles) == devices
  {
    if NonEmptyList(targetSegments) && profiles.Some? {
      KeepUsersIsSubsequence(devices, profiles.value);
      KeepUsersExact(devices, profiles.value);
    }
  }

  /** Which segments are named makes no difference, only whether any are. */
  lemma SegmentNamesUnused(devices: seq<Device>, s1: seq<string>, s2: seq<string>, profiles: Option<seq<string>>)
    requires |s1| > 0 && |s2| > 0
    ensures TargetDevices(devices, Some(s1), profiles) == TargetDevices(devices, Some(s2), profiles)
  {
  }

  /** The devices the handler sends to: none when the device query failed or
      came back empty, otherwise `targetDevices`. */
  function Recipients(p: PromoPayload, activeRows: Option<seq<Device>>, profiles: Option<seq<string>>): (recipients: seq<Device>)
  {
    if activeRows.None? then []
    else TargetDevices(QueryDevices(activeRows.value, p.targetUsers), p.targetSegments, profiles)
  }

  /** The data payload of every promotional message. */
  function PromoData(p: PromoPayload): (data: map<string, string>)
  {
    map["type" := "promotion",
        "action_url" := StringOrEmpty(p.actionUrl),
        "restaurant_id" := StringOrEmpty(p.restaurantId)]
  }

  /** The message `sendFCMNotification` posts for `token`. The image, when
      the request has a non-empty one, appears in the notification, the
      Android notification and the APNs `fcm_options`; otherwise in none. */
  function PromoMessage(token: string, p: PromoPayload): (m: Message)
    ensures m.token == token && m.notification.title == p.title && m.notification.body == p.body
    ensures StringTruthy(p.imageUrl) ==>
      m.notification.image == Some(p.imageUrl.value) &&
      m.android.notification.image == Some(p.imageUrl.value) &&
      m.apns.fcmOptionsImage == Some(p.imageUrl.value)
    ensures !StringTruthy(p.imageUrl) ==>
      m.notification.image.None? && m.android.notification.image.None? && m.apns.fcmOptionsImage.None?
    ensures m.data.Keys == {"type", "action_url", "restaurant_id"} && m.data["type"] == "promotion"
    ensures m.data["action_url"] == StringOrEmpty(p.actionUrl) && m.data["restaurant_id"] == StringOrEmpty(p.restaurantId)
  {
    var image := if StringTruthy(p.imageUrl) then Some(p.imageUrl.value) else None;
    Message(
      token,
      Notification(p.title, p.body, image),
      PromoData(p),
      AndroidConfig(HighPriority, AndroidNotification(DefaultSound, ChannelId, None, Some(PromoColor), image)),
      ApnsConfig(Aps(DefaultSound, 1, None), image))
  }

  /** `sendFCMNotification`'s message construction: the fixed object first,
      then the three image fields set on it when an image URL is given. */
  method BuildPromoMessage(token: string, p: PromoPayload) returns (m: Message)
    ensures m == PromoMessage(token, p)
  {
    m := Message(
      token,
      Notification(p.title, p.body, None),
      PromoData(p),
      AndroidConfig(HighPriority, AndroidNotification(DefaultSound, ChannelId, None, Some(PromoColor), None)),
      ApnsConfig(Aps(DefaultSound, 1, None), None));
    if StringTruthy(p.imageUrl) {
      var url := p.imageUrl.value;
      m := m.(notification := m.notification.(image := Some(url)));
      m := m.(android := m.android.(notification := m.android.notification.(image := Some(url))));
      m := m.(apns := m.apns.(fcmOptionsImage := Some(url)));
    }
  }

  /** The messages for `targets`, one per device, in order. */
  function PromoOutbox(targets: seq<Device>, p: PromoPayload): (out: seq<Message>)
    ensures |out| == |targets|
  {
    seq(|targets|, k requires 0 <= k < |targets| => PromoMessage(targets[k].fcmToken, p))
  }

  /** The messages for two runs of devices are those of each, joined. */
  lemma PromoOutboxAppend(a: seq<Device>, b: seq<Device>, p: PromoPayload)
    ensures PromoOutbox(a + b, p) == PromoOutbox(a, p) + PromoOutbox(b, p)
  {
    assert forall k | 0 <= k < |a + b| :: PromoOutbox(a + b, p)[k] == (PromoOutbox(a, p) + PromoOutbox(b, p))[k];
  }

  /** The batches joined end to end. */
  function Flatten<T>(batches: seq<seq<T>>): (joined: seq<T>)
  {
    if batches == [] then [] else Flatten(batches[..|batches| - 1]) + batches[|batches| - 1]
  }

  /** Cut at every `size` elements: no batch is empty or longer than
      `size`, and all but the last are exactly `size` long. */
  predicate CutEvery<T>(batches: seq<seq<T>>, size: nat)
  {
    forall j | 0 <= j < |batches| :: 0 < |batches[j]| <= size && (j < |batches| - 1 ==> |batches[j]| == size)
  }

  /** The batching loop: consecutive slices of `targets` of at most 500,
      each device's message in exactly one batch and in order, with the
      success counts of all batches added up. `outcomes[k]` is whether the
      send to `targets[k]` succeeded. */
  method SendInBatches(targets: seq<Device>, p: PromoPayload, outcomes: seq<bool>)
    returns (totalSent: nat, batches: seq<seq<Message>>)
    requires |outcomes| == |targets|
    ensures Flatten(batches) == PromoOutbox(targets, p)
    ensures CutEvery(batches, BatchSize)
    ensures |batches| == (|targets| + BatchSize - 1) / BatchSize
    ensures totalSent == CountSuccesses(outcomes) && totalSent <= |targets|
  {
    var n := |targets|;
    totalSent := 0;
    batches := [];
    var i := 0;
    while i < n
      invariant i == |batches| * BatchSize
      invariant i < n + BatchSize
      invariant var done := if i < n then i else n;
        Flatten(batches) == PromoOutbox(targets[..done], p) &&
        totalSent == CountSuccesses(outcomes[..done])
      invariant forall j | 0 <= j < |batches| ::
        0 < |batches[j]| <= BatchSize && (j < |batches| - 1 || i <= n ==> |batches[j]| == BatchSize)
    {
      var hi := if i + BatchSize < n then i + BatchSize else n;
      var batch := targets[i..hi];
      var messages: seq<Message> := [];
      for k := 0 to |batch|
        invariant messages == PromoOutbox(batch[..k], p)
      {
        var m := BuildPromoMessage(batch[k].fcmToken, p);
        assert batch[..k + 1] == batch[..k] + [batch[k]];
        PromoOutboxAppend(batch[..k], [batch[k]], p);
        messages := messages + [m];
      }
      assert batch[..|batch|] == batch;
      assert targets[..hi] == targets[..i] + batch;
      PromoOutboxAppend(targets[..i], batch, p);
      assert outcomes[..hi] == outcomes[..i] + outcomes[i..hi];
      CountSuccessesAppend(outcomes[..i], outcomes[i..hi]);
      totalSent := totalSent + CountSuccesses(outcomes[i..hi]);
      assert (batches + [messages])[..|batches|] == batches;
      batches := batches + [messages];
      i := i + BatchSize;
    }
    assert targets[..n] == targets && outcomes[..n] == outcomes;
  }

  /** The `notification_logs` row written once per campaign. */
  datatype CampaignLog = CampaignLog(
    kind: string,
    title: string,
    targetCount: nat,
    sentCount: nat,
    payload: PromoPayload,
    createdAt: string)

  /** The JSON the handler answers with. */
  datatype PromoResponse =
    | NoDevicesFound                          // { success: false, message: 'No devices found' }
    | PromoSent(sent: nat, totalDevices: nat) // { success: true, sent, total_devices }
  {
    predicate Success() { PromoSent? }
  }

  /** What one invocation produces: HTTP status, response body, the log row
      (if written) and the messages handed to FCM, batch by batch. */
  datatype PromoReply = PromoReply(
    httpStatus: int,
    response: PromoResponse,
    log: Option<CampaignLog>,
    batches: seq<seq<Message>>)

  /** The handler. `activeRows` are the active `user_devices` rows (`None`
      when the query failed or returned null), `profiles` the ids returned
      by the profile query, `now` the log's timestamp, and `outcomes[k]`
      whether the k-th send succeeded. */
  method SendPromotionalNotification(
    p: PromoPayload, activeRows: Option<seq<Device>>, profiles: Option<seq<string>>, now: string, outcomes: seq<bool>)
    returns (r: PromoReply)
    requires |outcomes| == |Recipients(p, activeRows, profiles)|
    ensures r.httpStatus == 200
    ensures r.response.Success() <==> activeRows.Some? && QueryDevices(activeRows.value, p.targetUsers) != []
    ensures !r.response.Success() ==> r.log.None? && r.batches == []
    ensures r.response.Success() ==>
      var targets := Recipients(p, activeRows, profiles);
      r.response.totalDevices == |targets| &&
      r.response.sent == CountSuccesses(outcomes) && r.response.sent <= r.response.totalDevices &&
      r.log == Some(CampaignLog("promotional", p.title, r.response.totalDevices, r.response.sent, p, now)) &&
      Flatten(r.batches) == PromoOutbox(targets, p) && CutEvery(r.batches, BatchSize)
  {
    if activeRows.None? || QueryDevices(activeRows.value, p.targetUsers) == [] {
      return PromoReply(200, NoDevicesFound, None, []);
    }
    var devices := QueryDevices(activeRows.value, p.targetUsers);
    var targetDevices := devices;
    if NonEmptyList(p.targetSegments) {
      if profiles.Some? {
        targetDevices := KeepUsers(devices, profiles.value);
      }
    }
    var totalSent, batches := SendInBatches(targetDevices, p, outcomes);
    var log := CampaignLog("promotional", p.title, |targetDevices|, totalSent, p, now);
    r := PromoReply(200, PromoSent(totalSent, |targetDevices|), Some(log), batches);
  }
}
