# Push-notification selection and dispatch counting

A Dafny model of the three push-notification handlers of a food-delivery
backend (Supabase edge functions that send Firebase Cloud Messaging
messages):

- **Order status** (`OrderNotification`, `order_notification.dfy`): a status
  string picks a `{title, body}` template from a table of seven statuses
  (`confirmed`, `preparing`, `ready_for_pickup`, `out_for_delivery`,
  `nearby`, `delivered`, `cancelled`). Any other status gets the generic
  "Order Update" text, which names the restaurant and echoes the raw
  status. The message goes to every active device of the user, and the
  handler reports `sent` (successful sends) and `total` (devices).
- **Driver proximity** (`DriverLocationNotification`,
  `driver_location_notification.dfy`): the request's `distance_km` and
  `eta_minutes` are used unless absent or zero (JavaScript `||`). Otherwise
  the computed great-circle distance is used, and the ETA becomes
  `ceil(distance / 0.5)` minutes. The distance falls into one of three
  tiers (below 0.5 km, below 1.5 km, farther). Each tier has its own title,
  body and `type` tag. The very-near body says "minute" or "minutes"
  according to the ETA.
- **Promotional broadcast** (`PromotionalNotification`,
  `promotional_notification.dfy`): active devices are narrowed to the
  `target_users`, when that list is non-empty. When segments are named and
  the profile query returns a result, the devices are narrowed further to
  those whose user has a profile. The message is then sent in consecutive
  batches of 500. A campaign log row is written, and the success count is
  returned.

Shared pieces:

- `Fcm` (`fcm.dfy`) holds the message shape, the device row and the
  success count (`results.filter(r => r.success).length`).
- `JsValues` (`js_values.dfy`) holds optional JSON fields, JavaScript
  truthiness and the string predicates used in the contracts.

Inputs the model takes as parameters instead of performing I/O:

- the rows of the store's queries, as `Option` sequences, where `None`
  stands for an error or null data;
- the computed distance;
- the number-to-text conversions, as the `NumberFormat` pair
  `String(x)` / `x.toFixed(1)`;
- the log timestamp;
- one boolean per send, saying whether FCM accepted that message.

Each handler returns its HTTP status, its JSON response and the messages
it hands to FCM in dispatch order. The promotional handler also returns
its log row, and its messages batch by batch.

The batching loop is a `method` with a `while` loop, as in the source.
The same holds for the reassignment of `targetDevices` and for the
in-place addition of the image fields (`BuildPromoMessage`). The rest is
functions and lemmas.

Where the code and its design description differ, the model follows the
code. The one exception is the order-status lookup for the twelve names a
JavaScript object inherits from `Object.prototype` (see "## Findings"):
the lookup is modelled both as written and corrected, and the order
handler uses the corrected one. The other differences:

- The promotional segment step never uses the segment names. The profile
  query asks only for the ids of the devices' users, so any user with a
  profile is kept (`SegmentNamesUnused`).
- After that step, the target list can be empty. The handler then still
  answers `success: true` with zero counts and writes a log row.
- The three driver titles are stored in their source file as the
  Windows-1252 reading of the emoji's UTF-8 bytes (for example `ðŸ“`
  instead of the pin emoji). The model uses those characters as stored.

## Model

| member | source | states |
|---|---|---|
| `Fcm.CountSuccesses` | supabase/functions/send-order-notification/index.ts:61-62 | The success count never exceeds the number of sends. It equals that number exactly when every send succeeded, and is zero exactly when none did. |
| `Fcm.CountSuccessesIsMultiplicity` | supabase/functions/send-order-notification/index.ts:61 | The count is the number of `true` outcomes, whatever their order, so the order in which concurrent sends finish does not matter. |
| `Fcm.CountSuccessesAppend` | supabase/functions/send-promotional-notification/index.ts:81 | Counting two runs of sends gives the sum of their counts. This is what makes the per-batch `totalSent +=` equal to one count over all devices. |
| `Fcm.OneFailureCostsOne` | supabase/functions/send-order-notification/index.ts:159-169 | A per-token failure is isolated: one failed send lowers the count by exactly one and changes no other send's contribution. |
| `OrderNotification.NotificationForStatus` | supabase/functions/send-order-notification/index.ts:76-114 | Every status yields a non-empty title and body. The title is "Order Update" exactly for the statuses outside the seven known ones. For those, the body contains both the restaurant name and the raw status. (Corrected lookup: own keys of the table only.) |
| `OrderNotification.NotificationForStatusAsWritten` | supabase/functions/send-order-notification/index.ts:110-113 | The lookup as written, `notifications[status] \|\| fallback`, yields no template exactly for the names inherited from `Object.prototype`. |
| `OrderNotification.InheritedStatusNameFindsNoTemplate` | supabase/functions/send-order-notification/index.ts:110 | For status "constructor", the lookup as written finds no title or body, while the corrected lookup gives the generic fallback. |
| `OrderNotification.AsWrittenAgreesOffPrototype` | supabase/functions/send-order-notification/index.ts:110-113 | For every status that is not an inherited name, the lookup as written and the corrected lookup agree. |
| `OrderNotification.TitleIdentifiesStatus` | supabase/functions/send-order-notification/index.ts:77-108 | Each known status has its own fixed title: equal titles imply equal statuses, whatever the restaurant or ETA. |
| `OrderNotification.TitleFixedPerStatus` | supabase/functions/send-order-notification/index.ts:77-113 | The title depends on the status alone: two calls with the same status give the same title, whatever the restaurant name and estimated time. |
| `OrderNotification.OnTheWayEtaSuffix` | supabase/functions/send-order-notification/index.ts:90-95 | With a present, non-empty estimated time, the out_for_delivery body is the ETA-less body followed by " ETA: " and that time. An absent or empty time gives the ETA-less notification. |
| `OrderNotification.NearbyIgnoresOrderDetails` | supabase/functions/send-order-notification/index.ts:96-99 | The nearby notification is the same for every restaurant name and ETA. |
| `OrderNotification.EtaOnlyMattersOnTheWay` | supabase/functions/send-order-notification/index.ts:77-108 | For every status other than out_for_delivery, the estimated time does not change the notification. |
| `OrderNotification.SendOrderNotification` | supabase/functions/send-order-notification/index.ts:31-62 | A failed, null or empty device query gives `success: false` with status 200, and nothing is sent. Otherwise every device gets the same message, carrying the status template and `type: order_status`. The response has `total` = number of devices and `sent` = successful sends ≤ `total`. |
| `DriverLocationNotification.TierFor` | supabase/functions/send-driver-location-notification/index.ts:55-73 | The tiers partition the distances exactly: below 0.5 very near, from 0.5 to below 1.5 nearby, 1.5 and above location update (each an if-and-only-if). |
| `DriverLocationNotification.TierMonotone` | supabase/functions/send-driver-location-notification/index.ts:55-73 | A shorter distance never selects a more remote tier. |
| `DriverLocationNotification.TypeTagIdentifiesTier` | supabase/functions/send-driver-location-notification/index.ts:59-71 | The three `type` tags are distinct, so the tag identifies the tier. |
| `DriverLocationNotification.Ceil` | supabase/functions/send-driver-location-notification/index.ts:50 | `Math.ceil` returns the least integer that is not below its argument. |
| `DriverLocationNotification.ChosenDistance` | supabase/functions/send-driver-location-notification/index.ts:43-48 | A supplied non-zero distance is used as is. An absent or zero one gives way to the computed distance, so a zero result means the computed distance was zero. |
| `DriverLocationNotification.ChosenEta` | supabase/functions/send-driver-location-notification/index.ts:50 | A supplied non-zero ETA is used as is. Otherwise the ETA is the fewest whole minutes in which 0.5 km per minute covers the distance. |
| `DriverLocationNotification.DriverNotification` | supabase/functions/send-driver-location-notification/index.ts:53-73 | The notification is the one of the tier the distance falls in. |
| `DriverLocationNotification.MinuteWording` | supabase/functions/send-driver-location-notification/index.ts:58 | The very-near body ends in "minutes. Get ready!" exactly when the ETA exceeds 1, and in " minute. Get ready!" exactly when it does not. |
| `DriverLocationNotification.CloseDriverArrivesInOneMinute` | supabase/functions/send-driver-location-notification/index.ts:50-58 | With no ETA supplied, a distance strictly between 0 and 0.5 km gives an ETA of 1 and the singular "minute". |
| `DriverLocationNotification.SendDriverLocationNotification` | supabase/functions/send-driver-location-notification/index.ts:35-98 | An unusable device query gives `success: false`, and nothing is sent. Otherwise the distance is the supplied one unless absent or zero, else the computed one, and the ETA is chosen from it. Every device gets the same message, whose `type` is the tier's tag. The response echoes the distance and ETA, and `sent` ≤ number of devices. |
| `PromotionalNotification.KeepUsers` | supabase/functions/send-promotional-notification/index.ts:52-56 | The kept devices are devices of the input whose owner is among the given ids, and there are no more of them than input devices. |
| `PromotionalNotification.KeepUsersIsSubsequence` | supabase/functions/send-promotional-notification/index.ts:56 | Filtering keeps the original order: the result is a subsequence of the devices. |
| `PromotionalNotification.KeepUsersMultiplicity` | supabase/functions/send-promotional-notification/index.ts:56 | A device whose owner is listed is kept as often as it occurs. Any other device is dropped. |
| `PromotionalNotification.KeepUsersExact` | supabase/functions/send-promotional-notification/index.ts:56 | For every device at once: a device whose owner is listed is kept as often as it occurs, and any other device is dropped. |
| `PromotionalNotification.QueryDevices` | supabase/functions/send-promotional-notification/index.ts:26-34 | With a non-empty `target_users`, every active device of a listed user is returned, as often as it occurs, and no other device. Otherwise all active devices are returned. |
| `PromotionalNotification.TargetDevicesSpec` | supabase/functions/send-promotional-notification/index.ts:46-58 | With segments and a profile result, the targets are exactly the devices whose user has a profile, in their original order. With no segments or a null profile result, the targets are the devices unchanged. |
| `PromotionalNotification.SegmentNamesUnused` | supabase/functions/send-promotional-notification/index.ts:47-53 | Any two non-empty segment lists select the same targets. |
| `PromotionalNotification.PromoMessage` | supabase/functions/send-promotional-notification/index.ts:120-150 | A non-empty image URL is set on the notification, the Android notification and the APNs `fcm_options`. Without one, none of the three has an image. The data is exactly `type = promotion`, with `action_url` and `restaurant_id` defaulting to the empty string. |
| `PromotionalNotification.BuildPromoMessage` | supabase/functions/send-promotional-notification/index.ts:143-150 | Building the fixed message and then setting the image fields in place yields that message. |
| `PromotionalNotification.SendInBatches` | supabase/functions/send-promotional-notification/index.ts:61-82 | The batches are consecutive slices of at most 500, all full but the last, and there are ceil(n/500) of them. Joined, they are one message per target in order, so every device is sent to exactly once. `totalSent` is the number of successful sends, at most the number of targets. |
| `PromotionalNotification.SendPromotionalNotification` | supabase/functions/send-promotional-notification/index.ts:36-99 | A failed, null or empty device query gives `success: false`, with no log row and no sends. Otherwise `total_devices` is the number of targets and `sent` the number of successful sends. The log row records the same two numbers as `target_count` and `sent_count`, with type "promotional". The batches carry each target's message once. |

## Findings

| source | as written | input that shows it | evidently intended | confidence | as-written member | corrected member |
|---|---|---|---|---|---|---|
| supabase/functions/send-order-notification/index.ts:110 | The table is a plain object literal, so `notifications[status]` also finds the members it inherits from `Object.prototype`. These are truthy, so the `\|\|` fallback is skipped and the message has no title and no body. | status `"constructor"` (likewise `"toString"`, `"__proto__"`, …) | The generic "Order Update" template, as for every other unknown status | high for the lookup behaviour (JavaScript property semantics); low practical impact; not executed | `OrderNotification.InheritedStatusNameFindsNoTemplate` | `OrderNotification.NotificationForStatus` |

## Left out

- `calculateDistance` / `toRadians` (the Haversine formula): floating-point trigonometry. The computed distance is an input.
- `toString` and `toFixed(1)`: float-to-text conversion. The `NumberFormat` parameter stands for them.
- JavaScript numbers: distances and ETAs are exact reals, so rounding and `NaN` (a falsy number) are not modelled.
- The HTTP envelope of each send (URL, headers, `JSON.stringify`, `fetch`, reading the error text): network I/O. A send is reduced to its message and a caller-supplied success flag, and the per-send error strings are dropped.
- `Promise.all` concurrency: the sends are modelled in dispatch order. The count does not depend on that order (`CountSuccessesIsMultiplicity`).
- Supabase client construction, queries and the log insert: store I/O. Query results are inputs, and the log row is an output.
- The profile query's own restriction to the devices' user ids: it cannot change which devices are kept, so the returned ids are the input.
- The order in which the store returns rows: the model keeps whatever order it is given.
- `console.log` / `console.error`, environment-variable lookups, the `catch` → 500 paths and CORS: host plumbing.
- initialize-paystack-payment, verify-paystack-payment, the Android build script and the iOS app delegate: single upstream calls and platform configuration, with no selection or counting logic.
- `DriverLocationNotification.DriverNotification`: its contract states only the tier. The nearby and location-update texts are fixed by its definition and not characterised further, because they only concatenate the formatted numbers.
- `SendOrderNotification`, `SendDriverLocationNotification`, `SendPromotionalNotification`: each requires exactly one outcome per send. The outcome list is a model input that stands for the push service's answers.
- `SendOrderNotification`: uses the corrected status lookup, `NotificationForStatus`. For the twelve `Object.prototype` names (for example "constructor") the handler as written sends a message with no title and no body, while the model sends the "Order Update" fallback. The as-written lookup is `NotificationForStatusAsWritten`; see "## Findings".
- `DriverLocationNotification.TypeTag` has no contract of its own; its property (distinct tags) is `TypeTagIdentifiesTier`, and its use in every message is in the `SendDriverLocationNotification` row.
- `OrderNotification.OrderMessage` (the message of send-order-notification/index.ts:44-53 and 131-154) has no contract of its own; the `SendOrderNotification` row states what every device receives.
- `DriverLocationNotification.DriverMessage` (the message of send-driver-location-notification/index.ts:77-89 and 145-171) has no contract of its own; the `SendDriverLocationNotification` row states what every device receives, including the `type` tag.
- `PromotionalNotification.PromoData` (send-promotional-notification/index.ts:72-76) has no contract of its own; the `PromoMessage` row states the data map.
