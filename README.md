# IoT gateway message aggregation, modelled in Dafny

The repository bridges an MQTT broker to browser dashboards. Two independent
pieces of it hold state built from broker messages, and both are modelled here.

- **`MQTTHandler`** (`Web/mqtt-handler.js`) is the Node gateway. It classifies
  each inbound topic by prefix and labels its source (`device`, `external` or
  `server`). It folds the message into the shared snapshot `sharedData`:
  - device topics `iot/from_device/<type>` go to newest-first lists capped at 50;
  - broadcast topics `iot/broadcast/<type>` go to newest-first top-level lists
    capped at 100.

  It then stamps `lastUpdate` and emits `'mqtt-message'` and then
  `'data-update'` to the realtime server. Its outgoing sends are gated on the
  broker connection. `sendNotification` also records an `outgoing` entry,
  without a cap.
- **`on_message`** (`server.py`) is the Flask server's callback. An exact topic
  match overwrites one of three last-value globals. Every message is appended
  to an oldest-first log capped at 30.

Files:

- `jstext.dfy` (module `JsText`): JavaScript `includes`, `startsWith` (Dafny's
  `<=` on sequences) and `split('/')`, with `split`'s inverse `Join`.
- `bounded.dfy` (module `Bounded`): the two capped-list disciplines.
  - `unshift` then `pop` is `PrependCapped`; a stream of them is `Feed`.
  - `append` then `pop(0)` is `AppendCapped`; a stream of them is `FeedLog`.
  - Each stream is tied to a reference definition: the newest or latest `cap`
    elements seen.
- `mqtt_handler.dfy` (module `MqttHandler`): the data model, the pure steps
  `RouteOf`, `DeviceStep`, `BroadcastStep`, `Ingest` and `RecordOutgoing`, and
  the class `MQTTHandler`. The four methods that fold in messages or record a
  notification (`HandleDeviceMessage`, `HandleBroadcastMessage`,
  `HandleMessage`, `SendNotification`) are proved against those steps. The
  publishing and query methods are specified by the `published` trace and
  the fields they read.
  - Its object invariant `Valid()` holds every capped history within its cap.
- `mqtt_properties.dfy` (module `MqttHandlerProperties`): the source label
  against the routing decision, the shared top-level namespace, streams of
  messages on one category, and commutation of messages on different
  categories.
- `server.dfy` (module `FlaskServer`): the class `Server` and its log lemmas.

Modelling choices:

- **The snapshot.** `sharedData` is a `map<string, Slot>`. A `Slot` is the
  `devices` table, an array of entries, or the `lastUpdate` string. Broadcast
  categories are top-level keys, so they share a namespace with `devices`,
  `commands`, `notifications` and `lastUpdate`. The model follows JavaScript
  exactly here:
  - A broadcast on `devices` throws a TypeError, because `unshift` is not a
    method of the table.
  - A broadcast on `lastUpdate` also throws while it holds a non-empty string.
  - A broadcast on `commands` writes into the `commands` history.
  - A category called like a member every object inherits (`constructor`,
    `toString`, `__proto__`, ...) throws unless it is already an own key. This
    holds at both levels.
  - A missing or falsy property is first replaced by an empty array.
- **A thrown TypeError.** `HandleMessage` returns `false`. Nothing is changed,
  `lastUpdate` is not stamped and nothing is emitted, as in the source, where
  the exception leaves `handleMessage` before those lines.
- **The category.** It is `topic.split('/')[2]`. Below either prefix that is
  the remainder up to its first `/`, the empty string included.
  `handleDeviceMessage` and `handleBroadcastMessage` can also be called
  directly. There a missing third segment is `undefined` (the `Segment` value
  `Undefined`). It is filed under the property key `"undefined"`, and the
  stored entry's `type` stays `undefined`, which `JSON.stringify` leaves out
  of `data-update`.
- **Inputs.**
  - The two clock reads of `handleMessage` are the parameters `localTime` and
    `isoTime`. They are the `toLocaleString('fr-FR')` stamp on entries and the
    `toISOString()` stamp in `lastUpdate`. The constructor's read is `isoNow`.
  - `this.mqttClient && this.mqttClient.connected` is the field `connected`,
    kept by the broker client.
  - `this.io` being set is the field `hasEmitter`.
- **Outputs.** Every `io.emit` is appended to `emitted` as an
  (event, payload) pair. Every `mqttClient.publish` is appended to `published`.

Where the code and the intended design differ, the model follows the code:

- `notifications` is not bounded by 100. `sendNotification` prepends without a
  cap. A received broadcast on a list already over 100 drops one entry and so
  keeps its length (`NotificationsCanExceedCap`). The cap invariant
  `WithinCaps` therefore covers every history except `notifications`.
- The source label has three values. `external` is given to topics starting
  with `mqttx_e5db9327` that do not contain `from_device`.
- The label uses `includes('from_device')` while routing uses
  `startsWith('iot/from_device/')`, so the two can disagree
  (`BroadcastLabelledDevice`, `ExternalLabelledDevice`).
- An empty category is accepted: `iot/from_device/` creates the key `""`.
- Some categories throw a TypeError: `devices`, `lastUpdate`, and the names
  inherited from `Object.prototype`. The exception is not contained at all.

## Model

| member | source | states |
|---|---|---|
| `JsText.Split` | Web/mqtt-handler.js:84 | `split('/')` never returns an empty array, and no piece contains the separator |
| `JsText.JoinSplit` | Web/mqtt-handler.js:84 | joining the pieces of a split with the separator gives back the original topic |
| `JsText.SplitJoin` | Web/mqtt-handler.js:84 | splitting undoes joining pieces that do not contain the separator |
| `JsText.IncludesInfix` | Web/mqtt-handler.js:66 | `includes` finds an occurrence after any prefix |
| `JsText.IncludesHasOccurrence` | Web/mqtt-handler.js:66 | whenever `includes` holds, the string is some `a + sub + b` |
| `JsText.Includes` | Web/mqtt-handler.js:66 | `topic.includes(sub)`; what it means, in both directions, is stated by `IncludesInfix` and `IncludesHasOccurrence` |
| `JsText.ThirdSegment` | Web/mqtt-handler.js:84 | `split('/')[2]` is defined exactly when the topic has more than two segments, and then holds no '/'; otherwise it is `undefined`, whose property key is `"undefined"` |
| `JsText.TwoSegmentsHaveNoThird` | Web/mqtt-handler.js:84 | a two-segment topic `x/y` has `undefined` as its third segment |
| `JsText.ThirdSegmentBelow` | Web/mqtt-handler.js:84 | below a two-segment prefix, `split('/')[2]` is the remainder up to its first '/' |
| `Bounded.PrependCapped` | Web/mqtt-handler.js:96-100 | after `unshift` and pop-if-over-cap, element 0 is the new one; the rest is the previous list with at most its last element dropped; it is dropped exactly when the list already held `cap`; a list within the cap stays within it |
| `Bounded.Feed` | Web/mqtt-handler.js:96-100 | a newest-first history fed from within its cap stays within its cap |
| `Bounded.FeedKeepsNewest` | Web/mqtt-handler.js:96-100 | a stream of insertions leaves the newest `cap` elements seen, newest first |
| `Bounded.OneOverCapEvictsFirst` | Web/mqtt-handler.js:96-100 | `cap + 1` insertions into an empty history evict exactly the first one |
| `Bounded.AppendCapped` | server.py:33-35 | after `append` and `pop(0)`-if-over-cap, the new entry is last; only index 0 can be dropped, exactly when the log already held `cap`; a log within the cap stays within it |
| `Bounded.FeedLog` | server.py:33-35 | an oldest-first log fed from within its cap stays within its cap |
| `Bounded.FeedLogKeepsLatest` | server.py:33-35 | a stream of appends leaves the latest `cap` entries seen in their original order |
| `MqttHandler.SourceOf` | Web/mqtt-handler.js:66 | the `source` label: `device` iff the topic contains `from_device`, else `external` iff it starts with `mqttx_e5db9327`, else `server`; its meaning is stated by `SourceIsDeviceIffMarker` and the lemmas after it |
| `MqttHandler.Truthy` | Web/mqtt-handler.js:86-106 | the `!x` test: a stored array or object is truthy, a string only when non-empty; `BroadcastStep`'s throw condition and `BroadcastOnLastUpdateThrows` rely on it |
| `MqttHandler.RouteOf` | Web/mqtt-handler.js:69-84 | device route iff the topic starts with `iot/from_device/`; broadcast route iff it starts with `iot/broadcast/`; the category is then the defined third segment `split('/')[2]`, which is the remainder after the prefix up to its first '/' |
| `MqttHandler.InitialSnapshot` | Web/mqtt-handler.js:7-17 | the initial snapshot is well formed and within caps, with empty `rfid`, `fingerprint` and `status` device lists and `lastUpdate` set to the start time |
| `MqttHandler.DeviceStep` | Web/mqtt-handler.js:83-101 | throws iff the category is not an own key and names an inherited member; otherwise only that category changes, and its list is the new reading in front of the previous list, which loses its last element only when it already held 50; an unseen category starts empty |
| `MqttHandler.BroadcastStep` | Web/mqtt-handler.js:103-119 | throws iff the top-level property is truthy but not an array, or an inherited member; otherwise only that key changes, and its list is the new entry in front of the previous list, which loses its last element only when it already held 100; a missing or falsy property starts empty |
| `MqttHandler.Ingest` | Web/mqtt-handler.js:69-75 | a handled message changes only the routed key and `lastUpdate`, which it always stamps; an unrouted message never throws; well-formedness is kept |
| `MqttHandler.Emissions` | Web/mqtt-handler.js:77-80 | two events, `'mqtt-message'` carrying the message and its source label, then `'data-update'` carrying the updated snapshot |
| `MqttHandler.RecordOutgoing` | Web/mqtt-handler.js:138-142 | exactly one `direction: 'outgoing'` entry is put in front of `notifications`, with no cap; every other key is unchanged |
| `MqttHandler.IngestKeepsCaps` | Web/mqtt-handler.js:55-119 | handling a message keeps every device list within 50 and every top-level list other than `notifications` within 100 |
| `MqttHandler.DeviceStepKeepsCaps` | Web/mqtt-handler.js:96-100 | a device message keeps every list within its cap |
| `MqttHandler.BroadcastStepKeepsCaps` | Web/mqtt-handler.js:110-118 | a broadcast message keeps every capped list within its cap |
| `MqttHandler.StampKeepsCaps` | Web/mqtt-handler.js:75 | stamping `lastUpdate` keeps every list within its cap |
| `MqttHandler.RecordOutgoingKeepsCaps` | Web/mqtt-handler.js:138-142 | recording an outgoing notification keeps every capped list within its cap |
| `MqttHandler.MQTTHandler.constructor` | Web/mqtt-handler.js:4-19 | initial snapshot, no broker connection, no realtime server, nothing emitted or published |
| `MqttHandler.MQTTHandler.HandleDeviceMessage` | Web/mqtt-handler.js:83-101 | for any topic, the create / unshift / pop steps give exactly `DeviceStep` on the device table with the topic's third segment, `undefined` included, and the cap invariant is kept |
| `MqttHandler.MQTTHandler.HandleBroadcastMessage` | Web/mqtt-handler.js:103-119 | for any topic, the create / unshift / pop steps give exactly `BroadcastStep` on the top-level keys with the topic's third segment, `undefined` included, and the cap invariant is kept |
| `MqttHandler.MQTTHandler.HandleMessage` | Web/mqtt-handler.js:55-81 | the new snapshot is `Ingest` of the old one; with a realtime server attached, exactly the two `Emissions` are appended, the second carrying the new snapshot; none without one; nothing changes when a step throws |
| `MqttHandler.MQTTHandler.PublishToMqtt` | Web/mqtt-handler.js:121-130 | returns whether connected; publishes once when connected, otherwise nothing |
| `MqttHandler.MQTTHandler.SendNotification` | Web/mqtt-handler.js:133-148 | returns whether connected; when connected it publishes on `iot/broadcast/notifications` and records via `RecordOutgoing`; when disconnected nothing changes |
| `MqttHandler.MQTTHandler.SendCommandToDevice` | Web/mqtt-handler.js:151-153 | returns whether connected; publishes on `iot/to_device/commands` when connected; never changes the snapshot |
| `MqttHandler.MQTTHandler.GetSharedData` | Web/mqtt-handler.js:155-157 | returns the current snapshot |
| `MqttHandler.MQTTHandler.IsConnected` | Web/mqtt-handler.js:159-161 | returns the broker connection state |
| `MqttHandlerProperties.SourceIsDeviceIffMarker` | Web/mqtt-handler.js:66 | the label is `device` exactly when the topic contains `from_device` |
| `MqttHandlerProperties.DeviceRouteIsLabelledDevice` | Web/mqtt-handler.js:66-70 | every topic routed to the device table is labelled `device` |
| `MqttHandlerProperties.BroadcastLabelledDevice` | Web/mqtt-handler.js:66-72 | a broadcast on category `from_device...` is routed as a broadcast but labelled `device` |
| `MqttHandlerProperties.ExternalLabelledDevice` | Web/mqtt-handler.js:66-73 | an external-namespace topic containing `from_device` is labelled `device` and routed nowhere |
| `MqttHandlerProperties.ExternalLabelledExternal` | Web/mqtt-handler.js:66 | an external-namespace topic without `from_device` is labelled `external` |
| `MqttHandlerProperties.DeviceTopicCategory` | Web/mqtt-handler.js:69-70 | `iot/from_device/<c>` and `iot/from_device/<c>/...` route to device category `c` |
| `MqttHandlerProperties.BroadcastTopicCategory` | Web/mqtt-handler.js:71-72 | `iot/broadcast/<c>` and `iot/broadcast/<c>/...` route to broadcast category `c` |
| `MqttHandlerProperties.RfidTopicRoutesToDevice` | Web/mqtt-handler.js:69-70 | `iot/from_device/rfid` routes to device category `rfid` |
| `MqttHandlerProperties.AlertsTopicRoutesToBroadcast` | Web/mqtt-handler.js:71-72 | `iot/broadcast/alerts` routes to broadcast category `alerts` |
| `MqttHandlerProperties.CommandAndBareTopicsUnrouted` | Web/mqtt-handler.js:69-73 | `iot/to_device/commands` and `foo` are routed nowhere |
| `MqttHandlerProperties.DeviceMessageEffect` | Web/mqtt-handler.js:84-100 | after a device message, its list is within 50, element 0 is the new reading, and the rest is the previous list with at most its last reading dropped; other device categories and top-level keys are unchanged; `lastUpdate` is stamped |
| `MqttHandlerProperties.BroadcastMessageEffect` | Web/mqtt-handler.js:104-118 | after a broadcast message, its list is newest-first, within 100 unless it is `notifications`, and loses an entry exactly when it already held 100; every other key except `lastUpdate` is unchanged |
| `MqttHandlerProperties.UnroutedOnlyStamps` | Web/mqtt-handler.js:69-75 | a topic matching neither prefix only stamps `lastUpdate` |
| `MqttHandlerProperties.DirectDeviceCallWithoutCategory` | Web/mqtt-handler.js:83-96 | a direct device call on a two-segment topic files the reading under `"undefined"` with its `type` left `undefined` |
| `MqttHandlerProperties.BroadcastOnDevicesThrows` | Web/mqtt-handler.js:106-110 | `iot/broadcast/devices` throws |
| `MqttHandlerProperties.BroadcastOnLastUpdateThrows` | Web/mqtt-handler.js:106-110 | `iot/broadcast/lastUpdate` throws while `lastUpdate` holds a non-empty timestamp |
| `MqttHandlerProperties.BroadcastOnCommandsFillsCommands` | Web/mqtt-handler.js:106-118 | `iot/broadcast/commands` puts a broadcast entry in front of the `commands` history |
| `MqttHandlerProperties.InheritedNameThrows` | Web/mqtt-handler.js:86-96 | a category named `constructor` throws, as a device and as a broadcast category |
| `MqttHandlerProperties.NotificationsCanExceedCap` | Web/mqtt-handler.js:116-118 | a `notifications` list already over 100 keeps its length when a notification arrives |
| `MqttHandlerProperties.Readings` | Web/mqtt-handler.js:90-94 | the reading object built for each message of a stream |
| `MqttHandlerProperties.DeviceStream` | Web/mqtt-handler.js:83-101 | a stream of device messages on one category, one `DeviceStep` after the other; its content is stated by `DeviceStreamFeeds` and `DeviceStreamKeepsNewest` |
| `MqttHandlerProperties.DeviceStreamFeeds` | Web/mqtt-handler.js:83-101 | a stream of device messages on a writable category never throws, feeds that category's capped history one reading at a time, and leaves the other categories alone |
| `MqttHandlerProperties.DeviceStreamKeepsNewest` | Web/mqtt-handler.js:96-100 | a stream on one category leaves the newest 50 readings seen, newest first |
| `MqttHandlerProperties.FiftyOneReadingsEvictTheFirst` | Web/mqtt-handler.js:86-100 | readings `v1..v51` on an empty or unseen writable category leave `v51, ..., v2` |
| `MqttHandlerProperties.FiftyOneRfidReadingsFromStart` | Web/mqtt-handler.js:96-100 | from the constructor's snapshot (lines 7-17, where `rfid` starts empty), 51 `rfid` readings leave the last 50, newest first |
| `MqttHandlerProperties.DeviceStepsCommute` | Web/mqtt-handler.js:83-101 | two device messages whose categories have different keys give the same table in either order |
| `FlaskServer.Server.constructor` | server.py:8-11 | `"Aucun"`, `"Aucun"`, `"Fermé"` and an empty log |
| `FlaskServer.Server.OnMessage` | server.py:22-35 | an exact topic match overwrites only its own variable, so at most one of the three changes; any other topic changes none of them; the log becomes `AppendCapped` of the old log and `"[" + topic + "] " + payload`, within 30 |
| `FlaskServer.LogAfterMessage` | server.py:33-35 | after a message the log is within 30, ends with that message's line, and otherwise is the previous log with at most index 0 dropped |
| `FlaskServer.LogLine` | server.py:33 | the f-string `"[" + topic + "] " + payload`; `Lines` and `OnMessage` state where it goes |
| `FlaskServer.Lines` | server.py:33 | the log line of each message of a stream |
| `FlaskServer.LogHoldsLatestThirty` | server.py:33-35 | from the empty log, the log holds the lines of the latest 30 messages, oldest first |

## Left out

- `MQTTHandler.connect` (Web/mqtt-handler.js:21-53): the broker connection, the reconnect options, subscriptions and error logging belong to the `mqtt` library. Only its effect, the `connected` flag, is modelled.
- MQTT delivery: the broker echoes the gateway's own notifications back through the `iot/broadcast/+` subscription, so each one would also arrive as a broadcast. The broker is not modelled; such an echo is just another `HandleMessage` call.
- What the Node runtime does with a TypeError thrown out of `handleMessage` (most likely an uncaught exception). The model stops at "nothing changed, nothing emitted".
- Clock reads (`Date`, `toLocaleString`, `toISOString`) are opaque string parameters. Their formats are not modelled.
- `message.toString()` decodes the payload; payloads are modelled as already-decoded strings. The same holds for `msg.payload.decode()` in `server.py`, whose decoding error is not modelled.
- All `console.*` and `print` logging.
- `GetSharedData`: JavaScript returns a live reference to `sharedData`; the model returns a copy, so aliasing by callers is not captured.
- How socket.io serializes and delivers an emitted payload to browsers. `emitted` records the calls only.
- `Web/Serveur.js` (routes, static files, realtime wiring) is not part of this model. It calls `sendCommand`, which `MQTTHandler` does not define, and it admits every realtime connection with no authorization check. So there is no command recording and no access gate to model.
- `Web/public/dashboard.js` and `static/script.js` are not part of this model: they are browser UI code.
- `server.py` outside `on_message`: the Flask routes, the `client.publish` in `api_open`, and the thread running `loop_forever`. The model does not cover concurrency between the MQTT thread and HTTP readers.
