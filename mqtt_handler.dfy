/** The message-aggregation engine of the web gateway (class `MQTTHandler`):
    inbound broker messages are classified by topic, folded into the shared
    snapshot with capped newest-first histories, and announced to the
    realtime clients; outgoing sends are gated on the broker connection. */
module MqttHandler {
  import opened JsText
  import opened Bounded

  const Host: string := "mqtt://broker.emqx.io:1883"
  const DeviceCap: nat := 50
  const BroadcastCap: nat := 100
  const DevicePrefix: string := "iot/from_device/"
  const BroadcastPrefix: string := "iot/broadcast/"
  const DeviceMarker: string := "from_device"
  const ExternalPrefix: string := "mqttx_e5db9327"
  const NotificationTopic: string := BroadcastPrefix + "notifications"
  const CommandTopic: string := "iot/to_device/commands"

  /** Property names every plain JavaScript object inherits from
      `Object.prototype`. Looking one up where it is not an own key yields a
      function or an object: truthy, and without an `unshift` method. */
  const ObjectPrototypeNames: set<string> :=
    {"constructor", "__proto__", "hasOwnProperty", "isPrototypeOf",
     "propertyIsEnumerable", "toString", "toLocaleString", "valueOf",
     "__defineGetter__", "__defineSetter__", "__lookupGetter__", "__lookupSetter__"}

  /** An element of `devices[deviceType]`. Its `type` is the topic's third
      segment, `undefined` on a direct call with a shorter topic (and then
      left out of the JSON the clients receive). */
  datatype DeviceReading = DeviceReading(value: string, timestamp: string, deviceType: Segment)

  /** An element of a top-level history: a received broadcast, or a
      notification this gateway sent itself. */
  datatype Entry =
    | Broadcast(message: string, timestamp: string, broadcastType: Segment)
    | Outgoing(message: string, timestamp: string, direction: string)

  /** The value under a top-level key of `sharedData`: the `devices` object,
      an array, or the `lastUpdate` string. Broadcast categories live in the
      same namespace as `devices` and `lastUpdate`. */
  datatype Slot =
    | DeviceTable(table: map<string, seq<DeviceReading>>)
    | History(entries: seq<Entry>)
    | Stamp(text: string)

  type Snapshot = map<string, Slot>

  /** JavaScript truthiness of a stored value: objects and arrays (empty or
      not) are truthy, a string only when it is not empty. */
  predicate Truthy(s: Slot)
  {
    !s.Stamp? || s.text != ""
  }

  /** The outcome of a step that may throw a TypeError from calling
      `unshift` on something that is not an array. */
  datatype Result<T> = Ok(value: T) | TypeError

  datatype Source = Device | External | Server
  {
    function Name(): string
    {
      match this
      case Device => "device"
      case External => "external"
      case Server => "server"
    }
  }

  /** The `messageData` object sent with the 'mqtt-message' event. */
  datatype MessageData = MessageData(message: string, topic: string, timestamp: string, source: Source)

  datatype Payload = MessagePayload(data: MessageData) | SnapshotPayload(snapshot: Snapshot)

  /** One `io.emit(event, payload)` call. */
  datatype Emission = Emission(event: string, payload: Payload)

  /** One `mqttClient.publish(topic, message)` call. */
  datatype Publication = Publication(topic: string, message: string)

  /** Where an inbound message is folded into the snapshot. */
  datatype Route = ToDevice(deviceType: string) | ToBroadcast(broadcastType: string) | Unrouted

  // ---------------------------------------------------------------------
  // Classification

  /** The `source` label of an inbound message. */
  function SourceOf(topic: string): Source
  {
    if Includes(topic, DeviceMarker) then Device
    else if ExternalPrefix <= topic then External
    else Server
  }

  /** The routing decision of `handleMessage`: by prefix, with the category
      taken as the third '/'-separated segment of the topic, which is the
      remainder after the prefix up to its first '/'. */
  function RouteOf(topic: string): (r: Route)
    ensures r.ToDevice? <==> DevicePrefix <= topic
    ensures r.ToBroadcast? <==> BroadcastPrefix <= topic
    ensures r.ToDevice? ==> r.deviceType == Split(topic[|DevicePrefix|..], '/')[0]
    ensures r.ToBroadcast? ==> r.broadcastType == Split(topic[|BroadcastPrefix|..], '/')[0]
    ensures r.ToDevice? ==> ThirdSegment(topic) == Defined(r.deviceType)
    ensures r.ToBroadcast? ==> ThirdSegment(topic) == Defined(r.broadcastType)
  {
    assert DevicePrefix[4] != BroadcastPrefix[4];
    if DevicePrefix <= topic then
      assert topic == "iot" + "/" + "from_device" + "/" + topic[|DevicePrefix|..];
      ThirdSegmentBelow("iot", "from_device", topic[|DevicePrefix|..]);
      ToDevice(ThirdSegment(topic).text)
    else if BroadcastPrefix <= topic then
      assert topic == "iot" + "/" + "broadcast" + "/" + topic[|BroadcastPrefix|..];
      ThirdSegmentBelow("iot", "broadcast", topic[|BroadcastPrefix|..]);
      ToBroadcast(ThirdSegment(topic).text)
    else
      Unrouted
  }

  // ---------------------------------------------------------------------
  // The snapshot

  /** Every top-level key the constructor creates. */
  function InitialSnapshot(isoNow: string): (s: Snapshot)
    ensures WellFormed(s) && WithinCaps(s)
    ensures DevicesOf(s).Keys == {"rfid", "fingerprint", "status"}
    ensures forall c :: c in DevicesOf(s) ==> DevicesOf(s)[c] == []
    ensures "lastUpdate" in s && s["lastUpdate"] == Stamp(isoNow)
  {
    map["devices" := DeviceTable(map["rfid" := [], "fingerprint" := [], "status" := []]),
        "notifications" := History([]),
        "alerts" := History([]),
        "commands" := History([]),
        "lastUpdate" := Stamp(isoNow)]
  }

  /** The shape every operation relies on: `devices` holds the device table
      and `notifications` an array. */
  predicate WellFormed(s: Snapshot)
  {
    && "devices" in s && s["devices"].DeviceTable?
    && "notifications" in s && s["notifications"].History?
  }

  function DevicesOf(s: Snapshot): map<string, seq<DeviceReading>>
    requires WellFormed(s)
  {
    s["devices"].table
  }

  /** Every device history is within 50 entries; every top-level history
      other than `notifications` is within 100. `notifications` is also
      written by `SendNotification`, which applies no cap. */
  predicate WithinCaps(s: Snapshot)
    requires WellFormed(s)
  {
    && (forall c :: c in DevicesOf(s) ==> |DevicesOf(s)[c]| <= DeviceCap)
    && (forall k :: k in s && k != "notifications" && s[k].History? ==> |s[k].entries| <= BroadcastCap)
  }

  /** The array an insertion under `key` lands on: the existing one, or the
      empty array created for a missing or falsy property. */
  function EntriesAt(s: Snapshot, key: string): seq<Entry>
  {
    if key in s && s[key].History? then s[key].entries else []
  }

  function ReadingsAt(devices: map<string, seq<DeviceReading>>, key: string): seq<DeviceReading>
  {
    if key in devices then devices[key] else []
  }

  /** `handleDeviceMessage` on the device table. Only that category changes:
      its history gets the new reading in front of the previous history,
      which loses its oldest reading exactly when it already held 50. An
      unseen category starts empty. A name inherited from `Object.prototype`
      throws. */
  function DeviceStep(devices: map<string, seq<DeviceReading>>, deviceType: Segment,
                      value: string, timestamp: string): (r: Result<map<string, seq<DeviceReading>>>)
    ensures r.TypeError? <==> deviceType.Key() !in devices && deviceType.Key() in ObjectPrototypeNames
    ensures r.Ok? ==> r.value.Keys == devices.Keys + {deviceType.Key()}
    ensures r.Ok? ==> forall c :: c in devices && c != deviceType.Key() ==> r.value[c] == devices[c]
    ensures r.Ok? ==>
      var before, after := ReadingsAt(devices, deviceType.Key()), r.value[deviceType.Key()];
      && |after| == (if |before| < DeviceCap then |before| + 1 else |before|)
      && after[0] == DeviceReading(value, timestamp, deviceType)
      && after[1..] <= before
  {
    var key, reading := deviceType.Key(), DeviceReading(value, timestamp, deviceType);
    if key in devices then
      Ok(devices[key := PrependCapped(devices[key], reading, DeviceCap)])
    else if key in ObjectPrototypeNames then
      TypeError
    else
      Ok(devices[key := PrependCapped([], reading, DeviceCap)])
  }

  /** `handleBroadcastMessage` on the top-level keys. It throws exactly when
      the property is truthy but not an array (the device table, a non-empty
      timestamp, an inherited member). Otherwise only that key changes: its
      history gets the new entry in front of the previous one, which loses
      its oldest entry exactly when it already held 100. A missing or falsy
      property starts as an empty array. */
  function BroadcastStep(s: Snapshot, broadcastType: Segment, message: string,
                         timestamp: string): (r: Result<Snapshot>)
    ensures r.TypeError? <==>
      var key := broadcastType.Key();
      if key in s then Truthy(s[key]) && !s[key].History?
      else key in ObjectPrototypeNames
    ensures r.Ok? ==> r.value.Keys == s.Keys + {broadcastType.Key()}
    ensures r.Ok? ==> forall k :: k in s && k != broadcastType.Key() ==> r.value[k] == s[k]
    ensures r.Ok? ==> r.value[broadcastType.Key()].History?
    ensures r.Ok? ==>
      var before, after := EntriesAt(s, broadcastType.Key()), r.value[broadcastType.Key()].entries;
      && |after| == (if |before| < BroadcastCap then |before| + 1 else |before|)
      && after[0] == Broadcast(message, timestamp, broadcastType)
      && after[1..] <= before
  {
    var key, entry := broadcastType.Key(), Broadcast(message, timestamp, broadcastType);
    if key in s && Truthy(s[key]) then
      match s[key]
      case History(es) => Ok(s[key := History(PrependCapped(es, entry, BroadcastCap))])
      case _ => TypeError
    else if key !in s && key in ObjectPrototypeNames then
      TypeError
    else
      Ok(s[key := History(PrependCapped([], entry, BroadcastCap))])
  }

  /** The top-level key a routed message writes into, besides `lastUpdate`. */
  function TouchedKey(r: Route): string
  {
    match r
    case ToDevice(_) => "devices"
    case ToBroadcast(b) => b
    case Unrouted => "lastUpdate"
  }

  /** The snapshot after `handleMessage` folds one inbound message in and
      stamps `lastUpdate`; TypeError when the routed step throws, in which
      case `lastUpdate` is not stamped either. */
  function Ingest(s: Snapshot, topic: string, message: string, localTime: string,
                  isoTime: string): (r: Result<Snapshot>)
    requires WellFormed(s)
    ensures r.Ok? ==> WellFormed(r.value)
    ensures r.Ok? ==> "lastUpdate" in r.value && r.value["lastUpdate"] == Stamp(isoTime)
    ensures r.Ok? ==> r.value.Keys == s.Keys + {TouchedKey(RouteOf(topic)), "lastUpdate"}
    ensures r.Ok? ==> forall k :: k in s && k != TouchedKey(RouteOf(topic)) && k != "lastUpdate" ==>
                                  r.value[k] == s[k]
    ensures RouteOf(topic).Unrouted? ==> r.Ok?
  {
    var routed :=
      match RouteOf(topic)
      case ToDevice(c) =>
        (match DeviceStep(DevicesOf(s), Defined(c), message, localTime)
         case Ok(d) => Ok(s["devices" := DeviceTable(d)])
         case TypeError => TypeError)
      case ToBroadcast(b) => BroadcastStep(s, Defined(b), message, localTime)
      case Unrouted => Ok(s);
    match routed
    case Ok(t) => Ok(t["lastUpdate" := Stamp(isoTime)])
    case TypeError => TypeError
  }

  /** The two events `handleMessage` emits, in order. */
  function Emissions(topic: string, message: string, localTime: string, after: Snapshot): (es: seq<Emission>)
    ensures |es| == 2
    ensures es[0].event == "mqtt-message" && es[1].event == "data-update"
    ensures es[0].payload.MessagePayload? && es[0].payload.data.source == SourceOf(topic)
    ensures es[1].payload == SnapshotPayload(after)
  {
    [Emission("mqtt-message", MessagePayload(MessageData(message, topic, localTime, SourceOf(topic)))),
     Emission("data-update", SnapshotPayload(after))]
  }

  /** The snapshot after an outgoing notification is recorded: exactly one
      'outgoing' entry in front of `notifications`, no cap, nothing else
      changed. */
  function RecordOutgoing(s: Snapshot, message: string, localTime: string): (r: Snapshot)
    requires WellFormed(s)
    ensures WellFormed(r) && r.Keys == s.Keys
    ensures forall k :: k in s && k != "notifications" ==> r[k] == s[k]
    ensures |r["notifications"].entries| == |s["notifications"].entries| + 1
    ensures r["notifications"].entries[0] == Outgoing(message, localTime, "outgoing")
    ensures r["notifications"].entries[1..] == s["notifications"].entries
  {
    s["notifications" := History([Outgoing(message, localTime, "outgoing")] + s["notifications"].entries)]
  }

  // ---------------------------------------------------------------------
  // The handler object

  class MQTTHandler {
    const host: string
    /** The snapshot served to the web layer and pushed to clients. */
    var sharedData: Snapshot
    /** `this.mqttClient && this.mqttClient.connected`, kept up to date by the
        broker client. */
    var connected: bool
    /** Whether `this.io` has been assigned a realtime server. */
    var hasEmitter: bool
    /** Every `io.emit` made so far, oldest first. */
    var emitted: seq<Emission>
    /** Every `mqttClient.publish` made so far, oldest first. */
    var published: seq<Publication>

    ghost predicate Valid()
      reads this
    {
      WellFormed(sharedData) && WithinCaps(sharedData)
    }

    constructor (isoNow: string)
      ensures Valid()
      ensures sharedData == InitialSnapshot(isoNow)
      ensures host == Host
      ensures !connected && !hasEmitter && emitted == [] && published == []
    {
      host := Host;
      sharedData := InitialSnapshot(isoNow);
      connected := false;
      hasEmitter := false;
      emitted := [];
      published := [];
    }

    method HandleDeviceMessage(topic: string, message: string, timestamp: string) returns (ok: bool)
      requires Valid()
      modifies this`sharedData
      ensures Valid()
      ensures var r := DeviceStep(DevicesOf(old(sharedData)), ThirdSegment(topic), message, timestamp);
              && ok == r.Ok?
              && sharedData == if ok then old(sharedData)["devices" := DeviceTable(r.value)] else old(sharedData)
    {
      var deviceType := ThirdSegment(topic);
      var key := deviceType.Key();
      var devices := DevicesOf(sharedData);
      if key !in devices {
        if key in ObjectPrototypeNames {
          return false;
        }
        devices := devices[key := []];
      }
      var list := [DeviceReading(message, timestamp, deviceType)] + devices[key];
      if |list| > DeviceCap {
        list := list[..|list| - 1];
      }
      assert list == PrependCapped(ReadingsAt(DevicesOf(sharedData), key),
                                   DeviceReading(message, timestamp, deviceType), DeviceCap);
      DeviceStepKeepsCaps(sharedData, deviceType, message, timestamp);
      assert devices[key := list] == DeviceStep(DevicesOf(sharedData), deviceType, message, timestamp).value;
      sharedData := sharedData["devices" := DeviceTable(devices[key := list])];
      ok := true;
    }

    method HandleBroadcastMessage(topic: string, message: string, timestamp: string) returns (ok: bool)
      requires Valid()
      modifies this`sharedData
      ensures Valid()
      ensures var r := BroadcastStep(old(sharedData), ThirdSegment(topic), message, timestamp);
              && ok == r.Ok?
              && sharedData == if ok then r.value else old(sharedData)
    {
      var broadcastType := ThirdSegment(topic);
      var key := broadcastType.Key();
      if key in sharedData {
        var current := sharedData[key];
        if Truthy(current) && !current.History? {
          return false;
        }
        if !Truthy(current) {
          sharedData := sharedData[key := History([])];
        }
      } else {
        if key in ObjectPrototypeNames {
          return false;
        }
        sharedData := sharedData[key := History([])];
      }
      var list := [Broadcast(message, timestamp, broadcastType)] + sharedData[key].entries;
      if |list| > BroadcastCap {
        list := list[..|list| - 1];
      }
      assert list == PrependCapped(EntriesAt(old(sharedData), key),
                                   Broadcast(message, timestamp, broadcastType), BroadcastCap);
      BroadcastStepKeepsCaps(old(sharedData), broadcastType, message, timestamp);
      sharedData := sharedData[key := History(list)];
      assert sharedData == BroadcastStep(old(sharedData), broadcastType, message, timestamp).value;
      ok := true;
    }

    /** Returns false when the routed step threw: then nothing changed and
        nothing was emitted. */
    method HandleMessage(topic: string, message: string, localTime: string, isoTime: string)
      returns (ok: bool)
      requires Valid()
      modifies this`sharedData, this`emitted
      ensures Valid()
      ensures var r := Ingest(old(sharedData), topic, message, localTime, isoTime);
              && ok == r.Ok?
              && sharedData == if ok then r.value else old(sharedData)
      ensures emitted == old(emitted) +
                (if ok && hasEmitter then Emissions(topic, message, localTime, sharedData) else [])
    {
      var source := SourceOf(topic);
      var data := MessageData(message, topic, localTime, source);
      ok := true;
      if DevicePrefix <= topic {
        ok := HandleDeviceMessage(topic, message, localTime);
      } else if BroadcastPrefix <= topic {
        ok := HandleBroadcastMessage(topic, message, localTime);
      }
      if !ok {
        return;
      }
      sharedData := sharedData["lastUpdate" := Stamp(isoTime)];
      IngestKeepsCaps(old(sharedData), topic, message, localTime, isoTime);
      if hasEmitter {
        emitted := emitted + [Emission("mqtt-message", MessagePayload(data)),
                              Emission("data-update", SnapshotPayload(sharedData))];
      }
    }

    method PublishToMqtt(topic: string, message: string) returns (sent: bool)
      modifies this`published
      ensures sent == connected
      ensures published == old(published) + (if connected then [Publication(topic, message)] else [])
    {
      if connected {
        published := published + [Publication(topic, message)];
        return true;
      }
      return false;
    }

    /** Publishes on the notification topic and records the notification in
        `notifications`, uncapped; nothing at all when disconnected. */
    method SendNotification(message: string, localTime: string) returns (sent: bool)
      requires Valid()
      modifies this`sharedData, this`published
      ensures Valid()
      ensures sent == connected
      ensures published == old(published) + (if connected then [Publication(NotificationTopic, message)] else [])
      ensures sharedData == if connected then RecordOutgoing(old(sharedData), message, localTime) else old(sharedData)
    {
      if connected {
        published := published + [Publication(NotificationTopic, message)];
        var history := sharedData["notifications"].entries;
        RecordOutgoingKeepsCaps(sharedData, message, localTime);
        sharedData := sharedData["notifications" := History([Outgoing(message, localTime, "outgoing")] + history)];
        return true;
      }
      return false;
    }

    /** Publishes on the command topic; never records anything. */
    method SendCommandToDevice(command: string) returns (sent: bool)
      modifies this`published
      ensures sent == connected
      ensures published == old(published) + (if connected then [Publication(CommandTopic, command)] else [])
      ensures sharedData == old(sharedData)
    {
      sent := PublishToMqtt(CommandTopic, command);
    }

    method GetSharedData() returns (data: Snapshot)
      ensures data == sharedData
    {
      data := sharedData;
    }

    method IsConnected() returns (up: bool)
      ensures up == connected
    {
      up := connected;
    }
  }

  // ---------------------------------------------------------------------
  // Properties

  /** Folding a message in never breaks a cap that held before. */
  lemma IngestKeepsCaps(s: Snapshot, topic: string, message: string, localTime: string, isoTime: string)
    requires WellFormed(s) && WithinCaps(s)
    ensures var r := Ingest(s, topic, message, localTime, isoTime);
            r.Ok? ==> WithinCaps(r.value)
  {
    var r := Ingest(s, topic, message, localTime, isoTime);
    if r.Ok? {
      var u: Snapshot;
      match RouteOf(topic) {
        case ToDevice(c) =>
          DeviceStepKeepsCaps(s, Defined(c), message, localTime);
          u := s["devices" := DeviceTable(DeviceStep(DevicesOf(s), Defined(c), message, localTime).value)];
        case ToBroadcast(b) =>
          BroadcastStepKeepsCaps(s, Defined(b), message, localTime);
          u := BroadcastStep(s, Defined(b), message, localTime).value;
        case Unrouted =>
          u := s;
      }
      assert r.value == u["lastUpdate" := Stamp(isoTime)];
      StampKeepsCaps(u, isoTime);
    }
  }

  /** A device message keeps every history within its cap. */
  lemma DeviceStepKeepsCaps(s: Snapshot, deviceType: Segment, value: string, timestamp: string)
    requires WellFormed(s) && WithinCaps(s)
    ensures var r := DeviceStep(DevicesOf(s), deviceType, value, timestamp);
            r.Ok? ==> WellFormed(s["devices" := DeviceTable(r.value)]) &&
                      WithinCaps(s["devices" := DeviceTable(r.value)])
  {
    var r := DeviceStep(DevicesOf(s), deviceType, value, timestamp);
    if r.Ok? {
      var t := s["devices" := DeviceTable(r.value)];
      forall c | c in DevicesOf(t) ensures |DevicesOf(t)[c]| <= DeviceCap {
        if c != deviceType.Key() {
          assert DevicesOf(t)[c] == DevicesOf(s)[c];
        }
      }
      forall k | k in t && k != "notifications" && t[k].History?
        ensures |t[k].entries| <= BroadcastCap
      {
        assert t[k] == s[k];
      }
    }
  }

  /** A broadcast message keeps every history within its cap. */
  lemma BroadcastStepKeepsCaps(s: Snapshot, broadcastType: Segment, message: string, timestamp: string)
    requires WellFormed(s) && WithinCaps(s)
    ensures var r := BroadcastStep(s, broadcastType, message, timestamp);
            r.Ok? ==> WellFormed(r.value) && WithinCaps(r.value)
  {
    var r := BroadcastStep(s, broadcastType, message, timestamp);
    if r.Ok? {
      var t := r.value;
      assert broadcastType.Key() != "devices";
      assert DevicesOf(t) == DevicesOf(s);
      forall k | k in t && k != "notifications" && t[k].History?
        ensures |t[k].entries| <= BroadcastCap
      {
        if k != broadcastType.Key() {
          assert t[k] == s[k];
        }
      }
    }
  }

  /** Stamping `lastUpdate` keeps every history within its cap. */
  lemma StampKeepsCaps(s: Snapshot, isoTime: string)
    requires WellFormed(s) && WithinCaps(s)
    ensures WellFormed(s["lastUpdate" := Stamp(isoTime)]) && WithinCaps(s["lastUpdate" := Stamp(isoTime)])
  {
    var t := s["lastUpdate" := Stamp(isoTime)];
    assert DevicesOf(t) == DevicesOf(s);
    forall k | k in t && k != "notifications" && t[k].History?
      ensures |t[k].entries| <= BroadcastCap
    {
      assert t[k] == s[k];
    }
  }

  /** Recording an outgoing notification keeps every capped history within
      its cap; `notifications` itself is not capped. */
  lemma RecordOutgoingKeepsCaps(s: Snapshot, message: string, localTime: string)
    requires WellFormed(s) && WithinCaps(s)
    ensures WithinCaps(RecordOutgoing(s, message, localTime))
  {
    var t := RecordOutgoing(s, message, localTime);
    assert DevicesOf(t) == DevicesOf(s);
    forall k | k in t && k != "notifications" && t[k].History?
      ensures |t[k].entries| <= BroadcastCap
    {
      assert t[k] == s[k];
    }
  }
}
