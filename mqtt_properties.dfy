/** What the handler's classification and history rules imply across
    messages: the source label against the routing decision, the shared
    top-level namespace, and streams of messages on one category. */
module MqttHandlerProperties {
  import opened JsText
  import opened Bounded
  import opened MqttHandler

  // ---------------------------------------------------------------------
  // Source label and routing

  /** A message is labelled 'device' exactly when its topic contains
      `from_device` somewhere. */
  lemma SourceIsDeviceIffMarker(topic: string)
    ensures SourceOf(topic) == Device <==> exists a, b :: topic == a + DeviceMarker + b
  {
    if SourceOf(topic) == Device {
      IncludesHasOccurrence(topic, DeviceMarker);
    }
    if exists a, b :: topic == a + DeviceMarker + b {
      var a, b :| topic == a + DeviceMarker + b;
      IncludesInfix(a, DeviceMarker, b);
    }
  }

  /** Everything routed to the device table is labelled 'device'. */
  lemma DeviceRouteIsLabelledDevice(topic: string)
    requires RouteOf(topic).ToDevice?
    ensures SourceOf(topic) == Device
  {
    IncludesInfix("iot/", DeviceMarker, topic[|"iot/" + DeviceMarker|..]);
    assert topic == "iot/" + DeviceMarker + topic[|"iot/" + DeviceMarker|..];
  }

  /** The label is not the routing decision: a broadcast topic whose
      category is `from_device` is routed as a broadcast but labelled
      'device'. */
  lemma BroadcastLabelledDevice(rest: string)
    ensures RouteOf(BroadcastPrefix + DeviceMarker + rest).ToBroadcast?
    ensures SourceOf(BroadcastPrefix + DeviceMarker + rest) == Device
  {
    IncludesInfix(BroadcastPrefix, DeviceMarker, rest);
  }

  /** A topic under the external namespace that contains `from_device` is
      labelled 'device', not 'external', and is routed nowhere. */
  lemma ExternalLabelledDevice(a: string, b: string)
    ensures RouteOf(ExternalPrefix + a + DeviceMarker + b).Unrouted?
    ensures SourceOf(ExternalPrefix + a + DeviceMarker + b) == Device
  {
    var t := ExternalPrefix + a + DeviceMarker + b;
    assert t == (ExternalPrefix + a) + DeviceMarker + b;
    IncludesInfix(ExternalPrefix + a, DeviceMarker, b);
    assert t[0] == 'm';
  }

  /** A topic under the external namespace without `from_device` is
      labelled 'external'. */
  lemma ExternalLabelledExternal(rest: string)
    requires !Includes(ExternalPrefix + rest, DeviceMarker)
    ensures SourceOf(ExternalPrefix + rest) == External
  {
  }

  /** The category of a device topic is the segment after the prefix. */
  lemma DeviceTopicCategory(c: string, tail: string)
    requires '/' !in c
    ensures RouteOf(DevicePrefix + c) == ToDevice(c)
    ensures RouteOf(DevicePrefix + c + "/" + tail) == ToDevice(c)
  {
    FirstPieceBeforeSeparator(c, '/', tail);
    assert (DevicePrefix + c)[|DevicePrefix|..] == c;
    assert (DevicePrefix + c + "/" + tail)[|DevicePrefix|..] == c + ['/'] + tail;
  }

  /** The category of a broadcast topic is the segment after the prefix. */
  lemma BroadcastTopicCategory(c: string, tail: string)
    requires '/' !in c
    ensures RouteOf(BroadcastPrefix + c) == ToBroadcast(c)
    ensures RouteOf(BroadcastPrefix + c + "/" + tail) == ToBroadcast(c)
  {
    FirstPieceBeforeSeparator(c, '/', tail);
    assert (BroadcastPrefix + c)[|BroadcastPrefix|..] == c;
    assert (BroadcastPrefix + c + "/" + tail)[|BroadcastPrefix|..] == c + ['/'] + tail;
  }

  /** `iot/from_device/rfid` is a device message of category `rfid`. */
  lemma RfidTopicRoutesToDevice()
    ensures RouteOf("iot/from_device/rfid") == ToDevice("rfid")
  {
    DeviceTopicCategory("rfid", "");
    assert DevicePrefix + "rfid" == "iot/from_device/rfid";
  }

  /** `iot/broadcast/alerts` is a broadcast of category `alerts`. */
  lemma AlertsTopicRoutesToBroadcast()
    ensures RouteOf("iot/broadcast/alerts") == ToBroadcast("alerts")
  {
    BroadcastTopicCategory("alerts", "");
    assert BroadcastPrefix + "alerts" == "iot/broadcast/alerts";
  }

  /** The command channel and a one-segment topic are routed nowhere. */
  lemma CommandAndBareTopicsUnrouted()
    ensures RouteOf(CommandTopic) == Unrouted
    ensures RouteOf("foo") == Unrouted
  {
    assert CommandTopic[4] != DevicePrefix[4] && CommandTopic[4] != BroadcastPrefix[4];
    assert !(DevicePrefix <= "foo") && !(BroadcastPrefix <= "foo");
  }

  // ---------------------------------------------------------------------
  // One message

  /** After a device message the category's history is the new reading
      followed by the previous history, at most its last reading dropped,
      within 50; every other category and every other top-level key is
      untouched, and `lastUpdate` is stamped. */
  lemma DeviceMessageEffect(s: Snapshot, topic: string, message: string, localTime: string, isoTime: string)
    requires WellFormed(s) && WithinCaps(s)
    requires RouteOf(topic).ToDevice?
    ensures var c, r := RouteOf(topic).deviceType, Ingest(s, topic, message, localTime, isoTime);
      r.Ok? ==>
        var before, after := ReadingsAt(DevicesOf(s), c), DevicesOf(r.value)[c];
        && c in DevicesOf(r.value)
        && |after| <= DeviceCap
        && after[0] == DeviceReading(message, localTime, Defined(c))
        && after[1..] <= before && |before| - 1 <= |after[1..]|
        && (forall d :: d in DevicesOf(s) && d != c ==> d in DevicesOf(r.value) && DevicesOf(r.value)[d] == DevicesOf(s)[d])
        && (forall k :: k in s && k != "devices" && k != "lastUpdate" ==> r.value[k] == s[k])
        && r.value["lastUpdate"] == Stamp(isoTime)
  {
    var c := RouteOf(topic).deviceType;
    var r := Ingest(s, topic, message, localTime, isoTime);
    if r.Ok? {
      var d := DeviceStep(DevicesOf(s), Defined(c), message, localTime);
      assert r.value == s["devices" := DeviceTable(d.value)]["lastUpdate" := Stamp(isoTime)];
      assert DevicesOf(r.value) == d.value;
      if c in DevicesOf(s) {
        assert |DevicesOf(s)[c]| <= DeviceCap;
      }
    }
  }

  /** After a broadcast message on an array-valued or new category, that
      history is the new entry followed by the previous history, at most its
      last entry dropped, and it only loses an entry when it already held
      100; every other top-level key except `lastUpdate` is untouched. */
  lemma BroadcastMessageEffect(s: Snapshot, topic: string, message: string, localTime: string, isoTime: string)
    requires WellFormed(s) && WithinCaps(s)
    requires RouteOf(topic).ToBroadcast?
    ensures var b, r := RouteOf(topic).broadcastType, Ingest(s, topic, message, localTime, isoTime);
      r.Ok? && b != "lastUpdate" ==>
        var before := EntriesAt(s, b);
        && b in r.value && r.value[b].History?
        && var after := r.value[b].entries;
        && (b != "notifications" ==> |after| <= BroadcastCap)
        && after[0] == Broadcast(message, localTime, Defined(b))
        && after[1..] <= before
        && (|after| == |before| <==> BroadcastCap <= |before|)
        && (forall k :: k in s && k != b && k != "lastUpdate" ==> r.value[k] == s[k])
  {
    var b := RouteOf(topic).broadcastType;
    var r := Ingest(s, topic, message, localTime, isoTime);
    if r.Ok? && b != "lastUpdate" {
      var u := BroadcastStep(s, Defined(b), message, localTime);
      assert r.value == u.value["lastUpdate" := Stamp(isoTime)];
      assert r.value[b] == u.value[b];
      if b in s && s[b].History? && b != "notifications" {
        assert |s[b].entries| <= BroadcastCap;
      }
    }
  }

  /** A message routed nowhere leaves every history alone and only stamps
      `lastUpdate`. */
  lemma UnroutedOnlyStamps(s: Snapshot, topic: string, message: string, localTime: string, isoTime: string)
    requires WellFormed(s)
    requires !(DevicePrefix <= topic) && !(BroadcastPrefix <= topic)
    ensures Ingest(s, topic, message, localTime, isoTime) == Ok(s["lastUpdate" := Stamp(isoTime)])
  {
    assert RouteOf(topic).Unrouted?;
  }

  /** A direct `handleDeviceMessage` call on a two-segment topic files the
      reading under the key "undefined", with its `type` left `undefined`. */
  lemma DirectDeviceCallWithoutCategory(devices: map<string, seq<DeviceReading>>, x: string, y: string,
                                        value: string, timestamp: string)
    requires '/' !in x && '/' !in y
    ensures var r := DeviceStep(devices, ThirdSegment(x + "/" + y), value, timestamp);
      && r.Ok?
      && "undefined" in r.value
      && |r.value["undefined"]| >= 1
      && r.value["undefined"][0] == DeviceReading(value, timestamp, Undefined)
  {
    TwoSegmentsHaveNoThird(x, y);
  }

  // ---------------------------------------------------------------------
  // The shared top-level namespace

  /** A broadcast on `devices` throws: the device table is not an array. */
  lemma BroadcastOnDevicesThrows(s: Snapshot, message: string, localTime: string, isoTime: string)
    requires WellFormed(s)
    ensures Ingest(s, BroadcastPrefix + "devices", message, localTime, isoTime) == TypeError
  {
    BroadcastTopicCategory("devices", "");
  }

  /** A broadcast on `lastUpdate` throws while it holds a non-empty
      timestamp. */
  lemma BroadcastOnLastUpdateThrows(s: Snapshot, message: string, localTime: string, isoTime: string)
    requires WellFormed(s)
    requires "lastUpdate" in s && s["lastUpdate"].Stamp? && s["lastUpdate"].text != ""
    ensures Ingest(s, BroadcastPrefix + "lastUpdate", message, localTime, isoTime) == TypeError
  {
    BroadcastTopicCategory("lastUpdate", "");
  }

  /** A broadcast on `commands` lands in the `commands` history. */
  lemma BroadcastOnCommandsFillsCommands(s: Snapshot, message: string, localTime: string, isoTime: string)
    requires WellFormed(s) && WithinCaps(s)
    requires "commands" in s && s["commands"].History?
    ensures var r := Ingest(s, BroadcastPrefix + "commands", message, localTime, isoTime);
      && r.Ok?
      && r.value["commands"] == History(PrependCapped(s["commands"].entries, Broadcast(message, localTime, Defined("commands")), BroadcastCap))
  {
    BroadcastTopicCategory("commands", "");
    var entry := Broadcast(message, localTime, Defined("commands"));
    var u := s["commands" := History(PrependCapped(s["commands"].entries, entry, BroadcastCap))];
    assert BroadcastStep(s, Defined("commands"), message, localTime) == Ok(u);
    assert Ingest(s, BroadcastPrefix + "commands", message, localTime, isoTime) == Ok(u["lastUpdate" := Stamp(isoTime)]);
  }

  /** A category named like an inherited member of every JavaScript object
      throws unless it is already an own key. */
  lemma InheritedNameThrows(s: Snapshot, message: string, localTime: string, isoTime: string)
    requires WellFormed(s)
    requires "constructor" !in DevicesOf(s) && "constructor" !in s
    ensures Ingest(s, DevicePrefix + "constructor", message, localTime, isoTime) == TypeError
    ensures Ingest(s, BroadcastPrefix + "constructor", message, localTime, isoTime) == TypeError
  {
    DeviceTopicCategory("constructor", "");
    BroadcastTopicCategory("constructor", "");
  }

  /** `notifications` is not bounded by 100: once outgoing notifications
      have grown it past the cap, a received notification keeps its length
      instead of bringing it back under the cap. */
  lemma NotificationsCanExceedCap(s: Snapshot, message: string, localTime: string, isoTime: string)
    requires WellFormed(s) && |s["notifications"].entries| > BroadcastCap
    ensures var r := Ingest(s, NotificationTopic, message, localTime, isoTime);
      r.Ok? && |r.value["notifications"].entries| == |s["notifications"].entries|
  {
    BroadcastTopicCategory("notifications", "");
  }

  // ---------------------------------------------------------------------
  // Streams of messages on one category

  /** The readings a stream of `(value, timestamp)` device messages makes. */
  function Readings(deviceType: string, msgs: seq<(string, string)>): (rs: seq<DeviceReading>)
    ensures |rs| == |msgs|
    ensures forall i :: 0 <= i < |msgs| ==> rs[i] == DeviceReading(msgs[i].0, msgs[i].1, Defined(deviceType))
  {
    if msgs == [] then [] else [DeviceReading(msgs[0].0, msgs[0].1, Defined(deviceType))] + Readings(deviceType, msgs[1..])
  }

  /** The device table after the messages of `msgs`, in order, on one
      category. */
  function DeviceStream(devices: map<string, seq<DeviceReading>>, deviceType: string,
                        msgs: seq<(string, string)>): Result<map<string, seq<DeviceReading>>>
    decreases |msgs|
  {
    if msgs == [] then Ok(devices)
    else
      match DeviceStep(devices, Defined(deviceType), msgs[0].0, msgs[0].1)
      case TypeError => TypeError
      case Ok(d) => DeviceStream(d, deviceType, msgs[1..])
  }

  /** A stream on a writable category feeds its readings, one at a time,
      into that category's capped history and leaves every other category
      alone. */
  lemma {:induction false} DeviceStreamFeeds(devices: map<string, seq<DeviceReading>>, deviceType: string,
                                             msgs: seq<(string, string)>)
    requires deviceType in devices || deviceType !in ObjectPrototypeNames
    ensures var r := DeviceStream(devices, deviceType, msgs);
      && r.Ok?
      && ReadingsAt(r.value, deviceType) == Feed(ReadingsAt(devices, deviceType), Readings(deviceType, msgs), DeviceCap)
      && forall c :: c in devices && c != deviceType ==> c in r.value && r.value[c] == devices[c]
    decreases |msgs|
  {
    if msgs != [] {
      var before := ReadingsAt(devices, deviceType);
      var reading := DeviceReading(msgs[0].0, msgs[0].1, Defined(deviceType));
      var d := DeviceStep(devices, Defined(deviceType), msgs[0].0, msgs[0].1).value;
      assert ReadingsAt(d, deviceType) == PrependCapped(before, reading, DeviceCap);
      DeviceStreamFeeds(d, deviceType, msgs[1..]);
      var rs := Readings(deviceType, msgs);
      assert rs[0] == reading && rs[1..] == Readings(deviceType, msgs[1..]);
    }
  }

  /** A stream on a writable category holds the newest 50 readings seen,
      newest first. */
  lemma DeviceStreamKeepsNewest(devices: map<string, seq<DeviceReading>>, deviceType: string,
                                msgs: seq<(string, string)>)
    requires deviceType in devices || deviceType !in ObjectPrototypeNames
    requires |ReadingsAt(devices, deviceType)| <= DeviceCap
    ensures var r := DeviceStream(devices, deviceType, msgs);
      && r.Ok?
      && ReadingsAt(r.value, deviceType) ==
         Take(Reverse(Readings(deviceType, msgs)) + ReadingsAt(devices, deviceType), DeviceCap)
  {
    DeviceStreamFeeds(devices, deviceType, msgs);
    FeedKeepsNewest(ReadingsAt(devices, deviceType), Readings(deviceType, msgs), DeviceCap);
  }

  /** 51 readings `v1..v51` on an empty or unseen category leave
      `v51, ..., v2`. */
  lemma FiftyOneReadingsEvictTheFirst(devices: map<string, seq<DeviceReading>>, deviceType: string,
                                      msgs: seq<(string, string)>)
    requires ReadingsAt(devices, deviceType) == []
    requires deviceType in devices || deviceType !in ObjectPrototypeNames
    requires |msgs| == DeviceCap + 1
    ensures var r := DeviceStream(devices, deviceType, msgs);
      r.Ok? && ReadingsAt(r.value, deviceType) == Reverse(Readings(deviceType, msgs[1..]))
  {
    DeviceStreamFeeds(devices, deviceType, msgs);
    var rs := Readings(deviceType, msgs);
    assert rs[1..] == Readings(deviceType, msgs[1..]);
    OneOverCapEvictsFirst(rs, DeviceCap);
  }

  /** From the constructor's snapshot, 51 `rfid` readings leave the last 50,
      newest first. */
  lemma FiftyOneRfidReadingsFromStart(isoNow: string, msgs: seq<(string, string)>)
    requires |msgs| == DeviceCap + 1
    ensures var r := DeviceStream(DevicesOf(InitialSnapshot(isoNow)), "rfid", msgs);
      r.Ok? && ReadingsAt(r.value, "rfid") == Reverse(Readings("rfid", msgs[1..]))
  {
    FiftyOneReadingsEvictTheFirst(DevicesOf(InitialSnapshot(isoNow)), "rfid", msgs);
  }

  /** Messages on two different categories commute. */
  lemma DeviceStepsCommute(devices: map<string, seq<DeviceReading>>, c1: Segment, v1: string, t1: string,
                           c2: Segment, v2: string, t2: string)
    requires c1.Key() != c2.Key()
    ensures var a := DeviceStep(devices, c1, v1, t1);
            var b := DeviceStep(devices, c2, v2, t2);
            a.Ok? && b.Ok? ==>
              DeviceStep(a.value, c2, v2, t2) == DeviceStep(b.value, c1, v1, t1)
  {
    var a := DeviceStep(devices, c1, v1, t1);
    var b := DeviceStep(devices, c2, v2, t2);
    if a.Ok? && b.Ok? {
      var k1, k2 := c1.Key(), c2.Key();
      var x := PrependCapped(ReadingsAt(devices, k1), DeviceReading(v1, t1, c1), DeviceCap);
      var y := PrependCapped(ReadingsAt(devices, k2), DeviceReading(v2, t2, c2), DeviceCap);
      assert a.value == devices[k1 := x];
      assert b.value == devices[k2 := y];
      assert ReadingsAt(a.value, k2) == ReadingsAt(devices, k2);
      assert ReadingsAt(b.value, k1) == ReadingsAt(devices, k1);
      assert DeviceStep(a.value, c2, v2, t2) == Ok(devices[k1 := x][k2 := y]);
      assert DeviceStep(b.value, c1, v1, t1) == Ok(devices[k2 := y][k1 := x]);
      assert devices[k1 := x][k2 := y] == devices[k2 := y][k1 := x];
    }
  }

}
