/** MQTT discovery as the standalone bridge does it (`publish_sensor` and
    `publish_binary_sensor` in clublog-ha-bridge.py). A call is modelled by
    the retained messages it appends to the client's publish log, in
    order. A `json.dumps` payload is kept as the dict it encodes. */
module Mqtt {
  import opened Wrappers
  import opened Json

  /** `str(value)` of a state, or `json.dumps` of a dict. */
  datatype Payload = Str(value: Json) | Dumps(fields: map<string, Json>)

  /** One `client.publish(topic, payload, retain=...)`. */
  datatype Message = Message(topic: string, payload: Payload, retain: bool)

  /** `HA_DISCOVERY_PREFIX`, `HA_ENTITY_BASE` and `DEVICE_CONFIG`. */
  datatype Discovery = Discovery(prefix: string, base: string, device: Json)

  function UniqueId(d: Discovery, id: string): string {
    d.base + "_" + id
  }

  function StateTopic(d: Discovery, id: string): string {
    d.base + "/" + id + "/state"
  }

  function AttrTopic(d: Discovery, id: string): string {
    d.base + "/" + id + "/attributes"
  }

  /** The discovery topic of an entity of the given component. */
  function ConfigTopic(d: Discovery, component: string, id: string): string {
    d.prefix + "/" + component + "/" + d.base + "/" + id + "/config"
  }

  /** `if opt: payload[key] = opt`: only a non-empty string is written. */
  function SetIf(m: map<string, Json>, key: string, opt: Option<string>): map<string, Json> {
    if opt.Some? && opt.value != "" then m[key := JStr(opt.value)] else m
  }

  /** The keyword arguments `unit`, `icon`, `state_class` and
      `entity_category` of `publish_sensor`. */
  datatype SensorStyle = SensorStyle(
    unit: Option<string>, icon: Option<string>,
    stateClass: Option<string>, entityCategory: Option<string>)

  /** The entries every discovery payload starts with. */
  function CommonConfig(d: Discovery, id: string, name: string): map<string, Json> {
    map["name" := JStr(name), "state_topic" := JStr(StateTopic(d, id)),
        "unique_id" := JStr(UniqueId(d, id)), "object_id" := JStr(UniqueId(d, id)),
        "device" := d.device]
  }

  /** `"json_attributes_topic"` is set exactly when attributes are sent. */
  function WithAttrTopic(m: map<string, Json>, d: Discovery, id: string,
                         attributes: Option<map<string, Json>>): map<string, Json> {
    if attributes.Some? then m["json_attributes_topic" := JStr(AttrTopic(d, id))] else m
  }

  /** The attributes message, when there are attributes: it is published
      before the discovery payload that points at it. */
  function AttrMessages(d: Discovery, id: string, attributes: Option<map<string, Json>>): seq<Message> {
    if attributes.Some? then [Message(AttrTopic(d, id), Dumps(attributes.value), true)] else []
  }

  function SensorConfig(d: Discovery, id: string, name: string, style: SensorStyle,
                        attributes: Option<map<string, Json>>): map<string, Json> {
    var c := SetIf(SetIf(SetIf(SetIf(CommonConfig(d, id, name),
               "unit_of_measurement", style.unit), "icon", style.icon),
               "state_class", style.stateClass), "entity_category", style.entityCategory);
    WithAttrTopic(c, d, id, attributes)
  }

  /** `publish_sensor`: the attributes (if any), then the discovery
      payload, then the state, all retained. */
  function PublishSensor(d: Discovery, id: string, name: string, value: Json, style: SensorStyle,
                         attributes: Option<map<string, Json>>): (log: seq<Message>)
    ensures |log| == if attributes.Some? then 3 else 2
    ensures forall i :: 0 <= i < |log| ==> log[i].retain
    ensures log[|log| - 1] == Message(StateTopic(d, id), Str(value), true)
    ensures log[|log| - 2].topic == ConfigTopic(d, "sensor", id)
    ensures attributes.Some? ==> log[0] == Message(AttrTopic(d, id), Dumps(attributes.value), true)
  {
    AttrMessages(d, id, attributes)
      + [Message(ConfigTopic(d, "sensor", id), Dumps(SensorConfig(d, id, name, style, attributes)), true),
         Message(StateTopic(d, id), Str(value), true)]
  }

  function BinaryConfig(d: Discovery, id: string, name: string, deviceClass: Option<string>,
                        entityCategory: Option<string>, attributes: Option<map<string, Json>>): map<string, Json> {
    var c := CommonConfig(d, id, name)["payload_on" := JStr("ON")]["payload_off" := JStr("OFF")];
    WithAttrTopic(SetIf(SetIf(c, "device_class", deviceClass), "entity_category", entityCategory),
                  d, id, attributes)
  }

  /** The state text of a binary sensor. */
  function OnOff(isOn: bool): string {
    if isOn then "ON" else "OFF"
  }

  /** `publish_binary_sensor`: like `publish_sensor`, with "ON"/"OFF" as
      the state. */
  function PublishBinarySensor(d: Discovery, id: string, name: string, isOn: bool,
                               deviceClass: Option<string>, entityCategory: Option<string>,
                               attributes: Option<map<string, Json>>): (log: seq<Message>)
    ensures |log| == if attributes.Some? then 3 else 2
    ensures forall i :: 0 <= i < |log| ==> log[i].retain
    ensures log[|log| - 1] == Message(StateTopic(d, id), Str(JStr(OnOff(isOn))), true)
    ensures log[|log| - 2].topic == ConfigTopic(d, "binary_sensor", id)
    ensures attributes.Some? ==> log[0] == Message(AttrTopic(d, id), Dumps(attributes.value), true)
  {
    AttrMessages(d, id, attributes)
      + [Message(ConfigTopic(d, "binary_sensor", id),
                 Dumps(BinaryConfig(d, id, name, deviceClass, entityCategory, attributes)), true),
         Message(StateTopic(d, id), Str(JStr(OnOff(isOn))), true)]
  }

  // ---------------------------------------------------------------------
  // The discovery payload points at the topics actually published
  // ---------------------------------------------------------------------

  lemma SetIfKeeps(m: map<string, Json>, key: string, opt: Option<string>, k: string)
    requires k in m && k != key
    ensures k in SetIf(m, key, opt) && SetIf(m, key, opt)[k] == m[k]
  {
  }

  lemma WithAttrTopicKeeps(m: map<string, Json>, d: Discovery, id: string,
                           attributes: Option<map<string, Json>>, k: string)
    requires k in m && k != "json_attributes_topic"
    ensures k in WithAttrTopic(m, d, id, attributes) && WithAttrTopic(m, d, id, attributes)[k] == m[k]
  {
  }

  lemma StateTopicEntry(d: Discovery, id: string, name: string)
    ensures "state_topic" in CommonConfig(d, id, name)
    ensures CommonConfig(d, id, name)["state_topic"] == JStr(StateTopic(d, id))
  {
    var k := "state_topic";
    assert k != "device";
  }

  /** A sensor's discovery payload names the topic its state is published
      on, and names an attributes topic exactly when attributes are
      published, namely the topic they go to. */
  lemma SensorConfigTopics(d: Discovery, id: string, name: string, value: Json, style: SensorStyle,
                           attributes: Option<map<string, Json>>)
    ensures var log := PublishSensor(d, id, name, value, style, attributes);
            var c := SensorConfig(d, id, name, style, attributes);
            && "state_topic" in c && c["state_topic"] == JStr(log[|log| - 1].topic)
            && ("json_attributes_topic" in c <==> attributes.Some?)
            && (attributes.Some? ==> c["json_attributes_topic"] == JStr(log[0].topic))
  {
    var k := "state_topic";
    StateTopicEntry(d, id, name);
    var c0 := CommonConfig(d, id, name);
    var c1 := SetIf(c0, "unit_of_measurement", style.unit);
    var c2 := SetIf(c1, "icon", style.icon);
    var c3 := SetIf(c2, "state_class", style.stateClass);
    var c4 := SetIf(c3, "entity_category", style.entityCategory);
    assert k != "unit_of_measurement" && k != "icon" && k != "state_class" && k != "entity_category";
    SetIfKeeps(c0, "unit_of_measurement", style.unit, k);
    SetIfKeeps(c1, "icon", style.icon, k);
    SetIfKeeps(c2, "state_class", style.stateClass, k);
    SetIfKeeps(c3, "entity_category", style.entityCategory, k);
    assert k != "json_attributes_topic";
    WithAttrTopicKeeps(c4, d, id, attributes, k);
    var a := "json_attributes_topic";
    assert a != "name" && a != "state_topic" && a != "unique_id" && a != "object_id" && a != "device";
    assert a != "unit_of_measurement" && a != "icon" && a != "state_class" && a != "entity_category";
  }

  /** A binary sensor's discovery payload names its state topic and
      declares "ON" and "OFF" as its payloads, and the state published is
      the one of the two that `is_on` selects. */
  lemma BinaryConfigPayloads(d: Discovery, id: string, name: string, isOn: bool,
                             deviceClass: Option<string>, entityCategory: Option<string>,
                             attributes: Option<map<string, Json>>)
    ensures var log := PublishBinarySensor(d, id, name, isOn, deviceClass, entityCategory, attributes);
            var c := BinaryConfig(d, id, name, deviceClass, entityCategory, attributes);
            && "state_topic" in c && c["state_topic"] == JStr(log[|log| - 1].topic)
            && "payload_on" in c && "payload_off" in c
            && log[|log| - 1].payload == Str(if isOn then c["payload_on"] else c["payload_off"])
  {
    var on, off, st := "payload_on", "payload_off", "state_topic";
    StateTopicEntry(d, id, name);
    var c0 := CommonConfig(d, id, name)[on := JStr("ON")][off := JStr("OFF")];
    var c1 := SetIf(c0, "device_class", deviceClass);
    var c2 := SetIf(c1, "entity_category", entityCategory);
    assert on != off && st != on && st != off;
    assert on != "device_class" && off != "device_class" && st != "device_class";
    assert on != "entity_category" && off != "entity_category" && st != "entity_category";
    assert on != "json_attributes_topic" && off != "json_attributes_topic" && st != "json_attributes_topic";
    SetIfKeeps(c0, "device_class", deviceClass, on);
    SetIfKeeps(c0, "device_class", deviceClass, off);
    SetIfKeeps(c0, "device_class", deviceClass, st);
    SetIfKeeps(c1, "entity_category", entityCategory, on);
    SetIfKeeps(c1, "entity_category", entityCategory, off);
    SetIfKeeps(c1, "entity_category", entityCategory, st);
    WithAttrTopicKeeps(c2, d, id, attributes, on);
    WithAttrTopicKeeps(c2, d, id, attributes, off);
    WithAttrTopicKeeps(c2, d, id, attributes, st);
  }

  // ---------------------------------------------------------------------
  // Topics never collide
  // ---------------------------------------------------------------------

  lemma LastCharDiffers(a: string, s: string, b: string, t: string)
    requires s != [] && t != [] && s[|s| - 1] != t[|t| - 1]
    ensures a + s != b + t
  {
    var x, y := a + s, b + t;
    assert x[|x| - 1] == s[|s| - 1];
    assert y[|y| - 1] == t[|t| - 1];
  }

  /** The three topics one call publishes on are distinct. */
  lemma TopicsDistinct(d: Discovery, component: string, id: string)
    ensures StateTopic(d, id) != AttrTopic(d, id)
    ensures StateTopic(d, id) != ConfigTopic(d, component, id)
    ensures AttrTopic(d, id) != ConfigTopic(d, component, id)
  {
    var st, at, ct := "/state", "/attributes", "/config";
    LastCharDiffers(d.base + "/" + id, st, d.base + "/" + id, at);
    LastCharDiffers(d.base + "/" + id, st, d.prefix + "/" + component + "/" + d.base + "/" + id, ct);
    LastCharDiffers(d.base + "/" + id, at, d.prefix + "/" + component + "/" + d.base + "/" + id, ct);
  }

  lemma Cancel(p: string, a: string, b: string, s: string)
    requires p + a + s == p + b + s
    ensures a == b
  {
    assert |a| == |b|;
    forall i | 0 <= i < |a| ensures a[i] == b[i] {
      assert a[i] == (p + a + s)[|p| + i];
      assert b[i] == (p + b + s)[|p| + i];
    }
  }

  /** Two sensors with different ids never share a state topic or an
      attributes topic, so one sensor's retained messages never replace
      another's. */
  lemma TopicsPerSensor(d: Discovery, id1: string, id2: string)
    requires id1 != id2
    ensures StateTopic(d, id1) != StateTopic(d, id2)
    ensures AttrTopic(d, id1) != AttrTopic(d, id2)
  {
    var p := d.base + "/";
    if StateTopic(d, id1) == StateTopic(d, id2) {
      assert p + id1 + "/state" == StateTopic(d, id1);
      assert p + id2 + "/state" == StateTopic(d, id2);
      Cancel(p, id1, id2, "/state");
    }
    if AttrTopic(d, id1) == AttrTopic(d, id2) {
      assert p + id1 + "/attributes" == AttrTopic(d, id1);
      assert p + id2 + "/attributes" == AttrTopic(d, id2);
      Cancel(p, id1, id2, "/attributes");
    }
  }
}
