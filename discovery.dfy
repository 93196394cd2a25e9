/**
 * Home Assistant discovery documents built by `create_device`, `add_sensor` and
 * `add_binary_sensor`, as pure functions of the handler's name and the call's arguments.
 */
module Discovery {
  import opened Wrappers
  import opened Json
  import Topics

  const DeviceModel: string := "Python"
  const DeviceVersion: string := "GIT_TAG"

  /** `create_device()`: the descriptor of the publishing node. */
  function Device(name: string): (d: map<string, Value>)
    ensures d.Keys == {"model", "name", "sw_version"}
    ensures d["model"] == JStr(DeviceModel) && d["sw_version"] == JStr(DeviceVersion)
    ensures d["name"] == JStr(name)
  {
    map["model" := JStr(DeviceModel), "name" := JStr(name), "sw_version" := JStr(DeviceVersion)]
  }

  /**
   * The value template. The source's f-string writes `{{` and `}}`, which are escapes
   * for single braces, so the template has one brace on each side.
   */
  function ValueTemplate(valueName: string): string {
    "{ value_json." + valueName + " }"
  }

  /** Reads the value name back out of a template; None when the text is not a template. */
  function TemplateValueName(t: string): Option<string> {
    var prefix := "{ value_json.";
    var suffix := " }";
    if |t| >= |prefix| + |suffix| && t[..|prefix|] == prefix && t[|t| - |suffix|..] == suffix
    then Some(t[|prefix|..|t| - |suffix|])
    else None
  }

  /** A template names exactly the value it was built for, so distinct values give distinct templates. */
  lemma TemplateRoundTrip(valueName: string)
    ensures TemplateValueName(ValueTemplate(valueName)) == Some(valueName)
  {
    var t := ValueTemplate(valueName);
    assert t[..13] == "{ value_json.";
    assert t[|t| - 2..] == " }";
    assert t[13..|t| - 2] == valueName;
  }

  /** The keys every discovery document has, whatever kind of sensor it describes. */
  const CommonKeys: set<string> := {"device", "name", "deviceName", "state_topic", "value_template"}

  function CommandKeys(changeTopic: Option<string>): set<string> {
    if changeTopic.Some? then {"command_topic"} else {}
  }

  /** The document of `add_binary_sensor(sensorName, valueName, changeTopic)`. */
  function BinarySensorConfig(name: string, sensorName: string, valueName: string, changeTopic: Option<string>)
    : (p: map<string, Value>)
    ensures p.Keys == CommonKeys + CommandKeys(changeTopic)
    ensures p["device"] == JObj(Device(name))
    ensures p["name"] == JStr(sensorName) && p["deviceName"] == JStr(name)
    ensures p["state_topic"] == JStr(Topics.Compose(name, "state"))
    ensures p["value_template"] == JStr(ValueTemplate(valueName))
    ensures "command_topic" in p <==> changeTopic.Some?
    ensures changeTopic.Some? ==> p["command_topic"] == JStr(Topics.Compose(name, changeTopic.value))
  {
    var base := map[
      "device" := JObj(Device(name)),
      "name" := JStr(sensorName),
      "deviceName" := JStr(name),
      "state_topic" := JStr(Topics.Compose(name, "state")),
      "value_template" := JStr(ValueTemplate(valueName))
    ];
    if changeTopic.Some? then base["command_topic" := JStr(Topics.Compose(name, changeTopic.value))] else base
  }

  /** The document of `add_sensor(sensorName, unit, valueName, changeTopic)`. */
  function SensorConfig(name: string, sensorName: string, unit: string, valueName: string, changeTopic: Option<string>)
    : (p: map<string, Value>)
    ensures p.Keys == CommonKeys + {"unit_of_measurement"} + CommandKeys(changeTopic)
    ensures p["device"] == JObj(Device(name))
    ensures p["name"] == JStr(sensorName) && p["deviceName"] == JStr(name)
    ensures p["state_topic"] == JStr(Topics.Compose(name, "state"))
    ensures p["unit_of_measurement"] == JStr(unit)
    ensures p["value_template"] == JStr(ValueTemplate(valueName))
    ensures "command_topic" in p <==> changeTopic.Some?
    ensures changeTopic.Some? ==> p["command_topic"] == JStr(Topics.Compose(name, changeTopic.value))
  {
    BinarySensorConfig(name, sensorName, valueName, changeTopic)["unit_of_measurement" := JStr(unit)]
  }

  /** A binary sensor's document is a sensor's document without the unit, whatever unit that had. */
  lemma BinaryIsSensorWithoutUnit(name: string, sensorName: string, unit: string, valueName: string, changeTopic: Option<string>)
    ensures BinarySensorConfig(name, sensorName, valueName, changeTopic)
         == SensorConfig(name, sensorName, unit, valueName, changeTopic) - {"unit_of_measurement"}
  {
    var b := BinarySensorConfig(name, sensorName, valueName, changeTopic);
    var s := SensorConfig(name, sensorName, unit, valueName, changeTopic);
    assert "unit_of_measurement" !in b;
    assert forall k :: k in b ==> k in s - {"unit_of_measurement"} && b[k] == s[k];
  }

  /** `homeassistant/sensor/<name>/<sensor>/config`. */
  function SensorTopic(name: string, sensorName: string): string {
    "homeassistant/sensor/" + name + "/" + sensorName + "/config"
  }

  /** `homeassistant/binary_sensor/<name>/<sensor>/config`. */
  function BinarySensorTopic(name: string, sensorName: string): string {
    "homeassistant/binary_sensor/" + name + "/" + sensorName + "/config"
  }

  /** Two sensors of one device share a discovery topic only if they share a name. */
  lemma SensorTopicInjective(name: string, s1: string, s2: string)
    requires SensorTopic(name, s1) == SensorTopic(name, s2)
    ensures s1 == s2
  {
    var t := SensorTopic(name, s1);
    var lead := |"homeassistant/sensor/" + name + "/"|;
    assert s1 == t[lead..|t| - 7];
    assert s2 == SensorTopic(name, s2)[lead..|t| - 7];
  }

  /** Two binary sensors of one device share a discovery topic only if they share a name. */
  lemma BinarySensorTopicInjective(name: string, s1: string, s2: string)
    requires BinarySensorTopic(name, s1) == BinarySensorTopic(name, s2)
    ensures s1 == s2
  {
    var t := BinarySensorTopic(name, s1);
    var lead := |"homeassistant/binary_sensor/" + name + "/"|;
    assert s1 == t[lead..|t| - 7];
    assert s2 == BinarySensorTopic(name, s2)[lead..|t| - 7];
  }

  /** A sensor's discovery topic never coincides with a binary sensor's. */
  lemma SensorAndBinaryTopicsDiffer(name: string, s1: string, s2: string)
    ensures SensorTopic(name, s1) != BinarySensorTopic(name, s2)
  {
    assert SensorTopic(name, s1)[14] == 's';
    assert BinarySensorTopic(name, s2)[14] == 'b';
  }
}
