/**
 * The discovery registrations the bridge makes at start-up: one sensor for every
 * weather value of the status record and one binary sensor for `daytime`.
 */
module Bridge {
  import opened Wrappers
  import Forecast
  import Discovery
  import Session

  datatype Announcement =
    | Sensor(sensorName: string, unit: string, valueName: string)
    | BinarySensor(sensorName: string, valueName: string)

  /** The registrations, in the order the bridge makes them. */
  const Announcements: seq<Announcement> := [
    Sensor("temp", "C", "temp"),
    Sensor("feelslike", "C", "feelslike"),
    Sensor("humidity", "pct", "humidity"),
    Sensor("dew", "C", "dew"),
    Sensor("precip", "pct", "precip"),
    Sensor("precipprob", "pct", "precipprob"),
    Sensor("snow", "pct", "snow"),
    Sensor("snowdepth", "pct", "snowdepth"),
    Sensor("windgust", "m/s", "windgust"),
    Sensor("windspeed", "m/s", "windspeed"),
    Sensor("winddir", "degree", "winddir"),
    Sensor("pressure", "mbar", "pressure"),
    Sensor("visibility", "pct", "visibility"),
    Sensor("cloudcover", "pct", "cloudcover"),
    Sensor("solarradiation", "W/m2", "solarradiation"),
    Sensor("solarenergy", "kWh", "solarenergy"),
    Sensor("moonphase", "pct", "moonphase"),
    BinarySensor("daytime", "daytime")
  ]

  function ValueNames(anns: seq<Announcement>): (names: seq<string>)
    ensures |names| == |anns| && forall i :: 0 <= i < |anns| ==> names[i] == anns[i].valueName
  {
    seq(|anns|, i requires 0 <= i < |anns| => anns[i].valueName)
  }

  /** The discovery publish a registration makes for the handler named `name`. */
  function AnnouncementEvent(name: string, a: Announcement): Session.Event {
    match a
    case Sensor(s, u, v) =>
      Session.DiscoveryEvent(Discovery.SensorTopic(name, s), Discovery.SensorConfig(name, s, u, v, None))
    case BinarySensor(s, v) =>
      Session.DiscoveryEvent(Discovery.BinarySensorTopic(name, s), Discovery.BinarySensorConfig(name, s, v, None))
  }

  function AnnouncementEvents(name: string, anns: seq<Announcement>): (es: seq<Session.Event>)
    ensures |es| == |anns| && forall i :: 0 <= i < |anns| ==> es[i] == AnnouncementEvent(name, anns[i])
  {
    seq(|anns|, i requires 0 <= i < |anns| => AnnouncementEvent(name, anns[i]))
  }

  /**
   * Every key of a status record has exactly one registration reading it: the 17 weather
   * values through sensors, in the order they are copied, and `daytime` through the one
   * binary sensor.
   */
  lemma EveryRecordKeyAnnouncedOnce()
    ensures ValueNames(Announcements) == Forecast.Fields + ["daytime"]
    ensures forall k :: k in Forecast.RecordKeys <==> k in ValueNames(Announcements)
    ensures Session.Distinct(ValueNames(Announcements))
    ensures forall i :: 0 <= i < |Announcements| ==>
      (Announcements[i].BinarySensor? <==> Announcements[i].valueName == "daytime")
    ensures forall i :: 0 <= i < |Announcements| ==> Announcements[i].sensorName == Announcements[i].valueName
  {
    var names := ValueNames(Announcements);
    assert names == Forecast.Fields + ["daytime"];
    Forecast.DaytimeIsNotAField();
    FieldsDistinct();
  }

  lemma FieldsDistinct()
    ensures Session.Distinct(Forecast.Fields)
  {
  }

  /** Registrations under different sensor names publish to different discovery topics. */
  lemma DistinctNamesDistinctTopics(name: string, a: Announcement, b: Announcement)
    requires a.sensorName != b.sensorName
    ensures AnnouncementEvent(name, a).topic != AnnouncementEvent(name, b).topic
  {
    match a {
      case Sensor(s1, _, _) =>
        match b {
          case Sensor(s2, _, _) =>
            if Discovery.SensorTopic(name, s1) == Discovery.SensorTopic(name, s2) {
              Discovery.SensorTopicInjective(name, s1, s2);
            }
          case BinarySensor(s2, _) =>
            Discovery.SensorAndBinaryTopicsDiffer(name, s1, s2);
        }
      case BinarySensor(s1, _) =>
        match b {
          case Sensor(s2, _, _) =>
            Discovery.SensorAndBinaryTopicsDiffer(name, s2, s1);
          case BinarySensor(s2, _) =>
            if Discovery.BinarySensorTopic(name, s1) == Discovery.BinarySensorTopic(name, s2) {
              Discovery.BinarySensorTopicInjective(name, s1, s2);
            }
        }
    }
  }

  /** No two registrations share a discovery topic, so no retained document replaces another. */
  lemma AnnouncementTopicsDistinct(name: string, i: nat, j: nat)
    requires i < j < |Announcements|
    ensures AnnouncementEvent(name, Announcements[i]).topic != AnnouncementEvent(name, Announcements[j]).topic
  {
    EveryRecordKeyAnnouncedOnce();
    assert ValueNames(Announcements)[i] != ValueNames(Announcements)[j];
    DistinctNamesDistinctTopics(name, Announcements[i], Announcements[j]);
  }

  /** One registration: `add_sensor` or `add_binary_sensor`, without a command topic. */
  method AnnounceOne(h: Session.MqttHandler, a: Announcement)
    requires h.Valid()
    modifies h`log
    ensures h.Valid()
    ensures h.log == old(h.log) + [AnnouncementEvent(h.name, a)]
  {
    match a
    case Sensor(s, u, v) => h.AddSensor(s, u, v, None);
    case BinarySensor(s, v) => h.AddBinarySensor(s, v, None);
  }

  lemma AnnouncementEventsSnoc(name: string, anns: seq<Announcement>, n: nat)
    requires n < |anns|
    ensures AnnouncementEvents(name, anns[..n + 1])
         == AnnouncementEvents(name, anns[..n]) + [AnnouncementEvent(name, anns[n])]
  {
    assert anns[..n + 1] == anns[..n] + [anns[n]];
  }

  /** Registrations made one after another in their listed order. */
  method Announce(h: Session.MqttHandler, anns: seq<Announcement>)
    requires h.Valid()
    modifies h`log
    ensures h.Valid()
    ensures h.log == old(h.log) + AnnouncementEvents(h.name, anns)
  {
    for n := 0 to |anns|
      invariant h.Valid()
      invariant h.log == old(h.log) + AnnouncementEvents(h.name, anns[..n])
    {
      AnnounceOne(h, anns[n]);
      AnnouncementEventsSnoc(h.name, anns, n);
    }
    assert anns[..|anns|] == anns;
  }

  /** The registrations of lines 110-127. */
  method AnnounceSensors(h: Session.MqttHandler)
    requires h.Valid()
    modifies h`log
    ensures h.Valid()
    ensures h.log == old(h.log) + AnnouncementEvents(h.name, Announcements)
  {
    Announce(h, Announcements);
  }
}
