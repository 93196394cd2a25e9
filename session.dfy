/**
 * The `mqtthandler` class: its topics, last will, presence publishing, the
 * topic-to-callback table with insert-if-absent registration and exact-match
 * dispatch, and the discovery publishes.
 *
 * The paho client is represented by the requests handed to it: `log` is the
 * sequence of publishes and subscribes in the order the handler made them.
 */
module Session {
  import opened Wrappers
  import opened Json
  import Strings
  import Topics
  import Discovery

  /** Identifies a Python callable given to `register_callback`; what the callable does is not modelled. */
  type HandlerId = nat

  /** A message body: text, or the text `json.dumps` makes of a document. */
  datatype Body = Text(text: string) | Encoded(doc: Value)

  /** One request handed to the client. */
  datatype Event =
    | Published(topic: string, body: Option<Body>, qos: nat, retain: bool)
    | Subscribed(topic: string, qos: nat)

  /** One call of a registered callback, with the arguments it receives. */
  datatype Invocation = Invocation(handler: HandlerId, topic: string, payload: seq<bv8>)

  /** What `register_callback` does: register, or raise because the topic is already defined. */
  datatype Registration = Registered | AlreadyDefined(topic: string)

  /** The topics subscribed to so far, in order. */
  function SubscribedTopics(log: seq<Event>): seq<string> {
    if log == [] then []
    else SubscribedTopics(log[..|log| - 1]) + (if log[|log| - 1].Subscribed? then [log[|log| - 1].topic] else [])
  }

  lemma SubscribedTopicsAppend(log: seq<Event>, e: Event)
    ensures SubscribedTopics(log + [e]) == SubscribedTopics(log) + (if e.Subscribed? then [e.topic] else [])
  {
    assert (log + [e])[..|log|] == log;
  }

  predicate Distinct(s: seq<string>) {
    forall i, j :: 0 <= i < j < |s| ==> s[i] != s[j]
  }

  /** Every registered topic was subscribed to, exactly once, and nothing else was. */
  ghost predicate TableMatchesLog(table: map<string, HandlerId>, log: seq<Event>) {
    && (forall t :: t in table <==> t in SubscribedTopics(log))
    && Distinct(SubscribedTopics(log))
  }

  lemma PublishKeepsTable(table: map<string, HandlerId>, log: seq<Event>, e: Event)
    requires TableMatchesLog(table, log) && e.Published?
    ensures TableMatchesLog(table, log + [e])
  {
    SubscribedTopicsAppend(log, e);
  }

  lemma SubscribeKeepsTable(table: map<string, HandlerId>, log: seq<Event>, topic: string, h: HandlerId)
    requires TableMatchesLog(table, log) && topic !in table
    ensures TableMatchesLog(table[topic := h], log + [Subscribed(topic, 0)])
  {
    SubscribedTopicsAppend(log, Subscribed(topic, 0));
    var subs := SubscribedTopics(log);
    assert topic !in subs;
    assert SubscribedTopics(log + [Subscribed(topic, 0)]) == subs + [topic];
  }

  /** The client name used when none is given: the program path without ".py" and "./". */
  function DefaultName(argv0: string): string {
    Strings.ReplaceAll(Strings.ReplaceAll(argv0, ".py", ""), "./", "")
  }

  /** The message the broker publishes for the handler on an unclean disconnect, and the presence message on connect. */
  function Presence(connectTopic: string, value: string): Event {
    Published(connectTopic, Some(Text(value)), 1, true)
  }

  /** A retained discovery document. */
  function DiscoveryEvent(topic: string, doc: map<string, Value>): Event {
    Published(topic, Some(Encoded(JObj(doc))), 1, true)
  }

  /** The table after `register_callback(topic, h)`, or the topic that is already defined. */
  function Register(table: map<string, HandlerId>, topic: string, h: HandlerId): (r: Result<map<string, HandlerId>, string>)
    ensures r.Failure? <==> topic in table
    ensures r.Failure? ==> r.error == topic
    ensures r.Success? ==> r.value.Keys == table.Keys + {topic} && r.value[topic] == h
    ensures r.Success? ==> forall t :: t in table ==> r.value[t] == table[t]
  {
    if topic in table then Failure(topic) else Success(table[topic := h])
  }

  /** The callback `on_message` makes for a message on `topic`, if any. */
  function Dispatch(table: map<string, HandlerId>, topic: string, payload: seq<bv8>): (r: Option<Invocation>)
    ensures r.Some? <==> topic in table
    ensures r.Some? ==> r.value.handler == table[topic] && r.value.topic == topic && r.value.payload == payload
  {
    if topic in table then Some(Invocation(table[topic], topic, payload)) else None
  }

  /**
   * After a successful registration, messages on that topic reach the new handler and
   * messages on every other topic go where they went before.
   */
  lemma DispatchAfterRegister(table: map<string, HandlerId>, topic: string, h: HandlerId, other: string, payload: seq<bv8>)
    requires Register(table, topic, h).Success?
    ensures Dispatch(Register(table, topic, h).value, topic, payload) == Some(Invocation(h, topic, payload))
    ensures other != topic ==>
      Dispatch(Register(table, topic, h).value, other, payload) == Dispatch(table, other, payload)
  {
  }

  /** A second registration on a topic fails and the first handler stays in place. */
  lemma RegisterTwiceFails(table: map<string, HandlerId>, topic: string, h1: HandlerId, h2: HandlerId)
    requires Register(table, topic, h1).Success?
    ensures Register(Register(table, topic, h1).value, topic, h2) == Failure(topic)
    ensures Register(table, topic, h1).value[topic] == h1
  {
  }

  class MqttHandler {
    const name: string
    const host: string
    const port: int
    const connectTopic: string
    const stateTopic: string
    const will: Event
    var callbacks: map<string, HandlerId>
    var log: seq<Event>

    /** The topics are composed from the name, and every registered topic was subscribed exactly once. */
    ghost predicate Valid()
      reads this
    {
      && connectTopic == Topics.Compose(name, "connected")
      && stateTopic == Topics.Compose(name, "state")
      && will == Presence(connectTopic, "0")
      && TableMatchesLog(callbacks, log)
    }

    /** `mqtthandler(host, port, name)`; `argv0` stands for `sys.argv[0]`. */
    constructor (host: string, port: int, name: Option<string>, argv0: string)
      ensures Valid()
      ensures this.name == (if name.Some? then name.value else DefaultName(argv0))
      ensures this.host == host && this.port == port
      ensures callbacks == map[] && log == []
    {
      var n := if name.Some? then name.value else DefaultName(argv0);
      var connectTopic := Topics.Compose(n, "connected");
      this.name := n;
      this.connectTopic := connectTopic;
      this.stateTopic := Topics.Compose(n, "state");
      this.host := host;
      this.port := port;
      this.will := Presence(connectTopic, "0");
      this.callbacks := map[];
      this.log := [];
    }

    /** `on_connect`: announces presence every time, whatever happened before. */
    method OnConnect()
      requires Valid()
      modifies this`log
      ensures Valid()
      ensures log == old(log) + [Presence(connectTopic, "1")]
    {
      PublishKeepsTable(callbacks, log, Presence(connectTopic, "1"));
      log := log + [Presence(connectTopic, "1")];
    }

    /** `on_disconnect`: only logs, so neither the table nor the client's requests change. */
    method OnDisconnect()
      requires Valid()
      ensures unchanged(this)
    {
    }

    /** `publish(topic, payload)`: qos 0, not retained, with no body when the payload is None. */
    method Publish(topic: string, payload: Option<Body>)
      requires Valid()
      modifies this`log
      ensures Valid()
      ensures log == old(log) + [Published(topic, payload, 0, false)]
    {
      PublishKeepsTable(callbacks, log, Published(topic, payload, 0, false));
      log := log + [Published(topic, payload, 0, false)];
    }

    /** `publish_state(payload)`: the encoded document on the state topic, through `publish`. */
    method PublishState(payload: Value)
      requires Valid()
      modifies this`log
      ensures Valid()
      ensures log == old(log) + [Published(stateTopic, Some(Encoded(payload)), 0, false)]
    {
      Publish(stateTopic, Some(Encoded(payload)));
    }

    /** `on_message`: exactly the handler registered for the topic, or nothing. */
    method OnMessage(topic: string, payload: seq<bv8>) returns (call: Option<Invocation>)
      ensures call == Dispatch(callbacks, topic, payload)
    {
      if topic in callbacks {
        call := Some(Invocation(callbacks[topic], topic, payload));
      } else {
        call := None;
      }
    }

    /** `register_callback(topic, h)`: insert-if-absent, then subscribe once. */
    method RegisterCallback(topic: string, h: HandlerId) returns (outcome: Registration)
      requires Valid()
      modifies this`callbacks, this`log
      ensures Valid()
      ensures outcome == (if topic in old(callbacks) then AlreadyDefined(topic) else Registered)
      ensures outcome.AlreadyDefined? ==> callbacks == old(callbacks) && log == old(log)
      ensures outcome.Registered? ==>
        && Register(old(callbacks), topic, h) == Success(callbacks)
        && log == old(log) + [Subscribed(topic, 0)]
    {
      if topic in callbacks {
        return AlreadyDefined(topic);
      }
      SubscribeKeepsTable(callbacks, log, topic, h);
      callbacks := callbacks[topic := h];
      log := log + [Subscribed(topic, 0)];
      outcome := Registered;
    }

    /** `add_sensor(sensorName, unit, valueName, changeTopic)`: one retained discovery document. */
    method AddSensor(sensorName: string, unit: string, valueName: string, changeTopic: Option<string>)
      requires Valid()
      modifies this`log
      ensures Valid()
      ensures log == old(log) + [DiscoveryEvent(Discovery.SensorTopic(name, sensorName),
                                                Discovery.SensorConfig(name, sensorName, unit, valueName, changeTopic))]
    {
      var e := DiscoveryEvent(Discovery.SensorTopic(name, sensorName),
                              Discovery.SensorConfig(name, sensorName, unit, valueName, changeTopic));
      PublishKeepsTable(callbacks, log, e);
      log := log + [e];
    }

    /** `add_binary_sensor(sensorName, valueName, changeTopic)`: one retained discovery document. */
    method AddBinarySensor(sensorName: string, valueName: string, changeTopic: Option<string>)
      requires Valid()
      modifies this`log
      ensures Valid()
      ensures log == old(log) + [DiscoveryEvent(Discovery.BinarySensorTopic(name, sensorName),
                                                Discovery.BinarySensorConfig(name, sensorName, valueName, changeTopic))]
    {
      var e := DiscoveryEvent(Discovery.BinarySensorTopic(name, sensorName),
                              Discovery.BinarySensorConfig(name, sensorName, valueName, changeTopic));
      PublishKeepsTable(callbacks, log, e);
      log := log + [e];
    }
  }
}
