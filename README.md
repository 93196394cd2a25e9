# visualcrossing2mqtt in Dafny

A model of the bridge that takes a Visual Crossing weather forecast and republishes it on an
MQTT broker for Home Assistant. The model covers four pieces of the bridge:

- **The `mqtthandler` session object** (`session.dfy`, with `topics.dfy` and `discovery.dfy`).
  It is a class with the handler's name, its presence and state topics, its last will, the
  topic→callback table (`callbacks: map<string, HandlerId>`) and the requests handed to the paho
  client (`log: seq<Event>`, publishes and subscribes in order). Its methods are `OnConnect`,
  `OnDisconnect`, `Publish`, `PublishState`, `OnMessage`, `RegisterCallback`, `AddSensor` and
  `AddBinarySensor`. The object invariant `Valid()` says three things:
  - the topics are composed from the name;
  - the will is a retained `0` on the presence topic;
  - every registered topic was subscribed exactly once, and nothing else was subscribed.

  Registration and dispatch are also given as pure functions (`Register`, `Dispatch`), and the
  methods are proved against them. The discovery documents are pure functions of the handler's
  name and the call's arguments.
- **The transform inside `refresh`** (`forecast.dfy`). It turns the forecast's days and hours
  into the status payload:
  - it skips hours whose temperature is None;
  - it copies 17 weather values and computes `daytime`;
  - it appends future hours to `future`;
  - it replaces the payload with each hour that is not in the future.

  `Transform` is the nested loop and `Refresh` adds the single publish at the end. `Run` states
  what the loop computes, one hour at a time. An independent description, `Final` of the
  emitted entries, gives the payload directly: the last non-future record plus every later
  record. `RunIsFinal` proves that the two agree. `EmittedKept` ties the emitted entries to the
  hours whose temperature is not None. `AscendingForecastPayload` concludes what is published
  for a forecast whose hours ascend in time.
- **The announcement list** (`bridge.dfy`): the 17 sensors and one binary sensor registered at
  start-up. The model proves that they cover the record's keys exactly once and that their
  discovery topics are pairwise distinct.
- **The auto-refresh wake-time arithmetic** (`schedule.dfy`) and **configuration lookup**
  (`config.dfy`, with `strings.dfy` for `str.replace` and `decimal.dfy` for `str`/`int` on
  integers).

Points where the code does something a reader might not expect:

- There is no connection state. `on_connect` publishes a retained `1` every time it is called,
  and `on_disconnect` only logs, so presence publishing is not idempotent.
- `publish` calls the paho client with its defaults: qos 0 and not retained. A reader might
  expect qos 1, as the presence and discovery messages use.
- The state topic is `<name>/state`. A reader might expect `<name>/status`.
- The value template has single braces, `{ value_json.<field> }`, because `{{` in an f-string
  is an escaped `{`. Home Assistant templates normally use double braces.
- The next refresh is not aligned to a wall-clock boundary (see Findings).
- The bridge script imports `MqttHandler` and calls `register_refresh` and `publish_status_json`.
  None of these exists in `mqtthandler.py`, whose class is `mqtthandler` with `publish_state`.
  The model keeps the methods that exist. The status publish at the end of `refresh` is an
  abstract `StatusChannel.Send`.

Conventions:

- Paho turns an integer payload into its decimal text, so the presence payloads are `Text("1")`
  and `Text("0")`.
- `Encoded(doc)` stands for the text `json.dumps(doc)`.
- Instants are integer microseconds on the local wall clock, with a fixed offset to UTC.

## Model

| member | source | states |
|---|---|---|
| Topics.Compose | visualcrossing2mqtt/mqtthandler.py:41-42 | the topic is the device name, then `/`, then the suffix, each recoverable by position |
| Topics.ComposeInjective | visualcrossing2mqtt/mqtthandler.py:41-42 | distinct suffixes give distinct topics under one device |
| Topics.PresenceAndStateDiffer | visualcrossing2mqtt/mqtthandler.py:18-19 | the `connected` and `state` topics never coincide |
| Session.MqttHandler.constructor | visualcrossing2mqtt/mqtthandler.py:10-29 | the name is the given one, or else `sys.argv[0]` without `.py` and `./`; the topics are `<name>/connected` and `<name>/state`; the will is a retained qos-1 `0` on the presence topic; the table and the log start empty |
| Session.MqttHandler.OnConnect | visualcrossing2mqtt/mqtthandler.py:37-39 | appends exactly one retained qos-1 `1` on the presence topic, however often it is called; the table is unchanged |
| Session.MqttHandler.OnDisconnect | visualcrossing2mqtt/mqtthandler.py:44-45 | changes nothing: no request to the client, no change to the table |
| Session.MqttHandler.Publish | visualcrossing2mqtt/mqtthandler.py:47-52 | appends one qos-0 unretained publish on the topic, with no body when the payload is None and the payload's text otherwise; the table is unchanged |
| Session.MqttHandler.PublishState | visualcrossing2mqtt/mqtthandler.py:54-55 | appends one publish of the encoded document on `<name>/state` |
| Session.Register | visualcrossing2mqtt/mqtthandler.py:62-65 | fails exactly when the topic is present; otherwise adds exactly `topic ↦ h` and keeps every other entry |
| Session.RegisterTwiceFails | visualcrossing2mqtt/mqtthandler.py:63-64 | a second registration on a topic fails and the first handler stays |
| Session.MqttHandler.RegisterCallback | visualcrossing2mqtt/mqtthandler.py:62-66 | on a defined topic it reports the error and changes neither the table nor the log; otherwise the table is `Register`'s result and exactly one subscribe is appended; the invariant keeps every topic subscribed at most once |
| Session.Dispatch | visualcrossing2mqtt/mqtthandler.py:57-60 | a callback is made exactly when the topic is in the table, to that topic's handler, with the same topic and payload |
| Session.DispatchAfterRegister | visualcrossing2mqtt/mqtthandler.py:59-65 | after registering `t ↦ h`, messages on `t` reach `h` and messages on every other topic are dispatched as before |
| Session.MqttHandler.OnMessage | visualcrossing2mqtt/mqtthandler.py:57-60 | returns the one invocation `Dispatch` gives, or none for an unregistered topic, without raising |
| Discovery.Device | visualcrossing2mqtt/mqtthandler.py:71-76 | the descriptor has exactly `model` = `Python`, `name` = the handler's name, `sw_version` = `GIT_TAG` |
| Discovery.SensorConfig | visualcrossing2mqtt/mqtthandler.py:78-88 | keys are device, name, deviceName, state_topic, unit_of_measurement, value_template, plus command_topic exactly when a change topic is given; the state topic is `<name>/state`; the unit is the one given; the template is `{ value_json.<value> }`; the command topic is `compose_topic(change)` |
| Discovery.BinarySensorConfig | visualcrossing2mqtt/mqtthandler.py:92-101 | the same keys and values as a sensor's document, without unit_of_measurement |
| Discovery.BinaryIsSensorWithoutUnit | visualcrossing2mqtt/mqtthandler.py:78-101 | a binary sensor's document equals a sensor's document with the unit key removed, whatever the unit |
| Discovery.TemplateRoundTrip | visualcrossing2mqtt/mqtthandler.py:85 | the value name can be read back from the template, so distinct values give distinct templates |
| Discovery.SensorTopicInjective | visualcrossing2mqtt/mqtthandler.py:89 | two sensors of one device share a discovery topic only if they share a name |
| Discovery.BinarySensorTopicInjective | visualcrossing2mqtt/mqtthandler.py:102 | two binary sensors of one device share a discovery topic only if they share a name |
| Discovery.SensorAndBinaryTopicsDiffer | visualcrossing2mqtt/mqtthandler.py:89-102 | a sensor's discovery topic never equals a binary sensor's |
| Session.MqttHandler.AddSensor | visualcrossing2mqtt/mqtthandler.py:78-90 | appends exactly one retained qos-1 publish of `SensorConfig` to `homeassistant/sensor/<name>/<sensor>/config` |
| Session.MqttHandler.AddBinarySensor | visualcrossing2mqtt/mqtthandler.py:92-103 | appends exactly one retained qos-1 publish of `BinarySensorConfig` to `homeassistant/binary_sensor/<name>/<sensor>/config` |
| Forecast.CopyWrites | visualcrossing2mqtt/visualcrossing2mqtt.py:69-85 | `Copy` succeeds exactly when every key is present, with exactly those keys copied unchanged; otherwise fails on the first absent key in order |
| Forecast.RecordOfIsWrite | visualcrossing2mqtt/visualcrossing2mqtt.py:67-86 | `RecordOf` builds the record exactly when the hour has all 17 weather keys. The record has exactly those keys plus `daytime`. Each weather value is the hour's, unchanged. `daytime` holds iff sunrise < hour < sunset, strictly. A missing key is a KeyError on the first missing one, in copy order |
| Forecast.RecordOfSucceeds | visualcrossing2mqtt/visualcrossing2mqtt.py:69-85 | the record is built exactly when the hour has every weather key |
| Forecast.EntryOf | visualcrossing2mqtt/visualcrossing2mqtt.py:62-94 | an hour contributes nothing exactly when its temperature is None. It raises exactly when it is not skipped and its record cannot be built, with the record's KeyError. Otherwise it contributes its record, marked future iff now is before the hour |
| Forecast.SkippedHoursIgnored | visualcrossing2mqtt/visualcrossing2mqtt.py:62-63 | removing the hours whose temperature is None changes no outcome of the loop |
| Forecast.RunFailureSticks | visualcrossing2mqtt/visualcrossing2mqtt.py:60-62 | once a key is found missing, the later hours change nothing: the KeyError is the outcome |
| Forecast.VisitHour | visualcrossing2mqtt/visualcrossing2mqtt.py:62-100 | one pass of the inner loop equals one step of `Run`: skip, KeyError, append to (or create) `future`, or replace the payload |
| Forecast.Transform | visualcrossing2mqtt/visualcrossing2mqtt.py:57-100 | the nested loops over days and hours leave exactly `Run` of all hours in order, or the first KeyError |
| Forecast.FinalStep | visualcrossing2mqtt/visualcrossing2mqtt.py:94-100 | appending or replacing one entry keeps the payload equal to `Final` of the entries so far |
| Forecast.RunIsFinal | visualcrossing2mqtt/visualcrossing2mqtt.py:57-100 | the loop's payload is the last non-future record (an empty dict if none) plus a `future` list of every later kept record in order, present only if non-empty |
| Forecast.OrderedEntriesFinal | visualcrossing2mqtt/visualcrossing2mqtt.py:94-100 | if the kept hours not in the future come first and there is at least one, the payload is the last of them plus all later records as `future` |
| Forecast.FutureIsMonotone | visualcrossing2mqtt/visualcrossing2mqtt.py:94 | a later hour is in the future whenever an earlier one is, so hours in ascending time are past-then-future |
| Forecast.AllRecordsPresentAt | visualcrossing2mqtt/visualcrossing2mqtt.py:69-85 | a list of hours raises no KeyError exactly when every hour in it has every weather key |
| Forecast.KeptRecordsAt | visualcrossing2mqtt/visualcrossing2mqtt.py:67-86 | the j-th kept record is the record built from the j-th kept hour |
| Forecast.KeptEntriesAt | visualcrossing2mqtt/visualcrossing2mqtt.py:67-94 | the kept entries carry the kept records in order, and each is marked future exactly when its hour is |
| Forecast.EmittedKept | visualcrossing2mqtt/visualcrossing2mqtt.py:60-94 | the loop emits one entry per hour whose temperature is not None, in order: the hour's record, marked future iff the hour is. It raises a KeyError exactly when one of those hours lacks a weather key |
| Forecast.FirstFuture | visualcrossing2mqtt/visualcrossing2mqtt.py:94 | the position of the first kept hour that is in the future: every hour before it is not |
| Forecast.AscendingSplitsAtFirstFuture | visualcrossing2mqtt/visualcrossing2mqtt.py:94 | when the kept hours ascend in time, every hour from the first future one on is in the future |
| Forecast.AscendingForecastPayload | visualcrossing2mqtt/visualcrossing2mqtt.py:57-100 | consider kept hours that have all their weather keys, ascend in time and begin with an hour not in the future. For them the loop raises nothing. The payload is the record of the last hour not in the future, with a `future` list of every later kept record in order, present only when there is one |
| Forecast.StatusChannel.Send | visualcrossing2mqtt/visualcrossing2mqtt.py:104 | one status publish is recorded |
| Forecast.Refresh | visualcrossing2mqtt/visualcrossing2mqtt.py:50-104 | the status payload is published exactly once, after the loops; nothing is published when a KeyError is raised |
| Bridge.EveryRecordKeyAnnouncedOnce | visualcrossing2mqtt/visualcrossing2mqtt.py:110-127 | the registrations read exactly the record's keys, each once: the 17 weather values by sensors, in copy order, and `daytime` by the only binary sensor |
| Bridge.DistinctNamesDistinctTopics | visualcrossing2mqtt/mqtthandler.py:89-102 | registrations under different sensor names publish to different discovery topics |
| Bridge.AnnouncementTopicsDistinct | visualcrossing2mqtt/visualcrossing2mqtt.py:110-127 | no two start-up registrations share a discovery topic |
| Bridge.AnnounceOne | visualcrossing2mqtt/visualcrossing2mqtt.py:110-127 | one `add_sensor` or `add_binary_sensor` call without a command topic appends its discovery publish |
| Bridge.Announce | visualcrossing2mqtt/visualcrossing2mqtt.py:110-127 | registrations made in order append their discovery publishes in the same order |
| Bridge.AnnounceSensors | visualcrossing2mqtt/visualcrossing2mqtt.py:110-127 | the 18 start-up registrations append their 18 discovery publishes in listed order |
| Schedule.SecondsOfDay | visualcrossing2mqtt/visualcrossing2mqtt.py:135 | the seconds since the start of the day lie in 0 .. 86399 |
| Schedule.NextWake | visualcrossing2mqtt/visualcrossing2mqtt.py:134-137 | the seconds-of-day term cancels: `nh` is the post-refresh instant cut to a whole second plus `REFRESH_TIME`, at any time of day |
| Schedule.SleepBounds | visualcrossing2mqtt/visualcrossing2mqtt.py:138 | when the refresh ends at or after `call_started`, the sleep is more than `REFRESH_TIME` less one second and at most `REFRESH_TIME` plus the refresh's duration |
| Schedule.WakeInstant | visualcrossing2mqtt/visualcrossing2mqtt.py:138 | the loop wakes one `REFRESH_TIME` after the truncated end of the refresh, plus the refresh's duration |
| Schedule.WakeNotAligned | visualcrossing2mqtt/visualcrossing2mqtt.py:134-138 | a refresh from 12:17:00 to 12:17:00.5 is followed by a wake at 13:17:00.5, not the 13:00:00 boundary |
| Schedule.AlignedWake | visualcrossing2mqtt/visualcrossing2mqtt.py:134-137 | corrected: the wake is a multiple of the period, at or after the refresh's end and less than one period after it |
| Schedule.AlignedWakeIsFirst | visualcrossing2mqtt/visualcrossing2mqtt.py:134-137 | corrected: no period boundary at or after the end comes before the wake |
| Schedule.AlignedFromDayStart | visualcrossing2mqtt/visualcrossing2mqtt.py:135-136 | corrected: the wake is a multiple of the period counted from the start of its day too |
| Schedule.AlignedWakeUpTo | visualcrossing2mqtt/visualcrossing2mqtt.py:134-137 | corrected: every refresh ending within the period before a boundary, or on it, wakes at that boundary, whatever its duration |
| Schedule.AlignedSleep | visualcrossing2mqtt/visualcrossing2mqtt.py:138 | corrected: the sleep, counted from when it starts, is less than one period and ends at the aligned wake |
| Strings.ReplaceCharAt | visualcrossing2mqtt/cfg_loader.py:5 | replacing one character by another keeps the length and rewrites exactly the matching positions |
| Strings.ReplaceAbsentChar | visualcrossing2mqtt/cfg_loader.py:5 | a string without the character is unchanged |
| Config.UnderscoredAt | visualcrossing2mqtt/cfg_loader.py:5 | the fallback key has the key's length, `_` exactly where the key has `.`, and no `.` |
| Config.RetrieveCfg | visualcrossing2mqtt/cfg_loader.py:4-8 | the exact key's value if present, else the underscored key's, else the default; fails with the key exactly when none of these exists and the value is required; a required lookup that succeeds is never None |
| Config.DotlessKeyLookedUpOnce | visualcrossing2mqtt/cfg_loader.py:5 | a key without `.` is its own fallback, so only that key is consulted |
| Decimal.ParseRenderNat | visualcrossing2mqtt/cfg_loader.py:12 | reading back the digits of a natural number gives the number |
| Decimal.RoundTrip | visualcrossing2mqtt/cfg_loader.py:12 | `int(str(n)) == n` for every integer |
| Config.RetrieveCfgInt | visualcrossing2mqtt/cfg_loader.py:11-12 | with neither key present the default comes back unchanged. The exact key's value, or else the underscored key's, is read as an integer or gives a ValueError. It never fails for a missing value |

## Left out

- The paho transport is left out: connecting, `loop_forever`, `__exit__`/`disconnect`, and wiring the callbacks into the client. It is network behaviour; the model keeps only the requests handed to the client.
- What a registered callback does is left out. `OnMessage` returns the invocation it makes (handler, topic, payload) and does not run the handler.
- Threads and sleeping are left out: the daemon thread, `time.sleep`, and the endless loops of `auto_refresh` and `start`. Only the wake-time arithmetic is kept.
- The on-demand refresh trigger is left out, because `register_refresh` does not exist in the handler.
- Fetching the forecast is left out: `from_url` (HTTP) and `from_file` (disk). The parsed days are a parameter of `Transform` and `Refresh`.
- JSON text is left out. Documents are maps and `Encoded(doc)` stands for `json.dumps(doc)`, so key order and escaping are not modelled.
- Weather values are floats in the source. They are only copied, and the model holds them as opaque `Json.Value`s.
- Datetime conversion is left out: `utcfromtimestamp`, `strftime`, `datetime.now()`, time zones and daylight-saving changes. Instants are integers, and the unused `date` string of line 65 is dropped.
- The module-level configuration reads and the logging setup of the bridge script are glue and are left out.
- Forecast.RecordOf: the epochs (`datetimeEpoch`, `sunriseEpoch`, `sunsetEpoch`) are typed integers. The KeyError or TypeError the source raises when one is missing or not a number is not modelled, and neither is the range error of `utcfromtimestamp`.
- Session.MqttHandler.Publish: payloads are text or an encoded document. The `str()` of other Python objects is not modelled, because the only caller passes text.
- Discovery.SensorConfig: the unit is a string. A None unit, which JSON would encode as null, is not modelled, because every caller passes a string.
- Config.RetrieveCfgInt: Python's `int()` also accepts surrounding whitespace, `_` between digits and non-ASCII digits. The model's parser accepts only an optional sign and ASCII digits.
- Bridge.AnnounceSensors: the source makes 18 consecutive calls. The model lists them in a table and makes the calls in a loop in the same order.
- Schedule.NextWake: the source computes with float timestamps. The model uses integer microseconds, so float rounding is not modelled.

## Findings

| source | as written | input that shows it | evidently intended | confidence | as-written member | corrected member |
|---|---|---|---|---|---|---|
| visualcrossing2mqtt/visualcrossing2mqtt.py:134-138 | `rounding - seconds` is `REFRESH_TIME`, so `nh` is the end of the refresh plus one hour. The sleep `nh - call_started` starts only after the refresh, so the loop wakes one hour plus the refresh's duration after it ended. | refresh starts at 12:17:00.000 and ends at 12:17:00.500; it wakes at 13:17:00.500 | wake at the next wall-clock boundary of `REFRESH_TIME` counted from the start of the day (13:00:00), sleeping from when the sleep starts | medium, not executed | Schedule.WakeNotAligned | Schedule.AlignedWake |
