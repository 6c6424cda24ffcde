# MQTT producer and last will, modelled in Dafny

This project models the outbound publish path of the MQTT adapter: the
producer `MqttProducer` and the last-will configuration record `MqttLastWill`.

- `MqttProducer` is a class (`Producer.MqttProducer`). Its fields are the
  attached connection, the destination, the topic cache `cachedTopicURLs`,
  `qos`, `retained` and the client `mqttClient`.
  - `Init` checks that a connection is attached, then that a destination is
    configured, in that order.
  - `Start` takes the connection's shared client and connects it only when it
    is not already connected.
  - `ResolveTopic` memoises the client's topic lookup in the cache. Entries
    are never evicted.
  - `Produce` builds the outbound message from the payload bytes and stamps
    the producer's QoS and retained flag on it (`ApplyExtraOptions`). It then
    publishes and wraps every failure in `ProduceException`.
- The client library is kept abstract (`PahoClient`). A client has a
  `connected` flag, a deterministic lookup `topicName` and a ghost `log` of
  every connect, lookup and publish made on it. Whether the broker accepts a
  connect or a publish is a nondeterministic outcome recorded in the log.
  The published `Envelope` is the QoS and RETAIN fields of the PUBLISH packet
  (sections 3.3.1.2 and 3.3.1.3 of MQTT 3.1.1) and the payload.
- The cache's behaviour is specified by pure functions in `TopicCache`.
  `Resolve` is one resolution and `ResolveAll` a run of them. Lemmas about
  runs state four things:
  - a cached name is never looked up again;
  - a successful lookup is never repeated;
  - over a sound cache every answer equals the lookup's own answer;
  - the final keys are exactly the initial keys plus the names whose lookup
    succeeds.
- `MqttLastWill` is a class (`LastWill.MqttLastWill`) with its five fields,
  its getters and its setters. `Valid()` is built from the field
  constraints: topic, payload and encoding not null, and QoS in 0..2.

A Java `null` string is `None`. A thrown exception is an `Err` or `Fail`
value carrying a `Failure`.

Three behaviours of the code are worth knowing:
- The producer's `qos` field declares the range 0..2 (MqttProducer.java:51-57),
  modelled as `OptionsConstrained()`, but `setQos` stores any integer and
  does not keep that range. Its doc comment (MqttProducer.java:214-215)
  promises an `IllegalArgumentException`; the only check actually made is
  the client library's message refusing a QoS outside 0..2 when `produce`
  stamps it. So an out-of-range QoS fails at publish time, as
  `ProduceException(InvalidQos(q))`.
- Before `start` the producer has no client. Every `produce` then fails
  and nothing is cached. When the destination gives a name, it fails at the
  topic lookup on the null client (`NullPointer`, wrapped in
  `ProduceException`). Otherwise it fails at the destination itself. The
  cache cannot hold a topic yet, because it is only filled through a
  client.
- `produce` ignores its `destination` argument and uses the configured
  destination.

## Model

| member | source | states |
|---|---|---|
| TopicCache.Resolve | src/main/java/com/adaptris/core/mqtt/MqttProducer.java:126-143 | the lookup is called exactly on a miss and only for that name; a hit returns the cached value and changes nothing; no entry is evicted or overwritten; the only key added is the name, and only when the lookup succeeds; a failed lookup inserts nothing; over a sound cache the answer equals the lookup's and the cache stays sound |
| TopicCache.ResolveTwice | src/main/java/com/adaptris/core/mqtt/MqttProducer.java:130-138 | after a successful resolution, resolving the same name again gives the same topic from the cache, with at most one lookup for the pair; after a failed one, the second call retries the lookup |
| TopicCache.ResolveAll | src/main/java/com/adaptris/core/mqtt/MqttProducer.java:126-139 | a run of resolutions gives one answer per resolution, makes at most one lookup per resolution, and keeps every initial cache entry |
| TopicCache.RunLooksUpUncachedNames | src/main/java/com/adaptris/core/mqtt/MqttProducer.java:130-136 | a run looks up a name if and only if the name is among those resolved and was not cached at the start |
| TopicCache.RunRepeatsOnlyFailedLookups | src/main/java/com/adaptris/core/mqtt/MqttProducer.java:133-136 | a name reaches the lookup twice in a run only if its lookup fails, so each successful lookup happens at most once |
| TopicCache.RunIsTransparent | src/main/java/com/adaptris/core/mqtt/MqttProducer.java:130-143 | starting from a sound cache, every answer of a run is what the lookup returns for that name, and the cache stays sound |
| TopicCache.RunCacheKeys | src/main/java/com/adaptris/core/mqtt/MqttProducer.java:133-136 | after a run the cache keys are the initial keys plus exactly the names whose lookup succeeds |
| Producer.MqttProducer.constructor | src/main/java/com/adaptris/core/mqtt/MqttProducer.java:49-69 | a new producer has an empty cache, no client, the default QoS and retained flag, and the given connection and destination |
| Producer.MqttProducer.Init | src/main/java/com/adaptris/core/mqtt/MqttProducer.java:71-80 | passes if and only if a connection and a destination are present; with no connection it fails with "PahoMqttConnection is required", even when there is no destination either; with a connection but no destination it fails with "Destination is required"; it changes no state |
| Producer.MqttProducer.Start | src/main/java/com/adaptris/core/mqtt/MqttProducer.java:82-93 | the producer's client becomes the connection's client; an already connected client is left untouched and no connect is made; otherwise exactly one connect attempt is made, and the client is connected exactly when start passes |
| Producer.MqttProducer.TopicNameOf | src/main/java/com/adaptris/core/mqtt/MqttProducer.java:127-128 | the logical topic name is the destination's answer for the message; a missing destination is a null dereference |
| Producer.MqttProducer.ResolveTopic | src/main/java/com/adaptris/core/mqtt/MqttProducer.java:126-139 | the result and new cache are those of the cache specification; the client sees one lookup on a miss and none on a hit; the cache stays sound for the client's lookup |
| Producer.MqttProducer.RetrieveTopicFromMqtt | src/main/java/com/adaptris/core/mqtt/MqttProducer.java:141-143 | returns the client's lookup for the name and records exactly one lookup |
| Producer.MqttProducer.ApplyExtraOptions | src/main/java/com/adaptris/core/mqtt/MqttProducer.java:121-124 | succeeds exactly when the producer's QoS is in its declared range 0..2; then the message carries its payload unchanged with the producer's QoS and retained flag; otherwise the message is unchanged |
| Producer.MqttProducer.Produce | src/main/java/com/adaptris/core/mqtt/MqttProducer.java:105-124 | every failure is a ProduceException wrapping its cause; a failed resolution publishes nothing and does not change the cache; a resolved topic implies the producer has a client; with a valid QoS it gives exactly one publish to that topic of the payload unchanged, with the producer's QoS and retained flag, and produce passes exactly when the publish is accepted; before start every produce fails and the cache stays empty |
| Producer.MqttProducer.GetRetained | src/main/java/com/adaptris/core/mqtt/MqttProducer.java:162-164 | returns the stored retained flag |
| Producer.MqttProducer.SetRetained | src/main/java/com/adaptris/core/mqtt/MqttProducer.java:174-176 | stores the flag as given and changes no other field |
| Producer.MqttProducer.GetQos | src/main/java/com/adaptris/core/mqtt/MqttProducer.java:183-185 | returns the stored QoS |
| Producer.MqttProducer.SetQos | src/main/java/com/adaptris/core/mqtt/MqttProducer.java:218-220 | stores the value as given, with no range check, and changes no other field; the declared range 0..2 of the field holds afterwards exactly when the value given is in it |
| Producer.ResolveTopicTwice | src/main/java/com/adaptris/core/mqtt/MqttProducer.java:126-139 | on a producer with a client, two resolutions of one message in a row give the same topic once the first succeeds, with at most one client call between them |
| LastWill.DefaultsNeedTopicAndPayload | src/main/java/com/adaptris/core/mqtt/MqttLastWill.java:44-56 | a record with the defaults fails its constraints, and still fails with only a topic or only a payload set; with both set it satisfies them |
| LastWill.MqttLastWill.constructor | src/main/java/com/adaptris/core/mqtt/MqttLastWill.java:42-56 | a new record has no topic and no payload, encoding "UTF-8", the default QoS and retained flag, and is not valid |
| LastWill.MqttLastWill.GetTopic | src/main/java/com/adaptris/core/mqtt/MqttLastWill.java:61-63 | returns the stored topic |
| LastWill.MqttLastWill.SetTopic | src/main/java/com/adaptris/core/mqtt/MqttLastWill.java:65-67 | the topic becomes the given one (null included) and every other field is unchanged |
| LastWill.MqttLastWill.GetPayload | src/main/java/com/adaptris/core/mqtt/MqttLastWill.java:74-76 | returns the stored payload |
| LastWill.MqttLastWill.SetPayload | src/main/java/com/adaptris/core/mqtt/MqttLastWill.java:83-85 | the payload becomes the given one and every other field is unchanged |
| LastWill.MqttLastWill.GetPayloadCharEncoding | src/main/java/com/adaptris/core/mqtt/MqttLastWill.java:92-94 | returns the stored encoding |
| LastWill.MqttLastWill.SetPayloadCharEncoding | src/main/java/com/adaptris/core/mqtt/MqttLastWill.java:101-103 | the encoding becomes the given one and every other field is unchanged |
| LastWill.MqttLastWill.GetQos | src/main/java/com/adaptris/core/mqtt/MqttLastWill.java:110-112 | returns the stored QoS |
| LastWill.MqttLastWill.SetQos | src/main/java/com/adaptris/core/mqtt/MqttLastWill.java:119-121 | stores any value without a range check, every other field unchanged; since `Valid()` is the constraints on the fields, a QoS outside 0..2 leaves the record invalid |
| LastWill.MqttLastWill.GetRetained | src/main/java/com/adaptris/core/mqtt/MqttLastWill.java:129-131 | returns the stored retained flag |
| LastWill.MqttLastWill.SetRetained | src/main/java/com/adaptris/core/mqtt/MqttLastWill.java:138-140 | the retained flag becomes the given one and every other field is unchanged |
| LastWill.ConfigureWill | src/main/java/com/adaptris/core/mqtt/MqttLastWill.java:58-140 | a new record whose topic, payload, QoS and retained flag are set holds exactly those values with the default encoding, and is valid exactly when the QoS is in 0..2 |

## Left out

- The network side of the client library is not modelled: the connect handshake, publishing, topic lookup on the broker, and QoS acknowledgement flows. The client is abstract. Its lookup is a fixed function. Connect and publish outcomes are nondeterministic and recorded in a ghost log. Three library behaviours are modelled: a new message has QoS 1 and is not retained until these are set; the message refuses a QoS outside 0..2; a publish on a disconnected client fails.
- `MqttConnection` is not part of this model beyond handing out one shared client and starting it. Creating that client, and the failures of creating it, are not modelled.
- `stop` and `close` (MqttProducer.java:95-103) are not modelled. They only delegate to the connection.
- The connection and the destination are fixed when the producer is constructed. The framework's setters for them are not part of this model.
- Concurrent use of the cache (a `ConcurrentHashMap`) is not modelled. The model is sequential, so the benign race in which two threads look up the same name is not covered.
- Logging, the licensing hook `prepare`, and the XStream and UI annotations are not modelled.
- The declared range 0..2 on the producer's `qos` (MqttProducer.java:51-57) is modelled as the predicate `OptionsConstrained()`, not as an invariant: `SetQos` does not enforce it, as in the code, so nothing keeps it and a producer may hold an out-of-range QoS until `produce` refuses it.
- The character encoding of the last-will payload is kept as an opaque string. Converting the payload is done in connection code that is not part of this model.
- The `MqttConstants` class is not part of this model. `QOS_DEFAULT` is 1 and `RETAINED_DEFAULT` is false, the documented defaults.
