/** The producer that places messages on an MQTT topic: lifecycle checks,
    lazy connect, the memoising topic cache and the publish itself. */
module Producer {
  import opened Wrappers
  import opened MqttConstants
  import opened PahoClient
  import opened TopicCache

  /** The framework's message: payload bytes and metadata. */
  datatype AdaptrisMessage = AdaptrisMessage(payload: seq<bv8>, metadata: map<string, string>)

  /** The configured destination, `getDestination(msg)`: the logical topic
      name for a message (possibly taken from its metadata). `None` covers
      two causes, both reported as `DestinationUnresolved`: the destination
      throws, or it gives `null`, which the cache's map then rejects as a
      key with a NullPointerException. */
  type Destination = AdaptrisMessage -> Option<string>

  /** What the producer's operations can throw. */
  datatype Failure =
    | CoreException(message: string)
    | NullPointer             // a reference that is still null was used
    | DestinationUnresolved   // the destination threw or gave a null name
    | TopicLookupFailed       // the client's topic lookup threw
    | InvalidQos(qos: int)    // the message refused the QoS
    | PublishRejected         // the client's publish threw
    | ConnectFailed           // the connect handshake failed
    | ProduceException(cause: Failure)

  /** One topic resolution: the topic or the failure, the cache afterwards,
      and the calls made on the client. */
  datatype Step = Step(topic: Result<string, Failure>, cache: Cache, calls: seq<ClientEvent>)

  const CONNECTION_REQUIRED: string := "PahoMqttConnection is required"
  const DESTINATION_REQUIRED: string := "Destination is required"

  class MqttProducer {
    /** The attached connection, `null` when none is attached. */
    const connection: MqttConnection?
    const destination: Option<Destination>
    var cachedTopicURLs: Cache
    var qos: int
    var retained: bool
    /** Set by `start`; `null` before. */
    var mqttClient: MqttClient?

    /** The lookup the cache is filled from: the client's, or one that always
        fails while there is no client (a null dereference). */
    function ClientLookup(): Lookup
      reads this
    {
      if mqttClient == null then (n: string) => None else mqttClient.topicName
    }

    /** The declared range of `qos` (0..2). The setter does not keep it;
        only the outbound message enforces it when `produce` stamps it. */
    predicate OptionsConstrained()
      reads this
    {
      0 <= qos <= 2
    }

    /** The client, once set, is the connection's; nothing is cached before
        there is a client; every cached topic is what the lookup returns. */
    ghost predicate Valid()
      reads this
    {
      (mqttClient != null ==> connection != null && mqttClient == connection.client) &&
      (mqttClient == null ==> cachedTopicURLs == map[]) &&
      Sound(cachedTopicURLs, ClientLookup())
    }

    constructor (connection: MqttConnection?, destination: Option<Destination>)
      ensures Valid()
      ensures this.connection == connection && this.destination == destination
      ensures cachedTopicURLs == map[] && mqttClient == null
      ensures qos == QOS_DEFAULT && retained == RETAINED_DEFAULT
    {
      this.connection := connection;
      this.destination := destination;
      cachedTopicURLs := map[];
      qos := QOS_DEFAULT;
      retained := RETAINED_DEFAULT;
      mqttClient := null;
    }

    /** Checks the configuration: a connection first, then a destination.
        Changes nothing. */
    method Init() returns (r: Outcome<Failure>)
      ensures r == Pass <==> connection != null && destination.Some?
      ensures connection == null ==> r == Fail(CoreException(CONNECTION_REQUIRED))
      ensures connection != null && destination.None? ==> r == Fail(CoreException(DESTINATION_REQUIRED))
    {
      if connection == null {
        return Fail(CoreException(CONNECTION_REQUIRED));
      }
      if destination.None? {
        return Fail(CoreException(DESTINATION_REQUIRED));
      }
      r := Pass;
    }

    /** Takes the connection's client and connects it only if it is not
        already connected. */
    method Start() returns (r: Outcome<Failure>)
      requires Valid()
      modifies this`mqttClient, if connection == null then {} else {connection.client}
      ensures Valid()
      ensures connection == null ==> r == Fail(NullPointer) && mqttClient == old(mqttClient)
      ensures connection != null ==> mqttClient == connection.client
      ensures connection != null && old(connection.client.connected) ==>
                r == Pass && unchanged(connection.client)
      ensures connection != null && !old(connection.client.connected) ==>
                connection.client.connected == r.Pass? &&
                connection.client.log == old(connection.client.log) + [ConnectAttempt(r.Pass?)] &&
                (r.Fail? ==> r == Fail(ConnectFailed))
    {
      if connection == null {
        return Fail(NullPointer);
      }
      mqttClient := connection.GetOrCreateSyncClient();
      if !mqttClient.connected {
        var ok := connection.StartSyncClientConnection(mqttClient);
        r := if ok then Pass else Fail(ConnectFailed);
      } else {
        r := Pass;
      }
    }

    /** The logical topic name of a message. */
    function TopicNameOf(msg: AdaptrisMessage): (r: Result<string, Failure>)
      ensures r.Ok? <==> destination.Some? && destination.value(msg).Some?
      ensures r.Ok? ==> r.value == destination.value(msg).value
      ensures destination.None? ==> r == Err(NullPointer)
    {
      match destination
      case None => Err(NullPointer)
      case Some(d) => if d(msg).Some? then Ok(d(msg).value) else Err(DestinationUnresolved)
    }

    /** What `resolveTopic` does for a message starting from cache `c`. */
    function ResolveStep(msg: AdaptrisMessage, c: Cache): Step
      reads this
    {
      match TopicNameOf(msg)
      case Err(e) => Step(Err(e), c, [])
      case Ok(name) =>
        var res := Resolve(c, name, ClientLookup());
        var calls := if mqttClient != null && name !in c then [TopicLookup(name)] else [];
        match res.topic
        case Some(t) => Step(Ok(t), res.cache, calls)
        case None => Step(Err(if mqttClient == null then NullPointer else TopicLookupFailed), res.cache, calls)
    }

    /** Resolves the broker topic for a message through the cache. */
    method ResolveTopic(msg: AdaptrisMessage) returns (r: Result<string, Failure>)
      requires Valid()
      modifies this`cachedTopicURLs, mqttClient
      ensures Valid()
      ensures mqttClient != null ==> mqttClient.connected == old(mqttClient.connected)
      ensures var step := ResolveStep(msg, old(cachedTopicURLs));
              r == step.topic && cachedTopicURLs == step.cache &&
              (mqttClient != null ==> mqttClient.log == old(mqttClient.log) + step.calls)
    {
      var name := TopicNameOf(msg);
      if name.Err? {
        return Err(name.error);
      }
      var topicName := name.value;
      if topicName in cachedTopicURLs {
        return Ok(cachedTopicURLs[topicName]);
      }
      // the source dereferences the null client inside retrieveTopicFromMqtt;
      // the model raises that NullPointerException here, before the call
      if mqttClient == null {
        return Err(NullPointer);
      }
      var url := RetrieveTopicFromMqtt(topicName);
      if url.None? {
        return Err(TopicLookupFailed);
      }
      cachedTopicURLs := cachedTopicURLs[topicName := url.value];
      r := Ok(url.value);
    }

    /** Its only caller has already handled a null client, which the source
        would dereference here; the `requires` is not a guarantee the source
        gives. */
    method RetrieveTopicFromMqtt(topicName: string) returns (r: Option<string>)
      requires mqttClient != null
      modifies mqttClient`log
      ensures r == mqttClient.topicName(topicName)
      ensures mqttClient.log == old(mqttClient.log) + [TopicLookup(topicName)]
    {
      r := mqttClient.GetTopic(topicName);
    }

    /** Stamps the producer's QoS and retained flag on an outbound message. */
    method ApplyExtraOptions(m: MqttMessage) returns (ok: bool)
      modifies m
      ensures ok <==> OptionsConstrained()
      ensures ok ==> m.Content() == Envelope(old(m.payload), qos, retained)
      ensures !ok ==> m.Content() == old(m.Content())
    {
      ok := m.SetQos(qos);
      if ok {
        m.SetRetained(retained);
      }
    }

    /** Publishes a message's payload to its resolved topic with the
        configured QoS and retained flag; every failure is wrapped. */
    method Produce(msg: AdaptrisMessage) returns (r: Outcome<Failure>)
      requires Valid()
      modifies this`cachedTopicURLs, mqttClient
      ensures Valid()
      ensures mqttClient != null ==> mqttClient.connected == old(mqttClient.connected)
      ensures r.Fail? ==> r.error.ProduceException?
      ensures var step := ResolveStep(msg, old(cachedTopicURLs));
              cachedTopicURLs == step.cache &&
              match step.topic
              case Err(e) =>
                r == Fail(ProduceException(e)) &&
                (mqttClient != null ==> mqttClient.log == old(mqttClient.log) + step.calls)
              case Ok(topic) =>
                // a topic is only ever found through a client
                mqttClient != null &&
                if !(0 <= qos <= 2) then
                  r == Fail(ProduceException(InvalidQos(qos))) &&
                  mqttClient.log == old(mqttClient.log) + step.calls
                else
                  // exactly one publish, of the payload as given, with the configured options
                  mqttClient.log == old(mqttClient.log) + step.calls +
                    [PublishAttempt(topic, Envelope(msg.payload, qos, retained), r.Pass?)] &&
                  (r.Fail? ==> r == Fail(ProduceException(PublishRejected)))
      // before `start` every produce fails and nothing is cached
      ensures mqttClient == null ==> r.Fail? && cachedTopicURLs == map[]
    {
      var topic := ResolveTopic(msg);
      if topic.Err? {
        return Fail(ProduceException(topic.error));
      }
      var request := new MqttMessage(msg.payload);
      var ok := ApplyExtraOptions(request);
      if !ok {
        return Fail(ProduceException(InvalidQos(qos)));
      }
      var accepted := mqttClient.Publish(topic.value, request);
      r := if accepted then Pass else Fail(ProduceException(PublishRejected));
    }

    method GetRetained() returns (b: bool)
      ensures b == retained
    {
      b := retained;
    }

    /** Stores the flag as given. */
    method SetRetained(b: bool)
      modifies this`retained
      ensures retained == b
    {
      retained := b;
    }

    method GetQos() returns (q: int)
      ensures q == qos
    {
      q := qos;
    }

    /** Stores the value as given: no range check here, so the declared
        range may be broken. */
    method SetQos(q: int)
      modifies this`qos
      ensures qos == q
      ensures OptionsConstrained() <==> 0 <= q <= 2
    {
      qos := q;
    }
  }

  /** Resolving the same message twice in a row on a producer that holds a
      client: once the first call has found the topic, the second gives the
      same answer from the cache, so the pair makes at most one lookup. */
  method ResolveTopicTwice(p: MqttProducer, msg: AdaptrisMessage)
    returns (first: Result<string, Failure>, second: Result<string, Failure>)
    requires p.Valid() && p.mqttClient != null
    modifies p`cachedTopicURLs, p.mqttClient
    ensures p.Valid()
    ensures first.Ok? ==> second == first
    ensures first.Ok? ==> |p.mqttClient.log| <= |old(p.mqttClient.log)| + 1
  {
    first := p.ResolveTopic(msg);
    second := p.ResolveTopic(msg);
  }
}
