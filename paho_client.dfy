/** The client library as the producer sees it, kept abstract: the network,
    the connect handshake and the broker are not modelled. A client has a
    `connected` flag, a deterministic topic lookup, and a ghost log of every
    call the producer makes on it. */
module PahoClient {
  import opened Wrappers

  /** What a publish hands to the broker: the payload bytes and the QoS and
      RETAIN fields of the PUBLISH packet (sections 3.3.1.2 and 3.3.1.3 of
      MQTT 3.1.1). */
  datatype Envelope = Envelope(payload: seq<bv8>, qos: int, retained: bool)

  datatype ClientEvent =
    | ConnectAttempt(succeeded: bool)
    | TopicLookup(name: string)
    | PublishAttempt(topic: string, message: Envelope, accepted: bool)

  /** The outbound message the producer builds and then edits in place. */
  class MqttMessage {
    var payload: seq<bv8>
    var qos: int
    var retained: bool

    function Content(): Envelope
      reads this
    {
      Envelope(payload, qos, retained)
    }

    /** A new message carries the payload unchanged, with the library's own
        defaults (QoS 1, not retained) until they are set. */
    constructor (payload: seq<bv8>)
      ensures Content() == Envelope(payload, 1, false)
    {
      this.payload := payload;
      qos := 1;
      retained := false;
    }

    /** The library refuses a QoS outside 0..2 (IllegalArgumentException). */
    method SetQos(q: int) returns (ok: bool)
      modifies this`qos
      ensures ok <==> 0 <= q <= 2
      ensures qos == if ok then q else old(qos)
    {
      ok := 0 <= q <= 2;
      if ok {
        qos := q;
      }
    }

    method SetRetained(r: bool)
      modifies this`retained
      ensures retained == r
    {
      retained := r;
    }
  }

  class MqttClient {
    var connected: bool
    /** `getTopic(name).getName()`: the broker's name for a logical topic,
        `None` where the library throws. */
    const topicName: string -> Option<string>
    ghost var log: seq<ClientEvent>

    constructor (topicName: string -> Option<string>)
      ensures !connected && this.topicName == topicName && log == []
    {
      connected := false;
      this.topicName := topicName;
      log := [];
    }

    /** The connect handshake; whether the broker accepts it is not modelled. */
    method Connect() returns (ok: bool)
      modifies this
      ensures connected == ok
      ensures log == old(log) + [ConnectAttempt(ok)]
    {
      ok := *;
      connected := ok;
      log := log + [ConnectAttempt(ok)];
    }

    method GetTopic(name: string) returns (r: Option<string>)
      modifies this`log
      ensures r == topicName(name)
      ensures log == old(log) + [TopicLookup(name)]
    {
      r := topicName(name);
      log := log + [TopicLookup(name)];
    }

    /** A publish is accepted only on a connected client; whether the broker
        then acknowledges it is not modelled. */
    method Publish(topic: string, m: MqttMessage) returns (accepted: bool)
      modifies this`log
      ensures accepted ==> connected
      ensures log == old(log) + [PublishAttempt(topic, m.Content(), accepted)]
    {
      if connected {
        accepted := *;
      } else {
        accepted := false;
      }
      log := log + [PublishAttempt(topic, m.Content(), accepted)];
    }
  }

  /** The connection a producer is attached to. It hands every producer the
      same shared client; creating that client is not modelled. */
  class MqttConnection {
    const client: MqttClient

    constructor (client: MqttClient)
      ensures this.client == client
    {
      this.client := client;
    }

    method GetOrCreateSyncClient() returns (c: MqttClient)
      ensures c == client
    {
      c := client;
    }

    method StartSyncClientConnection(c: MqttClient) returns (ok: bool)
      modifies c
      ensures c.connected == ok
      ensures c.log == old(c.log) + [ConnectAttempt(ok)]
    {
      ok := c.Connect();
    }
  }
}
