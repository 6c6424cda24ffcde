/** The last will a client registers when it connects, as a mutable
    configuration record: the Will QoS and Will Retain bits of the CONNECT
    flags (sections 3.1.2.6 and 3.1.2.7 of MQTT 3.1.1, with the Will Flag of
    section 3.1.2.5) and the Will Topic and Will Message of the CONNECT
    payload (sections 3.1.3.2 and 3.1.3.3). A Java `null` string is `None`. */
module LastWill {
  import opened Wrappers
  import opened MqttConstants

  const DEFAULT_ENCODING: string := "UTF-8"

  /** The record's fields as one value. */
  datatype WillFields = WillFields(
    topic: Option<string>,
    qos: int,
    retained: bool,
    payload: Option<string>,
    payloadCharEncoding: Option<string>)
  {
    /** The declared constraints: topic, payload and encoding not null, QoS
        between 0 and 2. The setters do not enforce them. */
    predicate Constrained()
    {
      topic.Some? && payload.Some? && payloadCharEncoding.Some? && 0 <= qos <= 2
    }
  }

  /** A new record: no topic, no payload, UTF-8, the default QoS and retain flag. */
  const DEFAULT_FIELDS: WillFields :=
    WillFields(None, QOS_DEFAULT, RETAINED_DEFAULT, None, Some(DEFAULT_ENCODING))

  /** A new record is not usable until a topic and a payload are both set;
      with both set and nothing else changed, it is. */
  lemma DefaultsNeedTopicAndPayload(t: string, p: string)
    ensures !DEFAULT_FIELDS.Constrained()
    ensures !DEFAULT_FIELDS.(topic := Some(t)).Constrained()
    ensures !DEFAULT_FIELDS.(payload := Some(p)).Constrained()
    ensures DEFAULT_FIELDS.(topic := Some(t), payload := Some(p)).Constrained()
  {
  }

  class MqttLastWill {
    var topic: Option<string>
    var qos: int
    var retained: bool
    var payload: Option<string>
    var payloadCharEncoding: Option<string>

    function Fields(): WillFields
      reads this
    {
      WillFields(topic, qos, retained, payload, payloadCharEncoding)
    }

    predicate Valid()
      reads this
    {
      Fields().Constrained()
    }

    constructor ()
      ensures Fields() == DEFAULT_FIELDS
      ensures !Valid()
    {
      topic := None;
      qos := QOS_DEFAULT;
      retained := RETAINED_DEFAULT;
      payload := None;
      payloadCharEncoding := Some(DEFAULT_ENCODING);
    }

    method GetTopic() returns (t: Option<string>)
      ensures t == topic
    {
      t := topic;
    }

    method SetTopic(t: Option<string>)
      modifies this
      ensures Fields() == old(Fields()).(topic := t)
    {
      topic := t;
    }

    method GetPayload() returns (p: Option<string>)
      ensures p == payload
    {
      p := payload;
    }

    method SetPayload(p: Option<string>)
      modifies this
      ensures Fields() == old(Fields()).(payload := p)
    {
      payload := p;
    }

    method GetPayloadCharEncoding() returns (e: Option<string>)
      ensures e == payloadCharEncoding
    {
      e := payloadCharEncoding;
    }

    method SetPayloadCharEncoding(e: Option<string>)
      modifies this
      ensures Fields() == old(Fields()).(payloadCharEncoding := e)
    {
      payloadCharEncoding := e;
    }

    method GetQos() returns (q: int)
      ensures q == qos
    {
      q := qos;
    }

    /** Stores any value: a QoS outside 0..2 is kept and makes the record
        fail its constraints. */
    method SetQos(q: int)
      modifies this
      ensures Fields() == old(Fields()).(qos := q)
    {
      qos := q;
    }

    method GetRetained() returns (b: bool)
      ensures b == retained
    {
      b := retained;
    }

    method SetRetained(b: bool)
      modifies this
      ensures Fields() == old(Fields()).(retained := b)
    {
      retained := b;
    }
  }

  /** A new record set up field by field: every getter returns what was set,
      and the record satisfies its constraints exactly when the QoS is in
      range. */
  method ConfigureWill(t: string, p: string, q: int, b: bool)
    returns (w: MqttLastWill, valid: bool)
    ensures fresh(w)
    ensures w.Fields() == WillFields(Some(t), q, b, Some(p), Some(DEFAULT_ENCODING))
    ensures valid <==> 0 <= q <= 2
  {
    w := new MqttLastWill();
    w.SetTopic(Some(t));
    w.SetPayload(Some(p));
    w.SetQos(q);
    w.SetRetained(b);
    valid := w.Valid();
  }
}
