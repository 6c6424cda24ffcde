/** Defaults shared by the producer and the last will. The class that holds
    them in the repository is not part of this model; the values are the
    documented ones: QoS 1 ("the default QoS") and not retained. */
module MqttConstants {
  const QOS_DEFAULT: int := 1
  const RETAINED_DEFAULT: bool := false
}
