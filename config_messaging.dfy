/** `BrokerConfig.Validate` of config/messaging.go. */
module ConfigMessaging {
  import opened Base
  import opened ConfigCommon

  datatype BrokerConfig = BrokerConfig(
    enable: bool, addrs: seq<string>, brokerType: int,
    disableAutoAck: bool, durable: bool, ackOnSuccess: bool, requeueOnError: bool)

  const AddrsError := InvalidConfigurationParameter("Addrs", "Invalid number of addresses")

  /** An enabled broker of a positive type needs at least one address. */
  function Validate(c: BrokerConfig): (err: Option<ConfigError>)
    ensures err.Some? <==> c.enable && |c.addrs| == 0 && c.brokerType > 0
    ensures err.Some? ==> err.value == AddrsError
  {
    if c.enable && |c.addrs| == 0 && c.brokerType > 0 then Some(AddrsError) else None
  }

  /** A disabled broker, and one whose type is not positive, always validates;
      the acknowledgement, durability and requeue flags play no part. */
  lemma ValidateAccepts(c: BrokerConfig, a: bool, d: bool, s: bool, r: bool)
    ensures !c.enable || c.brokerType <= 0 ==> Validate(c) == None
    ensures Validate(c.(disableAutoAck := a, durable := d, ackOnSuccess := s, requeueOnError := r)) == Validate(c)
  {
  }
}
