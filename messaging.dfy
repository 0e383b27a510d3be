/** `NewBroker` of messaging/broker.go: a decision table from the messaging
    configuration to a broker kind, the options the broker is built with and
    the subscribe options handed to subscribers. Brokers themselves are foreign
    and are represented by their kind and option list. */
module Messaging {
  import ConfigMessaging

  /** The go-micro registry passed in, identified by a handle. */
  datatype RegistryHandle = RegistryHandle(id: nat)

  datatype BrokerKind = Memory | RabbitMQ | Nats

  /** `broker.Addrs(...)`, `broker.Registry(...)`, `rabbitmq.WithoutExchange()`. */
  datatype BrokerOption = Addrs(addresses: seq<string>) | Registry(registry: RegistryHandle) | WithoutExchange

  /** `broker.DisableAutoAck()`, `rabbitmq.AckOnSuccess()`, `rabbitmq.DurableQueue()`, `rabbitmq.RequeueOnError()`. */
  datatype SubscribeOption = DisableAutoAck | AckOnSuccess | DurableQueue | RequeueOnError

  /** Either Go's zero `broker.SubscribeOptions`, or the result of
      `broker.NewSubscribeOptions` over the given options. */
  datatype SubscribeOptions = ZeroSubscribeOptions | Built(options: seq<SubscribeOption>)

  datatype Broker = Broker(kind: BrokerKind, options: seq<BrokerOption>)

  /** `BrokerWithOptions`. */
  datatype BrokerWithOptions = BrokerWithOptions(broker: Broker, subOptions: SubscribeOptions)

  /** The position of each subscribe option in the order the source appends them. */
  function Rank(o: SubscribeOption): nat
  {
    match o
    case DisableAutoAck => 0
    case AckOnSuccess => 1
    case DurableQueue => 2
    case RequeueOnError => 3
  }

  /** Whether the configuration asks for a subscribe option. */
  predicate Requested(c: ConfigMessaging.BrokerConfig, o: SubscribeOption)
  {
    match o
    case DisableAutoAck => c.disableAutoAck
    case AckOnSuccess => c.ackOnSuccess
    case DurableQueue => c.durable
    case RequeueOnError => c.requeueOnError
  }

  /** The RabbitMQ subscribe options: each requested one once, in the order
      DisableAutoAck, AckOnSuccess, DurableQueue, RequeueOnError. */
  function RabbitSubscribeOptions(c: ConfigMessaging.BrokerConfig): seq<SubscribeOption>
  {
    (if c.disableAutoAck then [DisableAutoAck] else [])
    + (if c.ackOnSuccess then [AckOnSuccess] else [])
    + (if c.durable then [DurableQueue] else [])
    + (if c.requeueOnError then [RequeueOnError] else [])
  }

  method NewBroker(registry: RegistryHandle, config: ConfigMessaging.BrokerConfig) returns (r: BrokerWithOptions)
    ensures |r.broker.options| >= 2 && r.broker.options[..2] == [Addrs(config.addrs), Registry(registry)]
    ensures !config.enable ==>
      r == BrokerWithOptions(Broker(Memory, [Addrs(config.addrs), Registry(registry)]), ZeroSubscribeOptions)
    ensures config.enable && config.brokerType == 1 ==>
      r == BrokerWithOptions(Broker(RabbitMQ, [Addrs(config.addrs), Registry(registry), WithoutExchange]),
                             Built(RabbitSubscribeOptions(config)))
    ensures config.enable && config.brokerType == 2 ==>
      r == BrokerWithOptions(Broker(Nats, [Addrs(config.addrs), Registry(registry)]), ZeroSubscribeOptions)
    ensures config.enable && config.brokerType != 1 && config.brokerType != 2 ==>
      r == BrokerWithOptions(Broker(Memory, [Addrs(config.addrs), Registry(registry)]), ZeroSubscribeOptions)
    ensures r.subOptions.Built? <==> config.enable && config.brokerType == 1
  {
    var bo := [Addrs(config.addrs), Registry(registry)];
    if !config.enable {
      return BrokerWithOptions(Broker(Memory, bo), ZeroSubscribeOptions);
    }
    var subOpts := ZeroSubscribeOptions;
    var b;
    if config.brokerType == 1 {
      bo := bo + [WithoutExchange];
      b := Broker(RabbitMQ, bo);
      var opts := [];
      if config.disableAutoAck {
        opts := opts + [DisableAutoAck];
      }
      ghost var a := opts;
      if config.ackOnSuccess {
        opts := opts + [AckOnSuccess];
      }
      ghost var b := opts;
      if config.durable {
        opts := opts + [DurableQueue];
      }
      ghost var d := opts;
      if config.requeueOnError {
        opts := opts + [RequeueOnError];
      }
      assert a == (if config.disableAutoAck then [DisableAutoAck] else []);
      assert b == a + (if config.ackOnSuccess then [AckOnSuccess] else []);
      assert d == b + (if config.durable then [DurableQueue] else []);
      assert opts == d + (if config.requeueOnError then [RequeueOnError] else []);
      subOpts := Built(opts);
    } else if config.brokerType == 2 {
      b := Broker(Nats, bo);
    } else {
      b := Broker(Memory, bo);
    }
    r := BrokerWithOptions(b, subOpts);
  }

  /** An option is among the RabbitMQ subscribe options exactly when its flag is
      set; they appear in the fixed order, each at most once. */
  lemma RabbitSubscribeOptionsExact(c: ConfigMessaging.BrokerConfig)
    ensures forall o :: o in RabbitSubscribeOptions(c) <==> Requested(c, o)
    ensures forall i, j :: 0 <= i < j < |RabbitSubscribeOptions(c)| ==>
      Rank(RabbitSubscribeOptions(c)[i]) < Rank(RabbitSubscribeOptions(c)[j])
  {
    var a := if c.disableAutoAck then [DisableAutoAck] else [];
    var b := if c.ackOnSuccess then [AckOnSuccess] else [];
    var d := if c.durable then [DurableQueue] else [];
    var e := if c.requeueOnError then [RequeueOnError] else [];
    var s := RabbitSubscribeOptions(c);
    assert s == a + b + d + e;
    forall i, j | 0 <= i < j < |s| ensures Rank(s[i]) < Rank(s[j]) {
      RankGrows(a, b, d, e, i);
      RankGrows(a, b, d, e, j);
    }
  }

  /** In `a + b + d + e`, built as in `RabbitSubscribeOptions`, an element's rank
      is the rank of the list it sits in. */
  lemma RankGrows(a: seq<SubscribeOption>, b: seq<SubscribeOption>, d: seq<SubscribeOption>, e: seq<SubscribeOption>, i: int)
    requires a == [] || a == [DisableAutoAck]
    requires b == [] || b == [AckOnSuccess]
    requires d == [] || d == [DurableQueue]
    requires e == [] || e == [RequeueOnError]
    requires 0 <= i < |a + b + d + e|
    ensures i < |a| ==> Rank((a + b + d + e)[i]) == 0
    ensures |a| <= i < |a| + |b| ==> Rank((a + b + d + e)[i]) == 1
    ensures |a| + |b| <= i < |a| + |b| + |d| ==> Rank((a + b + d + e)[i]) == 2
    ensures |a| + |b| + |d| <= i ==> Rank((a + b + d + e)[i]) == 3
  {
  }

  /** The RabbitMQ subscribe options are empty exactly when no flag is set, and
      there are never more than four. */
  lemma RabbitSubscribeOptionsEmpty(c: ConfigMessaging.BrokerConfig)
    ensures RabbitSubscribeOptions(c) == [] <==> !c.disableAutoAck && !c.ackOnSuccess && !c.durable && !c.requeueOnError
    ensures |RabbitSubscribeOptions(c)| <= 4
  {
  }
}
