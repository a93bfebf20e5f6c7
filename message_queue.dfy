/**
 * One queue binding: a broker connection and channel opened for one configuration, the
 * capability flags derived from that configuration, and publish, fetch, consumer
 * registration and disposal over the channel.
 */
module MessageQueues {
  import opened Wrappers
  import opened QueueConfigurations
  import opened Brokers

  datatype QueueError =
    | ConfigurationNotFound(identifier: string)
    | NotAuthorizedForPublish(identifier: string)
    | NotAuthorizedForReceive(identifier: string)
    | SerializationError
    | DeserializationError
    | BrokerFailure(cause: BrokerError)   // a broker client exception, propagated unchanged

  /** The platform's UTF-8 text encoding. Decoding never fails: bad bytes become replacement characters. */
  datatype TextEncoding = TextEncoding(getBytes: string -> Bytes, getString: Bytes -> string)

  /** The platform's JSON serializer for one item type; either direction may fail. */
  datatype JsonSerializer<!T> = JsonSerializer(serialize: T -> Option<string>, deserialize: string -> Option<T>)

  /** A delegate attached to the consumer's Received event, compared by value (method and target). */
  type Handler = nat

  // Capability flags, recomputed from the configuration on every use.

  predicate CanPublish(c: QueueConfiguration) {
    !c.receiveOnly && c.exchange.Some? && c.routingKey.Some?
  }

  predicate CanReceive(c: QueueConfiguration) {
    !c.publishOnly
  }

  /** A receive-only queue never publishes, whatever its exchange and routing key. */
  lemma ReceiveOnlyNeverPublishes(c: QueueConfiguration)
    requires c.receiveOnly
    ensures !CanPublish(c)
  {
  }

  /** Publishing needs both the exchange and the routing key; either one missing forbids it. */
  lemma PublishNeedsRoute(c: QueueConfiguration)
    ensures CanPublish(c) ==> c.exchange.Some? && c.routingKey.Some?
    ensures c.exchange.Some? && c.routingKey.Some? && !c.receiveOnly ==> CanPublish(c)
  {
  }

  /** Receiving depends on the publish-only flag alone: receive-only does not enter into it. */
  lemma ReceiveIgnoresReceiveOnly(c: QueueConfiguration, receiveOnly: bool)
    ensures CanReceive(c) == CanReceive(c.(receiveOnly := receiveOnly))
    ensures CanReceive(c) <==> !c.publishOnly
  {
  }

  /** A configuration left at its defaults has no route, so it can receive but not publish. */
  lemma DefaultCapabilities()
    ensures !Default.publishOnly && !Default.receiveOnly
    ensures Default.exchange.None? && Default.routingKey.None?
    ensures !CanPublish(Default) && CanReceive(Default)
  {
  }

  /** The queue a configuration names: `queue` in the virtual host its connection opens. */
  function Address(c: QueueConfiguration): QueueAddress {
    QueueAddress(VirtualHostOf(c.Connection()), c.queue)
  }

  /** What opening a queue does to the broker: the new state and the session, or the failure. */
  datatype Binding = Binding(state: BrokerState, outcome: Result<nat, QueueError>)

  /**
   * Opens the connection and its channel, then makes sure the queue exists: a passive
   * declare only checks, any other declare creates it with the configured flags. A
   * declare that fails leaves the connection and channel open. Binding never touches a
   * queue other than the configuration's own, and on success that queue exists.
   */
  function Bind(s: BrokerState, c: QueueConfiguration): (b: Binding)
    ensures OnlyOpened(s, b.state)
    ensures b.state.queues.Keys <= s.queues.Keys + {Address(c)}
    ensures b.outcome.Ok? ==> b.outcome.value == s.nextSession && Address(c) in b.state.queues
    ensures b.outcome.Err? ==> b.outcome.error.BrokerFailure?
    ensures Inv(s) ==> Inv(b.state)
    ensures Inv(s) && b.outcome.Ok? ==>
      ConnectionOf(b.outcome.value) !in s.open && ChannelOf(b.outcome.value) !in s.open
  {
    match CreateConnection(s, c.Connection())
    case Err(e) => Binding(s, Err(BrokerFailure(e)))
    case Ok((s1, session)) =>
      var s2 := CreateChannel(s1, session);
      if c.queueDeclarePassive then
        match QueueDeclarePassive(s2, Address(c))
        case Fail(e) => Binding(s2, Err(BrokerFailure(e)))
        case Pass => Binding(s2, Ok(session))
      else
        match QueueDeclare(s2, Address(c), c.Flags())
        case Err(e) => Binding(s2, Err(BrokerFailure(e)))
        case Ok(s3) => Binding(s3, Ok(session))
  }

  /**
   * With a passive declare the flags have no effect and the queue must already exist:
   * binding succeeds exactly when the connection is accepted and the queue is there,
   * and no queue is created.
   */
  lemma PassiveDeclareOnlyChecks(s: BrokerState, c: QueueConfiguration, flags: QueueFlags)
    requires c.queueDeclarePassive
    ensures Bind(s, c).outcome.Ok? <==> c.Connection() in s.accepts && Address(c) in s.queues
    ensures Bind(s, c).state.queues == s.queues
    ensures Bind(s, c) == Bind(s, c.(durable := flags.durable, exclusive := flags.exclusive, autoDelete := flags.autoDelete))
  {
  }

  /**
   * A non-passive declare creates an absent queue, empty, with the configured flags, and
   * accepts an existing one only when its flags match.
   */
  lemma ActiveDeclareCreates(s: BrokerState, c: QueueConfiguration)
    requires !c.queueDeclarePassive && c.Connection() in s.accepts
    ensures Address(c) !in s.queues ==>
      Bind(s, c).outcome.Ok? && Bind(s, c).state.queues == s.queues[Address(c) := BrokerQueue(c.Flags(), [])]
    ensures Address(c) in s.queues ==>
      (Bind(s, c).outcome.Ok? <==> s.queues[Address(c)].flags == c.Flags()) && Bind(s, c).state.queues == s.queues
  {
  }

  /**
   * Queues are per virtual host: two configurations naming the same queue in different
   * virtual hosts declare two unrelated queues, so both active declares succeed whatever
   * their flags, and a passive declare in the second virtual host still finds nothing.
   */
  lemma {:induction false} SameNameOtherVirtualHost(s: BrokerState, c1: QueueConfiguration, c2: QueueConfiguration)
    requires c1.queue == c2.queue && c1.virtualHost != c2.virtualHost
    requires c1.Connection() in s.accepts && c2.Connection() in s.accepts
    requires Address(c1) !in s.queues && Address(c2) !in s.queues
    requires !c1.queueDeclarePassive
    ensures Bind(s, c1).outcome.Ok?
    ensures !c2.queueDeclarePassive ==> Bind(Bind(s, c1).state, c2).outcome.Ok?
    ensures c2.queueDeclarePassive ==> Bind(Bind(s, c1).state, c2).outcome.Err?
  {
    ActiveDeclareCreates(s, c1);
    var s1 := Bind(s, c1).state;
    assert Address(c2) !in s1.queues;
    if c2.queueDeclarePassive {
      PassiveDeclareOnlyChecks(s1, c2, c2.Flags());
    } else {
      ActiveDeclareCreates(s1, c2);
    }
  }

  /**
   * A successful bind opens exactly one new connection and its channel, under a fresh
   * session, and touches no message, delivery or log.
   */
  lemma BindOpensOneSession(s: BrokerState, c: QueueConfiguration)
    requires Inv(s) && Bind(s, c).outcome.Ok?
    ensures ConnectionOf(s.nextSession) !in s.open && ChannelOf(s.nextSession) !in s.open
    ensures var b := Bind(s, c);
      && b.outcome.value == s.nextSession
      && b.state.open == s.open + {ConnectionOf(s.nextSession), ChannelOf(s.nextSession)}
      && b.state.unacked == s.unacked && b.state.published == s.published
      && b.state.closed == s.closed
      && (forall name :: name in s.queues ==> Pending(b.state, name) == Pending(s, name))
  {
  }

  /** The position of the last occurrence of `h`. */
  function LastIndexOf(hs: seq<Handler>, h: Handler): (i: nat)
    requires h in hs
    ensures i < |hs| && hs[i] == h && h !in hs[i + 1..]
    decreases |hs|
  {
    if hs[|hs| - 1] == h then |hs| - 1
    else
      var front := hs[..|hs| - 1];
      assert h in front by {
        var k :| 0 <= k < |hs| && hs[k] == h;
        assert front[k] == h;
      }
      var i := LastIndexOf(front, h);
      assert hs[i + 1..] == front[i + 1..] + [hs[|hs| - 1]];
      i
  }

  /** The Received event's invocation list after `-= h`: the last occurrence of `h` goes, the rest stays in order. */
  function Unsubscribe(hs: seq<Handler>, h: Handler): (r: seq<Handler>)
    ensures h !in hs ==> r == hs
    ensures h in hs ==> r == hs[..LastIndexOf(hs, h)] + hs[LastIndexOf(hs, h) + 1..]
    decreases |hs|
  {
    if hs == [] then []
    else if hs[|hs| - 1] == h then hs[..|hs| - 1]
    else
      var front := hs[..|hs| - 1];
      assert hs == front + [hs[|hs| - 1]];
      assert h in hs ==> h in front;
      assert h in hs ==> LastIndexOf(hs, h) == LastIndexOf(front, h);
      Unsubscribe(front, h) + [hs[|hs| - 1]]
  }

  /** The handlers an event list holds when at most one is registered. */
  function Attached(h: Option<Handler>): seq<Handler> {
    if h.Some? then [h.value] else []
  }

  /** The push-delivery consumer of one channel; `handlers` is its Received event's invocation list. */
  class EventingConsumer {
    const channel: nat
    // The queue that created this consumer and alone uses it.
    ghost const owner: MessageQueue
    var handlers: seq<Handler>

    constructor (channel: nat, ghost owner: MessageQueue)
      ensures this.channel == channel && this.owner == owner && handlers == []
    {
      this.channel := channel;
      this.owner := owner;
      handlers := [];
    }
  }

  class MessageQueue {
    const configuration: QueueConfiguration
    const broker: Broker
    // The connection and its channel.
    const session: nat
    var consumer: EventingConsumer?
    var receivedHandler: Option<Handler>
    // False once disposed: the channel and connection are closed.
    var open: bool

    /**
     * A handler is remembered only together with a consumer, and while the queue is open
     * the consumer's event holds exactly the remembered handler; after disposal it holds none.
     */
    ghost predicate Valid()
      reads this, consumer
    {
      && (consumer == null ==> receivedHandler.None?)
      && (consumer != null ==> consumer.owner == this)
      && (consumer != null ==> consumer.handlers == if open then Attached(receivedHandler) else [])
    }

    constructor Bound(configuration: QueueConfiguration, broker: Broker, session: nat)
      ensures this.configuration == configuration && this.broker == broker && this.session == session
      ensures consumer == null && receivedHandler.None? && open
      ensures Valid()
    {
      this.configuration := configuration;
      this.broker := broker;
      this.session := session;
      consumer := null;
      receivedHandler := None;
      open := true;
    }

    /**
     * The constructor: opens the connection and channel, then declares the queue. Any
     * broker failure propagates and no queue object results; the broker keeps whatever
     * the failed attempt already opened.
     */
    static method Connect(configuration: QueueConfiguration, broker: Broker) returns (r: Result<MessageQueue, QueueError>)
      requires broker.Valid()
      modifies broker
      ensures broker.Valid()
      ensures var b := Bind(old(broker.state), configuration);
        && broker.state == b.state
        && r.Ok? == b.outcome.Ok?
        && (r.Err? ==> r.error == b.outcome.error)
        && (r.Ok? ==> r.value.session == b.outcome.value)
      ensures r.Ok? ==> fresh(r.value) && r.value.configuration == configuration && r.value.broker == broker
      ensures r.Ok? ==> r.value.open && r.value.consumer == null && r.value.receivedHandler.None? && r.value.Valid()
    {
      var connected := CreateConnection(broker.state, configuration.Connection());
      if connected.Err? {
        return Err(BrokerFailure(connected.error));
      }
      var session := connected.value.1;
      broker.state := connected.value.0;
      broker.state := CreateChannel(broker.state, session);
      if configuration.queueDeclarePassive {
        var declared := QueueDeclarePassive(broker.state, Address(configuration));
        if declared.Fail? {
          return Err(BrokerFailure(declared.error));
        }
      } else {
        var declared := QueueDeclare(broker.state, Address(configuration), configuration.Flags());
        if declared.Err? {
          return Err(BrokerFailure(declared.error));
        }
        broker.state := declared.value;
      }
      var q := new MessageQueue.Bound(configuration, broker, session);
      return Ok(q);
    }

    /** Publishes a text message: refused unless the configuration permits publishing, otherwise one publish of its UTF-8 bytes. */
    method Publish(message: string, utf8: TextEncoding) returns (r: Outcome<QueueError>)
      requires open && broker.Valid()
      modifies broker
      ensures broker.Valid()
      ensures r.Pass? <==> CanPublish(configuration)
      ensures r.Fail? ==> r.error == NotAuthorizedForPublish(configuration.identifier) && broker.state == old(broker.state)
      ensures r.Pass? ==> broker.state == BasicPublish(old(broker.state), VirtualHostOf(configuration.Connection()),
        configuration.exchange.value, configuration.routingKey.value, utf8.getBytes(message))
    {
      if !CanPublish(configuration) {
        return Fail(NotAuthorizedForPublish(configuration.identifier));
      }
      var body := utf8.getBytes(message);
      broker.state := BasicPublish(broker.state, VirtualHostOf(configuration.Connection()),
        configuration.exchange.value, configuration.routingKey.value, body);
      return Pass;
    }

    /**
     * Publishes an item as JSON. The item is serialized first, so a serialization failure
     * is reported even on a queue that may not publish; either failure publishes nothing.
     */
    method PublishItem<T>(item: T, json: JsonSerializer<T>, utf8: TextEncoding) returns (r: Outcome<QueueError>)
      requires open && broker.Valid()
      modifies broker
      ensures broker.Valid()
      ensures json.serialize(item).None? ==> r == Fail(SerializationError) && broker.state == old(broker.state)
      ensures json.serialize(item).Some? ==> (r.Pass? <==> CanPublish(configuration))
      ensures json.serialize(item).Some? && r.Fail? ==>
        r.error == NotAuthorizedForPublish(configuration.identifier) && broker.state == old(broker.state)
      ensures json.serialize(item).Some? && r.Pass? ==> broker.state == BasicPublish(old(broker.state),
        VirtualHostOf(configuration.Connection()), configuration.exchange.value, configuration.routingKey.value, utf8.getBytes(json.serialize(item).value))
    {
      var text := json.serialize(item);
      if text.None? {
        return Fail(SerializationError);
      }
      r := Publish(text.value, utf8);
    }

    /**
     * Fetches one message as text without waiting. Refused on a publish-only queue; none on
     * an empty queue; otherwise the head message is taken, decoded, and only then acknowledged.
     */
    method Get(utf8: TextEncoding) returns (r: Result<Option<string>, QueueError>)
      requires open && broker.Valid()
      modifies broker
      ensures broker.Valid()
      ensures !CanReceive(configuration) ==>
        r == Err(NotAuthorizedForReceive(configuration.identifier)) && broker.state == old(broker.state)
      ensures CanReceive(configuration) && Address(configuration) !in old(broker.state.queues) ==>
        r == Err(BrokerFailure(NotFound(Address(configuration)))) && broker.state == old(broker.state)
      ensures CanReceive(configuration) && Address(configuration) in old(broker.state.queues) ==>
        var name := Address(configuration);
        var pending := Pending(old(broker.state), name);
        if pending == [] then
          r == Ok(None) && broker.state == old(broker.state)
        else
          && r == Ok(Some(utf8.getString(pending[0])))
          && broker.state == BasicAck(BasicGet(old(broker.state), name).value.0, old(broker.state.nextTag))
          && Pending(broker.state, name) == pending[1..]
          && broker.state.unacked == old(broker.state.unacked)
          && broker.state.published == old(broker.state.published)
    {
      if !CanReceive(configuration) {
        return Err(NotAuthorizedForReceive(configuration.identifier));
      }
      var got := BasicGet(broker.state, Address(configuration));
      if got.Err? {
        return Err(BrokerFailure(got.error));
      }
      var fetched := got.value.1;
      if fetched.None? {
        return Ok(None);
      }
      ghost var before := broker.state;
      broker.state := got.value.0;
      var message := utf8.getString(fetched.value.body);
      FetchThenAck(before, Address(configuration));
      broker.state := BasicAck(broker.state, fetched.value.tag);
      return Ok(Some(message));
    }

    /**
     * Fetches one message and deserializes it. An empty queue yields `absent` (the type's
     * default value). The message is acknowledged only after deserialization succeeds; when
     * it fails the message stays out of the queue, unacknowledged, under its delivery tag.
     */
    method GetItem<T>(json: JsonSerializer<T>, utf8: TextEncoding, absent: T) returns (r: Result<T, QueueError>)
      requires open && broker.Valid()
      modifies broker
      ensures broker.Valid()
      ensures !CanReceive(configuration) ==>
        r == Err(NotAuthorizedForReceive(configuration.identifier)) && broker.state == old(broker.state)
      ensures CanReceive(configuration) && Address(configuration) !in old(broker.state.queues) ==>
        r == Err(BrokerFailure(NotFound(Address(configuration)))) && broker.state == old(broker.state)
      ensures CanReceive(configuration) && Address(configuration) in old(broker.state.queues) ==>
        var name := Address(configuration);
        var pending := Pending(old(broker.state), name);
        var taken := BasicGet(old(broker.state), name).value.0;
        if pending == [] then
          r == Ok(absent) && broker.state == old(broker.state)
        else
          var item := json.deserialize(utf8.getString(pending[0]));
          && Pending(broker.state, name) == pending[1..]
          && (item.None? ==>
                && r == Err(DeserializationError)
                && broker.state == taken
                && broker.state.unacked == old(broker.state.unacked)[old(broker.state.nextTag) := Delivery(name, pending[0])])
          && (item.Some? ==>
                && r == Ok(item.value)
                && broker.state == BasicAck(taken, old(broker.state.nextTag))
                && broker.state.unacked == old(broker.state.unacked))
    {
      if !CanReceive(configuration) {
        return Err(NotAuthorizedForReceive(configuration.identifier));
      }
      var got := BasicGet(broker.state, Address(configuration));
      if got.Err? {
        return Err(BrokerFailure(got.error));
      }
      var fetched := got.value.1;
      if fetched.None? {
        return Ok(absent);
      }
      FetchThenAck(broker.state, Address(configuration));
      broker.state := got.value.0;
      var message := utf8.getString(fetched.value.body);
      var item := json.deserialize(message);
      if item.None? {
        return Err(DeserializationError);
      }
      broker.state := BasicAck(broker.state, fetched.value.tag);
      return Ok(item.value);
    }

    /**
     * Attaches `h` as the only handler of the channel's consumer, creating the consumer on
     * first use and reusing it afterwards, then starts consuming the queue. The handler swap
     * happens before the broker is asked, so it stands even when starting the consumer fails.
     */
    method RegisterConsumer(h: Handler, autoAck: bool) returns (r: Outcome<QueueError>)
      requires Valid() && open && broker.Valid()
      modifies this, consumer, broker
      ensures Valid() && open && broker.Valid()
      ensures consumer != null && receivedHandler == Some(h) && consumer.handlers == [h]
      ensures old(consumer) != null ==> consumer == old(consumer)
      ensures old(consumer) == null ==> fresh(consumer) && consumer.channel == session
      ensures var started := BasicConsume(old(broker.state), session, Address(configuration), autoAck);
        && (started.Ok? ==> r == Pass && broker.state == started.value)
        && (started.Err? ==> r == Fail(BrokerFailure(started.error)) && broker.state == old(broker.state))
    {
      if consumer == null {
        consumer := new EventingConsumer(session, this);
      }
      if receivedHandler.Some? {
        consumer.handlers := Unsubscribe(consumer.handlers, receivedHandler.value);
        receivedHandler := None;
      }
      receivedHandler := Some(h);
      consumer.handlers := consumer.handlers + [h];
      var started := BasicConsume(broker.state, session, Address(configuration), autoAck);
      if started.Err? {
        return Fail(BrokerFailure(started.error));
      }
      broker.state := started.value;
      return Pass;
    }

    /**
     * Detaches the handler, if there is one, then closes the channel and after it the
     * connection.
     */
    method Dispose()
      requires Valid() && open && broker.Valid()
      modifies this, consumer, broker
      ensures Valid() && !open && broker.Valid()
      ensures consumer == old(consumer) && receivedHandler == old(receivedHandler)
      ensures consumer != null ==> consumer.handlers == []
      ensures broker.state == Close(Close(old(broker.state), ChannelOf(session)), ConnectionOf(session))
      ensures broker.state.closed == old(broker.state.closed) + [ChannelOf(session), ConnectionOf(session)]
      ensures broker.state.open == old(broker.state.open) - {ChannelOf(session), ConnectionOf(session)}
    {
      if consumer != null {
        if receivedHandler.Some? {
          consumer.handlers := Unsubscribe(consumer.handlers, receivedHandler.value);
        }
      }
      broker.state := Close(broker.state, ChannelOf(session));
      broker.state := Close(broker.state, ConnectionOf(session));
      open := false;
    }
  }
}
