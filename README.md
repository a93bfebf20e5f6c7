# RabbitMQ queue factory — a Dafny model

This project models the queue layer of RabbitMQ_FactoryDI. That layer is a factory which
turns named queue configurations into live RabbitMQ bindings and caches them, one per
identifier. Each binding is a connection and channel opened for one configuration, and it
offers:

- publish, of text or of a JSON-serialised item;
- a single-message fetch, as text or deserialised;
- registration of one push-delivery handler;
- disposal.

The model consists of five modules:

- `Wrappers`: `Option`, `Result` and `Outcome`. Exceptions in the C# code become `Err`
  and `Fail` values.
- `QueueConfigurations`: the configuration record as a datatype, and the constant
  `Default` that carries every field initialiser.
- `Brokers`: the broker as an abstract state, with pure transition functions for the
  client calls the queue layer makes. The broker can refuse a connection, refuse a
  passive declare of a missing queue, and refuse a redeclare with different flags. The
  state holds:
  - the existing queues, each with its flags and pending messages. A queue is addressed
    by the connection's host name, port and virtual host, and its own name. Same-named
    queues in different virtual hosts are unrelated (but see "Left out" on host aliases);
  - the unacknowledged deliveries, keyed by delivery tag;
  - a publish log and a log of started consumers;
  - the open connections and channels, and the log of closes.

  A `Broker` object holds the state that every queue of a factory shares.
- `MessageQueues`: the capability predicates and the constructor's connect-and-declare
  logic (`Bind`, with `MessageQueue.Connect`). It also holds an `EventingConsumer` class
  whose `handlers` field is the invocation list of its `Received` event, and a
  `MessageQueue` class. That class's methods are proved against the broker functions,
  including what stays unchanged on every error path.
- `MessageQueueFactories`: the factory as a class whose `queues` field is the cache. The
  class invariant says:
  - the cached identifiers are distinct;
  - each cached queue was built from the first configuration with its identifier, and
    is bound to the factory's broker;
  - each cached queue is open, and its consumer (if any) belongs to it alone.

  `InstantiateQueues` is specified by the pure function `Instantiated`, which gives the
  cache contents after a run of successful requests. The lemmas about that function
  prove coverage, distinctness and idempotence.

Some of the behaviour below comes straight from the C# code:

- UTF-8 decoding (`Encoding.UTF8.GetString`) never throws; it substitutes replacement
  characters. So `Get` has no decoding error, and its message is acknowledged whenever
  one was fetched. A fetched message can stay unacknowledged only in `Get<T>`, when JSON
  deserialisation fails.
- `Publish<T>` serialises the item before checking `CanPublish`. A serialisation failure
  is therefore reported even on a queue that may not publish.
- The constructor opens the connection and channel before declaring. A declare that
  fails throws out of the constructor, and nothing closes the connection: it stays open
  on the broker. (The broker itself closes the channel on such an error; see "Left out".)
- Configurations with the same identifier are accepted as they are. Only the first one
  is ever instantiated, and `InstantiateQueues` requests that identifier again, which hits
  the cache.

## Model

| member | source | states |
|---|---|---|
| QueueConfigurations.DefaultConnection | MQFactory/QueueConfiguration.cs:13-30 | By default a queue connects to localhost, port 5672, virtual host "/", with user and password "guest" |
| QueueConfigurations.DefaultDeclare | MQFactory/QueueConfiguration.cs:18-23 | By default a queue is declared actively, named "TestQueue", non-durable, non-exclusive and not auto-deleted |
| MessageQueues.DefaultCapabilities | MQFactory/QueueConfiguration.cs:10-27 | The default direction flags are false and the default exchange and routing key are absent, so a default queue can receive and cannot publish |
| QueueConfigurations.Default | MQFactory/QueueConfiguration.cs:8-30 | The configuration whose every field has its initialiser's value; its properties are the three lemmas on the `Default` rows |
| MessageQueues.CanPublish | MQFactory/MessageQueue.cs:11-14 | Publishing is allowed when the queue is not receive-only and has both an exchange and a routing key; its properties are `ReceiveOnlyNeverPublishes` and `PublishNeedsRoute` |
| MessageQueues.CanReceive | MQFactory/MessageQueue.cs:15 | Receiving is allowed when the queue is not publish-only; its properties are `ReceiveIgnoresReceiveOnly` |
| MessageQueues.ReceiveOnlyNeverPublishes | MQFactory/MessageQueue.cs:11-14 | A receive-only queue cannot publish, whatever its route |
| MessageQueues.PublishNeedsRoute | MQFactory/MessageQueue.cs:11-14 | Publishing is allowed exactly when the queue is not receive-only and both exchange and routing key are set |
| MessageQueues.ReceiveIgnoresReceiveOnly | MQFactory/MessageQueue.cs:15-17 | Receiving is allowed exactly when the queue is not publish-only, and the receive-only flag does not affect it |
| MessageQueues.Bind | MQFactory/MessageQueue.cs:33-59 | Connecting and declaring only opens endpoints and at most creates the configuration's own queue. Every other queue, every delivery and every log is unchanged. On success the session is fresh (none of its endpoints was open) and the queue exists at the configuration's address. Failures are broker failures. The broker invariant is kept: tags and sessions handed out stay below the counters |
| MessageQueues.PassiveDeclareOnlyChecks | MQFactory/MessageQueue.cs:43-49 | With a passive declare, binding succeeds exactly when the connection is accepted and the queue exists. No queue is created, and the three declare flags have no effect |
| MessageQueues.ActiveDeclareCreates | MQFactory/MessageQueue.cs:50-59 | An active declare creates a missing queue, empty, with the configured flags. It accepts an existing queue exactly when that queue's flags match |
| MessageQueues.SameNameOtherVirtualHost | MQFactory/MessageQueue.cs:33-59 | Two configurations naming the same queue in different virtual hosts declare two unrelated queues. Both active declares succeed whatever their flags, and a passive declare in the second virtual host finds nothing |
| MessageQueues.BindOpensOneSession | MQFactory/MessageQueue.cs:33-41 | A successful bind opens one new connection and its channel under a fresh session. It changes no pending message, delivery or publish log |
| MessageQueues.MessageQueue.Connect | MQFactory/MessageQueue.cs:29-60 | Construction opens, declares and yields a fresh open queue with no consumer exactly when `Bind` succeeds. Otherwise it yields the broker's error. Either way the broker ends in `Bind`'s state |
| MessageQueues.MessageQueue.Publish | MQFactory/MessageQueue.cs:77-88 | Publishing succeeds exactly when `CanPublish` holds. Success appends one record of the connection's virtual host, the exchange, the routing key and the UTF-8 body. Refusal names the configuration and leaves the broker unchanged |
| MessageQueues.MessageQueue.PublishItem | MQFactory/MessageQueue.cs:67-71 | A serialisation failure publishes nothing. Otherwise the item behaves like `Publish` of its JSON text |
| MessageQueues.MessageQueue.Get | MQFactory/MessageQueue.cs:120-136 | A publish-only queue is refused and the broker is unchanged. An empty queue yields none and acknowledges nothing. Otherwise the head message is removed and returned decoded, and its delivery is acknowledged, so the outstanding deliveries are as before |
| MessageQueues.MessageQueue.GetItem | MQFactory/MessageQueue.cs:96-114 | The refusal and empty-queue cases are as in `Get`; an empty queue yields the default value. Otherwise the head leaves the queue. It is acknowledged only if deserialisation succeeds, and on failure it stays outstanding under its fresh tag |
| MessageQueues.MessageQueue.RegisterConsumer | MQFactory/MessageQueue.cs:149-168 | Afterwards exactly one handler, `h`, is attached. The consumer is created once, on the session's channel, and reused later. Consuming starts, or the broker's error is returned with the broker unchanged |
| MessageQueues.MessageQueue.Dispose | MQFactory/MessageQueue.cs:170-183 | Disposal detaches the handler, if there is one, and leaves the consumer with no handler. It closes the channel and then the connection, in that order, and the queue is no longer open |
| MessageQueues.EventingConsumer.constructor | MQFactory/MessageQueue.cs:151-152 | A new consumer is bound to the queue's channel and has no handlers |
| MessageQueues.LastIndexOf | MQFactory/MessageQueue.cs:155 | Finds the last occurrence of a handler in an invocation list |
| MessageQueues.Unsubscribe | MQFactory/MessageQueue.cs:155 | Removing a handler from an event deletes its last occurrence and keeps the rest in order. An absent handler changes nothing |
| Brokers.FetchThenAck | MQFactory/MessageQueue.cs:125-134 | A fetch from a non-empty queue takes only its head, under a fresh delivery tag, and leaves other queues and the logs unchanged. Acknowledging that tag restores the outstanding deliveries |
| Brokers.PublishAppendsOne | MQFactory/MessageQueue.cs:84-87 | A publish adds exactly one log record and leaves the queues and deliveries unchanged |
| MessageQueueFactories.FirstIndexOf | MQFactory/MessageQueueFactory.cs:46-52 | The `FirstOrDefault` lookup finds nothing exactly when the identifier is absent. Otherwise it finds the first matching position |
| MessageQueueFactories.FirstIndexOfDistinct | MQFactory/MessageQueueFactory.cs:46 | Among distinct identifiers, the first match is the only match |
| MessageQueueFactories.LookupFindsCached | MQFactory/MessageQueueFactory.cs:44-48 | Looking up a cached queue's identifier finds that very queue, so a second request returns the instance the first request cached |
| MessageQueueFactories.InstantiatedStep | MQFactory/MessageQueueFactory.cs:29-32 | Each loop iteration applies one more request to the cache |
| MessageQueueFactories.InstantiatedCovers | MQFactory/MessageQueueFactory.cs:27-33 | Instantiating keeps the cached identifiers as a prefix, covers every requested identifier and adds nothing else |
| MessageQueueFactories.InstantiatedDistinct | MQFactory/MessageQueueFactory.cs:27-33 | Instantiating never caches an identifier twice |
| MessageQueueFactories.InstantiatedIdempotent | MQFactory/MessageQueueFactory.cs:27-33 | Instantiating a second time adds nothing |
| MessageQueueFactories.InstantiatedKeepsCached | MQFactory/MessageQueueFactory.cs:44-48 | Requesting only cached identifiers leaves the cache unchanged |
| MessageQueueFactories.MessageQueueFactory.BindingsAppend | MQFactory/MessageQueueFactory.cs:54-55 | Appending a queue for a new identifier, built from its first configuration, keeps the cache invariant and extends the identifier list by one |
| MessageQueueFactories.MessageQueueFactory.constructor | MQFactory/MessageQueueFactory.cs:9-13 | The factory keeps the given configurations and starts with an empty cache |
| MessageQueueFactories.MessageQueueFactory.GetQueue | MQFactory/MessageQueueFactory.cs:44-58 | A cache hit returns the first cached queue with the identifier and changes nothing. A miss fails for an unknown identifier, or binds the first matching configuration and appends a fresh queue on success. Every failure leaves the cache unchanged, and the invariant is kept. The broker's new state is `Bind`'s |
| MessageQueueFactories.MessageQueueFactory.Create | MQFactory/MessageQueueFactory.cs:50-57 | On a miss, the queue is appended only after construction succeeds, so the cache grows by exactly that identifier. An unknown identifier or a failed construction leaves the cache as it was |
| MessageQueueFactories.MessageQueueFactory.InstantiateQueues | MQFactory/MessageQueueFactory.cs:27-33 | On success every configured identifier is cached, and the cache equals `Instantiated` over all configurations. On failure the loop stopped at the first configuration whose request failed, with the earlier requests applied, and the error returned is the broker's error from binding that identifier's first configuration, passed through unchanged. The cache only grows. On the broker, endpoints are only opened and queues only created: existing queues, deliveries and logs are unchanged |
| MessageQueueFactories.MessageQueueFactory.Dispose | MQFactory/MessageQueueFactory.cs:15-20 | Every cached queue is disposed: closed, with its consumer's handlers detached. The closes happen in cache order, channel before connection, and the cache is left empty. The broker's new state is those closes and nothing else |
| MessageQueueFactories.DisposeAll | MQFactory/MessageQueueFactory.cs:17-18 | Disposing distinct queues in order closes each one and detaches its handler without touching the others. The broker's new state is the teardown closes applied in order |
| MessageQueueFactories.TeardownStep | MQFactory/MessageQueueFactory.cs:17-18 | Disposing the next queue extends the closes applied so far by its channel and then its connection |
| Brokers.CloseAll | MQFactory/MessageQueueFactory.cs:17-18 | Closing endpoints one after the other removes exactly those endpoints from the open set and appends them to the close log in order. Nothing else changes |
| MessageQueueFactories.TeardownAt | MQFactory/MessageQueueFactory.cs:17-18 | In the close log, the i-th queue's channel is closed at position 2i and its connection right after |

## Left out

- Reading the configurations from the application configuration section is not modelled. The factory takes the list of configurations as a constructor argument.
- The broker's routing from an exchange to queues is not modelled. A publish is only recorded in the log, so a round trip from `Publish` to `Get` through an exchange is not modelled.
- UTF-8 encoding and decoding and JSON serialisation are parameters of the operations (function values). Their behaviour is not modelled beyond "JSON may fail in either direction".
- Push delivery of messages to the registered handler runs on the client library's own thread and is not modelled. Only which handler is attached, and the started consumption, are modelled.
- Concurrency is not modelled. The cache has no locking, and concurrent `GetQueue` calls are outside the model.
- Broker delivery tags are numbered by one counter for the whole broker, not per channel. RabbitMQ numbers each channel's deliveries from 1 with no gaps; in the model the tags one channel sees are increasing but may skip numbers. The source only passes a tag back to acknowledge it, so nothing depends on the numbering.
- An AMQP channel-level error closes the channel in RabbitMQ. In the model a broker error is returned, and the channel stays usable.
- The broker's connection handshake and heartbeats are not modelled, nor is anything else on the wire. A refused connection is the only connection failure.
- After `Dispose`, calling an operation on a queue is not modelled. Each operation requires `open`, where the client library would throw.
- The `Port` field is an unbounded integer rather than a 32-bit one, because the model never does arithmetic on it.
- Non-nullable string fields of the configuration are always present. Null values injected through configuration binding are not modelled.
- `IMessageQueue`, `IMessageQueueFactory`, `IQueueConfiguration`, the dependency-injection registration and the HTTP controller are not part of this model. They are declarations and glue with no logic of their own.
- Brokers.Close, MessageQueues.MessageQueue.Dispose and Brokers.QueueDeclare leave out three broker behaviours that are tied to a connection's lifetime:
  - When a channel closes, RabbitMQ requeues its unacknowledged deliveries. In the model a message that `Get<T>` left unacknowledged after a failed deserialisation stays in `unacked` after `Dispose` and does not return to its queue.
  - An exclusive queue belongs to the connection that declared it. A declare from another connection fails with RESOURCE_LOCKED, and the queue is deleted when its connection closes. The model treats exclusive as a plain flag.
  - An auto-delete queue disappears when its last consumer is cancelled. The model never deletes a queue.
  - An active declare with an empty queue name creates a new server-named queue each time. A later fetch or consume with an empty name on that channel means the channel's most recently declared queue. In the model `""` is an ordinary name: two configurations with an empty queue name in one virtual host share the queue `""`, and a second declare with other flags fails.
  - An active declare of a name that starts with "amq." is refused with ACCESS_REFUSED. The model creates the queue.
- Brokers.VirtualHost and MessageQueues.Address tell brokers apart by their literal host name and port. One broker reached under two names ("localhost" and "127.0.0.1", or two nodes of one cluster) counts as two separate brokers with separate queues. In RabbitMQ both names reach the same queues, so a second declare with other flags would fail, and fetches under either name would read the same queue.
- MessageQueueFactories.MessageQueueFactory.InstantiateQueues states the broker's change as "endpoints opened, queues created, nothing else changed". On failure it also states the failing step's `Bind` and its error. It does not state the exact composition of one `Bind` per missing identifier for the steps that succeeded.
- Repeated consumer registration: calling `RegisterConsumer` again starts a second consumption on the broker, as the code does. The model does not track which consumer tag each consumption has.
