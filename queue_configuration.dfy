/**
 * The configuration record of one queue binding: which broker to connect to, which
 * broker-side queue to declare, where to publish, and which directions are allowed.
 */
module QueueConfigurations {
  import opened Wrappers

  /** Host, port, virtual host and credentials used to open the broker connection. */
  datatype ConnectionParams = ConnectionParams(
    hostname: string,
    port: int,
    virtualHost: string,
    username: string,
    password: string)

  /** The flags a non-passive declare creates a queue with. */
  datatype QueueFlags = QueueFlags(durable: bool, exclusive: bool, autoDelete: bool)

  datatype QueueConfiguration = QueueConfiguration(
    // Local name of the binding; the key of the factory's lookup, never sent to the broker.
    identifier: string,
    publishOnly: bool,
    receiveOnly: bool,
    hostname: string,
    port: int,
    // When set, the queue must already exist and the three flags below have no effect.
    queueDeclarePassive: bool,
    // The queue's name on the broker.
    queue: string,
    durable: bool,
    exclusive: bool,
    autoDelete: bool,
    // Both must be present to publish (the source's `string?`).
    exchange: Option<string>,
    routingKey: Option<string>,
    virtualHost: string,
    username: string,
    password: string)
  {
    function Connection(): ConnectionParams {
      ConnectionParams(hostname, port, virtualHost, username, password)
    }

    function Flags(): QueueFlags {
      QueueFlags(durable, exclusive, autoDelete)
    }
  }

  /** A configuration with every field at its initialiser's value. */
  const Default: QueueConfiguration := QueueConfiguration(
    identifier := "QueueIdentifier",
    publishOnly := false,
    receiveOnly := false,
    hostname := "localhost",
    port := 5672,
    queueDeclarePassive := false,
    queue := "TestQueue",
    durable := false,
    exclusive := false,
    autoDelete := false,
    exchange := None,
    routingKey := None,
    virtualHost := "/",
    username := "guest",
    password := "guest")

  /** The default connection is the broker's guest account on the local host's standard AMQP port. */
  lemma DefaultConnection()
    ensures Default.Connection() == ConnectionParams("localhost", 5672, "/", "guest", "guest")
  {
  }

  /** By default a non-passive declare of "TestQueue" creates a transient, shared, kept queue. */
  lemma DefaultDeclare()
    ensures !Default.queueDeclarePassive && Default.queue == "TestQueue"
    ensures Default.Flags() == QueueFlags(false, false, false)
  {
  }
}
