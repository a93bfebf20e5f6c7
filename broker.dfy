/**
 * The message broker, seen only through the client operations the queue layer calls:
 * open a connection and its channel, declare a queue (passively or not), publish, fetch
 * one message, acknowledge, start a consumer, close. Its state is abstract: the queues
 * that exist with their pending messages, the deliveries not yet acknowledged, a log of
 * what was published and of the consumers started, and which connections and channels
 * are open.
 */
module Brokers {
  import opened Wrappers
  import opened QueueConfigurations

  type Byte = bv8
  type Bytes = seq<Byte>

  /** One virtual host of one broker: queues and exchanges of different virtual hosts are unrelated. */
  datatype VirtualHost = VirtualHost(hostname: string, port: int, name: string)

  /** A queue's full name: the virtual host it lives in and its name there. */
  datatype QueueAddress = QueueAddress(vhost: VirtualHost, name: string)

  /** The virtual host a connection opened with `p` works in. */
  function VirtualHostOf(p: ConnectionParams): VirtualHost {
    VirtualHost(p.hostname, p.port, p.virtualHost)
  }

  datatype BrokerError =
    | ConnectionRefused                        // unreachable broker or bad credentials
    | NotFound(queue: QueueAddress)            // the queue does not exist
    | PreconditionFailed(queue: QueueAddress)  // redeclared with different flags

  /** A queue on the broker: the flags it was declared with and the messages waiting in it, oldest first. */
  datatype BrokerQueue = BrokerQueue(flags: QueueFlags, pending: seq<Bytes>)

  /** A message handed out by a fetch and not yet acknowledged. */
  datatype Delivery = Delivery(queue: QueueAddress, body: Bytes)

  /** One publish: the virtual host, the exchange there, the routing key and the payload. */
  datatype Published = Published(vhost: VirtualHost, exchange: string, routingKey: string, body: Bytes)

  /** One consumer started on a channel. */
  datatype Consumption = Consumption(session: nat, queue: QueueAddress, autoAck: bool)

  /** A connection and the channel opened over it share their session number. */
  datatype Endpoint = ConnectionOf(session: nat) | ChannelOf(session: nat)

  /** What a successful fetch returns: the delivery tag and the payload. */
  datatype Fetched = Fetched(tag: nat, body: Bytes)

  datatype BrokerState = BrokerState(
    accepts: set<ConnectionParams>,     // connection parameters the broker lets in
    queues: map<QueueAddress, BrokerQueue>,  // the queues that exist
    unacked: map<nat, Delivery>,        // delivery tag -> message awaiting acknowledgement
    nextTag: nat,
    published: seq<Published>,
    consumptions: seq<Consumption>,
    nextSession: nat,
    open: set<Endpoint>,
    closed: seq<Endpoint>)              // closes, in the order they happened

  /**
   * Every outstanding delivery tag and every open endpoint's session was handed out before,
   * so the next tag and the next session are fresh.
   */
  ghost predicate Inv(s: BrokerState) {
    && (forall t :: t in s.unacked ==> t < s.nextTag)
    && (forall e :: e in s.open ==> e.session < s.nextSession)
  }

  /** The messages waiting in queue `name`, or none when it does not exist. */
  function Pending(s: BrokerState, name: QueueAddress): seq<Bytes> {
    if name in s.queues then s.queues[name].pending else []
  }

  /** open-connection: refused unless the broker accepts the parameters; otherwise a new session. */
  function CreateConnection(s: BrokerState, p: ConnectionParams): Result<(BrokerState, nat), BrokerError> {
    if p !in s.accepts then Err(ConnectionRefused)
    else Ok((s.(nextSession := s.nextSession + 1, open := s.open + {ConnectionOf(s.nextSession)}), s.nextSession))
  }

  /** open-channel over an open connection. */
  function CreateChannel(s: BrokerState, session: nat): BrokerState {
    s.(open := s.open + {ChannelOf(session)})
  }

  /** declare-queue-passive: only checks that the queue exists. */
  function QueueDeclarePassive(s: BrokerState, name: QueueAddress): Outcome<BrokerError> {
    if name in s.queues then Pass else Fail(NotFound(name))
  }

  /** declare-queue: creates an absent queue, accepts an identical redeclaration, refuses a conflicting one. */
  function QueueDeclare(s: BrokerState, name: QueueAddress, flags: QueueFlags): Result<BrokerState, BrokerError> {
    if name !in s.queues then Ok(s.(queues := s.queues[name := BrokerQueue(flags, [])]))
    else if s.queues[name].flags == flags then Ok(s)
    else Err(PreconditionFailed(name))
  }

  /** basic-publish: recorded in the publish log; routing to queues is the broker's own business. */
  function BasicPublish(s: BrokerState, vhost: VirtualHost, exchange: string, routingKey: string, body: Bytes): BrokerState {
    s.(published := s.published + [Published(vhost, exchange, routingKey, body)])
  }

  /**
   * basic-get without auto-acknowledgement: nothing on an empty queue; otherwise the head
   * message leaves the queue and waits under a fresh delivery tag for its acknowledgement.
   */
  function BasicGet(s: BrokerState, name: QueueAddress): Result<(BrokerState, Option<Fetched>), BrokerError> {
    if name !in s.queues then Err(NotFound(name))
    else if s.queues[name].pending == [] then Ok((s, None))
    else
      var q := s.queues[name];
      Ok((s.(queues := s.queues[name := q.(pending := q.pending[1..])],
             unacked := s.unacked[s.nextTag := Delivery(name, q.pending[0])],
             nextTag := s.nextTag + 1),
          Some(Fetched(s.nextTag, q.pending[0]))))
  }

  /** basic-ack: the delivery is settled. */
  function BasicAck(s: BrokerState, tag: nat): BrokerState {
    s.(unacked := s.unacked - {tag})
  }

  /** basic-consume: starts pushing the queue's messages to a consumer on the session's channel. */
  function BasicConsume(s: BrokerState, session: nat, name: QueueAddress, autoAck: bool): Result<BrokerState, BrokerError> {
    if name !in s.queues then Err(NotFound(name))
    else Ok(s.(consumptions := s.consumptions + [Consumption(session, name, autoAck)]))
  }

  function Close(s: BrokerState, e: Endpoint): BrokerState {
    s.(open := s.open - {e}, closed := s.closed + [e])
  }

  /**
   * The endpoints `es` closed one after the other. Together they leave the open set and
   * join the close log in order; nothing else changes.
   */
  function CloseAll(s: BrokerState, es: seq<Endpoint>): (t: BrokerState)
    ensures t == s.(open := s.open - (set e | e in es), closed := s.closed + es)
    decreases |es|
  {
    if es == [] then s
    else
      var front := es[..|es| - 1];
      assert es == front + [es[|es| - 1]];
      assert (set e | e in es) == (set e | e in front) + {es[|es| - 1]};
      Close(CloseAll(s, front), es[|es| - 1])
  }

  /**
   * `t` differs from `s` only by connections and channels opened and queues created: every
   * existing queue keeps its flags and messages, and no delivery, log entry or close changes.
   */
  ghost predicate OnlyOpened(s: BrokerState, t: BrokerState) {
    && (forall name :: name in s.queues ==> name in t.queues && t.queues[name] == s.queues[name])
    && t.accepts == s.accepts && t.unacked == s.unacked && t.nextTag == s.nextTag
    && t.published == s.published && t.consumptions == s.consumptions && t.closed == s.closed
    && s.open <= t.open && s.nextSession <= t.nextSession
  }

  /** The shared broker every queue of a factory talks to. */
  class Broker {
    var state: BrokerState

    ghost predicate Valid()
      reads this
    {
      Inv(state)
    }

    constructor (accepts: set<ConnectionParams>, queues: map<QueueAddress, BrokerQueue>)
      ensures Valid()
      ensures state.accepts == accepts && state.queues == queues
      ensures state.unacked == map[] && state.published == [] && state.consumptions == []
      ensures state.open == {} && state.closed == []
    {
      state := BrokerState(accepts, queues, map[], 0, [], [], 0, {}, []);
    }
  }

  /**
   * A fetch that finds a message takes exactly the head of that queue and nothing else:
   * the tag is fresh, the other queues and the logs are untouched, and acknowledging the
   * tag leaves the outstanding deliveries as they were before the fetch.
   */
  lemma FetchThenAck(s: BrokerState, name: QueueAddress)
    requires Inv(s) && Pending(s, name) != []
    ensures BasicGet(s, name).Ok? && BasicGet(s, name).value.1.Some?
    ensures var (s1, f) := BasicGet(s, name).value;
      && Inv(s1)
      && f.value == Fetched(s.nextTag, Pending(s, name)[0])
      && s.nextTag !in s.unacked
      && Pending(s1, name) == Pending(s, name)[1..]
      && (forall other :: other != name ==> Pending(s1, other) == Pending(s, other))
      && s1.queues.Keys == s.queues.Keys
      && s1.unacked == s.unacked[s.nextTag := Delivery(name, Pending(s, name)[0])]
      && BasicAck(s1, f.value.tag).unacked == s.unacked
      && Inv(BasicAck(s1, f.value.tag))
      && s1.published == s.published && s1.open == s.open && s1.closed == s.closed
  {
    var (s1, f) := BasicGet(s, name).value;
    assert s.nextTag !in s.unacked;
    assert BasicAck(s1, f.value.tag).unacked == s.unacked;
  }

  /** Publishing records exactly one entry and changes nothing the fetch side can see. */
  lemma PublishAppendsOne(s: BrokerState, vhost: VirtualHost, exchange: string, routingKey: string, body: Bytes)
    ensures var s1 := BasicPublish(s, vhost, exchange, routingKey, body);
      && |s1.published| == |s.published| + 1
      && s1.published[..|s.published|] == s.published
      && s1.published[|s.published|] == Published(vhost, exchange, routingKey, body)
      && s1.queues == s.queues && s1.unacked == s.unacked
  {
  }
}
