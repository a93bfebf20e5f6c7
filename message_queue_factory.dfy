/**
 * The queue factory: the ordered list of queue configurations and a lazily filled cache
 * holding at most one open queue per identifier.
 */
module MessageQueueFactories {
  import opened Wrappers
  import opened QueueConfigurations
  import opened Brokers
  import opened MessageQueues

  /** The identifiers of the configurations, in order. */
  function ConfigIdentifiers(cs: seq<QueueConfiguration>): (ids: seq<string>)
    ensures |ids| == |cs| && forall i :: 0 <= i < |cs| ==> ids[i] == cs[i].identifier
  {
    seq(|cs|, i requires 0 <= i < |cs| => cs[i].identifier)
  }

  /** The identifiers of the cached queues, in order. */
  function Identifiers(qs: seq<MessageQueue>): (ids: seq<string>)
    ensures |ids| == |qs| && forall i :: 0 <= i < |qs| ==> ids[i] == qs[i].configuration.identifier
  {
    seq(|qs|, i requires 0 <= i < |qs| => qs[i].configuration.identifier)
  }

  ghost predicate Distinct(ids: seq<string>) {
    forall i, j :: 0 <= i < j < |ids| ==> ids[i] != ids[j]
  }

  /** The position of the first entry equal to `id`: the lookup `FirstOrDefault` performs. */
  function FirstIndexOf(ids: seq<string>, id: string): (r: Option<nat>)
    ensures r.None? <==> id !in ids
    ensures r.Some? ==> r.value < |ids| && ids[r.value] == id
    ensures r.Some? ==> forall j :: 0 <= j < r.value ==> ids[j] != id
  {
    if ids == [] then None
    else if ids[0] == id then Some(0)
    else
      match FirstIndexOf(ids[1..], id)
      case None => None
      case Some(k) => Some(k + 1)
  }

  /** Among distinct identifiers the first match is the only one. */
  lemma {:induction false} FirstIndexOfDistinct(ids: seq<string>, k: nat)
    requires Distinct(ids) && k < |ids|
    ensures FirstIndexOf(ids, ids[k]) == Some(k)
  {
  }

  /**
   * In a cache with distinct identifiers, looking up a cached queue's identifier finds that
   * very queue: a second request returns the instance the first one cached.
   */
  lemma {:induction false} LookupFindsCached(qs: seq<MessageQueue>, k: nat)
    requires Distinct(Identifiers(qs)) && k < |qs|
    ensures FirstIndexOf(Identifiers(qs), qs[k].configuration.identifier) == Some(k)
  {
    FirstIndexOfDistinct(Identifiers(qs), k);
  }

  /** The cache's identifiers after a successful request for `id`: appended unless already there. */
  function Cached(cache: seq<string>, id: string): seq<string> {
    if id in cache then cache else cache + [id]
  }

  /**
   * The cache's identifiers after `GetQueue` was called, in order, for each of `ids` and
   * every call succeeded.
   */
  function Instantiated(cache: seq<string>, ids: seq<string>): seq<string>
    decreases |ids|
  {
    if ids == [] then cache
    else Cached(Instantiated(cache, ids[..|ids| - 1]), ids[|ids| - 1])
  }

  /** One more request extends the instantiated prefix by one step. */
  lemma InstantiatedStep(cache: seq<string>, ids: seq<string>, k: nat)
    requires k < |ids|
    ensures Instantiated(cache, ids[..k + 1]) == Cached(Instantiated(cache, ids[..k]), ids[k])
  {
    assert ids[..k + 1][..k] == ids[..k];
  }

  /** Instantiating keeps what was cached, covers every requested identifier and adds nothing else. */
  lemma {:induction false} InstantiatedCovers(cache: seq<string>, ids: seq<string>)
    ensures cache <= Instantiated(cache, ids)
    ensures forall id :: id in ids ==> id in Instantiated(cache, ids)
    ensures forall id :: id in Instantiated(cache, ids) ==> id in cache || id in ids
    decreases |ids|
  {
    if ids != [] {
      var front := ids[..|ids| - 1];
      InstantiatedCovers(cache, front);
      assert ids == front + [ids[|ids| - 1]];
    }
  }

  /** Instantiating never caches an identifier twice. */
  lemma {:induction false} InstantiatedDistinct(cache: seq<string>, ids: seq<string>)
    requires Distinct(cache)
    ensures Distinct(Instantiated(cache, ids))
    decreases |ids|
  {
    if ids != [] {
      InstantiatedDistinct(cache, ids[..|ids| - 1]);
    }
  }

  /** Instantiating a second time adds nothing. */
  lemma {:induction false} InstantiatedIdempotent(cache: seq<string>, ids: seq<string>)
    ensures Instantiated(Instantiated(cache, ids), ids) == Instantiated(cache, ids)
  {
    InstantiatedCovers(cache, ids);
    InstantiatedKeepsCached(Instantiated(cache, ids), ids);
  }

  /** Requesting only identifiers that are already cached changes nothing. */
  lemma {:induction false} InstantiatedKeepsCached(cache: seq<string>, ids: seq<string>)
    requires forall id :: id in ids ==> id in cache
    ensures Instantiated(cache, ids) == cache
    decreases |ids|
  {
    if ids != [] {
      var front := ids[..|ids| - 1];
      assert forall id :: id in front ==> id in ids;
      InstantiatedKeepsCached(cache, front);
      assert ids[|ids| - 1] in ids;
    }
  }

  class MessageQueueFactory {
    const configs: seq<QueueConfiguration>
    const broker: Broker
    var queues: seq<MessageQueue>

    /** The event consumers of the cached queues. */
    ghost function Consumers(): set<object>
      reads this, queues
    {
      set q | q in queues && q.consumer != null :: q.consumer
    }

    /** True when `c` is the first configuration carrying its own identifier. */
    ghost predicate FirstWithItsIdentifier(c: QueueConfiguration) {
      var k := FirstIndexOf(ConfigIdentifiers(configs), c.identifier);
      k.Some? && configs[k.value] == c
    }

    /**
     * What the cache promises about its entries' fixed parts: one entry per identifier,
     * each built from the first configuration with that identifier and bound to this
     * factory's broker.
     */
    ghost predicate Bindings(qs: seq<MessageQueue>) {
      && Distinct(Identifiers(qs))
      && forall i :: 0 <= i < |qs| ==> qs[i].broker == broker && FirstWithItsIdentifier(qs[i].configuration)
    }

    /** A queue for a new identifier, bound from its first configuration, extends a cache. */
    lemma BindingsAppend(qs: seq<MessageQueue>, q: MessageQueue)
      requires Bindings(qs)
      requires q.configuration.identifier !in Identifiers(qs)
      requires q.broker == broker && FirstWithItsIdentifier(q.configuration)
      ensures Bindings(qs + [q])
      ensures Identifiers(qs + [q]) == Identifiers(qs) + [q.configuration.identifier]
    {
      assert Identifiers(qs + [q]) == Identifiers(qs) + [q.configuration.identifier];
    }

    /**
     * One cached queue per identifier, each built from the first configuration with that
     * identifier, bound to this factory's broker, open and consistent. (Each queue's
     * consumer belongs to that queue, so no two queues share one.)
     */
    ghost predicate Valid()
      reads this, queues, Consumers()
    {
      && Bindings(queues)
      && (forall i :: 0 <= i < |queues| ==> queues[i].open && queues[i].Valid())
    }

    /** Takes the configurations as given; the cache starts empty. */
    constructor (configs: seq<QueueConfiguration>, broker: Broker)
      ensures this.configs == configs && this.broker == broker && queues == []
      ensures Valid()
    {
      this.configs := configs;
      this.broker := broker;
      queues := [];
    }

    /**
     * Find-or-create. A cached queue with the identifier is returned as it is. Otherwise the
     * first configuration with the identifier is bound and the new queue appended; an
     * unknown identifier or a failed construction leaves the cache as it was.
     */
    method GetQueue(id: string) returns (r: Result<MessageQueue, QueueError>)
      requires Valid() && broker.Valid()
      modifies this, broker
      ensures Valid() && broker.Valid()
      ensures r.Ok? ==> r.value in queues && r.value.configuration.identifier == id && r.value.open
      ensures r.Err? ==> queues == old(queues) && id !in old(Identifiers(queues))
      ensures r.Ok? ==> Identifiers(queues) == Cached(old(Identifiers(queues)), id)
      ensures id in old(Identifiers(queues)) ==>
        && r == Ok(old(queues)[FirstIndexOf(old(Identifiers(queues)), id).value])
        && queues == old(queues) && broker.state == old(broker.state)
      ensures id !in old(Identifiers(queues)) ==> CreatedFor(id, old(queues), old(broker.state), r)
      ensures id !in old(Identifiers(queues)) && r.Ok? ==> fresh(r.value)
      ensures OnlyOpened(old(broker.state), broker.state)
    {
      var cached := FirstIndexOf(Identifiers(queues), id);
      if cached.Some? {
        return Ok(queues[cached.value]);
      }
      r := Create(id);
    }

    /**
     * What a cache miss for `id` did: an unknown identifier fails and touches nothing;
     * otherwise the first configuration with the identifier was bound, and on success the
     * new queue was appended.
     */
    ghost predicate CreatedFor(id: string, before: seq<MessageQueue>, was: BrokerState, r: Result<MessageQueue, QueueError>)
      reads this, broker
    {
      if id !in ConfigIdentifiers(configs) then
        r == Err(ConfigurationNotFound(id)) && broker.state == was && queues == before
      else
        var c := configs[FirstIndexOf(ConfigIdentifiers(configs), id).value];
        var b := Bind(was, c);
        && broker.state == b.state
        && r.Ok? == b.outcome.Ok?
        && (r.Err? ==> r.error == b.outcome.error && queues == before)
        && (r.Ok? ==> r.value.configuration == c && queues == before + [r.value])
    }

    /** The miss path of `GetQueue`. */
    method Create(id: string) returns (r: Result<MessageQueue, QueueError>)
      requires Valid() && broker.Valid() && id !in Identifiers(queues)
      modifies this, broker
      ensures Valid() && broker.Valid()
      ensures CreatedFor(id, old(queues), old(broker.state), r)
      ensures r.Ok? ==> fresh(r.value) && r.value.open && Identifiers(queues) == old(Identifiers(queues)) + [id]
      ensures OnlyOpened(old(broker.state), broker.state)
    {
      var k := FirstIndexOf(ConfigIdentifiers(configs), id);
      if k.None? {
        return Err(ConfigurationNotFound(id));
      }
      var created := MessageQueue.Connect(configs[k.value], broker);
      if created.Err? {
        return Err(created.error);
      }
      var q := created.value;
      BindingsAppend(queues, q);
      queues := queues + [q];
      return Ok(q);
    }

    /**
     * Where and why a run of requests stopped: the requests for the first `k`
     * configurations succeeded, and the request for `configs[k]` then bound that
     * identifier's first configuration from broker state `t`, which failed with `e`.
     */
    ghost predicate StoppedAt(k: nat, cache: seq<string>, was: BrokerState, t: BrokerState, e: QueueError)
      reads this, queues, broker
    {
      && k < |configs|
      && Identifiers(queues) == Instantiated(cache, ConfigIdentifiers(configs)[..k])
      && configs[k].identifier !in Identifiers(queues)
      && OnlyOpened(was, t)
      && assert configs[k].identifier == ConfigIdentifiers(configs)[k];
         var c := configs[FirstIndexOf(ConfigIdentifiers(configs), configs[k].identifier).value];
         broker.state == Bind(t, c).state && Bind(t, c).outcome == Err(e)
    }

    /**
     * Requests every configured identifier in order and stops at the first failure. On
     * success every configured identifier has a cached queue; on failure the error is the
     * broker's, passed through unchanged from the failing construction.
     */
    method InstantiateQueues() returns (r: Outcome<QueueError>)
      requires Valid() && broker.Valid()
      modifies this, broker
      ensures Valid() && broker.Valid()
      ensures old(queues) <= queues
      ensures OnlyOpened(old(broker.state), broker.state)
      ensures r.Pass? ==>
        Identifiers(queues) == Instantiated(old(Identifiers(queues)), ConfigIdentifiers(configs))
      ensures r.Pass? ==> forall c :: c in configs ==> c.identifier in Identifiers(queues)
      ensures r.Fail? ==> r.error.BrokerFailure?
      ensures r.Fail? ==> exists k: nat, t :: StoppedAt(k, old(Identifiers(queues)), old(broker.state), t, r.error)
    {
      ghost var cache := Identifiers(queues);
      var ids := ConfigIdentifiers(configs);
      for k := 0 to |configs|
        invariant Valid() && broker.Valid()
        invariant old(queues) <= queues
        invariant OnlyOpened(old(broker.state), broker.state)
        invariant Identifiers(queues) == Instantiated(cache, ids[..k])
      {
        ghost var t := broker.state;
        var got := GetQueue(ids[k]);
        if got.Err? {
          assert StoppedAt(k, cache, old(broker.state), t, got.error);
          return Fail(got.error);
        }
        InstantiatedStep(cache, ids, k);
      }
      assert ids[..|configs|] == ids;
      InstantiatedCovers(cache, ids);
      return Pass;
    }

    /** Disposes every cached queue, in cache order, then empties the cache. */
    method Dispose()
      requires Valid() && broker.Valid()
      modifies this, broker, queues, Consumers()
      ensures Valid() && broker.Valid() && queues == []
      ensures forall j :: 0 <= j < |old(queues)| ==>
        var q := old(queues)[j];
        && !q.open && q.consumer == old(q.consumer)
        && (q.consumer != null ==> q.consumer.handlers == [])
      ensures broker.state == CloseAll(old(broker.state), Teardown(old(queues)))
    {
      assert forall i, j :: 0 <= i < |queues| && 0 <= j < |queues| && i != j ==> queues[i] != queues[j] by {
        forall i, j | 0 <= i < |queues| && 0 <= j < |queues| && i != j ensures queues[i] != queues[j] {
          assert Identifiers(queues)[i] != Identifiers(queues)[j];
        }
      }
      DisposeAll(queues, broker);
      queues := [];
    }
  }

  /**
   * The `foreach` of the factory's disposal: disposes the distinct queues `qs` in order.
   * Every consumer belongs to its own queue, so disposing one queue leaves the others alone.
   */
  method DisposeAll(qs: seq<MessageQueue>, broker: Broker)
    requires forall i, j :: 0 <= i < |qs| && 0 <= j < |qs| && i != j ==> qs[i] != qs[j]
    requires broker.Valid()
    requires forall j :: 0 <= j < |qs| ==> qs[j].broker == broker && qs[j].open && qs[j].Valid()
    modifies qs, set j | 0 <= j < |qs| && qs[j].consumer != null :: qs[j].consumer, broker
    ensures broker.Valid()
    ensures forall j :: 0 <= j < |qs| ==>
      && qs[j].consumer == old(qs[j].consumer) && !qs[j].open
      && (qs[j].consumer != null ==> qs[j].consumer.handlers == [])
    ensures broker.state == CloseAll(old(broker.state), Teardown(qs))
  {
    ghost var cs := seq(|qs|, j requires 0 <= j < |qs| reads qs => qs[j].consumer);
    for i := 0 to |qs|
      invariant broker.Valid()
      invariant forall j :: 0 <= j < |qs| ==> qs[j].consumer == cs[j] && (cs[j] != null ==> cs[j].owner == qs[j])
      invariant forall j :: 0 <= j < i ==> !qs[j].open && (cs[j] != null ==> cs[j].handlers == [])
      invariant forall j :: i <= j < |qs| ==> qs[j].open && qs[j].Valid()
      invariant broker.state == CloseAll(old(broker.state), Teardown(qs[..i]))
    {
      qs[i].Dispose();
      TeardownStep(old(broker.state), qs, i);
    }
    assert qs[..|qs|] == qs;
  }

  /** The closes disposing `qs` in order performs: each queue's channel, then its connection. */
  function Teardown(qs: seq<MessageQueue>): seq<Endpoint>
    decreases |qs|
  {
    if qs == [] then []
    else Teardown(qs[..|qs| - 1]) + [ChannelOf(qs[|qs| - 1].session), ConnectionOf(qs[|qs| - 1].session)]
  }

  /** Disposing the next queue extends the teardown by its channel and connection closes. */
  lemma TeardownStep(s: BrokerState, qs: seq<MessageQueue>, i: nat)
    requires i < |qs|
    ensures Close(Close(CloseAll(s, Teardown(qs[..i])), ChannelOf(qs[i].session)), ConnectionOf(qs[i].session))
      == CloseAll(s, Teardown(qs[..i + 1]))
  {
    var t := Teardown(qs[..i]);
    var a, b := ChannelOf(qs[i].session), ConnectionOf(qs[i].session);
    assert qs[..i + 1][..i] == qs[..i];
    assert Teardown(qs[..i + 1]) == t + [a, b];
    assert (set e | e in t + [a, b]) == (set e | e in t) + {a, b};
  }

  /** In the teardown log the i-th queue's channel is closed, then at once its connection, in cache order. */
  lemma {:induction false} TeardownAt(qs: seq<MessageQueue>, i: nat)
    requires i < |qs|
    ensures |Teardown(qs)| == 2 * |qs|
    ensures Teardown(qs)[2 * i] == ChannelOf(qs[i].session)
    ensures Teardown(qs)[2 * i + 1] == ConnectionOf(qs[i].session)
    decreases |qs|
  {
    var front := qs[..|qs| - 1];
    if |front| > 0 {
      TeardownAt(front, if i < |front| then i else 0);
    } else {
      assert Teardown(front) == [];
    }
    if i < |front| {
      assert front[i] == qs[i];
    }
  }
}
