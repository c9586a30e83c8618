/**
 The broker objects of internal/queue/topology.go and the routing rules they are read by:
 direct exchanges (section 3.1.3.1 of AMQP 0-9-1), the default exchange, which routes by queue
 name, and RabbitMQ's dead-lettering.
 */
module Topology {
  import opened Wrappers

  const EXCHANGE_DIRECT := "avatars.direct"
  const EXCHANGE_DLX := "avatars.dlx"
  const ROUTING_UPLOAD := "avatar.upload"
  const ROUTING_RETRY := "retry"
  const ROUTING_DLQ := "dlq"

  datatype QueueName = Processing | Retry30s | Retry2m | DLQ

  function Name(q: QueueName): string {
    match q
    case Processing => "avatars.processing"
    case Retry30s => "avatars.retry.30s"
    case Retry2m => "avatars.retry.2m"
    case DLQ => "avatars.dlq"
  }

  /** The x-arguments of a queue: time to live in milliseconds, and where expired or rejected messages go. */
  datatype Args = Args(ttl: Option<nat>, deadLetter: Option<(string, string)>)

  datatype Broker = Broker(
    exchanges: set<string>,
    queues: map<string, Args>,
    bindings: set<(string, string, string)>   // exchange, routing key, queue
  )

  /** The queues that a message published to `exchange` with routing key `key` reaches. */
  function Route(b: Broker, exchange: string, key: string): set<string> {
    if exchange == "" then (if key in b.queues then {key} else {})
    else set t | t in b.bindings && t.0 == exchange && t.1 == key :: t.2
  }

  /** The queues that a message dead-lettered from `queue` reaches. */
  function DeadLetterRoute(b: Broker, queue: string): set<string> {
    if queue in b.queues && b.queues[queue].deadLetter.Some? then
      Route(b, b.queues[queue].deadLetter.value.0, b.queues[queue].deadLetter.value.1)
    else {}
  }

  /** The whole topology, as the retry ladder needs it. */
  function Declared(): Broker {
    Broker(
      {EXCHANGE_DIRECT, EXCHANGE_DLX},
      map[
        Name(Processing) := Args(None, Some((EXCHANGE_DLX, ROUTING_DLQ))),
        Name(Retry30s) := Args(Some(30_000), Some((EXCHANGE_DLX, ROUTING_RETRY))),
        Name(Retry2m) := Args(Some(120_000), Some((EXCHANGE_DLX, ROUTING_RETRY))),
        Name(DLQ) := Args(None, None)
      ],
      {
        (EXCHANGE_DLX, ROUTING_RETRY, Name(Processing)),
        (EXCHANGE_DIRECT, ROUTING_UPLOAD, Name(Processing)),
        (EXCHANGE_DLX, ROUTING_DLQ, Name(DLQ))
      }
    )
  }

  /** `c` has everything that `b` has. */
  predicate Within(b: Broker, c: Broker) {
    && b.exchanges <= c.exchanges
    && b.bindings <= c.bindings
    && b.queues.Keys <= c.queues.Keys
    && forall q :: q in b.queues ==> b.queues[q] == c.queues[q]
  }

  /** What is there already, and the topology. */
  function Joined(b: Broker): Broker {
    Broker(b.exchanges + Declared().exchanges, Declared().queues + b.queues, b.bindings + Declared().bindings)
  }

  /** No queue of the topology exists with other arguments. */
  predicate Agrees(b: Broker) {
    forall q :: q in b.queues && q in Declared().queues ==> b.queues[q] == Declared().queues[q]
  }

  /** From `b`, some of the topology was declared, and nothing else. */
  predicate PartlyDeclared(b: Broker, c: Broker) {
    Within(b, c) && Within(c, Joined(b))
  }

  /** A channel that answers `budget` more calls before it breaks. */
  class Channel {
    var broker: Broker
    var budget: nat

    constructor (broker: Broker, budget: nat)
      ensures this.broker == broker && this.budget == budget
    {
      this.broker, this.budget := broker, budget;
    }

    method ExchangeDeclare(name: string) returns (ok: bool)
      modifies this
      ensures ok == (old(budget) > 0) && budget == old(budget) - (if ok then 1 else 0)
      ensures broker == if ok then old(broker).(exchanges := old(broker).exchanges + {name}) else old(broker)
      ensures forall b :: PartlyDeclared(b, old(broker)) && name in Declared().exchanges ==> PartlyDeclared(b, broker)
    {
      hide Declared;
      if budget == 0 {
        return false;
      }
      budget := budget - 1;
      broker := broker.(exchanges := broker.exchanges + {name});
      return true;
    }

    /** Declaring a queue again with the same arguments changes nothing; with others it is refused. */
    method QueueDeclare(name: string, args: Args) returns (ok: bool)
      modifies this
      ensures ok == (old(budget) > 0 && (name !in old(broker).queues || old(broker).queues[name] == args))
      ensures budget == old(budget) - (if ok then 1 else 0)
      ensures broker == if ok then old(broker).(queues := old(broker).queues[name := args]) else old(broker)
      ensures name in Declared().queues && Declared().queues[name] == args ==>
        forall b :: PartlyDeclared(b, old(broker)) ==>
          PartlyDeclared(b, broker) && (Agrees(b) ==> ok == (old(budget) > 0))
    {
      hide Declared;
      if budget == 0 || (name in broker.queues && broker.queues[name] != args) {
        return false;
      }
      budget := budget - 1;
      broker := broker.(queues := broker.queues[name := args]);
      return true;
    }

    method QueueBind(queue: string, key: string, exchange: string) returns (ok: bool)
      modifies this
      ensures ok == (old(budget) > 0 && queue in old(broker).queues && exchange in old(broker).exchanges)
      ensures budget == old(budget) - (if ok then 1 else 0)
      ensures broker ==
        if ok then old(broker).(bindings := old(broker).bindings + {(exchange, key, queue)}) else old(broker)
      ensures (exchange, key, queue) in Declared().bindings ==>
        forall b :: PartlyDeclared(b, old(broker)) ==> PartlyDeclared(b, broker)
    {
      hide Declared;
      if budget == 0 || queue !in broker.queues || exchange !in broker.exchanges {
        return false;
      }
      budget := budget - 1;
      broker := broker.(bindings := broker.bindings + {(exchange, key, queue)});
      return true;
    }

    /**
     `Declare`, on any broker, whatever it holds already. It adds the whole topology, and
     nothing else, if and only if the channel lives long enough and no queue of the topology
     exists with other arguments; otherwise it has added a part of the topology.
     */
    method Declare() returns (ok: bool)
      modifies this
      ensures ok <==> old(budget) >= 9 && Agrees(old(broker))
      ensures ok ==> broker == Joined(old(broker))
      ensures PartlyDeclared(old(broker), broker)
    {
      Elements();
      hide Declared, Name, Within, Joined, Agrees;
      ghost var b := broker;
      NothingDeclared(b);
      ok := ExchangeDeclare(EXCHANGE_DLX);
      if !ok { return; }
      ok := ExchangeDeclare(EXCHANGE_DIRECT);
      if !ok { return; }
      ok := QueueDeclare(Name(Processing), Args(None, Some((EXCHANGE_DLX, ROUTING_DLQ))));
      if !ok { return; }
      ok := QueueBind(Name(Processing), ROUTING_RETRY, EXCHANGE_DLX);
      if !ok { return; }
      ok := QueueBind(Name(Processing), ROUTING_UPLOAD, EXCHANGE_DIRECT);
      if !ok { return; }
      ok := QueueDeclare(Name(Retry30s), Args(Some(30_000), Some((EXCHANGE_DLX, ROUTING_RETRY))));
      if !ok { return; }
      ok := QueueDeclare(Name(Retry2m), Args(Some(120_000), Some((EXCHANGE_DLX, ROUTING_RETRY))));
      if !ok { return; }
      ok := QueueDeclare(Name(DLQ), Args(None, None));
      if !ok { return; }
      ok := QueueBind(Name(DLQ), ROUTING_DLQ, EXCHANGE_DLX);
      if !ok { return; }
      NamesDifferAll();
      Complete(b, broker);
    }
  }

  lemma NothingDeclared(b: Broker)
    ensures PartlyDeclared(b, b)
  {
    hide Declared;
  }

  /** What each of the nine calls of `Declare` contributes. */
  lemma Elements()
    ensures var d := Declared();
      && EXCHANGE_DLX in d.exchanges && EXCHANGE_DIRECT in d.exchanges
      && (EXCHANGE_DLX, ROUTING_RETRY, Name(Processing)) in d.bindings
      && (EXCHANGE_DIRECT, ROUTING_UPLOAD, Name(Processing)) in d.bindings
      && (EXCHANGE_DLX, ROUTING_DLQ, Name(DLQ)) in d.bindings
      && (forall q :: Name(q) in d.queues)
      && d.queues[Name(Processing)] == Args(None, Some((EXCHANGE_DLX, ROUTING_DLQ)))
      && d.queues[Name(Retry30s)] == Args(Some(30_000), Some((EXCHANGE_DLX, ROUTING_RETRY)))
      && d.queues[Name(Retry2m)] == Args(Some(120_000), Some((EXCHANGE_DLX, ROUTING_RETRY)))
      && d.queues[Name(DLQ)] == Args(None, None)
  {
    forall p, q ensures Name(p) == Name(q) <==> p == q { NamesDiffer(p, q); }
  }

  lemma NamesDifferAll()
    ensures forall p, q :: Name(p) == Name(q) <==> p == q
  {
    forall p, q ensures Name(p) == Name(q) <==> p == q { NamesDiffer(p, q); }
  }

  /** With all its elements in place, the topology is there, and nothing else was added. */
  lemma Complete(b: Broker, c: Broker)
    requires PartlyDeclared(b, c)
    requires {EXCHANGE_DLX, EXCHANGE_DIRECT} <= c.exchanges
    requires forall q :: Name(q) in c.queues && Name(q) in Declared().queues
    requires forall q :: c.queues[Name(q)] == Declared().queues[Name(q)]
    requires (EXCHANGE_DLX, ROUTING_RETRY, Name(Processing)) in c.bindings
    requires (EXCHANGE_DIRECT, ROUTING_UPLOAD, Name(Processing)) in c.bindings
    requires (EXCHANGE_DLX, ROUTING_DLQ, Name(DLQ)) in c.bindings
    ensures Agrees(b) && c == Joined(b)
  {
    var d := Joined(b);
    assert forall q :: q in Declared().queues <==> q in {Name(Processing), Name(Retry30s), Name(Retry2m), Name(DLQ)};
    assert c.exchanges == d.exchanges;
    assert c.bindings == d.bindings;
    assert c.queues.Keys == d.queues.Keys;
    assert c.queues == d.queues;
  }

  // ---- retry.go ----

  /** What an AMQP header field can hold, as far as `RetryCount` tells apart. */
  datatype HeaderValue = Int32(v: int) | Int64(v: int) | Int(v: int) | Other

  /** The count a consumer reads from the x-retry-count header, if that is there at all. */
  function RetryCount(header: Option<HeaderValue>): int {
    match header
    case None => 0
    case Some(Int32(v)) => v
    case Some(Int64(v)) => v
    case Some(Int(v)) => v
    case Some(Other) => 0
  }

  datatype Target = Target(queue: string, exchange: string, key: string)

  function ResolveRetryTarget(retryCount: int): Target {
    if retryCount == 1 then Target(Name(Retry30s), "", "")
    else if retryCount == 2 then Target(Name(Retry2m), "", "")
    else Target("", EXCHANGE_DLX, ROUTING_DLQ)
  }

  datatype Publishing = Publishing(exchange: string, key: string, header: Option<HeaderValue>)

  /** The publish that `SendToRetry` makes: where to, and with which counter header. */
  function SendToRetry(retryCount: int): Publishing {
    var Target(queue, exchange, key) := ResolveRetryTarget(retryCount);
    if queue != "" then Publishing("", queue, Some(Int(retryCount)))
    else Publishing(exchange, key, None)
  }

  /** The ladder in one line: where a copy goes after its `retryCount`-th counted failure. */
  function RetryQueue(retryCount: int): QueueName {
    if retryCount == 1 then Retry30s else if retryCount == 2 then Retry2m else DLQ
  }

  function RetryHeader(retryCount: int): Option<HeaderValue> {
    if retryCount == 1 || retryCount == 2 then Some(Int(retryCount)) else None
  }

  function Ttl(q: QueueName): nat {
    if q == Retry30s then 30_000 else if q == Retry2m then 120_000 else 0
  }

  /** The names of the four queues differ. */
  lemma NamesDiffer(p: QueueName, q: QueueName)
    ensures Name(p) == Name(q) <==> p == q
  {
    assert |Name(Processing)| == 18 && |Name(Retry30s)| == 17 && |Name(Retry2m)| == 16 && |Name(DLQ)| == 11;
  }

  /**
   For every count, negative and huge ones included, the retry publish reaches exactly one
   declared queue, the one of the ladder, and the next reader of its header finds the count
   (or zero in the dead-letter queue, where the header is dropped), whichever integer width
   the wire gave it.
   */
  lemma RetryReachesOneQueue(retryCount: int)
    ensures var p := SendToRetry(retryCount);
      && Route(Declared(), p.exchange, p.key) == {Name(RetryQueue(retryCount))}
      && Name(RetryQueue(retryCount)) in Declared().queues
      && p.header == RetryHeader(retryCount)
      && RetryCount(p.header) == (if RetryQueue(retryCount) == DLQ then 0 else retryCount)
    ensures RetryCount(Some(Int32(retryCount))) == RetryCount(Some(Int64(retryCount))) == retryCount
    ensures RetryCount(None) == RetryCount(Some(Other)) == 0
  {
    LiteralsDiffer();
    var p := SendToRetry(retryCount);
    if RetryQueue(retryCount) == DLQ {
      var b := Declared();
      assert (EXCHANGE_DLX, ROUTING_DLQ, Name(DLQ)) in b.bindings;
      assert Route(b, p.exchange, p.key) == {Name(DLQ)};
    }
  }

  lemma LiteralsDiffer()
    ensures EXCHANGE_DIRECT != EXCHANGE_DLX && EXCHANGE_DIRECT != "" && EXCHANGE_DLX != ""
    ensures ROUTING_DLQ != ROUTING_RETRY && Name(Retry30s) != "" && Name(Retry2m) != ""
  {
    assert |EXCHANGE_DIRECT| == 14 && |EXCHANGE_DLX| == 11 && |ROUTING_DLQ| == 3 && |ROUTING_RETRY| == 5;
    assert |Name(Retry30s)| == 17 && |Name(Retry2m)| == 16;
  }

  /**
   Uploads reach the processing queue; its rejects the dead-letter queue; expired retries come back;
   the rest stays.
   */
  lemma EdgesOfTheTopology()
    ensures Route(Declared(), EXCHANGE_DIRECT, ROUTING_UPLOAD) == {Name(Processing)}
    ensures DeadLetterRoute(Declared(), Name(Processing)) == {Name(DLQ)}
    ensures DeadLetterRoute(Declared(), Name(Retry30s)) == {Name(Processing)}
    ensures DeadLetterRoute(Declared(), Name(Retry2m)) == {Name(Processing)}
    ensures DeadLetterRoute(Declared(), Name(DLQ)) == {}
    ensures forall q :: Name(q) in Declared().queues
    ensures Declared().queues[Name(Retry30s)].ttl == Some(30_000) &&
      Declared().queues[Name(Retry2m)].ttl == Some(120_000)
    ensures forall q :: Declared().queues[Name(q)].ttl == if Ttl(q) > 0 then Some(Ttl(q)) else None
  {
    LiteralsDiffer();
    forall p, q ensures Name(p) == Name(q) <==> p == q { NamesDiffer(p, q); }
    RouteOfUploadsAndDeadLetters();
  }

  /** The same edges, as publishes. */
  lemma RouteOfUploadsAndDeadLetters()
    ensures Route(Declared(), EXCHANGE_DIRECT, ROUTING_UPLOAD) == {Name(Processing)}
    ensures Route(Declared(), EXCHANGE_DLX, ROUTING_DLQ) == {Name(DLQ)}
    ensures Route(Declared(), EXCHANGE_DLX, ROUTING_RETRY) == {Name(Processing)}
  {
    LiteralsDiffer();
    hide Name;
    var b := Declared();
    assert (EXCHANGE_DIRECT, ROUTING_UPLOAD, Name(Processing)) in b.bindings;
    assert (EXCHANGE_DLX, ROUTING_DLQ, Name(DLQ)) in b.bindings;
    assert (EXCHANGE_DLX, ROUTING_RETRY, Name(Processing)) in b.bindings;
  }

  /** On a broker with other things on it, a publish reaches what those bind, and what the topology routes it to. */
  lemma JoinedRoutes(b: Broker, exchange: string, key: string)
    ensures Route(Joined(b), exchange, key) == Route(b, exchange, key) + Route(Declared(), exchange, key)
  {
    hide Declared;
  }
}
