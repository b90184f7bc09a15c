// The exchanges, queues and bindings of a consumer (pkg/messaging/rabbitmq/topology.go) and where they route messages.
module Topology {
  import opened Wrappers
  import opened XDeath
  import Topics
  import Bus

  datatype Kind = Topic | OtherKind

  /** The x- arguments of a queue: TTL in ms, dead-letter exchange, dead-letter routing key. */
  datatype Args = Args(ttl: Option<int>, deadLetterTo: Option<string>, deadLetterKey: Option<string>)

  datatype Binding = Binding(exchange: string, pattern: string, queue: string)

  /** What the broker has declared. */
  datatype View = View(exchanges: map<string, Kind>, queues: map<string, Args>, bindings: set<Binding>)

  datatype TopologySpec = TopologySpec(exchange: string, routingKey: string, queueName: string, retryTTL: int)

  function RetryExchangeName(queueName: string): string { queueName + ".retry.exchange" }

  const MILLISECOND := 1_000_000

  /** int(RetryTTL / time.Millisecond): Go's division truncates toward zero. */
  function Millis(nanos: int): (ms: int)
    ensures nanos >= 0 ==> ms * 1_000_000 <= nanos < (ms + 1) * 1_000_000
    ensures nanos < 0 ==> (ms - 1) * 1_000_000 < nanos <= ms * 1_000_000
  {
    if nanos >= 0 then nanos / MILLISECOND else -(-nanos / MILLISECOND)
  }

  function MainArgs(spec: TopologySpec): Args {
    Args(None, Some(RetryExchangeName(spec.queueName)), None)
  }

  function RetryArgs(spec: TopologySpec): Args {
    Args(Some(Millis(spec.retryTTL)), Some(spec.exchange), Some(spec.routingKey))
  }

  const NO_ARGS := Args(None, None, None)

  // --------------------------------------------------------- declarations

  datatype Declaration =
    | Exchange(name: string)
    | Queue(name: string, args: Args)
    | Bind(queue: string, pattern: string, exchange: string)

  /** The broker's answer: refuses an exchange of another kind, a queue with other arguments, a negative TTL,
      and a binding between things that do not exist; accepts anything it already has as it is. */
  function Declare(v: View, d: Declaration): Option<View> {
    match d
    case Exchange(name) =>
      if name in v.exchanges && v.exchanges[name] != Topic then None
      else Some(v.(exchanges := v.exchanges[name := Topic]))
    case Queue(name, args) =>
      if (name in v.queues && v.queues[name] != args) || (args.ttl.Some? && args.ttl.value < 0) then None
      else Some(v.(queues := v.queues[name := args]))
    case Bind(queue, pattern, exchange) =>
      if queue !in v.queues || exchange !in v.exchanges then None
      else Some(v.(bindings := v.bindings + {Binding(exchange, pattern, queue)}))
  }

  /** The declarations a consumer needs, in order. */
  function Plan(spec: TopologySpec): seq<Declaration> {
    var retryExchange := RetryExchangeName(spec.queueName);
    var retryQueue := RetryQueueName(spec.queueName);
    [
      Exchange(spec.exchange),
      Exchange(retryExchange),
      Queue(spec.queueName, MainArgs(spec)),
      Bind(spec.queueName, spec.routingKey, spec.exchange),
      Queue(retryQueue, RetryArgs(spec)),
      Bind(retryQueue, spec.routingKey, retryExchange),
      Queue(DLQQueueName(spec.queueName), NO_ARGS)
    ]
  }

  /** The view after the first n declarations of the plan, if the broker accepts them all. */
  function Upto(v: View, plan: seq<Declaration>, n: nat): Option<View>
    requires n <= |plan|
  {
    if n == 0 then Some(v)
    else match Upto(v, plan, n - 1)
      case None => None
      case Some(before) => Declare(before, plan[n - 1])
  }

  /** The broker behind one AMQP channel. */
  class Broker {
    var exchanges: map<string, Kind>
    var queues: map<string, Args>
    var bindings: set<Binding>
    var callsLeft: nat  // the channel fails from the call after these on

    constructor ()
      ensures Current() == View(map[], map[], {})
    {
      exchanges, queues, bindings := map[], map[], {};
    }

    function Current(): View
      reads this
    {
      View(exchanges, queues, bindings)
    }

    /** Whether the channel is still there for one more call. */
    method Connected() returns (up: bool)
      modifies this`callsLeft
      ensures up == (old(callsLeft) > 0) && callsLeft == if up then old(callsLeft) - 1 else 0
    {
      up := callsLeft > 0;
      if up { callsLeft := callsLeft - 1; }
    }

    method ExchangeDeclare(name: string) returns (ok: bool)
      modifies this
      ensures callsLeft == if old(callsLeft) > 0 then old(callsLeft) - 1 else 0
      ensures ok <==> old(callsLeft) > 0 && Declare(old(Current()), Exchange(name)).Some?
      ensures Current() == if ok then Declare(old(Current()), Exchange(name)).value else old(Current())
    {
      ok := Connected();
      if ok {
        if name in exchanges && exchanges[name] != Topic { return false; }
        exchanges := exchanges[name := Topic];
      }
    }

    method QueueDeclare(name: string, args: Args) returns (ok: bool)
      modifies this
      ensures callsLeft == if old(callsLeft) > 0 then old(callsLeft) - 1 else 0
      ensures ok <==> old(callsLeft) > 0 && Declare(old(Current()), Queue(name, args)).Some?
      ensures Current() == if ok then Declare(old(Current()), Queue(name, args)).value else old(Current())
    {
      ok := Connected();
      if ok {
        if name in queues && queues[name] != args { return false; }
        if args.ttl.Some? && args.ttl.value < 0 { return false; }
        queues := queues[name := args];
      }
    }

    method QueueBind(queue: string, pattern: string, exchange: string) returns (ok: bool)
      modifies this
      ensures callsLeft == if old(callsLeft) > 0 then old(callsLeft) - 1 else 0
      ensures ok <==> old(callsLeft) > 0 && Declare(old(Current()), Bind(queue, pattern, exchange)).Some?
      ensures Current() == if ok then Declare(old(Current()), Bind(queue, pattern, exchange)).value else old(Current())
    {
      ok := Connected();
      if ok {
        if queue !in queues || exchange !in exchanges { return false; }
        bindings := bindings + {Binding(exchange, pattern, queue)};
      }
    }
  }

  // -------------------------------------------------------------- wiring

  /** Everything a consumer relies on is there. */
  ghost predicate Wired(v: View, spec: TopologySpec) {
    && spec.exchange in v.exchanges && v.exchanges[spec.exchange] == Topic
    && RetryExchangeName(spec.queueName) in v.exchanges && v.exchanges[RetryExchangeName(spec.queueName)] == Topic
    && spec.queueName in v.queues && v.queues[spec.queueName] == MainArgs(spec)
    && RetryQueueName(spec.queueName) in v.queues && v.queues[RetryQueueName(spec.queueName)] == RetryArgs(spec)
    && DLQQueueName(spec.queueName) in v.queues && v.queues[DLQQueueName(spec.queueName)] == NO_ARGS
    && Binding(spec.exchange, spec.routingKey, spec.queueName) in v.bindings
    && Binding(RetryExchangeName(spec.queueName), spec.routingKey, RetryQueueName(spec.queueName)) in v.bindings
    && Millis(spec.retryTTL) >= 0
  }

  /** Nothing declared is ever taken back or changed. */
  ghost predicate Extends(v: View, v': View) {
    && (forall x :: x in v.exchanges ==> x in v'.exchanges && v'.exchanges[x] == v.exchanges[x])
    && (forall q :: q in v.queues ==> q in v'.queues && v'.queues[q] == v.queues[q])
    && v.bindings <= v'.bindings
  }

  lemma {:induction false} DeclaringExtends(v: View, plan: seq<Declaration>, n: nat)
    requires n <= |plan| && Upto(v, plan, n).Some?
    ensures Extends(v, Upto(v, plan, n).value)
  {
    if n > 0 { DeclaringExtends(v, plan, n - 1); }
  }

  lemma {:induction false} PrefixesSucceed(v: View, plan: seq<Declaration>, n: nat, m: nat)
    requires m <= n <= |plan| && Upto(v, plan, n).Some?
    ensures Upto(v, plan, m).Some? && Extends(Upto(v, plan, m).value, Upto(v, plan, n).value)
  {
    if m < n { PrefixesSucceed(v, plan, n - 1, m); }
  }

  ghost predicate Holds(v: View, d: Declaration) {
    match d
    case Exchange(name) => name in v.exchanges && v.exchanges[name] == Topic
    case Queue(name, args) => name in v.queues && v.queues[name] == args && (args.ttl.Some? ==> args.ttl.value >= 0)
    case Bind(queue, pattern, exchange) =>
      queue in v.queues && exchange in v.exchanges && Binding(exchange, pattern, queue) in v.bindings
  }

  lemma {:induction false} PlannedHolds(v: View, plan: seq<Declaration>, i: nat)
    requires i < |plan| && Upto(v, plan, |plan|).Some?
    ensures Holds(Upto(v, plan, |plan|).value, plan[i])
  {
    PrefixesSucceed(v, plan, |plan|, i + 1);
    PrefixesSucceed(v, plan, |plan|, i);
  }

  /** A successful declaration wires the consumer up. */
  lemma DeclaredIsWired(v: View, spec: TopologySpec)
    requires Upto(v, Plan(spec), |Plan(spec)|).Some?
    ensures Wired(Upto(v, Plan(spec), |Plan(spec)|).value, spec)
  {
    forall i | 0 <= i < |Plan(spec)| ensures Holds(Upto(v, Plan(spec), |Plan(spec)|).value, Plan(spec)[i]) {
      PlannedHolds(v, Plan(spec), i);
    }
    hide Upto;
    var v' := Upto(v, Plan(spec), |Plan(spec)|).value;
    assert Holds(v', Plan(spec)[0]) && Holds(v', Plan(spec)[1]) && Holds(v', Plan(spec)[2]) && Holds(v', Plan(spec)[3])
        && Holds(v', Plan(spec)[4]) && Holds(v', Plan(spec)[5]) && Holds(v', Plan(spec)[6]);
  }

  /** ... whatever is declared later, by anyone, leaves it wired up ... */
  lemma WiringLasts(v: View, spec: TopologySpec, plan: seq<Declaration>, n: nat)
    requires Wired(v, spec) && n <= |plan| && Upto(v, plan, n).Some?
    ensures Wired(Upto(v, plan, n).value, spec)
  {
    DeclaringExtends(v, plan, n);
  }

  lemma {:induction false} RedeclaringChangesNothing(v: View, spec: TopologySpec, n: nat)
    requires Wired(v, spec) && n <= |Plan(spec)|
    ensures Upto(v, Plan(spec), n) == Some(v)
  {
    if n > 0 {
      RedeclaringChangesNothing(v, spec, n - 1);
      var d := Plan(spec)[n - 1];
      assert Holds(v, d);
      assert Declare(v, d) == Some(v) by {
        match d
        case Exchange(name) => assert v.exchanges[name := Topic] == v.exchanges;
        case Queue(name, args) => assert v.queues[name := args] == v.queues;
        case Bind(q, p, x) => assert v.bindings + {Binding(x, p, q)} == v.bindings;
      }
    }
  }

  // -------------------------------------------------------------- routing

  /** The queues an exchange routes a key to. */
  function Routed(v: View, exchange: string, key: string): set<string> {
    set b | b in v.bindings && b.exchange == exchange && Topics.Matches(b.pattern, key) :: b.queue
  }

  /** The routing key a message leaves q with when it is dead-lettered. */
  function DeathKey(v: View, q: string, key: string): string {
    if q in v.queues && v.queues[q].deadLetterKey.Some? then v.queues[q].deadLetterKey.value else key
  }

  /** The queues a message with this key reaches when it is dead-lettered from q. */
  function DeadLettered(v: View, q: string, key: string): set<string> {
    if q in v.queues && v.queues[q].deadLetterTo.Some?
    then Routed(v, v.queues[q].deadLetterTo.value, DeathKey(v, q, key))
    else {}
  }

  /** The key a message has on the main queue after n rounds through the retry queue. */
  function KeyAfter(v: View, spec: TopologySpec, key: string, n: nat): string {
    if n == 0 then key
    else DeathKey(v, RetryQueueName(spec.queueName), DeathKey(v, spec.queueName, KeyAfter(v, spec, key, n - 1)))
  }

  lemma Reached(v: View, exchange: string, pattern: string, queue: string, key: string)
    requires Binding(exchange, pattern, queue) in v.bindings && Topics.Matches(pattern, key)
    ensures queue in Routed(v, exchange, key)
  {
    var b := Binding(exchange, pattern, queue);
    assert b in v.bindings && b.exchange == exchange && Topics.Matches(b.pattern, key) && b.queue == queue;
  }

  /** Routing closure: a message that reached the queue by a key its pattern matches is, in every round,
      sent to the retry queue when rejected and back to the main queue when it expires - even though
      from the second round on its key is the pattern itself. */
  lemma {:induction false} RoundsNeverLoseTheMessage(v: View, spec: TopologySpec, key: string, n: nat)
    requires Wired(v, spec) && Topics.Matches(spec.routingKey, key)
    ensures var k := KeyAfter(v, spec, key, n);
            && Topics.Matches(spec.routingKey, k)
            && RetryQueueName(spec.queueName) in DeadLettered(v, spec.queueName, k)
            && spec.queueName in DeadLettered(v, RetryQueueName(spec.queueName), DeathKey(v, spec.queueName, k))
  {
    if n > 0 { RoundsNeverLoseTheMessage(v, spec, key, n - 1); }
    Topics.PatternMatchesItself(spec.routingKey);
    var k := KeyAfter(v, spec, key, n);
    Reached(v, RetryExchangeName(spec.queueName), spec.routingKey, RetryQueueName(spec.queueName), k);
    Reached(v, spec.exchange, spec.routingKey, spec.queueName, spec.routingKey);
  }

  /** The queues as a consumer needs them: nothing expires from its own queue or its DLQ, and the DLQ dead-letters
      nothing; a message rejected from its own queue goes to its retry exchange under the key it has, and one that has
      been in the retry queue for the TTL, in whole milliseconds, back to the exchange under the consumer's key. */
  ghost predicate Keeps(v: View, spec: TopologySpec) {
    var main, retry, dlq := spec.queueName, spec.queueName + ".retry", spec.queueName + ".dlq";
    && main in v.queues && retry in v.queues && dlq in v.queues
    && v.queues[main].ttl.None? && v.queues[dlq].ttl.None? && v.queues[retry].ttl.Some?
    && var ms := v.queues[retry].ttl.value;
    && 0 <= ms && (if spec.retryTTL >= 0 then ms * 1_000_000 <= spec.retryTTL < (ms + 1) * 1_000_000 else ms == 0)
    && (forall key :: DeadLettered(v, dlq, key) == {})
    && (forall key :: DeadLettered(v, main, key) == Routed(v, spec.queueName + ".retry.exchange", key))
    && (forall key :: DeadLettered(v, retry, key) == Routed(v, spec.exchange, spec.routingKey))
    && (forall key :: DeathKey(v, main, key) == key && DeathKey(v, retry, key) == spec.routingKey)
  }

  /** What is wired keeps what it gets until it is consumed, and sends on what is rejected or has waited. */
  lemma WiredKeeps(v: View, spec: TopologySpec)
    requires Wired(v, spec)
    ensures Keeps(v, spec)
  {
    hide Topics.Matches;
  }

  lemma NoneYet(v: View, plan: seq<Declaration>)
    ensures Upto(v, plan, 0) == Some(v)
  {
  }

  // ------------------------------------------------------------ declaring

  /** Declares exchanges, queues and bindings one after the other and stops at the first refusal,
      leaving what was declared before it; it succeeds exactly when the whole plan is in place. */
  method DeclareConsumerTopology(ch: Broker, spec: TopologySpec) returns (ok: bool, ghost done: nat)
    modifies ch
    ensures done <= |Plan(spec)|
    ensures Upto(old(ch.Current()), Plan(spec), done) == Some(ch.Current())
    ensures ok <==> done == |Plan(spec)|
    ensures ok ==> Wired(ch.Current(), spec) && Keeps(ch.Current(), spec)
    ensures !ok ==> done == old(ch.callsLeft) || Declare(ch.Current(), Plan(spec)[done]).None?
  {
    hide Declare, Upto, Wired, Keeps;
    var retryExchange := RetryExchangeName(spec.queueName);
    var retryQueue := RetryQueueName(spec.queueName);
    var dlqQueue := DLQQueueName(spec.queueName);
    ghost var before, plan := ch.Current(), Plan(spec);
    done := 0;
    NoneYet(before, plan);

    OneMore(before, plan, 0, ch.Current());
    ok := ch.ExchangeDeclare(spec.exchange);
    if !ok { return; }
    done := 1;
    OneMore(before, plan, 1, ch.Current());
    ok := ch.ExchangeDeclare(retryExchange);
    if !ok { return; }
    done := 2;

    OneMore(before, plan, 2, ch.Current());
    ok := ch.QueueDeclare(spec.queueName, Args(None, Some(retryExchange), None));
    if !ok { return; }
    done := 3;
    OneMore(before, plan, 3, ch.Current());
    ok := ch.QueueBind(spec.queueName, spec.routingKey, spec.exchange);
    if !ok { return; }
    done := 4;

    OneMore(before, plan, 4, ch.Current());
    ok := ch.QueueDeclare(retryQueue, Args(Some(Millis(spec.retryTTL)), Some(spec.exchange), Some(spec.routingKey)));
    if !ok { return; }
    done := 5;
    OneMore(before, plan, 5, ch.Current());
    ok := ch.QueueBind(retryQueue, spec.routingKey, retryExchange);
    if !ok { return; }
    done := 6;

    OneMore(before, plan, 6, ch.Current());
    ok := ch.QueueDeclare(dlqQueue, Args(None, None, None));
    if !ok { return; }
    done := 7;
    DeclaredIsWired(before, spec);
    WiredKeeps(ch.Current(), spec);
  }

  // ---------------------------------------------- several consumers at once

  ghost predicate BindingOf(b: Binding, spec: TopologySpec) {
    || b == Binding(spec.exchange, spec.routingKey, spec.queueName)
    || b == Binding(RetryExchangeName(spec.queueName), spec.routingKey, RetryQueueName(spec.queueName))
  }

  /** Every binding was made for one of these consumers. */
  ghost predicate BoundFor(v: View, specs: set<TopologySpec>) {
    forall b :: b in v.bindings ==> exists spec :: spec in specs && BindingOf(b, spec)
  }

  /** No consumer publishes to another's retry exchange. */
  ghost predicate Apart(specs: set<TopologySpec>) {
    forall s, s' :: s in specs && s' in specs ==> s.exchange != RetryExchangeName(s'.queueName)
  }

  /** Declaring a consumer, fully or as far as it gets, binds nothing but its own. */
  lemma {:induction false} DeclaringBindsOwn(v: View, spec: TopologySpec, specs: set<TopologySpec>, n: nat)
    requires n <= |Plan(spec)| && Upto(v, Plan(spec), n).Some? && BoundFor(v, specs) && spec in specs
    ensures BoundFor(Upto(v, Plan(spec), n).value, specs)
  {
    if n > 0 {
      DeclaringBindsOwn(v, spec, specs, n - 1);
      var before, after := Upto(v, Plan(spec), n - 1).value, Upto(v, Plan(spec), n).value;
      forall b | b in after.bindings ensures exists s :: s in specs && BindingOf(b, s) {
        if b !in before.bindings { assert BindingOf(b, spec); }
      }
    }
  }

  lemma RetryExchangeInjective(q: string, q': string)
    ensures RetryExchangeName(q) == RetryExchangeName(q') <==> q == q'
  {
    if RetryExchangeName(q) == RetryExchangeName(q') {
      assert q == RetryExchangeName(q)[..|q|] && q' == RetryExchangeName(q')[..|q'|];
    }
  }

  /** A rejected message goes to its own consumer's retry queue and nowhere else. */
  lemma RejectionStaysPrivate(v: View, specs: set<TopologySpec>, spec: TopologySpec, key: string)
    requires BoundFor(v, specs) && Apart(specs) && spec in specs && Wired(v, spec)
    ensures DeadLettered(v, spec.queueName, key) <= {RetryQueueName(spec.queueName)}
  {
    forall q | q in DeadLettered(v, spec.queueName, key) ensures q == RetryQueueName(spec.queueName) {
      var b :| b in v.bindings && b.exchange == RetryExchangeName(spec.queueName) && b.queue == q;
      var s :| s in specs && BindingOf(b, s);
      RetryExchangeInjective(s.queueName, spec.queueName);
    }
  }

  /** s is bound where spec's retries expire to. */
  ghost predicate Overhears(s: TopologySpec, spec: TopologySpec) {
    s.exchange == spec.exchange && Topics.Matches(s.routingKey, spec.routingKey)
  }

  lemma ExpiryIsRouted(v: View, spec: TopologySpec, key: string)
    requires Wired(v, spec)
    ensures DeadLettered(v, RetryQueueName(spec.queueName), key) == Routed(v, spec.exchange, spec.routingKey)
  {
    hide Topics.Matches;
  }

  lemma OnlyMainQueuesAreRouted(v: View, specs: set<TopologySpec>, spec: TopologySpec, q: string)
    returns (s: TopologySpec)
    requires BoundFor(v, specs) && Apart(specs) && spec in specs
    requires q in Routed(v, spec.exchange, spec.routingKey)
    ensures s in specs && s.queueName == q && Overhears(s, spec)
  {
    hide Topics.Matches;
    var b :| b in v.bindings && b.exchange == spec.exchange && Topics.Matches(b.pattern, spec.routingKey)
        && b.queue == q;
    s :| s in specs && BindingOf(b, s);
    hide RetryExchangeName;
    assert b.exchange != RetryExchangeName(s.queueName);
  }

  lemma OverhearerIsRouted(v: View, s: TopologySpec, spec: TopologySpec)
    requires Wired(v, s) && Overhears(s, spec)
    ensures s.queueName in Routed(v, spec.exchange, spec.routingKey)
  {
    Reached(v, spec.exchange, s.routingKey, s.queueName, spec.routingKey);
  }

  /** An expiring message goes to every consumer bound to the exchange by a pattern that matches the retried
      consumer's pattern, and to no retry queue: two consumers are isolated from each other's retries
      only if their patterns are. */
  lemma ExpiryReaches(v: View, specs: set<TopologySpec>, spec: TopologySpec, key: string, q: string)
    requires BoundFor(v, specs) && Apart(specs) && spec in specs && (forall s :: s in specs ==> Wired(v, s))
    ensures q in DeadLettered(v, RetryQueueName(spec.queueName), key) <==>
            exists s :: s in specs && s.queueName == q && Overhears(s, spec)
  {
    hide Wired, BoundFor, Apart, Routed, DeadLettered, Overhears, RetryQueueName;
    ExpiryIsRouted(v, spec, key);
    if q in Routed(v, spec.exchange, spec.routingKey) {
      var s := OnlyMainQueuesAreRouted(v, specs, spec, q);
    }
    forall s | s in specs && s.queueName == q && Overhears(s, spec)
      ensures q in Routed(v, spec.exchange, spec.routingKey)
    {
      OverhearerIsRouted(v, s, spec);
    }
  }

  // ------------------------------------------- two consumers of one key

  const NOTHING: View := View(map[], map[], {})

  /** The declarations of spec meet nothing that is in their way. */
  ghost predicate Clear(v: View, spec: TopologySpec) {
    && (forall x :: x in v.exchanges ==> v.exchanges[x] == Topic)
    && spec.queueName !in v.queues && RetryQueueName(spec.queueName) !in v.queues
    && DLQQueueName(spec.queueName) !in v.queues
    && Millis(spec.retryTTL) >= 0
  }

  /** Then the broker accepts them all, and holds no other queues than before and its own. */
  lemma ClearIsAccepted(v: View, spec: TopologySpec)
    requires Clear(v, spec)
    ensures Upto(v, Plan(spec), |Plan(spec)|).Some?
    ensures var v' := Upto(v, Plan(spec), |Plan(spec)|).value;
            && (forall x :: x in v'.exchanges ==> v'.exchanges[x] == Topic)
            && forall q :: q in v'.queues ==> q in v.queues || q in OwnQueues(spec)
  {
    var q := spec.queueName;
    assert |q| != |RetryQueueName(q)| && |q| != |DLQQueueName(q)|;
    assert RetryQueueName(q)[|q| + 1] != DLQQueueName(q)[|q| + 1];
    hide RetryQueueName, DLQQueueName, RetryExchangeName, Millis, Upto;
    var plan := Plan(spec);
    var v1 := Declare(v, plan[0]).value;
    var v2 := Declare(v1, plan[1]).value;
    var v3 := Declare(v2, plan[2]).value;
    var v4 := Declare(v3, plan[3]).value;
    var v5 := Declare(v4, plan[4]).value;
    var v6 := Declare(v5, plan[5]).value;
    assert Declare(v6, plan[6]).Some?;
    hide Declare;
    OneMore(v, plan, 0, v);
    OneMore(v, plan, 1, v1);
    OneMore(v, plan, 2, v2);
    OneMore(v, plan, 3, v3);
    OneMore(v, plan, 4, v4);
    OneMore(v, plan, 5, v5);
    OneMore(v, plan, 6, v6);
  }

  lemma OneMore(v: View, plan: seq<Declaration>, n: nat, before: View)
    requires n < |plan| && (n == 0 ==> before == v) && (n > 0 ==> Upto(v, plan, n) == Some(before))
    ensures Upto(v, plan, n + 1) == Declare(before, plan[n])
  {
    hide Declare;
  }

  function OwnQueues(spec: TopologySpec): set<string> {
    {spec.queueName, RetryQueueName(spec.queueName), DLQQueueName(spec.queueName)}
  }

  /** One consumer's failures are retried against another: any two consumers of one exchange and key, with names of
      their own, declared one after the other on an empty broker, get each an expiring retry of the other. */
  lemma OneKeyIsOverheard(a: TopologySpec, b: TopologySpec, key: string)
    requires a.exchange == b.exchange && a.routingKey == b.routingKey && OwnQueues(a) !! OwnQueues(b)
    requires Millis(a.retryTTL) >= 0 && Millis(b.retryTTL) >= 0
    ensures Upto(NOTHING, Plan(a), |Plan(a)|).Some?
    ensures var v := Upto(NOTHING, Plan(a), |Plan(a)|).value;
            && Upto(v, Plan(b), |Plan(b)|).Some?
            && var v' := Upto(v, Plan(b), |Plan(b)|).value;
            && b.queueName in DeadLettered(v', RetryQueueName(a.queueName), key)
            && a.queueName in DeadLettered(v', RetryQueueName(b.queueName), key)
  {
    hide Plan, Upto, Millis, Wired, DeadLettered, RetryQueueName, DLQQueueName;
    ClearIsAccepted(NOTHING, a);
    var v := Upto(NOTHING, Plan(a), |Plan(a)|).value;
    ClearIsAccepted(v, b);
    var v' := Upto(v, Plan(b), |Plan(b)|).value;
    DeclaredIsWired(NOTHING, a);
    DeclaredIsWired(v, b);
    WiringLasts(v, a, Plan(b), |Plan(b)|);
    Topics.PatternMatchesItself(a.routingKey);
    ExpiryIsRouted(v', a, key);
    ExpiryIsRouted(v', b, key);
    OverhearerIsRouted(v', b, a);
    OverhearerIsRouted(v', a, b);
  }

  // ------------------------------------------ what the delivery model assumes

  /** cfg speaks of these consumers, and routes expired retries as the broker does. */
  ghost predicate Describes(v: View, specs: set<TopologySpec>, cfg: Bus.Config) {
    && Bus.Distinct(cfg.queues)
    && (forall q :: q in cfg.queues <==> exists s :: s in specs && s.queueName == q)
    && (forall s, s' :: s in specs && s' in specs && s.queueName == s'.queueName ==> s == s')
    && (forall s :: s in specs ==>
          && s.queueName in cfg.max && s.queueName in cfg.routes
          && Bus.Distinct(cfg.routes[s.queueName])
          && (forall r :: r in cfg.routes[s.queueName] <==>
                r in DeadLettered(v, RetryQueueName(s.queueName), s.routingKey)))
  }

  lemma NoRetryQueueIsMain(v: View, s: TopologySpec, s': TopologySpec)
    requires Wired(v, s) && Wired(v, s')
    ensures s'.queueName != RetryQueueName(s.queueName)
  {
  }

  /** Consumers whose topologies were declared satisfy what the delivery protocol is proved under: every expired retry
      returns to its own queue, only main queues get copies, and no queue is another's retry queue. */
  lemma WiredConsumersMakeValidConfig(v: View, specs: set<TopologySpec>, cfg: Bus.Config)
    requires BoundFor(v, specs) && Apart(specs) && (forall s :: s in specs ==> Wired(v, s))
    requires Describes(v, specs, cfg)
    ensures Bus.ValidConfig(cfg)
  {
    hide Wired, BoundFor, Apart, DeadLettered, RetryQueueName;
    forall q | q in cfg.queues
      ensures q in cfg.max && q in cfg.routes && RetryQueueName(q) !in cfg.queues && q in cfg.routes[q]
      ensures Bus.Distinct(cfg.routes[q]) && forall r :: r in cfg.routes[q] ==> r in cfg.queues
    {
      var s :| s in specs && s.queueName == q;
      Topics.PatternMatchesItself(s.routingKey);
      ExpiryReaches(v, specs, s, s.routingKey, q);
      assert Overhears(s, s);
      forall r | r in cfg.routes[q] ensures r in cfg.queues { ExpiryReaches(v, specs, s, s.routingKey, r); }
      forall r | r in cfg.queues ensures r != RetryQueueName(q) {
        var s' :| s' in specs && s'.queueName == r;
        NoRetryQueueIsMain(v, s, s');
      }
    }
  }
}
