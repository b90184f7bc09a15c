// The x-death header: how the broker writes it, how the consumer reads it
// (pkg/messaging/rabbitmq/consumer.go, topology.go).
module XDeath {

  /** A value of an AMQP header table, as the client library decodes it. */
  datatype Value =
    | Str(s: string)
    | Int64(n: int)
    | Int32(n: int)
    | Int(n: int)
    | Table(fields: map<string, Value>)
    | List(items: seq<Value>)
    | Other

  type Headers = map<string, Value>

  function RetryQueueName(queueName: string): string { queueName + ".retry" }

  function DLQQueueName(queueName: string): string { queueName + ".dlq" }

  lemma RetryNameInjective(q: string, q': string)
    ensures RetryQueueName(q) == RetryQueueName(q') <==> q == q'
  {
    if RetryQueueName(q) == RetryQueueName(q') {
      assert q == RetryQueueName(q)[..|q|] && q' == RetryQueueName(q')[..|q'|];
    }
  }

  // ---------------------------------------------------------------- reading

  /** The string under "queue", or "" when it is absent or not a string. */
  function QueueField(t: map<string, Value>): string {
    if "queue" in t && t["queue"].Str? then t["queue"].s else ""
  }

  /** An entry the scan stops at: a table about `queue` whose count is an integer. */
  predicate Readable(v: Value, queue: string) {
    && v.Table?
    && QueueField(v.fields) == queue
    && "count" in v.fields
    && (v.fields["count"].Int64? || v.fields["count"].Int32? || v.fields["count"].Int?)
  }

  function CountField(v: Value): int
    requires exists queue :: Readable(v, queue)
  {
    v.fields["count"].n
  }

  function Scan(items: seq<Value>, queue: string): int {
    if items == [] then 0
    else if Readable(items[0], queue) then CountField(items[0])
    else Scan(items[1..], queue)
  }

  function Retries(headers: Headers, queue: string): int {
    if "x-death" in headers && headers["x-death"].List? then Scan(headers["x-death"].items, queue) else 0
  }

  /** The scan is decided by the first readable entry, and is 0 without one. */
  lemma {:induction false} ScanIsFirstReadable(items: seq<Value>, queue: string, i: nat)
    requires i <= |items|
    requires forall j :: 0 <= j < i ==> !Readable(items[j], queue)
    ensures i == |items| ==> Scan(items, queue) == 0
    ensures i < |items| && Readable(items[i], queue) ==> Scan(items, queue) == CountField(items[i])
  {
    if 0 < i {
      assert forall j :: 0 <= j < i - 1 ==> items[1..][j] == items[j + 1];
      ScanIsFirstReadable(items[1..], queue, i - 1);
    }
  }

  /** retriesSoFar: the scan as the consumer performs it, with its early returns. */
  method RetriesSoFar(headers: Headers, retryQueue: string) returns (count: int)
    ensures count == Retries(headers, retryQueue)
  {
    if "x-death" !in headers {
      return 0;
    }
    var raw := headers["x-death"];
    if !raw.List? {
      return 0;
    }
    var deaths := raw.items;
    for i := 0 to |deaths|
      invariant forall j :: 0 <= j < i ==> !Readable(deaths[j], retryQueue)
    {
      var entry := deaths[i];
      if !entry.Table? {
        continue;
      }
      if QueueField(entry.fields) != retryQueue {
        continue;
      }
      if "count" in entry.fields {
        match entry.fields["count"] {
          case Int64(n) => ScanIsFirstReadable(deaths, retryQueue, i); return n;
          case Int32(n) => ScanIsFirstReadable(deaths, retryQueue, i); return n;
          case Int(n) => ScanIsFirstReadable(deaths, retryQueue, i); return n;
          case _ =>
        }
      }
    }
    ScanIsFirstReadable(deaths, retryQueue, |deaths|);
    return 0;
  }

  // ---------------------------------------------------------------- writing

  /** One x-death entry as the broker keeps it. */
  datatype Death = Death(queue: string, reason: string, count: nat)

  function Encode(d: Death): Value {
    Table(map["queue" := Str(d.queue), "reason" := Str(d.reason), "count" := Int64(d.count)])
  }

  function EncodeAll(deaths: seq<Death>): (items: seq<Value>)
    ensures |items| == |deaths|
  {
    if deaths == [] then [] else [Encode(deaths[0])] + EncodeAll(deaths[1..])
  }

  /** A message that was never dead-lettered carries no x-death at all. */
  function HeadersOf(deaths: seq<Death>): Headers {
    if deaths == [] then map[] else map["x-death" := List(EncodeAll(deaths))]
  }

  function Hits(deaths: seq<Death>, queue: string, reason: string): nat {
    if deaths == [] then 0
    else if deaths[0].queue == queue && deaths[0].reason == reason then deaths[0].count
    else Hits(deaths[1..], queue, reason)
  }

  function Without(deaths: seq<Death>, queue: string, reason: string): seq<Death> {
    if deaths == [] then []
    else if deaths[0].queue == queue && deaths[0].reason == reason then deaths[1..]
    else [deaths[0]] + Without(deaths[1..], queue, reason)
  }

  /** Dead-lettering from `queue`: its (queue, reason) entry is counted up and moved to the front. */
  function Bump(deaths: seq<Death>, queue: string, reason: string): seq<Death> {
    [Death(queue, reason, Hits(deaths, queue, reason) + 1)] + Without(deaths, queue, reason)
  }

  // ------------------------------------------------- what the reader sees

  /** The retry count a consumer of q reads from a message with this history. */
  function Cycles(deaths: seq<Death>, q: string): int {
    Retries(HeadersOf(deaths), RetryQueueName(q))
  }

  function FirstCount(deaths: seq<Death>, name: string): nat {
    if deaths == [] then 0
    else if deaths[0].queue == name then deaths[0].count
    else FirstCount(deaths[1..], name)
  }

  lemma EncodedFields(d: Death, name: string)
    ensures Readable(Encode(d), name) <==> d.queue == name
    ensures Readable(Encode(d), name) ==> CountField(Encode(d)) == d.count
  {
    assert "queue"[0] == 'q' && "reason"[0] == 'r' && "count"[0] == 'c';
    var f := Encode(d).fields;
    assert f["queue"] == Str(d.queue) && f["count"] == Int64(d.count);
  }

  lemma {:induction false} ScanOfEncoded(deaths: seq<Death>, name: string)
    ensures Scan(EncodeAll(deaths), name) == FirstCount(deaths, name)
  {
    if deaths != [] {
      EncodedFields(deaths[0], name);
      ScanOfEncoded(deaths[1..], name);
      assert EncodeAll(deaths)[1..] == EncodeAll(deaths[1..]);
    }
  }

  lemma CyclesIsFirstCount(deaths: seq<Death>, q: string)
    ensures Cycles(deaths, q) == FirstCount(deaths, RetryQueueName(q))
  {
    ScanOfEncoded(deaths, RetryQueueName(q));
  }

  /** Entries about `name` all carry `reason`: a retry queue only ever expires messages. */
  predicate OnlyReason(deaths: seq<Death>, name: string, reason: string) {
    forall i :: 0 <= i < |deaths| && deaths[i].queue == name ==> deaths[i].reason == reason
  }

  lemma {:induction false} HitsIsFirstCount(deaths: seq<Death>, name: string, reason: string)
    requires OnlyReason(deaths, name, reason)
    ensures Hits(deaths, name, reason) == FirstCount(deaths, name)
  {
    if deaths != [] {
      HitsIsFirstCount(deaths[1..], name, reason);
    }
  }

  lemma {:induction false} WithoutKeepsOthers(deaths: seq<Death>, queue: string, reason: string, name: string)
    requires name != queue
    ensures FirstCount(Without(deaths, queue, reason), name) == FirstCount(deaths, name)
  {
    if deaths != [] && !(deaths[0].queue == queue && deaths[0].reason == reason) {
      WithoutKeepsOthers(deaths[1..], queue, reason, name);
      assert Without(deaths, queue, reason)[1..] == Without(deaths[1..], queue, reason);
    }
  }

  lemma {:induction false} WithoutKeepsReason(deaths: seq<Death>, queue: string, reason: string, name: string,
          r: string)
    requires OnlyReason(deaths, name, r)
    ensures OnlyReason(Without(deaths, queue, reason), name, r)
  {
    if deaths != [] && !(deaths[0].queue == queue && deaths[0].reason == reason) {
      WithoutKeepsReason(deaths[1..], queue, reason, name, r);
    }
  }

  /** A message that a retry queue expires reads as one cycle more for that queue's consumer. */
  lemma ExpiryCountsOneCycle(deaths: seq<Death>, q: string)
    requires OnlyReason(deaths, RetryQueueName(q), "expired")
    ensures Cycles(Bump(deaths, RetryQueueName(q), "expired"), q) == Cycles(deaths, q) + 1
  {
    HitsIsFirstCount(deaths, RetryQueueName(q), "expired");
    CyclesIsFirstCount(deaths, q);
    CyclesIsFirstCount(Bump(deaths, RetryQueueName(q), "expired"), q);
  }

  /** Dead-lettering from any other queue leaves the count of q as it was. */
  lemma ForeignDeathKeepsCycles(deaths: seq<Death>, queue: string, reason: string, q: string)
    requires queue != RetryQueueName(q)
    ensures Cycles(Bump(deaths, queue, reason), q) == Cycles(deaths, q)
  {
    WithoutKeepsOthers(deaths, queue, reason, RetryQueueName(q));
    CyclesIsFirstCount(deaths, q);
    CyclesIsFirstCount(Bump(deaths, queue, reason), q);
    assert Bump(deaths, queue, reason)[1..] == Without(deaths, queue, reason);
  }

  lemma BumpKeepsReason(deaths: seq<Death>, queue: string, reason: string, name: string, r: string)
    requires OnlyReason(deaths, name, r)
    requires queue == name ==> reason == r
    ensures OnlyReason(Bump(deaths, queue, reason), name, r)
  {
    WithoutKeepsReason(deaths, queue, reason, name, r);
  }

  /** The rounds a message has been through: queues that rejected it and whose retry queue sent it back. */
  function AfterRounds(deaths: seq<Death>, rounds: seq<string>): seq<Death> {
    if rounds == [] then deaths
    else
      var before := AfterRounds(deaths, rounds[..|rounds| - 1]);
      var q := rounds[|rounds| - 1];
      Bump(Bump(before, q, "rejected"), RetryQueueName(q), "expired")
  }

  /** Independent budgets: rounds through other consumers' retry queues never change the count read for q,
      and each round through q's own adds exactly one. */
  lemma {:induction false} RoundsAreCountedPerQueue(deaths: seq<Death>, rounds: seq<string>, q: string)
    requires OnlyReason(deaths, RetryQueueName(q), "expired")
    requires RetryQueueName(q) !in rounds
    ensures Cycles(AfterRounds(deaths, rounds), q) == Cycles(deaths, q) + multiset(rounds)[q]
    ensures OnlyReason(AfterRounds(deaths, rounds), RetryQueueName(q), "expired")
  {
    if rounds != [] {
      var n := |rounds| - 1;
      var q' := rounds[n];
      assert rounds == rounds[..n] + [q'];
      RoundsAreCountedPerQueue(deaths, rounds[..n], q);
      var before := AfterRounds(deaths, rounds[..n]);
      var rejected := Bump(before, q', "rejected");
      ForeignDeathKeepsCycles(before, q', "rejected", q);
      BumpKeepsReason(before, q', "rejected", RetryQueueName(q), "expired");
      BumpKeepsReason(rejected, RetryQueueName(q'), "expired", RetryQueueName(q), "expired");
      RetryNameInjective(q, q');
      if q' == q {
        ExpiryCountsOneCycle(rejected, q);
      } else {
        ForeignDeathKeepsCycles(rejected, RetryQueueName(q'), "expired", q);
      }
    }
  }
}
