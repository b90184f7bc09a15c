// pkg/middleware/ratelimit.go: a fixed-window limit per client, counted in Redis.
module RateLimit {
  import opened Wrappers
  import opened Text

  type pos = n: int | n >= 1 witness 1

  /** A counter and the millisecond at which Redis drops it, if it is to expire. */
  datatype Counter = Counter(count: pos, deadline: Option<int>)

  type Keys = map<string, Counter>

  /** The script ran and was answered; did not run; or ran, and the answer was lost. */
  datatype Outcome = Ok | Refused | Unclear

  datatype Verdict = Admitted | Denied(retryAfter: int)

  datatype Policy = Policy(requests: int, windowSec: int)

  /** One request of the client counted under `key`, `at` a millisecond of Redis's clock. */
  datatype Hit = Hit(key: string, at: int, redis: Outcome)

  const NANOS_PER_SECOND: int := 1_000_000_000

  /** int64(window.Seconds()) truncates toward zero. */
  function WindowSec(window: int): (seconds: int)
    ensures window >= 0 ==> seconds * 1_000_000_000 <= window < (seconds + 1) * 1_000_000_000
    ensures window < 0 ==> (seconds - 1) * 1_000_000_000 < window <= seconds * 1_000_000_000
  {
    if window < 0 then -(-window / NANOS_PER_SECOND) else window / NANOS_PER_SECOND
  }

  function Length(p: Policy): int { 1000 * p.windowSec }

  /** How many requests a window admits. */
  function Budget(p: Policy): nat { if p.requests < 0 then 0 else p.requests }

  predicate Live(keys: Keys, key: string, now: int) {
    key in keys && (keys[key].deadline.Some? ==> now < keys[key].deadline.value)
  }

  /** INCR counts a missing or dropped key from 0. */
  function Incremented(keys: Keys, key: string, now: int): pos {
    if Live(keys, key, now) then keys[key].count + 1 else 1
  }

  /** The keys after the script: only a first INCR sets the expiry, and one that is not in the future deletes it. */
  function Scripted(keys: Keys, p: Policy, key: string, now: int): Keys {
    var count := Incremented(keys, key, now);
    if count > 1 then keys[key := keys[key].(count := count)]
    else if p.windowSec >= 1 then keys[key := Counter(1, Some(now + Length(p)))]
    else keys - {key}
  }

  function Next(keys: Keys, p: Policy, h: Hit): Keys {
    if h.redis.Refused? then keys else Scripted(keys, p, h.key, h.at)
  }

  function Judged(keys: Keys, p: Policy, h: Hit): Verdict {
    if h.redis.Ok? && Incremented(keys, h.key, h.at) > p.requests then Denied(p.windowSec) else Admitted
  }

  function Final(keys: Keys, p: Policy, hits: seq<Hit>): Keys
    decreases |hits|
  {
    if hits == [] then keys else Final(Next(keys, p, hits[0]), p, hits[1..])
  }

  // ------------------------------------------------------------ middleware

  /** The Redis server. */
  class Redis {
    var keys: Keys

    constructor ()
      ensures keys == map[]
    {
      keys := map[];
    }

    method Incr(key: string, now: int) returns (count: pos)
      modifies this
      ensures count == Incremented(old(keys), key, now)
      ensures var deadline := if Live(old(keys), key, now) then old(keys)[key].deadline else None;
              keys == old(keys)[key := Counter(count, deadline)]
    {
      if Live(keys, key, now) {
        count := keys[key].count + 1;
        keys := keys[key := keys[key].(count := count)];
      } else {
        count := 1;
        keys := keys[key := Counter(1, None)];
      }
    }

    method Expire(key: string, seconds: int, now: int)
      requires key in keys
      modifies this
      ensures keys == if seconds >= 1 then old(keys)[key := old(keys)[key].(deadline := Some(now + 1000 * seconds))]
                      else old(keys) - {key}
    {
      if seconds >= 1 {
        keys := keys[key := keys[key].(deadline := Some(now + 1000 * seconds))];
      } else {
        keys := keys - {key};
      }
    }

    /** incrScript. */
    method IncrScript(key: string, windowSec: int, now: int) returns (count: pos)
      modifies this
      ensures count == Incremented(old(keys), key, now)
      ensures forall p: Policy :: p.windowSec == windowSec ==> keys == Scripted(old(keys), p, key, now)
    {
      count := Incr(key, now);
      if count == 1 {
        Expire(key, windowSec, now);
      }
    }
  }

  /** The middleware of one service in front of one Redis, or of none. */
  class Limiter {
    const rdb: Redis?
    const namespace: string
    const policy: Policy

    constructor (rdb: Redis?, namespace: string, requests: int, window: int)
      ensures this.rdb == rdb && this.namespace == namespace && policy == Policy(requests, WindowSec(window))
    {
      this.rdb, this.namespace := rdb, namespace;
      policy := Policy(requests, WindowSec(window));
    }

    /** One request: the next handler runs unless the counter is over the limit; Redis errors let it through. */
    method Serve(client: Client, now: int, redis: Outcome) returns (verdict: Verdict)
      modifies rdb
      ensures Identifies(client, ClientIP(client))
      ensures rdb == null || !redis.Ok? ==> verdict == Admitted
      ensures verdict.Denied? ==> verdict.retryAfter == policy.windowSec
      ensures var h := Hit(Key(namespace, ClientIP(client)), now, redis);
              if rdb == null then verdict == Admitted
              else verdict == Judged(old(rdb.keys), policy, h) && rdb.keys == Next(old(rdb.keys), policy, h)
    {
      if rdb == null { return Admitted; }
      var key := Key(namespace, ClientIP(client));
      if redis.Refused? { return Admitted; }
      var count := rdb.IncrScript(key, policy.windowSec, now);
      if !redis.Ok? { return Admitted; }
      if count > policy.requests { return Denied(policy.windowSec); }
      return Admitted;
    }
  }

  // ------------------------------------------------------------- guarantees

  ghost predicate Sorted(hits: seq<Hit>) {
    forall i, j :: 0 <= i < j < |hits| ==> hits[i].at <= hits[j].at
  }

  lemma {:induction false} FinalConcat(keys: Keys, p: Policy, hits: seq<Hit>, more: seq<Hit>)
    ensures Final(keys, p, hits + more) == Final(Final(keys, p, hits), p, more)
    decreases |hits|
  {
    hide Next;
    if hits == [] {
      assert hits + more == more;
    } else {
      assert (hits + more)[0] == hits[0] && (hits + more)[1..] == hits[1..] + more;
      FinalConcat(Next(keys, p, hits[0]), p, hits[1..], more);
    }
  }

  lemma FinalLast(keys: Keys, p: Policy, hits: seq<Hit>)
    requires hits != []
    ensures var n := |hits| - 1; Final(keys, p, hits) == Next(Final(keys, p, hits[..n]), p, hits[n])
  {
    hide Next;
    var n := |hits| - 1;
    assert hits == hits[..n] + [hits[n]];
    FinalConcat(keys, p, hits[..n], [hits[n]]);
  }

  /** How many of these requests incremented the counter of this key. */
  function Counted(hits: seq<Hit>, key: string): nat {
    if hits == [] then 0
    else Counted(hits[..|hits| - 1], key) + if Counts(hits[|hits| - 1], key) then 1 else 0
  }

  predicate Counts(h: Hit, key: string) { h.key == key && !h.redis.Refused? }

  /** Request i found no counter running and so opened a window. */
  ghost predicate Opens(p: Policy, hits: seq<Hit>, key: string, i: nat) {
    i < |hits| && Counts(hits[i], key) && !Live(Final(map[], p, hits[..i]), key, hits[i].at)
  }

  /** A stored counter equals the number of requests - admitted, denied or failed - since its window opened,
      and runs out one window length after that, however many came since: the expiry is set once. */
  lemma {:induction false} CounterTellsItsWindow(p: Policy, hits: seq<Hit>, key: string) returns (i: nat)
    requires p.windowSec >= 1 && key in Final(map[], p, hits)
    ensures Opens(p, hits, key, i)
    ensures Counted(hits[i..], key) >= 1
    ensures Final(map[], p, hits)[key] == Counter(Counted(hits[i..], key), Some(hits[i].at + Length(p)))
    ensures forall j :: i <= j < |hits| && Counts(hits[j], key) ==> hits[j].at < hits[i].at + Length(p)
    decreases |hits|
  {
    var n := |hits| - 1;
    FinalLast(map[], p, hits);
    var before := Final(map[], p, hits[..n]);
    if Counts(hits[n], key) && !Live(before, key, hits[n].at) {
      i := n;
      assert hits[n..] == [hits[n]] && [hits[n]][..0] == [];
    } else {
      i := CounterTellsItsWindow(p, hits[..n], key);
      assert hits[..n][..i] == hits[..i];
      assert hits[i..][..|hits[i..]| - 1] == hits[..n][i..];
    }
  }

  /** A request whose count was answered is admitted if and only if it is among the first `requests`
      since its window opened; a denied one is told to wait for the length of a window. */
  lemma AdmittedWithinBudget(p: Policy, hits: seq<Hit>) returns (i: nat)
    requires p.windowSec >= 1 && hits != [] && hits[|hits| - 1].redis.Ok?
    ensures var n := |hits| - 1; var key := hits[n].key;
            && Opens(p, hits, key, i)
            && Judged(Final(map[], p, hits[..n]), p, hits[n])
               == if Counted(hits[i..], key) <= p.requests then Admitted else Denied(p.windowSec)
  {
    FinalLast(map[], p, hits);
    i := CounterTellsItsWindow(p, hits, hits[|hits| - 1].key);
  }

  /** The requests under this key in [from, till) that reached the next handler; and those that met a Redis error. */
  function Admissions(keys: Keys, p: Policy, hits: seq<Hit>, key: string, from: int, till: int): nat
    decreases |hits|
  {
    if hits == [] then 0
    else
      (if Within(hits[0], key, from, till) && Judged(keys, p, hits[0]).Admitted? then 1 else 0)
      + Admissions(Next(keys, p, hits[0]), p, hits[1..], key, from, till)
  }

  function Failures(hits: seq<Hit>, key: string, from: int, till: int): nat
    decreases |hits|
  {
    if hits == [] then 0
    else
      (if Within(hits[0], key, from, till) && !hits[0].redis.Ok? then 1 else 0) + Failures(hits[1..], key, from, till)
  }

  predicate Within(h: Hit, key: string, from: int, till: int) { h.key == key && from <= h.at < till }

  lemma {:induction false} NoneLater(keys: Keys, p: Policy, hits: seq<Hit>, key: string, from: int, till: int)
    requires forall i :: 0 <= i < |hits| ==> till <= hits[i].at
    ensures Admissions(keys, p, hits, key, from, till) == 0
    decreases |hits|
  {
    hide Next, Judged;
    if hits != [] { NoneLater(Next(keys, p, hits[0]), p, hits[1..], key, from, till); }
  }

  /** How many more requests a counter lets pass. */
  function Room(p: Policy, c: Counter): nat { if p.requests < c.count then 0 else p.requests - c.count }

  predicate LastsUntil(c: Counter, till: int) { c.deadline.Some? ==> till <= c.deadline.value }

  lemma {:induction false} OneWindow(keys: Keys, p: Policy, hits: seq<Hit>, key: string, from: int, till: int)
    requires Sorted(hits) && key in keys && LastsUntil(keys[key], till)
    ensures Admissions(keys, p, hits, key, from, till) <= Room(p, keys[key]) + Failures(hits, key, from, till)
    decreases |hits|
  {
    if hits != [] {
      if hits[0].at >= till {
        NoneLater(keys, p, hits, key, from, till);
      } else {
        OneWindow(Next(keys, p, hits[0]), p, hits[1..], key, from, till);
      }
    }
  }

  lemma {:induction false} TwoWindows(keys: Keys, p: Policy, hits: seq<Hit>, key: string, from: int, till: int)
    requires p.windowSec >= 1 && Sorted(hits) && till <= from + Length(p)
    requires forall i :: 0 <= i < |hits| ==> from <= hits[i].at
    ensures Admissions(keys, p, hits, key, from, till)
         <= (if key in keys then Room(p, keys[key]) else 0) + Budget(p) + Failures(hits, key, from, till)
    decreases |hits|
  {
    if hits != [] {
      var h, next := hits[0], Next(keys, p, hits[0]);
      if h.at >= till {
        NoneLater(keys, p, hits, key, from, till);
      } else if Counts(h, key) && !Live(keys, key, h.at) {
        OneWindow(next, p, hits[1..], key, from, till);
      } else {
        TwoWindows(next, p, hits[1..], key, from, till);
      }
    }
  }

  /** No more than 2 * requests - 1 requests pass in any half-open interval of one window length, whatever the
      sequence of requests and counters at its start - beyond those that met a Redis error. */
  lemma {:induction false} AnyInterval(keys: Keys, p: Policy, hits: seq<Hit>, key: string, from: int, till: int)
    requires p.windowSec >= 1 && Sorted(hits) && till <= from + 1000 * p.windowSec
    ensures Admissions(keys, p, hits, key, from, till)
         <= (if p.requests < 1 then 0 else 2 * p.requests - 1) + Failures(hits, key, from, till)
    decreases |hits|
  {
    if hits != [] && hits[0].at < from {
      AnyInterval(Next(keys, p, hits[0]), p, hits[1..], key, from, till);
    } else {
      TwoWindows(keys, p, hits, key, from, till);
    }
  }

  /** In one window - from the request that opens it until its counter is dropped - at most `requests` pass,
      again beyond those that met a Redis error. */
  lemma PerWindow(keys: Keys, p: Policy, hits: seq<Hit>, key: string)
    requires p.windowSec >= 1 && Sorted(hits) && hits != [] && Counts(hits[0], key) && !Live(keys, key, hits[0].at)
    ensures var from := hits[0].at; var till := from + 1000 * p.windowSec;
            Admissions(keys, p, hits, key, from, till) <= Budget(p) + Failures(hits, key, from, till)
  {
    OneWindow(Next(keys, p, hits[0]), p, hits[1..], key, hits[0].at, hits[0].at + Length(p));
  }

  /** n requests at the same instant. */
  function Burst(key: string, at: int, n: nat): seq<Hit> {
    if n == 0 then [] else [Hit(key, at, Ok)] + Burst(key, at, n - 1)
  }

  lemma {:induction false} BurstIsSimple(key: string, at: int, n: nat)
    ensures |Burst(key, at, n)| == n
    ensures forall i :: 0 <= i < n ==> Burst(key, at, n)[i] == Hit(key, at, Ok)
  {
    if n > 0 { BurstIsSimple(key, at, n - 1); }
  }

  /** A burst against a running counter uses up what room there is. */
  lemma {:induction false} BurstOnCounter(keys: Keys, p: Policy, key: string, at: int, n: nat, from: int, till: int)
    requires Live(keys, key, at) && from <= at < till
    ensures Admissions(keys, p, Burst(key, at, n), key, from, till) ==
            if n < Room(p, keys[key]) then n else Room(p, keys[key])
    ensures Final(keys, p, Burst(key, at, n))
         == if n == 0 then keys else keys[key := Counter(keys[key].count + n, keys[key].deadline)]
  {
    if n > 0 {
      assert Burst(key, at, n)[1..] == Burst(key, at, n - 1);
      BurstOnCounter(Next(keys, p, Hit(key, at, Ok)), p, key, at, n - 1, from, till);
    }
  }

  /** With a window under one second every request opens, and closes, a window of its own. */
  lemma {:induction false} BurstUnlimited(keys: Keys, p: Policy, key: string, at: int, n: nat)
    requires p.windowSec < 1 && !Live(keys, key, at) && p.requests >= 1
    ensures Admissions(keys, p, Burst(key, at, n), key, at, at + 1) == n
  {
    if n > 0 {
      assert Burst(key, at, n)[1..] == Burst(key, at, n - 1);
      BurstUnlimited(Next(keys, p, Hit(key, at, Ok)), p, key, at, n - 1);
    }
  }

  lemma BurstOnNothing(keys: Keys, p: Policy, key: string, at: int, n: nat, from: int, till: int)
    requires p.windowSec >= 1 && !Live(keys, key, at) && from <= at < till
    ensures Admissions(keys, p, Burst(key, at, n), key, from, till) == if n < Budget(p) then n else Budget(p)
  {
    if n > 0 {
      assert Burst(key, at, n)[1..] == Burst(key, at, n - 1);
      BurstOnCounter(Next(keys, p, Hit(key, at, Ok)), p, key, at, n - 1, from, till);
    }
  }

  /** n requests at one instant, none before. */
  ghost predicate HoldsAtAnInstant(p: Policy, key: string, at: int, n: nat) {
    Admissions(map[], p, Burst(key, at, n), key, at, at + 1) <= Budget(p)
  }

  /** The limit limits anything if and only if the window is a second or more, or nothing is to pass at all:
      EXPIRE with 0 seconds deletes the counter it should keep. */
  lemma LimitedIffWholeSecond(p: Policy, key: string, at: int)
    ensures (forall n :: HoldsAtAnInstant(p, key, at, n)) <==> p.windowSec >= 1 || p.requests < 1
  {
    if p.windowSec >= 1 {
      forall n ensures HoldsAtAnInstant(p, key, at, n) { BurstOnNothing(map[], p, key, at, n, at, at + 1); }
    } else if p.requests >= 1 {
      BurstUnlimited(map[], p, key, at, p.requests + 1);
      assert !HoldsAtAnInstant(p, key, at, p.requests + 1);
    } else {
      forall n: nat ensures HoldsAtAnInstant(p, key, at, n) { BurstRefused(map[], p, key, at, n); }
    }
  }

  lemma {:induction false} BurstRefused(keys: Keys, p: Policy, key: string, at: int, n: nat)
    requires p.requests < 1
    ensures Admissions(keys, p, Burst(key, at, n), key, at, at + 1) == 0
    decreases n
  {
    if n > 0 {
      assert Burst(key, at, n)[1..] == Burst(key, at, n - 1);
      BurstRefused(Next(keys, p, Hit(key, at, Ok)), p, key, at, n - 1);
    }
  }

  lemma BurstsAreSorted(key: string, last: int, m: nat, n: nat)
    requires last >= 0
    ensures Sorted([Hit(key, 0, Ok)] + (Burst(key, last, m) + Burst(key, last + 1, n)))
  {
    BurstIsSimple(key, last, m);
    BurstIsSimple(key, last + 1, n);
  }

  lemma TooEarly(keys: Keys, p: Policy, h: Hit, rest: seq<Hit>, key: string, from: int, till: int)
    requires h.at < from
    ensures Admissions(keys, p, [h] + rest, key, from, till) == Admissions(Next(keys, p, h), p, rest, key, from, till)
  {
    assert ([h] + rest)[1..] == rest;
  }

  /** The bound of AnyInterval is reached: one request opens a window, the rest of its budget passes in its
      last millisecond, and a whole new budget in the millisecond after. */
  lemma BoundIsReached(p: Policy, key: string) returns (hits: seq<Hit>)
    requires p.windowSec >= 1 && p.requests >= 1
    ensures Sorted(hits) && var from := Length(p) - 1;
            Admissions(map[], p, hits, key, from, from + Length(p)) == 2 * p.requests - 1
  {
    var L, B := Length(p), p.requests;
    var first, last, second := Hit(key, 0, Ok), Burst(key, L - 1, B - 1), Burst(key, L, B);
    hits := [first] + (last + second);
    BurstsAreSorted(key, L - 1, B - 1, B);
    var running: Keys := map[key := Counter(1, Some(L))];
    assert Next(map[], p, first) == running && L == 1000 * p.windowSec;
    assert Live(running, key, L - 1) && Room(p, running[key]) == B - 1 && Budget(p) == B;
    hide Sorted, Burst, Admissions, Next, Judged, Final, Incremented, Scripted, Length, Budget, Room, ClientIP, Key;
    TooEarly(map[], p, first, last + second, key, L - 1, L - 1 + L);
    BurstOnCounter(running, p, key, L - 1, B - 1, L - 1, L - 1 + L);
    AdmissionsConcat(running, p, last, second, key, L - 1, L - 1 + L);
    BurstOnNothing(Final(running, p, last), p, key, L, B, L - 1, L - 1 + L);
  }

  lemma {:induction false} AdmissionsConcat(keys: Keys, p: Policy, hits: seq<Hit>, more: seq<Hit>,
                                            key: string, from: int, till: int)
    ensures Admissions(keys, p, hits + more, key, from, till)
         == Admissions(keys, p, hits, key, from, till) + Admissions(Final(keys, p, hits), p, more, key, from, till)
    decreases |hits|
  {
    hide Next, Judged;
    if hits == [] {
      assert hits + more == more;
    } else {
      assert (hits + more)[0] == hits[0] && (hits + more)[1..] == hits[1..] + more;
      AdmissionsConcat(Next(keys, p, hits[0]), p, hits[1..], more, key, from, till);
    }
  }

  /** Every request of the key in this continuation is denied. */
  ghost predicate AllDenied(keys: Keys, p: Policy, hits: seq<Hit>, key: string)
    decreases |hits|
  {
    hits == []
    || ((hits[0].key == key ==> Judged(keys, p, hits[0]).Denied?)
        && AllDenied(Next(keys, p, hits[0]), p, hits[1..], key))
  }

  lemma {:induction false} DenialsProlongNothing(keys: Keys, p: Policy, hits: seq<Hit>, key: string)
    requires p.requests >= 1 && key in keys && AllDenied(keys, p, hits, key)
    ensures key in Final(keys, p, hits) && Final(keys, p, hits)[key].deadline == keys[key].deadline
    decreases |hits|
  {
    if hits != [] { DenialsProlongNothing(Next(keys, p, hits[0]), p, hits[1..], key); }
  }

  /** After a 429, however many more denied requests follow, the window is over within Retry-After seconds:
      from then on the next request counts as the first again, and passes. */
  lemma RetryAfterIsEnough(p: Policy, hits: seq<Hit>, h: Hit, more: seq<Hit>, later: Hit)
    requires p.windowSec >= 1 && p.requests >= 1 && Sorted(hits + [h])
    requires var keys := Final(map[], p, hits);
             Judged(keys, p, h).Denied? && AllDenied(Next(keys, p, h), p, more, h.key)
    requires later.key == h.key && later.at >= h.at + 1000 * Judged(Final(map[], p, hits), p, h).retryAfter
    ensures Judged(Final(map[], p, hits + [h] + more), p, later).Admitted?
  {
    var keys := Final(map[], p, hits);
    FinalConcat(map[], p, hits, [h]);
    FinalConcat(map[], p, hits + [h], more);
    var i := CounterTellsItsWindow(p, hits, h.key);
    assert hits[i] == (hits + [h])[i] && h == (hits + [h])[|hits|];
    DenialsProlongNothing(Next(keys, p, h), p, more, h.key);
  }

  /** What happened to the requests of one key. */
  function Verdicts(keys: Keys, p: Policy, hits: seq<Hit>, key: string): seq<Verdict>
    decreases |hits|
  {
    if hits == [] then []
    else
      (if hits[0].key == key then [Judged(keys, p, hits[0])] else [])
      + Verdicts(Next(keys, p, hits[0]), p, hits[1..], key)
  }

  function Only(hits: seq<Hit>, key: string): seq<Hit> {
    if hits == [] then [] else (if hits[0].key == key then [hits[0]] else []) + Only(hits[1..], key)
  }

  ghost predicate AgreeOn(a: Keys, b: Keys, key: string) {
    (key in a <==> key in b) && (key in a ==> a[key] == b[key])
  }

  lemma OwnHitAgrees(a: Keys, b: Keys, p: Policy, h: Hit)
    requires AgreeOn(a, b, h.key)
    ensures Judged(a, p, h) == Judged(b, p, h) && AgreeOn(Next(a, p, h), Next(b, p, h), h.key)
  {
  }

  lemma ForeignHitAgrees(a: Keys, b: Keys, p: Policy, h: Hit, key: string)
    requires AgreeOn(a, b, key) && h.key != key
    ensures AgreeOn(Next(a, p, h), b, key)
  {
  }

  /** Requests under other keys change nothing: each key's requests fare as if they were alone. */
  lemma {:induction false} KeysAreIndependent(a: Keys, b: Keys, p: Policy, hits: seq<Hit>, key: string)
    requires AgreeOn(a, b, key)
    ensures Verdicts(a, p, hits, key) == Verdicts(b, p, Only(hits, key), key)
    decreases |hits|
  {
    hide AgreeOn, Next, Judged;
    if hits != [] {
      var h := hits[0];
      var rest := Only(hits[1..], key);
      if h.key == key {
        OwnHitAgrees(a, b, p, h);
        assert Only(hits, key) == [h] + rest && ([h] + rest)[1..] == rest;
        KeysAreIndependent(Next(a, p, h), Next(b, p, h), p, hits[1..], key);
      } else {
        ForeignHitAgrees(a, b, p, h, key);
        assert Only(hits, key) == rest;
        KeysAreIndependent(Next(a, p, h), b, p, hits[1..], key);
      }
    }
  }

  // ------------------------------------------------------------------- keys

  /** What clientIP looks at. `host` is the host part of the remote address, if that has one. */
  datatype Client = Client(realIP: string, forwardedFor: string, remoteAddr: string, host: Option<string>)

  /** The client gives this address: its X-Real-IP without outer space, whatever its other headers; if it has none, what
      comes before the first comma of X-Forwarded-For, likewise; without both, the host it connects from, or the whole
      remote address if that has no host. */
  ghost predicate Identifies(c: Client, ip: string) {
    if c.realIP != "" then IsTrimmed(c.realIP, ip)
    else if c.forwardedFor != "" then
      exists first :: first <= c.forwardedFor && ',' !in first && IsTrimmed(first, ip)
                   && (first == c.forwardedFor || c.forwardedFor[|first|] == ',')
    else ip == if c.host.Some? then c.host.value else c.remoteAddr
  }

  function ClientIP(c: Client): (ip: string)
    ensures Identifies(c, ip)
  {
    hide IsTrimmed;
    if c.realIP != "" then
      Trimmed(c.realIP);
      TrimSpace(c.realIP)
    else if c.forwardedFor != "" then
      FirstPart(c.forwardedFor, ',');
      Trimmed(Split(c.forwardedFor, ',')[0]);
      TrimSpace(Split(c.forwardedFor, ',')[0])
    else if c.host.None? then c.remoteAddr
    else c.host.value
  }

  lemma Trimmed(s: string)
    ensures IsTrimmed(s, TrimSpace(s))
  {
  }

  lemma OnePart(s: string, a: string, b: string, sep: char)
    requires a <= s && b <= s && sep !in a && sep !in b
    requires (a == s || s[|a|] == sep) && (b == s || s[|b|] == sep)
    ensures a == b
  {
    assert a == s[..|a|] && b == s[..|b|];
  }

  /** A client gives one address only. */
  lemma OneAddress(c: Client, x: string, y: string)
    requires Identifies(c, x) && Identifies(c, y)
    ensures x == y
  {
    hide IsTrimmed;
    var fwd := c.forwardedFor;
    if c.realIP != "" {
      OneTrim(c.realIP, x, y);
    } else if fwd != "" {
      var a :| a <= fwd && ',' !in a && IsTrimmed(a, x) && (a == fwd || fwd[|a|] == ',');
      var b :| b <= fwd && ',' !in b && IsTrimmed(b, y) && (b == fwd || fwd[|b|] == ',');
      OnePart(fwd, a, b, ',');
      OneTrim(a, x, y);
    }
  }

  /** So the white space around an X-Real-IP and everything else about the request make no difference. */
  lemma RealIPDecides(c: Client, before: string, ip: string, after: string)
    requires c.realIP == before + ip + after && AllSpace(before) && AllSpace(after)
    requires ip != "" && !IsSpace(ip[0]) && !IsSpace(ip[|ip| - 1])
    ensures ClientIP(c) == ip
  {
    TrimUndoesPadding(before, ip, after);
  }

  /** Nor does what comes after the first part of an X-Forwarded-For. */
  lemma FirstForwardedDecides(c: Client, before: string, ip: string, after: string, others: seq<string>)
    requires c.realIP == "" && c.forwardedFor == Join([before + ip + after] + others, ',')
    requires AllSpace(before) && AllSpace(after)
    requires ip != "" && ',' !in ip && !IsSpace(ip[0]) && !IsSpace(ip[|ip| - 1])
    ensures ClientIP(c) == ip
  {
    var first := before + ip + after;
    assert ',' !in first by { assert !IsSpace(','); }
    TrimUndoesPadding(before, ip, after);
    if others == [] {
      SplitFirst(first, "", ',');
    } else {
      assert ([first] + others)[1..] == others;
      SplitFirst(first, Join(others, ','), ',');
    }
  }

  function Key(namespace: string, ip: string): string { "rl:" + namespace + ":" + ip }

  lemma KeyIs(namespace: string, ip: string)
    ensures Key(namespace, ip) == "rl:" + (namespace + ":" + ip)
  {
  }

  lemma SamePrefix(p: string, s: string, t: string)
    ensures p + s == p + t <==> s == t
  {
    assert (p + s)[|p|..] == s && (p + t)[|p|..] == t;
  }

  lemma SharedMeansPrefix(p: string, x: string, q: string, y: string)
    requires p + x == q + y && |p| <= |q|
    ensures p <= q
  {
    assert (p + x)[..|p|] == p && (q + y)[..|p|] == q[..|p|];
  }

  lemma PrefixMeansShared(a: string, b: string) returns (x: string)
    requires a + ":" <= b + ":"
    ensures Key(a, x) == Key(b, "")
  {
    x := (b + ":")[|a| + 1..];
    assert a + ":" + x == b + ":" + "";
    KeyIs(a, x);
    KeyIs(b, "");
  }

  /** Two services share a counter for some pair of clients if and only if one namespace, with its colon, begins the
      other; an address of a remote client can contain colons. */
  lemma NamespacesShareIff(a: string, b: string)
    ensures (exists x, y :: Key(a, x) == Key(b, y)) <==> a + ":" <= b + ":" || b + ":" <= a + ":"
  {
    if x, y :| Key(a, x) == Key(b, y) {
      KeyIs(a, x);
      KeyIs(b, y);
      SamePrefix("rl:", a + ":" + x, b + ":" + y);
      if |a| <= |b| { SharedMeansPrefix(a + ":", x, b + ":", y); } else { SharedMeansPrefix(b + ":", y, a + ":", x); }
    }
    hide Key;
    if a + ":" <= b + ":" { var x := PrefixMeansShared(a, b); }
    if b + ":" <= a + ":" { var y := PrefixMeansShared(b, a); }
  }

  /** So distinct namespaces without a colon never share a counter, and one service tells every two clients apart. */
  lemma PlainNamespacesAreScoped(a: string, x: string, b: string, y: string)
    requires ':' !in a && ':' !in b && Key(a, x) == Key(b, y)
    ensures a == b && x == y
  {
    KeyIs(a, x);
    KeyIs(b, y);
    SamePrefix("rl:", a + ":" + x, b + ":" + y);
    hide Key;
    SplitFirst(a, x, ':');
    SplitFirst(b, y, ':');
    assert a + [':'] + x == b + [':'] + y;
    assert ([a] + Split(x, ':'))[0] == ([b] + Split(y, ':'))[0];
    assert (a + ":" + x)[|a| + 1..] == x && (b + ":" + y)[|b| + 1..] == y;
  }

  /** A request as it reaches one service. */
  datatype Arrival = Arrival(client: Client, at: int, redis: Outcome)

  function HitOf(namespace: string, a: Arrival): Hit { Hit(Key(namespace, ClientIP(a.client)), a.at, a.redis) }

  function HitsOf(namespace: string, arrivals: seq<Arrival>): seq<Hit> {
    if arrivals == [] then [] else [HitOf(namespace, arrivals[0])] + HitsOf(namespace, arrivals[1..])
  }

  /** The requests of the client that gives this address. */
  ghost function From(arrivals: seq<Arrival>, ip: string): seq<Arrival> {
    if arrivals == [] then []
    else (if Identifies(arrivals[0].client, ip) then [arrivals[0]] else []) + From(arrivals[1..], ip)
  }

  lemma UnderOnesOwnKey(namespace: string, a: Arrival, ip: string)
    ensures HitOf(namespace, a).key == Key(namespace, ip) <==> Identifies(a.client, ip)
  {
    hide Identifies;
    if Identifies(a.client, ip) { OneAddress(a.client, ClientIP(a.client), ip); }
    if HitOf(namespace, a).key == Key(namespace, ip) {
      SamePrefix("rl:" + namespace + ":", ClientIP(a.client), ip);
    }
  }

  lemma {:induction false} OnesOwnHits(namespace: string, arrivals: seq<Arrival>, ip: string)
    ensures Only(HitsOf(namespace, arrivals), Key(namespace, ip)) == HitsOf(namespace, From(arrivals, ip))
  {
    hide Identifies, Key, HitOf;
    if arrivals != [] {
      var a, rest := arrivals[0], From(arrivals[1..], ip);
      UnderOnesOwnKey(namespace, a, ip);
      OnesOwnHits(namespace, arrivals[1..], ip);
      var hits := HitsOf(namespace, arrivals);
      assert hits[0] == HitOf(namespace, a) && hits[1..] == HitsOf(namespace, arrivals[1..]);
      if Identifies(a.client, ip) {
        assert From(arrivals, ip) == [a] + rest && ([a] + rest)[1..] == rest;
      } else {
        assert From(arrivals, ip) == rest;
      }
    }
  }

  lemma {:induction false} AllJudged(keys: Keys, p: Policy, namespace: string, arrivals: seq<Arrival>, ip: string)
    requires forall a :: a in arrivals ==> Identifies(a.client, ip)
    ensures |Verdicts(keys, p, HitsOf(namespace, arrivals), Key(namespace, ip))| == |arrivals|
    decreases |arrivals|
  {
    hide Identifies, Key, HitOf, Next, Judged;
    if arrivals != [] {
      UnderOnesOwnKey(namespace, arrivals[0], ip);
      var h := HitOf(namespace, arrivals[0]);
      assert HitsOf(namespace, arrivals)[1..] == HitsOf(namespace, arrivals[1..]);
      AllJudged(Next(keys, p, h), p, namespace, arrivals[1..], ip);
    }
  }

  lemma {:induction false} AllFrom(arrivals: seq<Arrival>, ip: string)
    ensures forall a :: a in From(arrivals, ip) ==> Identifies(a.client, ip)
  {
    hide Identifies;
    if arrivals != [] { AllFrom(arrivals[1..], ip); }
  }

  /** What each client is answered depends on its own requests alone: they fare as if no other client's had come. */
  lemma ClientsAreIndependent(keys: Keys, p: Policy, namespace: string, arrivals: seq<Arrival>, ip: string)
    ensures var own := From(arrivals, ip);
            && Verdicts(keys, p, HitsOf(namespace, arrivals), Key(namespace, ip))
               == Verdicts(keys, p, HitsOf(namespace, own), Key(namespace, ip))
            && |Verdicts(keys, p, HitsOf(namespace, own), Key(namespace, ip))| == |own|
  {
    hide *;
    Agree(keys, Key(namespace, ip));
    KeysAreIndependent(keys, keys, p, HitsOf(namespace, arrivals), Key(namespace, ip));
    OnesOwnHits(namespace, arrivals, ip);
    AllFrom(arrivals, ip);
    AllJudged(keys, p, namespace, From(arrivals, ip), ip);
  }

  lemma Agree(keys: Keys, key: string)
    ensures AgreeOn(keys, keys, key)
  {
  }
}
