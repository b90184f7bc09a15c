// What every step of the delivery protocol keeps.
module BusInvariant {
  import opened XDeath
  import opened Bus

  // ------------------------------------------------------------- counting

  /** How often copy l was delivered. */
  function Deliveries(dels: seq<Delivery>, l: nat): nat {
    if dels == [] then 0
    else Deliveries(dels[..|dels| - 1], l) + if dels[|dels| - 1].line == l then 1 else 0
  }

  /** How often a handler was run on copy l. */
  function Runs(dels: seq<Delivery>, l: nat): nat {
    if dels == [] then 0
    else Runs(dels[..|dels| - 1], l) + if dels[|dels| - 1].line == l && dels[|dels| - 1].ran then 1 else 0
  }

  /** How many letters copy l left on the DLQ. */
  function Letters(dlq: seq<Letter>, l: nat): nat {
    if dlq == [] then 0
    else Letters(dlq[..|dlq| - 1], l) + if dlq[|dlq| - 1].line == l then 1 else 0
  }

  // ------------------------------------------------------------ invariants

  /** The consumer of every queue reads from these headers exactly the cycles completed through its retry queue. */
  ghost predicate Reads(cfg: Config, deaths: seq<Death>, past: multiset<string>) {
    forall q :: q in cfg.queues ==>
      Cycles(deaths, q) == past[q] && OnlyReason(deaths, RetryQueueName(q), "expired")
  }

  ghost predicate HeadersTrue(cfg: Config, s: State) {
    && (forall l :: 0 <= l < |s.lines| ==> Reads(cfg, s.lines[l].deaths, s.lines[l].path))
    && (forall t :: 0 <= t < |s.dels| ==> Reads(cfg, s.dels[t].deaths, s.dels[t].past))
  }

  /** The copy's past stays within every consumer's budget, and each cycle was paid for with a failed run. */
  ghost predicate History(cfg: Config, L: Line) {
    && (forall q :: q in cfg.queues ==> L.path[q] <= Budget(cfg, q) && L.path[q] <= L.failures[q])
    && L.queue in cfg.queues
    && L.path[L.queue] == L.inherited + L.own
    && (L.place.Waiting? ==> L.path[L.queue] < Limit(cfg, L.queue) && L.path[L.queue] < L.failures[L.queue])
  }

  ghost predicate HasRow(s: State, body: Body) { body.Event? && body.eventId in s.rows }

  ghost predicate LineOk(cfg: Config, s: State, l: nat)
    requires l < |s.lines|
  {
    var L := s.lines[l];
    && History(cfg, L)
    && (L.place.Unacked? ==>
          var t := L.place.tag;
          && t < |s.dels| && s.dels[t].line == l && s.dels[t].past == L.path
          && s.dels[t].inst < |s.insts| && s.insts[s.dels[t].inst].open)
    && (L.place == Gone(Dropped) ==> L.body.Garbage?)
    && (L.place == Gone(Handled) && L.queue in cfg.notifies ==> HasRow(s, L.body))
    && (L.place == Gone(Parked) ==> L.path[L.queue] >= Limit(cfg, L.queue))
  }

  /** After a failed handler run, until the delivery is settled. */
  ghost predicate Failing(pc: Pc) {
    pc.Failed? || pc.Rejecting? || pc.Recording? || pc.Parking? || pc.Requeueing? || pc == Acking(Parked)
  }

  ghost predicate Exhausted(pc: Pc) {
    pc.Recording? || pc.Parking? || pc.Requeueing? || pc == Acking(Parked)
  }

  ghost predicate DelOk(cfg: Config, s: State, t: nat)
    requires t < |s.dels|
  {
    var D := s.dels[t];
    && D.line < |s.lines| && D.inst < |s.insts|
    && var L := s.lines[D.line];
    && L.queue in cfg.queues
    && s.insts[D.inst].queue == L.queue
    && (s.insts[D.inst].open && !D.pc.Finished? && !D.pc.Killed? ==> L.place == Unacked(t))
    && (!s.insts[D.inst].alive ==> D.pc.Finished? || D.pc.Killed?)
    && D.past[L.queue] <= L.path[L.queue]
    && (Failing(D.pc) ==> D.past[L.queue] < L.failures[L.queue])
    && (D.pc.Rejecting? ==> D.past[L.queue] < Limit(cfg, L.queue))
    && (Exhausted(D.pc) ==> D.past[L.queue] >= Limit(cfg, L.queue))
    && (D.mailed ==> D.clear && L.queue in cfg.notifies) && (D.clear ==> D.ran) && (D.ran ==> L.body.Event?)
    && (D.pc.Sending? ==> D.clear)
    && (D.pc.Inserting? ==> D.mailed)
    && (D.pc.Checking? || D.pc.Sending? || D.pc.Inserting? ==>
          L.queue in cfg.notifies && L.body.Event? && L.body.payload.Some?)
    && (D.pc.Recording? ==> L.queue in cfg.notifies)
    && (D.pc.Foreign? ==> L.queue !in cfg.notifies)
    && (Active(D.pc) && D.pc != Acking(Dropped) ==> D.ran)
    && (D.pc == Acking(Dropped) ==> L.body.Garbage?)
    && (D.pc == Acking(Handled) && L.queue in cfg.notifies ==> HasRow(s, L.body))
    && (!D.ran && L.body.Event? ==> L.place == Unacked(t) || L.requeues >= 1)
  }

  ghost predicate RowOk(cfg: Config, s: State, e: string)
    requires e in s.rows
  {
    && e in s.authors
    && s.authors[e] < |s.dels|
    && s.dels[s.authors[e]].line < |s.lines|
    && var L := LineOf(s, s.authors[e]);
    && L.queue in cfg.queues
    && L.queue in cfg.notifies
    && L.body.Event? && L.body.eventId == e
    && s.rows[e].recipient == Recipient(L.body)
    && (s.rows[e].status.Sent? ==> s.dels[s.authors[e]].mailed && s.rows[e].kind == USER_CREATED)
    && (s.rows[e].status.Failure? ==>
          s.rows[e].kind == L.body.kind && L.failures[L.queue] >= Budget(cfg, L.queue) + 1)
  }

  ghost predicate InstOk(s: State, i: nat)
    requires i < |s.insts|
  {
    s.insts[i].open ==> s.insts[i].alive
  }

  /** Each instance is inside at most one handle call. */
  ghost predicate OneAtATime(s: State) {
    forall t, u :: 0 <= t < u < |s.dels| && s.dels[t].inst == s.dels[u].inst ==>
      !(Active(s.dels[t].pc) && Active(s.dels[u].pc))
  }

  /** The control state of every copy and every delivery. */
  ghost predicate Inv(cfg: Config, s: State) {
    && (forall l :: 0 <= l < |s.lines| ==> LineOk(cfg, s, l))
    && (forall t :: 0 <= t < |s.dels| ==> DelOk(cfg, s, t))
    && (forall e :: e in s.rows ==> RowOk(cfg, s, e))
    && (forall i :: 0 <= i < |s.insts| ==> InstOk(s, i))
    && (forall k :: 0 <= k < |s.dlq| ==> LetterOk(s, k))
    && OneAtATime(s)
  }

  /** The pcs at which a current delivery may already have put a letter on the DLQ. */
  ghost predicate MayHaveParked(pc: Pc) { pc == Acking(Parked) || pc.Requeueing? || pc.Finished? }

  /** The delivery under way, or the last one, may have put a letter on the DLQ. */
  ghost predicate Spent(s: State, L: Line) {
    || L.place.Gone?
    || (L.place.Unacked? && L.place.tag < |s.dels| && MayHaveParked(s.dels[L.place.tag].pc))
  }

  /** Deliveries are a copy's cycles and requeues, plus the one under way or last;
      and no more letters were left than requeues, plus one of that last delivery. */
  ghost predicate LineTally(s: State, l: nat)
    requires l < |s.lines|
  {
    var L := s.lines[l];
    && Deliveries(s.dels, l) == L.own + L.requeues + (if L.place.Ready? then 0 else 1)
    && (L.place == Gone(Parked) ==> Letters(s.dlq, l) >= 1)
    && Letters(s.dlq, l) <= L.requeues + if Spent(s, L) then 1 else 0
  }

  ghost predicate Tallied(s: State) {
    && (forall l :: 0 <= l < |s.lines| ==> LineTally(s, l))
    && (forall t :: 0 <= t < |s.dels| ==>
          (s.dels[t].pc == Acking(Parked) ==> Letters(s.dlq, s.dels[t].line) >= 1))
  }

  ghost predicate Good(cfg: Config, s: State) { Inv(cfg, s) && HeadersTrue(cfg, s) && Tallied(s) }

  ghost predicate LetterOk(s: State, k: nat)
    requires k < |s.dlq|
  {
    && s.dlq[k].line < |s.lines|
    && s.dlq[k].body == s.lines[s.dlq[k].line].body
    && s.dlq[k].queue == s.lines[s.dlq[k].line].queue
  }
}
