// A message whose handler keeps failing, among any other traffic: where it ends up, and when the DLQ misses it.
// Its failure is recorded before it is parked, so if parking fails the redelivery finds the row, counts as
// processed, and is acknowledged.
module PermanentFailure {
  import opened Wrappers
  import opened Bus
  import opened BusInvariant
  import opened BusTally
  import opened BusTermination
  import opened DeliveryGuarantees
  import opened OneMessage

  // ---------------------------------------------------------- coming to rest

  /** No acknowledgement of the copy is lost: if it is held, the call that holds it has not ended. */
  ghost predicate Calm(s: State, l: nat) {
    l < |s.lines| && s.lines[l].place.Unacked? ==>
      var t := s.lines[l].place.tag; t < |s.dels| && !s.dels[t].pc.Finished? && !s.dels[t].pc.Killed?
  }

  /** Some process is consuming the queue. */
  ghost predicate Served(s: State, q: string) {
    exists i :: 0 <= i < |s.insts| && s.insts[i].queue == q && s.insts[i].open
  }

  /** An effect that the broker, or a process consuming q, would go on with. */
  ghost predicate OnQueue(s: State, a: Action, q: string) {
    match a
    case Deliver(l, _) => l < |s.lines| && s.lines[l].queue == q
    case Expire(l) => l < |s.lines| && s.lines[l].queue == q
    case Publish(_, _) => false
    case Connect(_) => false
    case Close(_) => false
    case Crash(_) => false
    case _ => a.tag < |s.dels| && s.dels[a.tag].line < |s.lines| && LineOf(s, a.tag).queue == q
  }

  /** The queue and its consumers have nothing left to do. */
  ghost predicate AtRest(cfg: Config, s: State, q: string) {
    forall a :: OnQueue(s, a, q) && (a.Settle? ==> a.success) ==> !Enabled(cfg, s, a)
  }

  function NextEffect(s: State, t: nat): Action
    requires t < |s.dels|
  {
    match s.dels[t].pc
    case Checking => Check(t, false)
    case Sending => Send(t, false)
    case Inserting => Insert(t, Ok)
    case Foreign => Answer(t, true)
    case Failed => Decide(t)
    case Recording => Record(t, Ok)
    case Parking => Park(t, Ok)
    case _ => Settle(t, true)
  }

  lemma ActiveCallsCanMove(cfg: Config, s: State, t: nat, q: string)
    requires Inv(cfg, s) && t < |s.dels| && Active(s.dels[t].pc)
    requires s.dels[t].inst < |s.insts| && s.insts[s.dels[t].inst].open && s.insts[s.dels[t].inst].queue == q
    ensures !AtRest(cfg, s, q)
  {
    assert DelOk(cfg, s, t);
    assert OnQueue(s, NextEffect(s, t), q) && Enabled(cfg, s, NextEffect(s, t));
  }

  lemma AtRestMeansGone(cfg: Config, s: State, l: nat)
    requires ValidConfig(cfg) && Inv(cfg, s) && l < |s.lines| && Calm(s, l)
    requires var q := s.lines[l].queue; Served(s, q) && AtRest(cfg, s, q)
    ensures s.lines[l].place.Gone?
  {
    hide AtRest, Calm, Inv, Served, ValidConfig;
    match s.lines[l].place
    case Ready => ReadyCanMove(cfg, s, l);
    case Waiting => WaitingCanMove(cfg, s, l);
    case Unacked(t) => HeldCanMove(cfg, s, l, t);
    case Gone(_) =>
  }

  lemma ReadyCanMove(cfg: Config, s: State, l: nat)
    requires l < |s.lines| && s.lines[l].place == Ready && Served(s, s.lines[l].queue)
    ensures !AtRest(cfg, s, s.lines[l].queue)
  {
    var q := s.lines[l].queue;
    var i :| 0 <= i < |s.insts| && s.insts[i].queue == q && s.insts[i].open;
    assert OnQueue(s, Deliver(l, i), q) && Enabled(cfg, s, Deliver(l, i));
  }

  lemma WaitingCanMove(cfg: Config, s: State, l: nat)
    requires ValidConfig(cfg) && Inv(cfg, s) && l < |s.lines| && s.lines[l].place == Waiting
    ensures !AtRest(cfg, s, s.lines[l].queue)
  {
    assert LineOk(cfg, s, l);
    assert OnQueue(s, Expire(l), s.lines[l].queue) && Enabled(cfg, s, Expire(l));
  }

  lemma HeldCanMove(cfg: Config, s: State, l: nat, t: nat)
    requires Inv(cfg, s) && l < |s.lines| && Calm(s, l) && s.lines[l].place == Unacked(t)
    ensures !AtRest(cfg, s, s.lines[l].queue)
  {
    assert LineOk(cfg, s, l) && DelOk(cfg, s, t);
    var i, q := s.dels[t].inst, s.lines[l].queue;
    assert InstOk(s, i);
    if Active(s.dels[t].pc) {
      ActiveCallsCanMove(cfg, s, t, q);
    } else if Idle(s, i) {
      assert OnQueue(s, Begin(t), q) && Enabled(cfg, s, Begin(t));
    } else {
      var u :| 0 <= u < |s.dels| && s.dels[u].inst == i && Active(s.dels[u].pc);
      ActiveCallsCanMove(cfg, s, u, q);
    }
  }

  /** The step loses no ack or nack of copy l. */
  ghost predicate Acks(s: State, a: Action, l: nat) { a.Settle? && Concerns(s, a, l) ==> a.success }

  lemma StepStaysCalm(cfg: Config, s: State, a: Action, l: nat)
    requires Inv(cfg, s) && Calm(s, l) && Enabled(cfg, s, a) && Acks(s, a, l)
    ensures Calm(Apply(cfg, s, a), l)
  {
    hide Inv, Calm, Stays, Remaining, Go, Fail, StartHandler, CheckRow, SendMail, InsertSent, Answered, DecideRetry,
      RecordFailed, ParkCopy, Delivered, ExpireRetry, CloseChannel, CrashProcess, SettleDelivery, FreshAll;
    match a
    case Deliver(k, i) => DeliverStaysCalm(cfg, s, k, i, l);
    case Settle(t, success) => SettleStaysCalm(cfg, s, t, success, l);
    case Expire(k) => ExpireStaysCalm(cfg, s, k, l);
    case Publish(body, targets) => PublishStaysCalm(cfg, s, Apply(cfg, s, a), FreshAll(body, targets), l);
    case Connect(_) => PublishStaysCalm(cfg, s, Apply(cfg, s, a), [], l);
    case Close(i) => CloseStaysCalm(s, i, l);
    case Crash(i) => CrashStaysCalm(s, i, l);
    case _ => CallStaysCalm(s, Apply(cfg, s, a), a.tag, l);
  }

  lemma PublishStaysCalm(cfg: Config, s: State, s': State, fresh': seq<Line>, l: nat)
    requires Calm(s, l) && s'.dels == s.dels && s'.lines == s.lines + fresh'
    requires forall i :: 0 <= i < |fresh'| ==> fresh'[i].place == Ready
    ensures Calm(s', l)
  {
  }

  lemma CloseStaysCalm(s: State, i: nat, l: nat)
    requires Calm(s, l) && i < |s.insts|
    ensures Calm(CloseChannel(s, i), l)
  {
  }

  lemma CrashStaysCalm(s: State, i: nat, l: nat)
    requires Calm(s, l) && i < |s.insts|
    ensures Calm(CrashProcess(s, i), l)
  {
  }

  lemma ExpireStaysCalm(cfg: Config, s: State, k: nat, l: nat)
    requires Calm(s, l) && k < |s.lines| && s.lines[k].queue in cfg.routes
    ensures Calm(ExpireRetry(cfg, s, k), l)
  {
  }

  lemma DeliverStaysCalm(cfg: Config, s: State, k: nat, i: nat, l: nat)
    requires Calm(s, l) && k < |s.lines|
    ensures Calm(Delivered(s, k, i), l)
  {
  }

  lemma SettleStaysCalm(cfg: Config, s: State, t: nat, success: bool, l: nat)
    requires Inv(cfg, s) && Calm(s, l) && t < |s.dels| && Settling(s.dels[t].pc) && s.dels[t].line < |s.lines|
    requires HeldUnder(s, t, l) ==> success
    ensures Calm(SettleDelivery(s, t, success), l)
  {
    if l < |s.lines| && s.lines[l].place.Unacked? { assert LineOk(cfg, s, l); }
    hide Inv;
  }

  lemma CallStaysCalm(s: State, s': State, t: nat, l: nat)
    requires Calm(s, l) && t < |s.dels| && Stays(s, s', t) && 0 < Remaining(s'.dels[t].pc)
    ensures Calm(s', l)
  {
  }

  /** No ack or nack of copy l is lost in the run. */
  ghost predicate AcksArrive(cfg: Config, s: State, run: seq<Action>, l: nat)
    requires Legal(cfg, s, run)
    decreases |run|
  {
    run == [] || (Acks(s, run[0], l) && AcksArrive(cfg, Apply(cfg, s, run[0]), run[1..], l))
  }

  lemma {:induction false} RunStaysCalm(cfg: Config, s: State, run: seq<Action>, l: nat)
    requires ValidConfig(cfg) && Good(cfg, s) && Calm(s, l) && Legal(cfg, s, run) && AcksArrive(cfg, s, run, l)
    ensures Calm(After(cfg, s, run), l)
    decreases |run|
  {
    if run != [] {
      GoodIsInv(cfg, s);
      hide Good, Inv, Calm, Apply, Enabled, Acks;
      StepKeepsGood(cfg, s, run[0]);
      StepStaysCalm(cfg, s, run[0], l);
      RunStaysCalm(cfg, Apply(cfg, s, run[0]), run[1..], l);
    }
  }

  /** Nothing is left behind: after any run, with whatever crashes and faults, a served queue that can do nothing more
      has finished with every copy of which no acknowledgement is lost. */
  lemma SettledMeansGone(cfg: Config, s: State, run: seq<Action>, l: nat)
    requires ValidConfig(cfg) && Good(cfg, s) && Legal(cfg, s, run)
    requires var s' := After(cfg, s, run);
             l < |s'.lines| && Calm(s', l) && Served(s', s'.lines[l].queue) && AtRest(cfg, s', s'.lines[l].queue)
    ensures After(cfg, s, run).lines[l].place.Gone?
  {
    RunKeepsGood(cfg, s, run);
    GoodIsInv(cfg, After(cfg, s, run));
    hide AtRest, Served, Calm, Good, Inv;
    AtRestMeansGone(cfg, After(cfg, s, run), l);
  }

  lemma {:induction false} SameMessage(cfg: Config, s: State, run: seq<Action>, l: nat)
    requires Legal(cfg, s, run) && l < |s.lines|
    ensures var s' := After(cfg, s, run);
            l < |s'.lines| && s'.lines[l].body == s.lines[l].body && s'.lines[l].queue == s.lines[l].queue
    decreases |run|
  {
    hide Apply, Enabled;
    if run != [] {
      StepPersists(cfg, s, run[0]);
      SameMessage(cfg, Apply(cfg, s, run[0]), run[1..], l);
    }
  }

  // ------------------------------------------------ when every parking works

  /** The handler call that makes this effect, on an event with or without a row, goes on to return an error. */
  predicate Errs(a: Action, row: bool) {
    && (a.Check? ==> a.fault || !row)
    && (a.Insert? ==> !a.db.Ok?)
    && (a.Answer? ==> !a.success)
  }

  /** Every handler call that holds the copy fails, publishing it to the DLQ works, and no channel or process ends
      while holding it. Anything else may happen to it, and anything at all to other copies and processes. */
  ghost predicate Hopeless(s: State, a: Action, l: nat) {
    && (l < |s.lines| && Concerns(s, a, l) ==> Errs(a, HasRow(s, s.lines[l].body)) && (a.Park? ==> a.publish.Ok?))
    && !Loses(s, a, l)
  }

  ghost predicate HopelessRun(cfg: Config, s: State, run: seq<Action>, l: nat)
    requires Legal(cfg, s, run)
    decreases |run|
  {
    run == [] || (Hopeless(s, run[0], l) && HopelessRun(cfg, Apply(cfg, s, run[0]), run[1..], l))
  }

  /** Never requeued, and on no way but to the DLQ. */
  ghost predicate Doomed(v: View) {
    && v.requeues == 0
    && match v.spot
       case Done(fate) => fate.Parked?
       case Held(Acking(fate)) => fate.Parked?
       case Held(pc) => !pc.Requeueing?
       case _ => true
  }

  lemma MovesStayDoomed(cfg: Config, s: State, v: View, a: Action, v': View, l: nat)
    requires l < |s.lines| && s.lines[l].body.Event? && Doomed(v) && v.row == HasRow(s, s.lines[l].body)
    requires Moves(cfg, s.lines[l], v, a, v') && Affects(s, a, l) && Hopeless(s, a, l)
    ensures Doomed(v') && v'.inherited == v.inherited
  {
    hide HeldUnder, HasRow;
  }

  lemma StepStaysDoomed(cfg: Config, s: State, a: Action, l: nat)
    requires Inv(cfg, s) && l < |s.lines| && s.lines[l].body.Event? && Doomed(ViewOf(s, l))
    requires Enabled(cfg, s, a) && Hopeless(s, a, l)
    ensures var s' := Apply(cfg, s, a);
            l < |s'.lines| && Doomed(ViewOf(s', l)) && s'.lines[l].inherited == s.lines[l].inherited
  {
    hide Inv, Enabled, Apply, Moves, Affects, Hopeless, Letters, HasRow;
    StepMoves(cfg, s, a, l);
    if Affects(s, a, l) {
      MovesStayDoomed(cfg, s, ViewOf(s, l), a, ViewOf(Apply(cfg, s, a), l), l);
    }
  }

  lemma {:induction false} RunStaysDoomed(cfg: Config, s: State, run: seq<Action>, l: nat)
    requires ValidConfig(cfg) && Good(cfg, s) && l < |s.lines| && s.lines[l].body.Event? && Doomed(ViewOf(s, l))
    requires Legal(cfg, s, run) && HopelessRun(cfg, s, run, l)
    ensures var s' := After(cfg, s, run);
            l < |s'.lines| && Doomed(ViewOf(s', l)) && s'.lines[l].inherited == s.lines[l].inherited
    decreases |run|
  {
    if run != [] {
      GoodIsInv(cfg, s);
      hide Good, Inv, ViewOf, Doomed, Apply, Enabled, Hopeless;
      StepKeepsGood(cfg, s, run[0]);
      StepStaysDoomed(cfg, s, run[0], l);
      StepPersists(cfg, s, run[0]);
      RunStaysDoomed(cfg, Apply(cfg, s, run[0]), run[1..], l);
    }
  }

  /** Among any other messages, consumers and faults, a message whose handler always fails is retried exactly maxRetries
      times, and ends as exactly one copy of itself on the DLQ, after maxRetries + 1 handler runs - less the cycles it
      inherited, if it is a fanned-out copy - when publishing there works and its deliveries are not lost. */
  lemma AlwaysFailingEndsOnDlq(cfg: Config, s: State, l: nat, run: seq<Action>)
    requires ValidConfig(cfg) && Good(cfg, s)
    requires l < |s.lines| && s.lines[l].place == Ready && s.lines[l].requeues == 0 && s.lines[l].body.Event?
    requires Legal(cfg, s, run) && HopelessRun(cfg, s, run, l)
    requires var s', q := After(cfg, s, run), s.lines[l].queue; Calm(s', l) && Served(s', q) && AtRest(cfg, s', q)
    ensures var s', L := After(cfg, s, run), s.lines[l];
            && l < |s'.lines| && s'.lines[l].body == L.body && s'.lines[l].queue == L.queue
            && s'.lines[l].place == Gone(Parked)
            && Runs(s'.dels, l) + L.inherited == Budget(cfg, L.queue) + 1
            && Letters(s'.dlq, l) == 1
            && OnDlq(s', l)
  {
    RunStaysDoomed(cfg, s, run, l);
    SameMessage(cfg, s, run, l);
    RunKeepsGood(cfg, s, run);
    hide Good, AtRest, Served, Legal, After, Calm, HopelessRun, Letters, HasRow;
    SettledMeansGone(cfg, s, run, l);
    ParkedWithoutRequeue(cfg, After(cfg, s, run), l);
  }

  // ------------------------------------------- when publishing to the DLQ may fail

  /** The call that holds the copy does not fault at its existence check, gets the failure on record, and fails if the
      handler is another than the notification service's. Its mails and inserts may fare in any way, publishing it to
      the DLQ may do anything, and anything may happen to its channel and process, to its acks, and elsewhere. */
  ghost predicate Steady(s: State, a: Action, l: nat) {
    Concerns(s, a, l) ==> (a.Check? ==> !a.fault) && (a.Record? ==> TookEffect(a.db)) && (a.Answer? ==> !a.success)
  }

  ghost predicate SteadyRun(cfg: Config, s: State, run: seq<Action>, l: nat)
    requires Legal(cfg, s, run)
    decreases |run|
  {
    run == [] || (Steady(s, run[0], l) && SteadyRun(cfg, Apply(cfg, s, run[0]), run[1..], l))
  }

  /** How the first attempt to park copy l went, by a call that held it, if there was one. */
  ghost function FirstPark(cfg: Config, s: State, run: seq<Action>, l: nat): Option<Outcome>
    requires Legal(cfg, s, run)
    decreases |run|
  {
    if run == [] then None
    else if run[0].Park? && Concerns(s, run[0], l) then Some(run[0].publish)
    else FirstPark(cfg, Apply(cfg, s, run[0]), run[1..], l)
  }

  /** Publishing to the DLQ was tried. */
  predicate PastPark(spot: Spot) {
    spot in {Held(Requeueing), Held(Acking(Parked)), Done(Parked)}
  }

  /** On its way to finding the row, and to being acknowledged. */
  predicate Finding(spot: Spot) {
    match spot
    case Queued => true
    case Held(pc) => pc.Buffered? || pc.Checking? || pc == Acking(Handled) || pc.Finished?
    case Done(fate) => fate.Handled?
    case Delayed => false
  }

  /** A notification whose failure is being parked, or that counts as processed, has a row. */
  ghost predicate Recorded(v: View) {
    v.row || !(v.spot == Held(Parking) || PastPark(v.spot) || v.spot in {Held(Acking(Handled)), Done(Handled)})
  }

  /** Its handler never comes to the existence check: it is parked again and again, until that works. */
  ghost predicate Blind(v: View) {
    match v.spot
    case Held(pc) =>
      !pc.Checking? && !pc.Sending? && !pc.Inserting? && (pc.Acking? ==> pc.fate.Parked? && v.letters >= 1)
    case Done(fate) => fate.Parked? && v.letters >= 1
    case _ => true
  }

  ghost predicate Fated(cfg: Config, L: Line, v: View, first: Option<Outcome>) {
    && (L.queue in cfg.notifies ==> Recorded(v))
    && if first.Some? && TookEffect(first.value) then v.letters >= 1
       else if !ChecksRows(cfg, L.queue, L.body) then Blind(v)
       else && v.letters == 0
            && if first.None? then !PastPark(v.spot) else v.row && (Finding(v.spot) || v.spot == Held(Requeueing))
  }

  ghost function NextFirst(s: State, a: Action, l: nat, first: Option<Outcome>): Option<Outcome> {
    if first.None? && a.Park? && Concerns(s, a, l) then Some(a.publish) else first
  }

  lemma MovesStayFated(cfg: Config, s: State, L: Line, v: View, a: Action, v': View, l: nat, first: Option<Outcome>)
    requires L.body.Event? && Fated(cfg, L, v, first)
    requires Moves(cfg, L, v, a, v') && Affects(s, a, l) && Steady(s, a, l)
    ensures Fated(cfg, L, v', NextFirst(s, a, l, first))
  {
    hide HeldUnder;
  }

  lemma StandsStaysFated(cfg: Config, L: Line, v: View, v': View, first: Option<Outcome>)
    requires Fated(cfg, L, v, first) && Stands(v, v')
    ensures Fated(cfg, L, v', first)
  {
  }

  /** Fate depends on queue and body alone. */
  lemma SameFate(cfg: Config, L: Line, L': Line, v: View, first: Option<Outcome>)
    requires Fated(cfg, L, v, first) && L'.queue == L.queue && L'.body == L.body
    ensures Fated(cfg, L', v, first)
  {
  }

  lemma StepStaysFated(cfg: Config, s: State, a: Action, l: nat, first: Option<Outcome>)
    requires Inv(cfg, s) && l < |s.lines| && s.lines[l].body.Event? && Fated(cfg, s.lines[l], ViewOf(s, l), first)
    requires Enabled(cfg, s, a) && Steady(s, a, l)
    ensures var s' := Apply(cfg, s, a);
            l < |s'.lines| && Fated(cfg, s'.lines[l], ViewOf(s', l), NextFirst(s, a, l, first))
  {
    assert !Affects(s, a, l) ==> NextFirst(s, a, l, first) == first;
    hide Inv, Enabled, Apply, Moves, Affects, Steady, Fated, ViewOf, Stands, NextFirst;
    StepMoves(cfg, s, a, l);
    StepPersists(cfg, s, a);
    var s' := Apply(cfg, s, a);
    if Affects(s, a, l) {
      MovesStayFated(cfg, s, s.lines[l], ViewOf(s, l), a, ViewOf(s', l), l, first);
    } else {
      StandsStaysFated(cfg, s.lines[l], ViewOf(s, l), ViewOf(s', l), first);
    }
    SameFate(cfg, s.lines[l], s'.lines[l], ViewOf(s', l), NextFirst(s, a, l, first));
  }

  lemma {:induction false} RunStaysFated(cfg: Config, s: State, run: seq<Action>, l: nat, first: Option<Outcome>)
    requires ValidConfig(cfg) && Good(cfg, s) && l < |s.lines| && s.lines[l].body.Event?
    requires Fated(cfg, s.lines[l], ViewOf(s, l), first) && Legal(cfg, s, run) && SteadyRun(cfg, s, run, l)
    ensures var s' := After(cfg, s, run);
            && l < |s'.lines|
            && Fated(cfg, s'.lines[l], ViewOf(s', l), if first.Some? then first else FirstPark(cfg, s, run, l))
    decreases |run|
  {
    if run != [] {
      GoodIsInv(cfg, s);
      assert (if first.Some? then first else FirstPark(cfg, s, run, l)) ==
             var next := NextFirst(s, run[0], l, first);
             if next.Some? then next else FirstPark(cfg, Apply(cfg, s, run[0]), run[1..], l);
      hide Good, Inv, ViewOf, Fated, Apply, Enabled, Steady, NextFirst, FirstPark;
      StepKeepsGood(cfg, s, run[0]);
      StepStaysFated(cfg, s, run[0], l, first);
      StepPersists(cfg, s, run[0]);
      RunStaysFated(cfg, Apply(cfg, s, run[0]), run[1..], l, NextFirst(s, run[0], l, first));
    }
  }

  lemma OnDlqIsALetter(cfg: Config, s: State, l: nat)
    requires Inv(cfg, s) && l < |s.lines|
    ensures OnDlq(s, l) <==> Letters(s.dlq, l) >= 1
  {
    if Letters(s.dlq, l) >= 1 {
      LetterExists(s.dlq, l);
      var k :| 0 <= k < |s.dlq| && s.dlq[k].line == l;
      assert LetterOk(s, k);
      assert s.dlq[k] == Letter(s.lines[l].queue, l, s.lines[l].body);
    } else if OnDlq(s, l) {
      var k :| 0 <= k < |s.dlq| && s.dlq[k] == Letter(s.lines[l].queue, l, s.lines[l].body);
      LettersCount(s.dlq, k);
      assert false;
    }
  }

  lemma {:induction false} LettersCount(dlq: seq<Letter>, k: nat)
    requires k < |dlq|
    ensures Letters(dlq, dlq[k].line) >= 1
  {
    if k < |dlq| - 1 { LettersCount(dlq[..|dlq| - 1], k); }
  }

  lemma FateIsDecided(cfg: Config, L: Line, v: View, first: Option<Outcome>)
    requires Fated(cfg, L, v, first) && v.spot.Done? && v.spot.fate != Dropped
    ensures L.queue in cfg.notifies ==> v.row
    ensures v.letters >= 1 <==> !ChecksRows(cfg, L.queue, L.body) || (first.Some? && TookEffect(first.value))
  {
    hide TookEffect, ChecksRows;
  }

  /** The promise that a permanently failing message ends up on the DLQ, made exact, for every queue and every copy of a
      message that was not parked before, among any faults and any other traffic. If its existence checks do not fault,
      its failure gets on record, and a handler that makes no check always fails, then once its queue is at rest the
      copy is on the DLQ if and only if the first attempt to publish it there took effect, or its handler makes no
      existence check: another handler than the notification service's, or a payload that does not decode. */
  lemma DlqIffFirstParkingTookEffect(cfg: Config, s: State, l: nat, run: seq<Action>)
    requires ValidConfig(cfg) && Good(cfg, s)
    requires l < |s.lines| && s.lines[l].place == Ready && s.lines[l].body.Event? && Letters(s.dlq, l) == 0
    requires Legal(cfg, s, run) && SteadyRun(cfg, s, run, l)
    requires var s', q := After(cfg, s, run), s.lines[l].queue; Calm(s', l) && Served(s', q) && AtRest(cfg, s', q)
    ensures var s', L, first := After(cfg, s, run), s.lines[l], FirstPark(cfg, s, run, l);
            && l < |s'.lines| && s'.lines[l].body == L.body && s'.lines[l].queue == L.queue && s'.lines[l].place.Gone?
            && (L.queue in cfg.notifies ==> L.body.eventId in s'.rows)
            && (OnDlq(s', l) <==> !ChecksRows(cfg, L.queue, L.body) || (first.Some? && TookEffect(first.value)))
  {
    RunStaysFated(cfg, s, run, l, None);
    SameMessage(cfg, s, run, l);
    RunKeepsGood(cfg, s, run);
    GoodIsInv(cfg, After(cfg, s, run));
    assert LineOk(cfg, After(cfg, s, run), l);
    hide Good, Inv, AtRest, Served, Legal, After, Calm, SteadyRun, FirstPark, OnDlq, TookEffect, Letters, Fated,
      ValidConfig, History;
    SettledMeansGone(cfg, s, run, l);
    var s' := After(cfg, s, run);
    FateIsDecided(cfg, s'.lines[l], ViewOf(s', l), FirstPark(cfg, s, run, l));
    OnDlqIsALetter(cfg, s', l);
  }
}
