// Which failing messages are retried for ever: those, and only those, whose handler makes no existence check.
module RetryBound {
  import opened Bus
  import opened BusInvariant
  import opened BusTally
  import opened BusTermination
  import opened DeliveryGuarantees
  import opened OneMessage
  import opened PermanentFailure
  import opened Journeys

  /** How often a channel or process ended while holding copy l. */
  ghost function Losses(cfg: Config, s: State, run: seq<Action>, l: nat): nat
    requires Legal(cfg, s, run)
    decreases |run|
  {
    if run == [] then 0 else (if Loses(s, run[0], l) then 1 else 0) + Losses(cfg, Apply(cfg, s, run[0]), run[1..], l)
  }

  lemma OneMoreLoss(cfg: Config, s: State, run: seq<Action>, l: nat)
    requires Legal(cfg, s, run) && run != []
    ensures var next := Apply(cfg, s, run[0]);
            Losses(cfg, s, run, l) == (if Loses(s, run[0], l) then 1 else 0) + Losses(cfg, next, run[1..], l)
  {
    hide Apply, Enabled, Loses;
  }

  // ---------------------------------------------------- what a requeue costs

  ghost predicate ParkFails(s: State, a: Action, l: nat) { a.Park? && Concerns(s, a, l) && !a.publish.Ok? }

  /** How often the call that held copy l found that publishing it to the DLQ had failed. */
  ghost function FailedParks(cfg: Config, s: State, run: seq<Action>, l: nat): nat
    requires Legal(cfg, s, run)
    decreases |run|
  {
    if run == [] then 0
    else (if ParkFails(s, run[0], l) then 1 else 0) + FailedParks(cfg, Apply(cfg, s, run[0]), run[1..], l)
  }

  /** Requeues, made or due. */
  ghost function Owed(v: View): nat { v.requeues + if v.spot == Held(Requeueing) then 1 else 0 }

  lemma MovesOwe(cfg: Config, s: State, L: Line, v: View, a: Action, v': View, l: nat)
    requires Affects(s, a, l) && Moves(cfg, L, v, a, v')
    ensures Owed(v') <= Owed(v) + (if Loses(s, a, l) then 1 else 0) + if ParkFails(s, a, l) then 1 else 0
  {
    hide HeldUnder;
  }

  lemma StepOwes(cfg: Config, s: State, a: Action, l: nat)
    requires Inv(cfg, s) && l < |s.lines| && Enabled(cfg, s, a)
    ensures var s' := Apply(cfg, s, a);
            && l < |s'.lines|
            && Owed(ViewOf(s', l)) <= Owed(ViewOf(s, l)) + (if Loses(s, a, l) then 1 else 0)
                                      + if ParkFails(s, a, l) then 1 else 0
  {
    hide Inv, Enabled, Apply, Affects, Moves, ViewOf, Loses, ParkFails;
    StepMoves(cfg, s, a, l);
    if Affects(s, a, l) { MovesOwe(cfg, s, s.lines[l], ViewOf(s, l), a, ViewOf(Apply(cfg, s, a), l), l); }
  }

  lemma {:induction false} RunOwes(cfg: Config, s: State, run: seq<Action>, l: nat)
    requires ValidConfig(cfg) && Good(cfg, s) && l < |s.lines| && Legal(cfg, s, run)
    ensures var s' := After(cfg, s, run);
            && l < |s'.lines|
            && Owed(ViewOf(s', l)) <= Owed(ViewOf(s, l)) + Losses(cfg, s, run, l) + FailedParks(cfg, s, run, l)
    decreases |run|
  {
    if run != [] {
      GoodIsInv(cfg, s);
      OneMoreLoss(cfg, s, run, l);
      hide Good, Inv, Apply, Enabled, Loses, Losses, ParkFails, Owed, ViewOf;
      StepKeepsGood(cfg, s, run[0]);
      StepOwes(cfg, s, run[0], l);
      RunOwes(cfg, Apply(cfg, s, run[0]), run[1..], l);
    }
  }

  lemma RunsWithinRequeues(cfg: Config, s: State, l: nat)
    requires Good(cfg, s) && l < |s.lines|
    ensures var L := s.lines[l]; Runs(s.dels, l) <= Budget(cfg, L.queue) + 1 + L.requeues
  {
    assert LineOk(cfg, s, l) && LineTally(s, l);
    RunsWithinDeliveries(s.dels, l);
    assert s.lines[l].path[s.lines[l].queue] <= Budget(cfg, s.lines[l].queue);
  }

  /** Of any copy on any queue, in any run: each requeue is the loss of a delivery or a failed parking, so its handler
      runs exceed maxRetries + 1 by no more than these. It is retried for ever only if they go on for ever. */
  lemma RequeuesArePaid(cfg: Config, s: State, l: nat, run: seq<Action>)
    requires ValidConfig(cfg) && Good(cfg, s) && Legal(cfg, s, run)
    requires l < |s.lines| && s.lines[l].place == Ready && s.lines[l].requeues == 0
    ensures var s' := After(cfg, s, run); var paid := Losses(cfg, s, run, l) + FailedParks(cfg, s, run, l);
            && l < |s'.lines| && s'.lines[l].requeues <= paid
            && Runs(s'.dels, l) <= Budget(cfg, s.lines[l].queue) + 1 + paid
  {
    RunOwes(cfg, s, run, l);
    RunKeepsGood(cfg, s, run);
    SameMessage(cfg, s, run, l);
    hide Good, Legal, After, Losses, FailedParks, ValidConfig;
    RunsWithinRequeues(cfg, After(cfg, s, run), l);
  }

  // --------------------------------------- retrying ends where rows are checked

  /** Requeued by losses alone until publishing to the DLQ fails, which finds the failure on record; then once more,
      and on the way to finding the row. */
  ghost predicate Tame(v: View, losses: nat) {
    || (v.requeues <= losses && (v.row || !(v.spot == Held(Parking) || PastPark(v.spot))))
    || (v.requeues <= losses + 1 && v.row && Finding(v.spot))
  }

  lemma MovesStayTame(cfg: Config, s: State, L: Line, v: View, a: Action, v': View, l: nat, losses: nat)
    requires ChecksRows(cfg, L.queue, L.body) && Tame(v, losses)
    requires Moves(cfg, L, v, a, v') && Steady(s, a, l) && Affects(s, a, l)
    ensures Tame(v', losses + if Loses(s, a, l) then 1 else 0)
  {
    hide HeldUnder;
  }

  ghost predicate TameCopy(cfg: Config, s: State, l: nat, losses: nat) {
    l < |s.lines| && ChecksRows(cfg, s.lines[l].queue, s.lines[l].body) && Tame(ViewOf(s, l), losses)
  }

  lemma StepStaysTame(cfg: Config, s: State, a: Action, l: nat, losses: nat)
    requires Inv(cfg, s) && TameCopy(cfg, s, l, losses) && Enabled(cfg, s, a) && Steady(s, a, l)
    ensures TameCopy(cfg, Apply(cfg, s, a), l, losses + if Loses(s, a, l) then 1 else 0)
  {
    assert Loses(s, a, l) ==> Affects(s, a, l);
    hide Inv, ViewOf, Apply, Enabled, Moves, Loses, Affects, Steady;
    StepMoves(cfg, s, a, l);
    StepPersists(cfg, s, a);
    if Affects(s, a, l) { MovesStayTame(cfg, s, s.lines[l], ViewOf(s, l), a, ViewOf(Apply(cfg, s, a), l), l, losses); }
  }

  lemma {:induction false} RunStaysTame(cfg: Config, s: State, run: seq<Action>, l: nat, losses: nat, total: nat)
    requires ValidConfig(cfg) && Good(cfg, s) && TameCopy(cfg, s, l, losses)
    requires Legal(cfg, s, run) && SteadyRun(cfg, s, run, l)
    requires total == losses + Losses(cfg, s, run, l)
    ensures TameCopy(cfg, After(cfg, s, run), l, total)
    decreases |run|
  {
    if run != [] {
      GoodIsInv(cfg, s);
      OneMoreLoss(cfg, s, run, l);
      hide Good, Inv, TameCopy, Apply, Enabled, Loses, Steady, Losses, ValidConfig;
      StepKeepsGood(cfg, s, run[0]);
      StepStaysTame(cfg, s, run[0], l, losses);
      RunStaysTame(cfg, Apply(cfg, s, run[0]), run[1..], l, losses + if Loses(s, run[0], l) then 1 else 0, total);
    }
  }

  /** A copy on the notification queue whose payload decodes, whose checks do not fault and whose failure gets on record
      is requeued at most once, however parking fares and whatever else happens, and handled at most maxRetries + 2
      times, beyond the losses of its deliveries. */
  lemma RetriesEnd(cfg: Config, s: State, l: nat, run: seq<Action>)
    requires ValidConfig(cfg) && Good(cfg, s)
    requires l < |s.lines| && s.lines[l].place == Ready && s.lines[l].requeues == 0
    requires ChecksRows(cfg, s.lines[l].queue, s.lines[l].body)
    requires Legal(cfg, s, run) && SteadyRun(cfg, s, run, l)
    ensures var s' := After(cfg, s, run); var losses := Losses(cfg, s, run, l);
            && l < |s'.lines| && s'.lines[l].requeues <= losses + 1
            && Runs(s'.dels, l) <= Budget(cfg, s.lines[l].queue) + 2 + losses
  {
    RunStaysTame(cfg, s, run, l, 0, Losses(cfg, s, run, l));
    RunKeepsGood(cfg, s, run);
    SameMessage(cfg, s, run, l);
    hide Good, Legal, After, SteadyRun, Losses, ValidConfig;
    RunsWithinRequeues(cfg, After(cfg, s, run), l);
  }

  // ------------------------------------------------------------ and only there

  lemma {:induction false} WorkingIsSteady(cfg: Config, s: State, run: seq<Action>, l: nat)
    requires WorkingRun(cfg, s, run)
    ensures SteadyRun(cfg, s, run, l) && Losses(cfg, s, run, l) == 0
    decreases |run|
  {
    if run != [] {
      assert Works(run[0]);
      assert Steady(s, run[0], l) && !Loses(s, run[0], l);
      hide Apply, Enabled, Steady, Loses, Works;
      WorkingIsSteady(cfg, Apply(cfg, s, run[0]), run[1..], l);
    }
  }

  /** Copy l of this message waits on q, and was never requeued. */
  ghost predicate Waits(s: State, l: nat, q: string, body: Body) {
    && l < |s.lines| && s.lines[l].queue == q && s.lines[l].body == body
    && s.lines[l].place == Ready && s.lines[l].requeues == 0
  }

  /** However parking fares, no copy of the message is handled more often than this, beyond the losses of its
      deliveries. */
  ghost predicate HandledAtMost(cfg: Config, q: string, body: Body, bound: nat) {
    forall s, l, run ::
      Good(cfg, s) && Waits(s, l, q, body) && Legal(cfg, s, run) && SteadyRun(cfg, s, run, l) ==>
      Runs(After(cfg, s, run).dels, l) <= bound + Losses(cfg, s, run, l)
  }

  lemma PublishedWaits(cfg: Config, q: string, body: Body)
    requires ValidConfig(cfg) && q in cfg.queues
    ensures Good(cfg, Published(q, body)) && Waits(Published(q, body), 0, q, body)
  {
  }

  lemma NoBound(cfg: Config, q: string, body: Body, bound: nat)
    requires ValidConfig(cfg) && q in cfg.queues && body.Event? && !ChecksRows(cfg, q, body)
    ensures !HandledAtMost(cfg, q, body, bound)
  {
    PublishedWaits(cfg, q, body);
    hide Good, Waits, ValidConfig, Published, Legal, After, SteadyRun, Losses;
    var before, run := ParkedInVainForEver(cfg, q, body, bound + 1);
    var s := After(cfg, EMPTY, before);
    WorkingIsSteady(cfg, s, run, 0);
    WorkingIsLegal(cfg, s, run);
    assert Runs(After(cfg, s, run).dels, 0) > bound + Losses(cfg, s, run, 0);
  }

  /** The promise that a permanently failing message is never retried forever, made exact, for every queue and event:
      when existence checks do not fault, failures get on record and other services' handlers always fail, its handler
      runs are bounded, however parking fares, if and only if its handler makes an existence check. */
  lemma BoundedIff(cfg: Config, q: string, body: Body)
    requires ValidConfig(cfg) && q in cfg.queues && body.Event?
    ensures (exists bound: nat :: HandledAtMost(cfg, q, body, bound)) <==> q in cfg.notifies && body.payload.Some?
  {
    hide Good, ValidConfig, Legal, After, SteadyRun, Losses;
    if q in cfg.notifies && body.payload.Some? {
      forall s, l, run | Good(cfg, s) && Waits(s, l, q, body) && Legal(cfg, s, run) && SteadyRun(cfg, s, run, l)
        ensures Runs(After(cfg, s, run).dels, l) <= Budget(cfg, q) + 2 + Losses(cfg, s, run, l)
      {
        RetriesEnd(cfg, s, l, run);
      }
      assert HandledAtMost(cfg, q, body, Budget(cfg, q) + 2);
    } else {
      forall bound: nat ensures !HandledAtMost(cfg, q, body, bound) { NoBound(cfg, q, body, bound); }
    }
  }
}
