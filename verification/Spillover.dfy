// One consumer's failures are retried against another: for every configuration that routes them there, a run from the
// empty system in which a consumer is handed again what it has already handled, because another one failed.
module Spillover {
  import opened XDeath
  import opened Bus
  import opened Journeys

  /** Besides copy l, everything the broker holds is what it was, and so are the processes. */
  ghost predicate Besides(s0: State, s: State, l: nat) {
    && l < |s0.lines| == |s.lines| && s.insts == s0.insts && |s.dels| == |s0.dels| + 1
    && (forall u :: 0 <= u < |s0.dels| ==> s.dels[u] == s0.dels[u])
    && s.lines[l].queue == s0.lines[l].queue && s.lines[l].body == s0.lines[l].body
    && (forall k :: 0 <= k < |s0.lines| && k != l ==>
          && s.lines[k].queue == s0.lines[k].queue && s.lines[k].body == s0.lines[k].body
          && s.lines[k].place == s0.lines[k].place && s.lines[k].deaths == s0.lines[k].deaths)
  }

  /** Process i is inside the call for copy l, delivered to it in s0. */
  ghost predicate Handling(s0: State, s: State, l: nat, i: nat, pc: Pc) {
    && Besides(s0, s, l)
    && var t := |s0.dels|;
    && s.lines[l].place == Unacked(t) && s.lines[l].deaths == s0.lines[l].deaths
    && At(s, t, pc) && s.dels[t].line == l && s.dels[t].inst == i && s.dels[t].deaths == s0.lines[l].deaths
    && s.insts[i].open
  }

  /** That call is over. */
  ghost predicate Over(s0: State, s: State, l: nat, i: nat, place: Place) {
    && Besides(s0, s, l) && s.lines[l].place == place
    && s.dels[|s0.dels|].line == l && s.dels[|s0.dels|].inst == i && s.dels[|s0.dels|].pc.Finished?
  }

  /** Copy l waits for process i, which is up and idle. */
  ghost predicate Due(s: State, l: nat, i: nat) {
    && l < |s.lines| && i < |s.insts| && s.lines[l].place == Ready
    && s.insts[i] == Inst(s.lines[l].queue, true, true) && Idle(s, i)
    && s.lines[l].body.Event? && s.lines[l].body.payload.Some?
  }

  // ------------------------------------------------------------- one step

  lemma ItStarts(cfg: Config, s0: State, l: nat, i: nat)
    requires Due(s0, l, i)
    ensures Enabled(cfg, s0, Deliver(l, i))
    ensures Handling(s0, Apply(cfg, s0, Deliver(l, i)), l, i, Buffered)
  {
  }

  lemma GoesOn(cfg: Config, s0: State, s: State, l: nat, i: nat, pc: Pc, a: Action)
    requires Handling(s0, s, l, i, pc) && Enabled(cfg, s, a) && InCall(a) && a.tag == |s0.dels|
    ensures var s' := Apply(cfg, s, a); a.tag < |s'.dels| && Handling(s0, s', l, i, s'.dels[a.tag].pc)
  {
    CallStepStays(cfg, s, a);
    hide Apply, Enabled, MayClear, RowsStand;
  }

  lemma ItBegins(cfg: Config, s0: State, s: State, l: nat, i: nat)
    requires Due(s0, l, i) && Handling(s0, s, l, i, Buffered)
    ensures Enabled(cfg, s, Begin(|s0.dels|))
    ensures Handling(s0, Apply(cfg, s, Begin(|s0.dels|)), l, i,
                     if s0.lines[l].queue in cfg.notifies then Checking else Foreign)
  {
    var t := |s0.dels|;
    assert Enabled(cfg, s, Begin(t));
    BeginMeans(cfg, s, t);
    GoesOn(cfg, s0, s, l, i, Buffered, Begin(t));
  }

  lemma ItChecks(cfg: Config, s0: State, s: State, l: nat, i: nat, fault: bool)
    requires Due(s0, l, i) && Handling(s0, s, l, i, Checking)
    ensures var t := |s0.dels|; var found := s0.lines[l].body.eventId in s.rows;
            && Enabled(cfg, s, Check(t, fault))
            && Handling(s0, Apply(cfg, s, Check(t, fault)), l, i,
                        if fault then Failed else if found then Acking(Handled) else Sending)
  {
    CheckMeans(s, |s0.dels|, fault);
    hide CheckRow;
    GoesOn(cfg, s0, s, l, i, Checking, Check(|s0.dels|, fault));
  }

  lemma ItSends(cfg: Config, s0: State, s: State, l: nat, i: nat)
    requires Due(s0, l, i) && Handling(s0, s, l, i, Sending)
    ensures Enabled(cfg, s, Send(|s0.dels|, true))
    ensures Handling(s0, Apply(cfg, s, Send(|s0.dels|, true)), l, i, Inserting)
  {
    SendMeans(s, |s0.dels|, true);
    hide SendMail;
    GoesOn(cfg, s0, s, l, i, Sending, Send(|s0.dels|, true));
  }

  lemma ItInserts(cfg: Config, s0: State, s: State, l: nat, i: nat)
    requires Due(s0, l, i) && Handling(s0, s, l, i, Inserting)
    ensures Enabled(cfg, s, Insert(|s0.dels|, Ok))
    ensures Handling(s0, Apply(cfg, s, Insert(|s0.dels|, Ok)), l, i, Acking(Handled))
  {
    InsertMeans(s, |s0.dels|, Ok);
    hide InsertSent;
    GoesOn(cfg, s0, s, l, i, Inserting, Insert(|s0.dels|, Ok));
  }

  lemma ItAnswers(cfg: Config, s0: State, s: State, l: nat, i: nat, success: bool)
    requires Due(s0, l, i) && Handling(s0, s, l, i, Foreign)
    ensures Enabled(cfg, s, Answer(|s0.dels|, success))
    ensures Handling(s0, Apply(cfg, s, Answer(|s0.dels|, success)), l, i, if success then Acking(Handled) else Failed)
  {
    AnswerMeans(s, |s0.dels|, success);
    hide Answered;
    GoesOn(cfg, s0, s, l, i, Foreign, Answer(|s0.dels|, success));
  }

  lemma ItRejects(cfg: Config, s0: State, s: State, l: nat, i: nat)
    requires Due(s0, l, i) && Handling(s0, s, l, i, Failed)
    requires Cycles(s0.lines[l].deaths, s0.lines[l].queue) < Limit(cfg, s0.lines[l].queue)
    ensures Enabled(cfg, s, Decide(|s0.dels|)) && Handling(s0, Apply(cfg, s, Decide(|s0.dels|)), l, i, Rejecting)
  {
    DecideMeans(cfg, s, |s0.dels|);
    hide DecideRetry, Cycles;
    GoesOn(cfg, s0, s, l, i, Failed, Decide(|s0.dels|));
  }

  lemma ItSettles(cfg: Config, s0: State, s: State, l: nat, i: nat, pc: Pc)
    requires Due(s0, l, i) && Handling(s0, s, l, i, pc) && Settling(pc)
    ensures Enabled(cfg, s, Settle(|s0.dels|, true))
    ensures Over(s0, Apply(cfg, s, Settle(|s0.dels|, true)), l, i, Rested(pc))
  {
    SettlesTo(s, |s0.dels|);
    assert Enabled(cfg, s, Settle(|s0.dels|, true));
    hide SettleDelivery, Bump;
  }

  // ------------------------------------------------------------- one call

  /** The handler fails, with retries left. */
  lemma Fails(cfg: Config, s: State, l: nat, i: nat) returns (run: seq<Action>)
    requires Due(s, l, i) && Cycles(s.lines[l].deaths, s.lines[l].queue) < Limit(cfg, s.lines[l].queue)
    ensures Legal(cfg, s, run) && Over(s, After(cfg, s, run), l, i, Waiting)
  {
    var t, notifies := |s.dels|, s.lines[l].queue in cfg.notifies;
    ItStarts(cfg, s, l, i);
    hide Enabled, Apply, Legal, After, Due, Handling, Over, Cycles, Limit;
    run := One(cfg, s, Deliver(l, i));
    ItBegins(cfg, s, After(cfg, s, run), l, i);
    run := Then(cfg, s, run, Begin(t));
    if notifies {
      ItChecks(cfg, s, After(cfg, s, run), l, i, true);
      run := Then(cfg, s, run, Check(t, true));
    } else {
      ItAnswers(cfg, s, After(cfg, s, run), l, i, false);
      run := Then(cfg, s, run, Answer(t, false));
    }
    ItRejects(cfg, s, After(cfg, s, run), l, i);
    run := Then(cfg, s, run, Decide(t));
    ItSettles(cfg, s, After(cfg, s, run), l, i, Rejecting);
    run := Then(cfg, s, run, Settle(t, true));
  }

  /** The handler succeeds: it answers, or finds a row, or mails and inserts one. */
  lemma Succeeds(cfg: Config, s: State, l: nat, i: nat) returns (run: seq<Action>)
    requires Due(s, l, i)
    ensures Legal(cfg, s, run) && Over(s, After(cfg, s, run), l, i, Gone(Handled))
  {
    var t, notifies := |s.dels|, s.lines[l].queue in cfg.notifies;
    ItStarts(cfg, s, l, i);
    hide Enabled, Apply, Legal, After, Due, Handling, Over;
    run := One(cfg, s, Deliver(l, i));
    ItBegins(cfg, s, After(cfg, s, run), l, i);
    run := Then(cfg, s, run, Begin(t));
    if notifies {
      run := Notifies(cfg, s, run, l, i);
    } else {
      ItAnswers(cfg, s, After(cfg, s, run), l, i, true);
      run := Then(cfg, s, run, Answer(t, true));
    }
    ItSettles(cfg, s, After(cfg, s, run), l, i, Acking(Handled));
    run := Then(cfg, s, run, Settle(t, true));
  }

  lemma Notifies(cfg: Config, s: State, run0: seq<Action>, l: nat, i: nat) returns (run: seq<Action>)
    requires Due(s, l, i) && Legal(cfg, s, run0) && Handling(s, After(cfg, s, run0), l, i, Checking)
    ensures Legal(cfg, s, run) && Handling(s, After(cfg, s, run), l, i, Acking(Handled))
  {
    var t := |s.dels|;
    assert s.lines[l].body.Event?;
    hide Enabled, Apply, Legal, After, Due, Handling;
    run := run0;
    var found := s.lines[l].body.eventId in After(cfg, s, run).rows;
    ItChecks(cfg, s, After(cfg, s, run), l, i, false);
    run := Then(cfg, s, run, Check(t, false));
    if !found {
      ItSends(cfg, s, After(cfg, s, run), l, i);
      run := Then(cfg, s, run, Send(t, true));
      ItInserts(cfg, s, After(cfg, s, run), l, i);
      run := Then(cfg, s, run, Insert(t, Ok));
    }
  }

  // ------------------------------------------------------------- the run

  /** A message published to two queues, each with a process of its own. */
  function Both(q: string, q': string, body: Body): State {
    State([Fresh(body, q), Fresh(body, q')], [], [Inst(q, true, true), Inst(q', true, true)], map[], map[], [])
  }

  lemma BothArrive(cfg: Config, q: string, q': string, body: Body) returns (run: seq<Action>)
    requires q in cfg.queues && q' in cfg.queues && q != q'
    ensures Legal(cfg, EMPTY, run) && After(cfg, EMPTY, run) == Both(q, q', body)
  {
    run := One(cfg, EMPTY, Publish(body, [q, q']));
    run := Then(cfg, EMPTY, run, Connect(q));
    run := Then(cfg, EMPTY, run, Connect(q'));
  }

  lemma {:induction false} Others(qs: seq<string>, q: string, r: string)
    requires r in qs && r != q
    ensures r in Without1(qs, q)
  {
    if qs[0] != q && qs[0] != r { Others(qs[1..], q, r); }
  }

  /** The expiring retry of copy l puts a copy on q'. */
  lemma SpillsOver(cfg: Config, s: State, l: nat, q': string) returns (k: nat)
    requires l < |s.lines| && s.lines[l].place == Waiting && s.lines[l].queue in cfg.routes
    requires q' in cfg.routes[s.lines[l].queue] && q' != s.lines[l].queue
    ensures Enabled(cfg, s, Expire(l))
    ensures var s' := Apply(cfg, s, Expire(l));
            && |s.lines| <= k < |s'.lines| && s'.lines[k].queue == q' && s'.lines[k].body == s.lines[l].body
            && s'.lines[k].place == Ready && s'.insts == s.insts && s'.dels == s.dels
            && s'.lines[l].place == Ready && forall j :: 0 <= j < |s.lines| && j != l ==> s'.lines[j] == s.lines[j]
  {
    var q := s.lines[l].queue;
    var others := Without1(cfg.routes[q], q);
    Others(cfg.routes[q], q, q');
    var n :| 0 <= n < |others| && others[n] == q';
    k := |s.lines| + n;
    hide Bump, Without1;
  }

  /** The consumer of q' has handled its copy; the consumer of q has failed its own, which waits to be retried. */
  ghost predicate OneFailed(s: State, q: string, q': string, body: Body) {
    && |s.lines| == 2 && s.insts == [Inst(q, true, true), Inst(q', true, true)]
    && s.lines[0].queue == q && s.lines[0].body == body && s.lines[0].place == Waiting
    && s.lines[1].queue == q' && s.lines[1].body == body && s.lines[1].place == Gone(Handled)
    && |s.dels| > 0 && s.dels[0].line == 1 && s.dels[0].inst == 1
  }

  lemma FirstRound(cfg: Config, q: string, q': string, body: Body) returns (run: seq<Action>)
    requires q in cfg.queues && q' in cfg.queues && q' != q && Limit(cfg, q) > 0
    requires body.Event? && body.payload.Some?
    ensures Legal(cfg, EMPTY, run) && OneFailed(After(cfg, EMPTY, run), q, q', body)
  {
    run := BothArrive(cfg, q, q', body);
    var s0 := After(cfg, EMPTY, run);
    var more := Succeeds(cfg, s0, 1, 1);
    LegalConcat(cfg, EMPTY, run, more);
    run := run + more;
    var s1 := After(cfg, EMPTY, run);
    DueAfter(cfg, s0, s1, q);
    hide Legal, After, Apply, Enabled, Limit, Cycles, Idle;
    more := Fails(cfg, s1, 0, 0);
    LegalConcat(cfg, EMPTY, run, more);
    run := run + more;
    BothOver(cfg, s0, s1, After(cfg, EMPTY, run), q, q', body);
  }

  lemma BothOver(cfg: Config, s0: State, s1: State, s2: State, q: string, q': string, body: Body)
    requires s0 == Both(q, q', body) && Over(s0, s1, 1, 1, Gone(Handled)) && Over(s1, s2, 0, 0, Waiting)
    requires s1.dels[0].line == 1
    ensures OneFailed(s2, q, q', body)
  {
  }

  /** One consumer's failures are retried against another: whatever the configuration, if retries of q are routed to
      q' too, and q allows any, then there is a run from the empty system in which the consumer of q' has handled a
      message, and is handed a copy of it again because the consumer of q failed it. */
  lemma RetriedAgainstAnother(cfg: Config, q: string, q': string, body: Body) returns (run: seq<Action>, k: nat)
    requires ValidConfig(cfg) && q in cfg.queues && q' in cfg.routes[q] && q' != q && Limit(cfg, q) > 0
    requires body.Event? && body.payload.Some?
    ensures Legal(cfg, EMPTY, run)
    ensures var s := After(cfg, EMPTY, run);
            && 2 <= k < |s.lines|
            && s.lines[0].queue == q && s.lines[0].body == body && s.lines[0].place == Ready
            && s.lines[1].queue == q' && s.lines[1].body == body && s.lines[1].place == Gone(Handled)
            && s.lines[k].queue == q' && s.lines[k].body == body && s.lines[k].place.Unacked?
            && s.lines[k].place.tag < |s.dels| && s.dels[0].line == 1
            && s.dels[s.lines[k].place.tag].inst == s.dels[0].inst
  {
    run := FirstRound(cfg, q, q', body);
    hide Legal, After, ValidConfig, Apply, Enabled, Limit;
    k := SpillsOver(cfg, After(cfg, EMPTY, run), 0, q');
    run := Then(cfg, EMPTY, run, Expire(0));
    HandsOver(cfg, After(cfg, EMPTY, run), k, 1);
    run := Then(cfg, EMPTY, run, Deliver(k, 1));
  }

  lemma DueAfter(cfg: Config, s0: State, s1: State, q: string)
    requires Over(s0, s1, 1, 1, Gone(Handled)) && Due(s0, 0, 0) && s0.dels == []
    requires s0.lines[0].deaths == [] && s0.lines[0].queue == q
    ensures Due(s1, 0, 0) && Cycles(s1.lines[0].deaths, q) == 0
  {
  }

  lemma HandsOver(cfg: Config, s: State, k: nat, i: nat)
    requires k < |s.lines| && s.lines[k].place == Ready && i < |s.insts|
    requires s.insts[i] == Inst(s.lines[k].queue, true, true)
    ensures Enabled(cfg, s, Deliver(k, i))
    ensures var s' := Apply(cfg, s, Deliver(k, i));
            && |s'.lines| == |s.lines| && s'.lines[k].queue == s.lines[k].queue && s'.lines[k].body == s.lines[k].body
            && (forall j :: 0 <= j < |s.lines| && j != k ==> s'.lines[j] == s.lines[j])
            && |s'.dels| == |s.dels| + 1 && s'.dels[..|s.dels|] == s.dels
            && s'.lines[k].place == Unacked(|s.dels|) && s'.dels[|s.dels|].inst == i
  {
  }
}
