// Runs from the empty system that show what the guarantees do not promise: for every configuration, a message
// that uses up its retries, and then is mailed and recorded as failed, or is parked in vain for ever.
module Journeys {
  import opened Bus
  import opened BusInvariant
  import opened BusTally
  import opened DeliveryGuarantees

  /** The first message put on q, in this place, and q's one process, inside no call but perhaps call t. */
  ghost predicate Journey(cfg: Config, s: State, q: string, body: Body, place: Place) {
    && Good(cfg, s) && |s.lines| > 0 && s.insts == [Inst(q, true, true)]
    && s.lines[0].queue == q && s.lines[0].body == body && s.lines[0].place == place
  }

  ghost predicate Resting(cfg: Config, s: State, q: string, body: Body, place: Place) {
    && Journey(cfg, s, q, body, place)
    && forall u :: 0 <= u < |s.dels| ==> Past(s.dels[u])
  }

  /** A delivery of that message whose handler was run, and is over. */
  predicate Past(d: Delivery) { d.line == 0 && d.ran && d.pc.Finished? }

  ghost predicate Calling(cfg: Config, s: State, q: string, body: Body, t: nat, pc: Pc) {
    && Journey(cfg, s, q, body, Unacked(t)) && At(s, t, pc) && s.dels[t].line == 0 && |s.dels| == t + 1
    && forall u :: 0 <= u < t ==> Past(s.dels[u])
  }

  /** The step wrote no row and no letter, and completed no cycle. */
  ghost predicate Same(s: State, s': State) {
    && |s.lines| > 0 && |s'.lines| > 0
    && s'.rows == s.rows && s'.dlq == s.dlq && s'.lines[0].path == s.lines[0].path
  }

  // ------------------------------------------------------------- one step

  lemma Delivers(cfg: Config, s: State, q: string, body: Body)
    requires ValidConfig(cfg) && Resting(cfg, s, q, body, Ready)
    ensures Enabled(cfg, s, Deliver(0, 0))
    ensures var s' := Apply(cfg, s, Deliver(0, 0));
            Calling(cfg, s', q, body, |s.dels|, Buffered) && Same(s, s')
  {
    assert Enabled(cfg, s, Deliver(0, 0));
    StepKeepsGood(cfg, s, Deliver(0, 0));
    hide Good;
  }

  lemma CallsOn(cfg: Config, s: State, q: string, body: Body, t: nat, pc: Pc, a: Action)
    requires ValidConfig(cfg) && Calling(cfg, s, q, body, t, pc) && Enabled(cfg, s, a) && InCall(a) && a.tag == t
    ensures var s' := Apply(cfg, s, a);
            && t < |s'.dels| && Calling(cfg, s', q, body, t, s'.dels[t].pc)
            && s'.lines[0].path == s.lines[0].path
  {
    CallStepStays(cfg, s, a);
    StepKeepsGood(cfg, s, a);
    hide Good, Apply, Enabled, RowsStand, MayClear;
  }

  lemma Begins(cfg: Config, s: State, q: string, body: Body, t: nat)
    requires ValidConfig(cfg) && Calling(cfg, s, q, body, t, Buffered) && body.Event?
    ensures Enabled(cfg, s, Begin(t))
    ensures var s' := Apply(cfg, s, Begin(t));
            && Calling(cfg, s', q, body, t,
                       if q !in cfg.notifies then Foreign else if body.payload.None? then Failed else Checking)
            && Same(s, s')
  {
    assert Enabled(cfg, s, Begin(t)) by { hide Good; }
    BeginMeans(cfg, s, t);
    hide Good, StartHandler;
    CallsOn(cfg, s, q, body, t, Buffered, Begin(t));
  }

  lemma Errs(cfg: Config, s: State, q: string, body: Body, t: nat)
    requires ValidConfig(cfg) && Calling(cfg, s, q, body, t, Foreign)
    ensures Enabled(cfg, s, Answer(t, false))
    ensures var s' := Apply(cfg, s, Answer(t, false)); Calling(cfg, s', q, body, t, Failed) && Same(s, s')
  {
    AnswerMeans(s, t, false);
    hide Good, Answered;
    CallsOn(cfg, s, q, body, t, Foreign, Answer(t, false));
  }

  lemma Decides(cfg: Config, s: State, q: string, body: Body, t: nat)
    requires ValidConfig(cfg) && Calling(cfg, s, q, body, t, Failed)
    ensures Enabled(cfg, s, Decide(t))
    ensures var s' := Apply(cfg, s, Decide(t)); var k := s.lines[0].path[q];
            && Calling(cfg, s', q, body, t,
                       if k < Limit(cfg, q) then Rejecting else if q in cfg.notifies then Recording else Parking)
            && Same(s, s') && s'.dels[t].mailed == s.dels[t].mailed
  {
    CountIsPath(cfg, s, q, body, t, Failed);
    DecideMeans(cfg, s, t);
    hide Good, DecideRetry, RetriesSeen;
    CallsOn(cfg, s, q, body, t, Failed, Decide(t));
  }

  /** The consumer reads the cycles the message has completed. */
  lemma CountIsPath(cfg: Config, s: State, q: string, body: Body, t: nat, pc: Pc)
    requires Calling(cfg, s, q, body, t, pc)
    ensures RetriesSeen(s, t) == s.lines[0].path[q]
  {
    assert LineOk(cfg, s, 0) && Reads(cfg, s.dels[t].deaths, s.dels[t].past);
  }

  function Rested(pc: Pc): Place
    requires Settling(pc)
  {
    match pc
    case Rejecting => Waiting
    case Requeueing => Ready
    case Acking(fate) => Gone(fate)
  }

  lemma Settles(cfg: Config, s: State, q: string, body: Body, t: nat, pc: Pc)
    requires ValidConfig(cfg) && Calling(cfg, s, q, body, t, pc) && Settling(pc) && pc != Acking(Dropped)
    ensures Enabled(cfg, s, Settle(t, true))
    ensures var s' := Apply(cfg, s, Settle(t, true));
            Resting(cfg, s', q, body, Rested(pc)) && Same(s, s') && |s'.dels| == |s.dels|
  {
    assert s.dels[t].ran by { assert DelOk(cfg, s, t); }
    hide Good;
    assert Enabled(cfg, s, Settle(t, true));
    StepKeepsGood(cfg, s, Settle(t, true));
    SettlesTo(s, t);
    assert var L, L' := s.lines[0], Settled(s.lines[0], pc);
           L'.queue == L.queue && L'.body == L.body && L'.path == L.path && L'.place == Rested(pc);
    hide SettleDelivery, Settled, Rested, ValidConfig, Enabled;
  }

  lemma Expires(cfg: Config, s: State, q: string, body: Body)
    requires ValidConfig(cfg) && Resting(cfg, s, q, body, Waiting)
    ensures Enabled(cfg, s, Expire(0))
    ensures var s' := Apply(cfg, s, Expire(0));
            && Resting(cfg, s', q, body, Ready) && s'.rows == s.rows && s'.dlq == s.dlq && s'.dels == s.dels
            && s'.lines[0].path[q] == s.lines[0].path[q] + 1
  {
    assert LineOk(cfg, s, 0);
    assert Enabled(cfg, s, Expire(0));
    StepKeepsGood(cfg, s, Expire(0));
    hide Good;
  }

  lemma Checks(cfg: Config, s: State, q: string, body: Body, t: nat)
    requires ValidConfig(cfg) && Calling(cfg, s, q, body, t, Checking) && body.Event?
    ensures Enabled(cfg, s, Check(t, false))
    ensures var s' := Apply(cfg, s, Check(t, false));
            Calling(cfg, s', q, body, t, if body.eventId in s.rows then Acking(Handled) else Sending) && Same(s, s')
  {
    CheckMeans(s, t, false);
    hide Good, CheckRow;
    CallsOn(cfg, s, q, body, t, Checking, Check(t, false));
  }

  lemma Mails(cfg: Config, s: State, q: string, body: Body, t: nat, sent: bool)
    requires ValidConfig(cfg) && Calling(cfg, s, q, body, t, Sending)
    ensures Enabled(cfg, s, Send(t, sent))
    ensures var s' := Apply(cfg, s, Send(t, sent));
            && Calling(cfg, s', q, body, t, if sent then Inserting else Failed) && Same(s, s')
            && (sent ==> s'.dels[t].mailed)
  {
    SendMeans(s, t, sent);
    hide Good, SendMail;
    CallsOn(cfg, s, q, body, t, Sending, Send(t, sent));
  }

  lemma FailsToInsert(cfg: Config, s: State, q: string, body: Body, t: nat)
    requires ValidConfig(cfg) && Calling(cfg, s, q, body, t, Inserting) && body.Event? && body.payload.Some?
    ensures Enabled(cfg, s, Insert(t, Refused))
    ensures var s' := Apply(cfg, s, Insert(t, Refused));
            Calling(cfg, s', q, body, t, Failed) && Same(s, s') && s'.dels[t].mailed == s.dels[t].mailed
  {
    InsertMeans(s, t, Refused);
    hide Good, InsertSent;
    CallsOn(cfg, s, q, body, t, Inserting, Insert(t, Refused));
  }

  lemma Records(cfg: Config, s: State, q: string, body: Body, t: nat)
    requires ValidConfig(cfg) && Calling(cfg, s, q, body, t, Recording) && body.Event?
    ensures Enabled(cfg, s, Record(t, Ok))
    ensures var s' := Apply(cfg, s, Record(t, Ok));
            && Calling(cfg, s', q, body, t, Parking) && s'.dels[t].mailed == s.dels[t].mailed
            && s'.lines[0].path == s.lines[0].path && s'.dlq == s.dlq
            && body.eventId in s'.rows && (body.eventId !in s.rows ==> s'.rows[body.eventId].status.Failure?)
  {
    RecordMeans(s, t, Ok);
    hide Good, RecordFailed, Recipient;
    CallsOn(cfg, s, q, body, t, Recording, Record(t, Ok));
  }

  lemma FailsToPark(cfg: Config, s: State, q: string, body: Body, t: nat)
    requires ValidConfig(cfg) && Calling(cfg, s, q, body, t, Parking)
    ensures Enabled(cfg, s, Park(t, Refused))
    ensures var s' := Apply(cfg, s, Park(t, Refused)); Calling(cfg, s', q, body, t, Requeueing) && Same(s, s')
  {
    ParkMeans(s, t, Refused);
    hide Good, ParkCopy;
    CallsOn(cfg, s, q, body, t, Parking, Park(t, Refused));
  }

  // -------------------------------------------------------- using up retries

  /** Handlers fail, those of notifications because mails are refused; publishing to a DLQ may do anything; and every
      other effect succeeds. */
  predicate Works(a: Action) {
    && !a.Publish? && !a.Connect? && !a.Close? && !a.Crash?
    && (a.Settle? ==> a.success) && (a.Check? ==> !a.fault) && (a.Send? ==> !a.sent) && !a.Insert?
    && (a.Record? ==> a.db.Ok?) && (a.Answer? ==> !a.success)
  }

  ghost predicate WorkingRun(cfg: Config, s: State, run: seq<Action>) {
    Legal(cfg, s, run) && forall a :: a in run ==> Works(a)
  }

  lemma One(cfg: Config, s: State, a: Action) returns (run: seq<Action>)
    requires Enabled(cfg, s, a)
    ensures run == [a] && Legal(cfg, s, run) && After(cfg, s, run) == Apply(cfg, s, a)
  {
    hide Enabled, Apply;
    run := [a];
    assert run[1..] == [];
  }

  lemma Then(cfg: Config, s: State, before: seq<Action>, a: Action) returns (run: seq<Action>)
    requires Legal(cfg, s, before) && Enabled(cfg, After(cfg, s, before), a)
    ensures run == before + [a] && Legal(cfg, s, run) && After(cfg, s, run) == Apply(cfg, After(cfg, s, before), a)
  {
    hide Enabled, Apply, Legal, After;
    ThenOne(cfg, s, before, a);
    run := before + [a];
  }

  lemma ThenAll(cfg: Config, s: State, before: seq<Action>, more: seq<Action>) returns (run: seq<Action>)
    requires WorkingRun(cfg, s, before) && WorkingRun(cfg, After(cfg, s, before), more)
    ensures WorkingRun(cfg, s, run) && After(cfg, s, run) == After(cfg, After(cfg, s, before), more)
  {
    LegalConcat(cfg, s, before, more);
    run := before + more;
    hide Works, Legal, After;
  }

  /** One handler run that fails: another service's errs, the payload does not decode, or the mail is refused. */
  lemma FailsOnce(cfg: Config, s: State, q: string, body: Body) returns (run: seq<Action>)
    requires ValidConfig(cfg) && Resting(cfg, s, q, body, Ready)
    requires body.Event? && (ChecksRows(cfg, q, body) ==> body.eventId !in s.rows)
    ensures WorkingRun(cfg, s, run)
    ensures var s' := After(cfg, s, run); Calling(cfg, s', q, body, |s.dels|, Failed) && Same(s, s')
  {
    hide Enabled, Apply, Legal, After, Journey, Resting, Calling;
    var t := |s.dels|;
    Delivers(cfg, s, q, body);
    run := One(cfg, s, Deliver(0, 0));
    Begins(cfg, After(cfg, s, run), q, body, t);
    run := Then(cfg, s, run, Begin(t));
    if q !in cfg.notifies {
      Errs(cfg, After(cfg, s, run), q, body, t);
      run := Then(cfg, s, run, Answer(t, false));
    } else if body.payload.Some? {
      Checks(cfg, After(cfg, s, run), q, body, t);
      run := Then(cfg, s, run, Check(t, false));
      Mails(cfg, After(cfg, s, run), q, body, t, false);
      run := Then(cfg, s, run, Send(t, false));
    }
  }

  /** The call that failed ends in a rejection, and the message comes back. */
  lemma ComesBack(cfg: Config, s: State, q: string, body: Body, t: nat) returns (run: seq<Action>)
    requires ValidConfig(cfg) && Calling(cfg, s, q, body, t, Failed) && s.lines[0].path[q] < Limit(cfg, q)
    ensures WorkingRun(cfg, s, run)
    ensures var s' := After(cfg, s, run);
            && Resting(cfg, s', q, body, Ready) && s'.rows == s.rows && s'.dlq == s.dlq
            && s'.lines[0].path[q] == s.lines[0].path[q] + 1
  {
    hide Enabled, Apply, Legal, After, Limit, Journey, Resting, Calling;
    Decides(cfg, s, q, body, t);
    run := One(cfg, s, Decide(t));
    Settles(cfg, After(cfg, s, run), q, body, t, Rejecting);
    run := Then(cfg, s, run, Settle(t, true));
    Expires(cfg, After(cfg, s, run), q, body);
    run := Then(cfg, s, run, Expire(0));
  }

  lemma {:induction false} UseUpRetries(cfg: Config, s: State, q: string, body: Body) returns (run: seq<Action>)
    requires ValidConfig(cfg) && Resting(cfg, s, q, body, Ready)
    requires body.Event? && body.eventId !in s.rows
    ensures WorkingRun(cfg, s, run)
    ensures var s' := After(cfg, s, run);
            && Resting(cfg, s', q, body, Ready) && s'.rows == s.rows && s'.dlq == s.dlq
            && s'.lines[0].path[q] >= Limit(cfg, q)
    decreases Limit(cfg, q) - s.lines[0].path[q]
  {
    hide Enabled, Apply, Limit;
    if s.lines[0].path[q] >= Limit(cfg, q) {
      run := [];
    } else {
      run := FailsOnce(cfg, s, q, body);
      var more := ComesBack(cfg, After(cfg, s, run), q, body, |s.dels|);
      run := ThenAll(cfg, s, run, more);
      more := UseUpRetries(cfg, After(cfg, s, run), q, body);
      run := ThenAll(cfg, s, run, more);
    }
  }

  /** One message, and the process that consumes its queue. */
  function Published(q: string, body: Body): State {
    State([Fresh(body, q)], [], [Inst(q, true, true)], map[], map[], [])
  }

  /** From nothing: the message is published, and its consumer connects. */
  lemma Arrives(cfg: Config, q: string, body: Body) returns (run: seq<Action>)
    requires ValidConfig(cfg) && q in cfg.queues
    ensures Legal(cfg, EMPTY, run) && run == [Publish(body, [q]), Connect(q)]
    ensures var s := After(cfg, EMPTY, run);
            Resting(cfg, s, q, body, Ready) && s == Published(q, body)
  {
    run := One(cfg, EMPTY, Publish(body, [q]));
    run := Then(cfg, EMPTY, run, Connect(q));
    StartIsGood(cfg);
    RunKeepsGood(cfg, EMPTY, run);
    hide Good, ValidConfig;
  }

  /** ... and all its retries fail. */
  lemma Exhausts(cfg: Config, q: string, body: Body) returns (run: seq<Action>)
    requires ValidConfig(cfg) && q in cfg.queues && q in cfg.notifies && body.Event?
    ensures Legal(cfg, EMPTY, run)
    ensures var s := After(cfg, EMPTY, run);
            Resting(cfg, s, q, body, Ready) && s.rows == map[] && s.dlq == [] && s.lines[0].path[q] >= Limit(cfg, q)
  {
    run := Arrives(cfg, q, body);
    hide Resting, Enabled, Apply, Limit, Legal, After;
    var more := UseUpRetries(cfg, After(cfg, EMPTY, run), q, body);
    LegalConcat(cfg, EMPTY, run, more);
    run := run + more;
  }

  // ------------------------------------------------------------ what happens

  /** The last attempt gets as far as the mail, and its insert is refused. */
  lemma MailsInVain(cfg: Config, s: State, q: string, body: Body) returns (run: seq<Action>)
    requires ValidConfig(cfg) && Resting(cfg, s, q, body, Ready) && q in cfg.notifies
    requires body.Event? && body.payload.Some? && body.eventId !in s.rows
    ensures Legal(cfg, s, run)
    ensures var t, s' := |s.dels|, After(cfg, s, run);
            && Calling(cfg, s', q, body, t, Failed) && s'.dels[t].mailed && s'.rows == s.rows
            && s'.lines[0].path == s.lines[0].path
  {
    hide Enabled, Apply, Legal, After, Limit, Journey, Resting;
    var t := |s.dels|;
    Delivers(cfg, s, q, body);
    run := One(cfg, s, Deliver(0, 0));
    Begins(cfg, After(cfg, s, run), q, body, t);
    run := Then(cfg, s, run, Begin(t));
    Checks(cfg, After(cfg, s, run), q, body, t);
    run := Then(cfg, s, run, Check(t, false));
    Mails(cfg, After(cfg, s, run), q, body, t, true);
    run := Then(cfg, s, run, Send(t, true));
    FailsToInsert(cfg, After(cfg, s, run), q, body, t);
    run := Then(cfg, s, run, Insert(t, Refused));
  }

  /** No retry is left, so the failure is recorded. */
  lemma RecordsFailure(cfg: Config, s: State, q: string, body: Body, t: nat) returns (run: seq<Action>)
    requires ValidConfig(cfg) && Calling(cfg, s, q, body, t, Failed) && q in cfg.notifies
    requires body.Event? && s.lines[0].path[q] >= Limit(cfg, q)
    ensures WorkingRun(cfg, s, run)
    ensures var s' := After(cfg, s, run);
            && Calling(cfg, s', q, body, t, Parking) && s'.dels[t].mailed == s.dels[t].mailed
            && s'.dlq == s.dlq && s'.lines[0].path == s.lines[0].path
            && body.eventId in s'.rows && (body.eventId !in s.rows ==> s'.rows[body.eventId].status.Failure?)
  {
    hide Enabled, Apply, Legal, After, Limit, Journey;
    Decides(cfg, s, q, body, t);
    run := One(cfg, s, Decide(t));
    Records(cfg, After(cfg, s, run), q, body, t);
    run := Then(cfg, s, run, Record(t, Ok));
  }

  /** Publishing to the DLQ fails, and the message goes back to its queue. */
  lemma ParksInVain(cfg: Config, s: State, q: string, body: Body, t: nat) returns (run: seq<Action>)
    requires ValidConfig(cfg) && Calling(cfg, s, q, body, t, Parking)
    ensures WorkingRun(cfg, s, run)
    ensures var s' := After(cfg, s, run); Resting(cfg, s', q, body, Ready) && Same(s, s') && |s'.dels| == |s.dels|
  {
    hide Enabled, Apply, Legal, After, Journey, Resting;
    FailsToPark(cfg, s, q, body, t);
    run := One(cfg, s, Park(t, Refused));
    Settles(cfg, After(cfg, s, run), q, body, t, Requeueing);
    run := Then(cfg, s, run, Settle(t, true));
  }

  lemma CallMailed(cfg: Config, s: State, q: string, body: Body, t: nat, pc: Pc)
    requires Calling(cfg, s, q, body, t, pc) && body.Event? && s.dels[t].mailed
    ensures s.insts == [Inst(q, true, true)] && t in MailedBy(s, body.eventId)
  {
    hide Good;
  }

  /** Whatever the configuration, a run in which one process mails an event, its insert is refused, and the row says
      failed. */
  lemma MailedYetFailed(cfg: Config, q: string, body: Body) returns (run: seq<Action>)
    requires ValidConfig(cfg) && q in cfg.queues && q in cfg.notifies && body.Event? && body.payload.Some?
    ensures Legal(cfg, EMPTY, run)
    ensures var s := After(cfg, EMPTY, run);
            && s.insts == [Inst(q, true, true)]
            && body.eventId in s.rows && s.rows[body.eventId].status.Failure? && MailedBy(s, body.eventId) != {}
  {
    run := Exhausts(cfg, q, body);
    hide *;
    var s := After(cfg, EMPTY, run);
    var more := MailsInVain(cfg, s, q, body);
    LegalConcat(cfg, EMPTY, run, more);
    run := run + more;
    var t, s1 := |s.dels|, After(cfg, EMPTY, run);
    assert !(body.eventId in s1.rows);
    var last := RecordsFailure(cfg, s1, q, body, t);
    WorkingIsLegal(cfg, s1, last);
    LegalConcat(cfg, EMPTY, run, last);
    run := run + last;
    CallMailed(cfg, After(cfg, EMPTY, run), q, body, t, Parking);
  }

  lemma WorkingIsLegal(cfg: Config, s: State, run: seq<Action>)
    requires WorkingRun(cfg, s, run)
    ensures Legal(cfg, s, run)
  {
  }

  /** The redelivery finds the row, and is acknowledged. */
  lemma FindsTheRow(cfg: Config, s: State, q: string, body: Body) returns (run: seq<Action>)
    requires ValidConfig(cfg) && Resting(cfg, s, q, body, Ready) && q in cfg.notifies
    requires body.Event? && body.payload.Some? && body.eventId in s.rows
    ensures WorkingRun(cfg, s, run)
    ensures var s' := After(cfg, s, run); Resting(cfg, s', q, body, Gone(Handled)) && Same(s, s')
  {
    hide Enabled, Apply, Legal, After, Journey, Resting, Calling;
    var t := |s.dels|;
    Delivers(cfg, s, q, body);
    run := One(cfg, s, Deliver(0, 0));
    Begins(cfg, After(cfg, s, run), q, body, t);
    run := Then(cfg, s, run, Begin(t));
    Checks(cfg, After(cfg, s, run), q, body, t);
    run := Then(cfg, s, run, Check(t, false));
    Settles(cfg, After(cfg, s, run), q, body, t, Acking(Handled));
    run := Then(cfg, s, run, Settle(t, true));
  }

  /** Whatever the configuration, a message just published whose mails are refused, and for which one publishing to
      the DLQ fails while every other effect works, can end acknowledged, with its failure on record and the DLQ
      empty. */
  lemma DlqCanMiss(cfg: Config, q: string, body: Body) returns (before: seq<Action>, run: seq<Action>)
    requires ValidConfig(cfg) && q in cfg.queues && q in cfg.notifies && body.Event? && body.payload.Some?
    ensures Legal(cfg, EMPTY, before) && before == [Publish(body, [q]), Connect(q)]
    ensures After(cfg, EMPTY, before) == Published(q, body)
    ensures WorkingRun(cfg, After(cfg, EMPTY, before), run)
    ensures var s := After(cfg, After(cfg, EMPTY, before), run);
            && |s.lines| > 0 && s.lines[0].body == body && s.lines[0].place == Gone(Handled)
            && s.dlq == [] && body.eventId in s.rows && s.rows[body.eventId].status.Failure?
  {
    before := Arrives(cfg, q, body);
    var s := After(cfg, EMPTY, before);
    hide Enabled, Apply, Legal, After, Limit, Works, Calling;
    run := UseUpRetries(cfg, s, q, body);
    var s1 := After(cfg, s, run);
    var more := FailsOnce(cfg, s1, q, body);
    run := ThenAll(cfg, s, run, more);
    more := RecordsFailure(cfg, After(cfg, s, run), q, body, |s1.dels|);
    run := ThenAll(cfg, s, run, more);
    more := ParksInVain(cfg, After(cfg, s, run), q, body, |s1.dels|);
    run := ThenAll(cfg, s, run, more);
    more := FindsTheRow(cfg, After(cfg, s, run), q, body);
    run := ThenAll(cfg, s, run, more);
  }

  /** No retry is left: the failure is recorded, if the queue is the notification service's, and parking is next. */
  lemma GivesUp(cfg: Config, s: State, q: string, body: Body, t: nat) returns (run: seq<Action>)
    requires ValidConfig(cfg) && Calling(cfg, s, q, body, t, Failed)
    requires body.Event? && s.lines[0].path[q] >= Limit(cfg, q)
    ensures WorkingRun(cfg, s, run)
    ensures var s' := After(cfg, s, run);
            Calling(cfg, s', q, body, t, Parking) && s'.dlq == s.dlq && s'.lines[0].path == s.lines[0].path
  {
    hide Enabled, Apply, Legal, After, Limit, Calling;
    if q in cfg.notifies {
      run := RecordsFailure(cfg, s, q, body, t);
    } else {
      Decides(cfg, s, q, body, t);
      run := One(cfg, s, Decide(t));
    }
  }

  /** One lap: no retry is left, the handler fails without a check, parking fails; the message is back where it was,
      and one handler run older. */
  lemma OneLap(cfg: Config, s: State, q: string, body: Body) returns (run: seq<Action>)
    requires ValidConfig(cfg) && Resting(cfg, s, q, body, Ready)
    requires body.Event? && !ChecksRows(cfg, q, body)
    requires s.lines[0].path[q] >= Limit(cfg, q)
    ensures WorkingRun(cfg, s, run)
    ensures var s' := After(cfg, s, run);
            && Resting(cfg, s', q, body, Ready) && s'.dlq == s.dlq && |s'.dels| == |s.dels| + 1
            && s'.lines[0].path == s.lines[0].path
  {
    hide Enabled, Apply, Legal, After, Limit, Works, Resting, Journey;
    var t := |s.dels|;
    run := FailsOnce(cfg, s, q, body);
    var more := GivesUp(cfg, After(cfg, s, run), q, body, t);
    run := ThenAll(cfg, s, run, more);
    more := ParksInVain(cfg, After(cfg, s, run), q, body, t);
    run := ThenAll(cfg, s, run, more);
  }

  lemma {:induction false} Laps(cfg: Config, s: State, q: string, body: Body, n: nat) returns (run: seq<Action>)
    requires ValidConfig(cfg) && Resting(cfg, s, q, body, Ready)
    requires body.Event? && !ChecksRows(cfg, q, body)
    requires s.lines[0].path[q] >= Limit(cfg, q)
    ensures WorkingRun(cfg, s, run)
    ensures var s' := After(cfg, s, run);
            Resting(cfg, s', q, body, Ready) && s'.dlq == s.dlq && |s'.dels| == |s.dels| + n
    decreases n
  {
    hide Enabled, Apply, Limit, Resting, Works;
    if n == 0 {
      run := [];
    } else {
      run := OneLap(cfg, s, q, body);
      var more := Laps(cfg, After(cfg, s, run), q, body, n - 1);
      run := ThenAll(cfg, s, run, more);
    }
  }

  lemma {:induction false} AllRan(dels: seq<Delivery>)
    requires forall u :: 0 <= u < |dels| ==> Past(dels[u])
    ensures Runs(dels, 0) == |dels|
  {
    if dels != [] { AllRan(dels[..|dels| - 1]); }
  }

  /** So "never retried forever" is false: whatever the configuration, a message just published whose handler makes no
      existence check - another handler than the notification service's, or a payload that does not decode - is handled
      any number of times, and is back on its queue without a letter on the DLQ, when nothing but its handler and
      publishing to that DLQ fails. */
  lemma ParkedInVainForEver(cfg: Config, q: string, body: Body, n: nat) returns (before: seq<Action>, run: seq<Action>)
    requires ValidConfig(cfg) && q in cfg.queues && body.Event? && !ChecksRows(cfg, q, body)
    ensures Legal(cfg, EMPTY, before) && before == [Publish(body, [q]), Connect(q)]
    ensures After(cfg, EMPTY, before) == Published(q, body)
    ensures WorkingRun(cfg, After(cfg, EMPTY, before), run)
    ensures var s := After(cfg, After(cfg, EMPTY, before), run);
            |s.lines| > 0 && s.lines[0].body == body && s.lines[0].place == Ready && s.dlq == [] && Runs(s.dels, 0) >= n
  {
    before := Arrives(cfg, q, body);
    var s := After(cfg, EMPTY, before);
    hide Enabled, Apply, Legal, After, Limit, Works;
    run := UseUpRetries(cfg, s, q, body);
    var more := Laps(cfg, After(cfg, s, run), q, body, n);
    run := ThenAll(cfg, s, run, more);
    AllRan(After(cfg, s, run).dels);
  }
}
