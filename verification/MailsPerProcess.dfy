// How often an event is mailed: once by each notifying process, however many there are, and whatever crashes and
// restarts.
module MailsPerProcess {
  import opened Wrappers
  import opened Bus
  import opened BusInvariant
  import opened BusTally
  import opened DeliveryGuarantees
  import opened MailSafety

  /** Call t of process i is about event e. */
  ghost predicate Mine(s: State, t: nat, e: string, i: nat) { About(s, t, e) && s.dels[t].inst == i }

  /** A call that mailed e has seen to it that there is a row, or is about to, or died. */
  ghost predicate Noted(s: State, t: nat, e: string)
    requires t < |s.dels|
  {
    var D := s.dels[t];
    D.mailed ==> e in s.rows || D.pc.Inserting? || (D.inst < |s.insts| && !s.insts[D.inst].alive)
  }

  /** Process i has mailed e in one call at most, and is not about to mail it in another. */
  ghost predicate Once(s: State, e: string, i: nat) {
    && (forall t: nat :: Mine(s, t, e, i) ==> Noted(s, t, e))
    && (forall t: nat, u: nat :: Mine(s, t, e, i) && Mine(s, u, e, i) && t != u && s.dels[t].mailed ==>
          Quiet(s.dels[u]))
  }

  /** The call has not mailed, and is not about to. */
  predicate Quiet(d: Delivery) { !d.mailed && !d.pc.Sending? }

  // -------------------------------------------------------- steps of a call

  lemma CallsKeepMine(s: State, s': State, t: nat, u: nat, e: string, i: nat)
    requires Stays(s, s', t)
    ensures Mine(s', u, e, i) <==> Mine(s, u, e, i)
    ensures u < |s.dels| && u != t ==> u < |s'.dels| && s'.dels[u] == s.dels[u]
    ensures s'.insts == s.insts && (e in s.rows ==> e in s'.rows)
  {
    hide MayClear;
  }

  lemma CallKeepsOnce(s: State, s': State, t: nat, e: string, i: nat)
    requires Once(s, e, i) && Stays(s, s', t) && t < |s.dels| == |s'.dels|
    requires Mine(s, t, e, i) ==> Noted(s', t, e)
    requires forall u: nat :: Mine(s, t, e, i) && Mine(s, u, e, i) && u != t ==>
               (s'.dels[t].mailed ==> Quiet(s.dels[u])) && (s.dels[u].mailed ==> Quiet(s'.dels[t]))
    ensures Once(s', e, i)
  {
    forall u: nat ensures Mine(s', u, e, i) <==> Mine(s, u, e, i)
                  ensures Mine(s, u, e, i) && u != t ==> s'.dels[u] == s.dels[u]
                  ensures s'.insts == s.insts && (e in s.rows ==> e in s'.rows)
    {
      CallsKeepMine(s, s', t, u, e, i);
    }
    hide Stays, Mine;
    forall u: nat | Mine(s', u, e, i) ensures Noted(s', u, e) { if u != t { assert Noted(s, u, e); } }
  }

  /** A step that neither mails nor leads to mailing, nor leaves an insert. */
  lemma PlainCallKeepsOnce(s: State, s': State, t: nat, e: string, i: nat)
    requires Once(s, e, i) && Stays(s, s', t) && t < |s.dels| == |s'.dels|
    requires s'.dels[t].mailed == s.dels[t].mailed && !s'.dels[t].pc.Sending?
    requires s.dels[t].pc.Inserting? ==> Mine(s, t, e, i) ==> e in s'.rows
    ensures Once(s', e, i)
  {
    CallsKeepMine(s, s', t, t, e, i);
    assert s'.dels[t].inst == s.dels[t].inst;
    hide Stays;
    CallKeepsOnce(s, s', t, e, i);
  }

  /** While a process is inside one call, it is inside no other, and alive. */
  lemma InsideOneCall(cfg: Config, s: State, t: nat, u: nat)
    requires Inv(cfg, s) && t < |s.dels| && u < |s.dels| && t != u
    requires Active(s.dels[t].pc) && s.dels[u].inst == s.dels[t].inst
    ensures !Active(s.dels[u].pc) && s.dels[t].inst < |s.insts| && s.insts[s.dels[t].inst].alive
  {
    assert DelOk(cfg, s, t);
  }

  lemma CheckKeepsOnce(cfg: Config, s: State, t: nat, fault: bool, e: string, i: nat)
    requires Inv(cfg, s) && Once(s, e, i) && At(s, t, Checking) && LineOf(s, t).body.Event?
    ensures Once(CheckRow(s, t, fault), e, i)
  {
    var s' := CheckRow(s, t, fault);
    CheckMeans(s, t, fault);
    if Mine(s, t, e, i) { assert Noted(s, t, e) && DelOk(cfg, s, t); }
    hide CheckRow, Stays;
    if Mine(s, t, e, i) && s'.dels[t].pc.Sending? {
      forall u: nat | Mine(s, u, e, i) && u != t ensures !s.dels[u].mailed && !s.dels[u].pc.Sending? {
        assert Noted(s, u, e);
        InsideOneCall(cfg, s, t, u);
      }
      hide Inv;
      CallKeepsOnce(s, s', t, e, i);
    } else if Mine(s, t, e, i) {
      hide Inv;
      PlainCallKeepsOnce(s, s', t, e, i);
    } else {
      hide Inv;
      CallKeepsOnce(s, s', t, e, i);
    }
  }

  lemma SendKeepsOnce(cfg: Config, s: State, t: nat, sent: bool, e: string, i: nat)
    requires Inv(cfg, s) && Once(s, e, i) && At(s, t, Sending)
    ensures Once(SendMail(s, t, sent), e, i)
  {
    var s' := SendMail(s, t, sent);
    SendMeans(s, t, sent);
    CallsKeepMine(s, s', t, t, e, i);
    hide SendMail, Stays;
    forall u: nat | Mine(s, t, e, i) && Mine(s, u, e, i) && u != t
      ensures Quiet(s.dels[u])
    {
      InsideOneCall(cfg, s, t, u);
    }
    if Mine(s, t, e, i) && s.dels[t].mailed { assert Noted(s, t, e) && DelOk(cfg, s, t); }
    hide Inv;
    CallKeepsOnce(s, s', t, e, i);
  }

  /** The insert about e that process i made after a mail failed, with no effect. */
  ghost predicate Refuses(s: State, a: Action, e: string, i: nat) { RefusesInsert(s, a, e) && s.dels[a.tag].inst == i }

  lemma InsertKeepsOnce(s: State, t: nat, db: Outcome, e: string, i: nat)
    requires Once(s, e, i) && At(s, t, Inserting) && LineOf(s, t).body.Event? && LineOf(s, t).body.payload.Some?
    requires Mine(s, t, e, i) ==> !db.Refused?
    ensures Once(InsertSent(s, t, db), e, i)
  {
    InsertMeans(s, t, db);
    hide InsertSent, Stays;
    PlainCallKeepsOnce(s, InsertSent(s, t, db), t, e, i);
  }

  lemma RecordKeepsOnce(s: State, t: nat, db: Outcome, e: string, i: nat)
    requires Once(s, e, i) && At(s, t, Recording) && LineOf(s, t).body.Event?
    ensures Once(RecordFailed(s, t, db), e, i)
  {
    RecordMeans(s, t, db);
    hide RecordFailed, Stays, Recipient;
    PlainCallKeepsOnce(s, RecordFailed(s, t, db), t, e, i);
  }

  lemma OtherCallsKeepOnce(cfg: Config, s: State, a: Action, e: string, i: nat)
    requires Once(s, e, i) && Enabled(cfg, s, a) && (a.Begin? || a.Answer? || a.Decide? || a.Park?)
    ensures Once(Apply(cfg, s, a), e, i)
  {
    CallStepStays(cfg, s, a);
    OtherCallsMailNothing(cfg, s, a);
    hide Once, Stays, Apply, Enabled;
    PlainCallKeepsOnce(s, Apply(cfg, s, a), a.tag, e, i);
  }

  // ------------------------------------------------- steps outside the calls

  lemma OutsideKeepsOnce(cfg: Config, s: State, s': State, e: string, i: nat)
    requires Inv(cfg, s) && Once(s, e, i) && Frame(s, s')
    requires forall u :: 0 <= u < |s.dels| ==> Outside(s, s', u)
    ensures Once(s', e, i)
  {
    forall u: nat | Mine(s', u, e, i)
      ensures Noted(s', u, e)
      ensures u < |s.dels| ==> Mine(s, u, e, i) && (s'.dels[u].pc.Sending? ==> s.dels[u].pc.Sending?)
    {
      if u < |s.dels| {
        FrameKeepsAbout(cfg, s, s', u, e);
        assert Noted(s, u, e) && DelOk(cfg, s, u) && Outside(s, s', u);
      }
    }
    hide Inv, Noted, Mine, Outside;
  }

  lemma BrokerKeepsOnce(cfg: Config, s: State, a: Action, e: string, i: nat)
    requires Inv(cfg, s) && Once(s, e, i) && Enabled(cfg, s, a) && !InCall(a)
    ensures Once(Apply(cfg, s, a), e, i)
  {
    hide Inv, Once, Outside, Apply, Enabled;
    var s' := Apply(cfg, s, a);
    BrokerFrame(cfg, s, a);
    forall u | 0 <= u < |s.dels| ensures |s.dels| <= |s'.dels| && |s.insts| <= |s'.insts| && Outside(s, s', u) {
      BrokerStepsLeaveTheCall(cfg, s, a, u);
    }
    OutsideKeepsOnce(cfg, s, s', e, i);
  }

  // ------------------------------------------------------------------- runs

  lemma StepKeepsOnce(cfg: Config, s: State, a: Action, e: string, i: nat)
    requires Inv(cfg, s) && Once(s, e, i) && Enabled(cfg, s, a) && !Refuses(s, a, e, i)
    ensures Once(Apply(cfg, s, a), e, i)
  {
    hide Inv, Once, About, Outside, Stays, SameHeaders, StartHandler, CheckRow, SendMail, InsertSent,
      Answered, DecideRetry, RecordFailed, ParkCopy, SettleDelivery, CloseChannel, CrashProcess, Delivered, ExpireRetry;
    match a
    case Check(t, fault) => CheckKeepsOnce(cfg, s, t, fault, e, i);
    case Send(t, sent) => SendKeepsOnce(cfg, s, t, sent, e, i);
    case Insert(t, db) => InsertKeepsOnce(s, t, db, e, i);
    case Record(t, db) => RecordKeepsOnce(s, t, db, e, i);
    case _ =>
      if InCall(a) {
        OtherCallsKeepOnce(cfg, s, a, e, i);
      } else {
        BrokerKeepsOnce(cfg, s, a, e, i);
      }
  }

  /** Whether the run refuses process i an insert about e. */
  ghost predicate RefusedTo(cfg: Config, s: State, run: seq<Action>, e: string, i: nat)
    requires Legal(cfg, s, run)
    decreases |run|
  {
    run != [] && (Refuses(s, run[0], e, i) || RefusedTo(cfg, Apply(cfg, s, run[0]), run[1..], e, i))
  }

  lemma {:induction false} RunKeepsOnce(cfg: Config, s: State, run: seq<Action>, e: string, i: nat)
    requires ValidConfig(cfg) && Good(cfg, s) && Once(s, e, i) && Legal(cfg, s, run) && !RefusedTo(cfg, s, run, e, i)
    ensures Once(After(cfg, s, run), e, i)
    decreases |run|
  {
    if run != [] {
      assert Inv(cfg, s);
      hide Apply, Enabled, Good, Inv, Once, Refuses;
      StepKeepsGood(cfg, s, run[0]);
      StepKeepsOnce(cfg, s, run[0], e, i);
      RunKeepsOnce(cfg, Apply(cfg, s, run[0]), run[1..], e, i);
    }
  }

  /** Whatever is redelivered, requeued, fanned out or published twice, whichever processes crash or join, and even if
      inserts that took effect report errors: a process mails an event at most once, unless one of its own inserts
      about it is refused. */
  lemma MailedOncePerProcess(cfg: Config, run: seq<Action>, e: string, t: nat, u: nat)
    requires ValidConfig(cfg) && Legal(cfg, EMPTY, run)
    requires var s := After(cfg, EMPTY, run);
             && t in MailedBy(s, e) && u in MailedBy(s, e) && s.dels[t].inst == s.dels[u].inst
             && !RefusedTo(cfg, EMPTY, run, e, s.dels[t].inst)
    ensures t == u
  {
    StartIsGood(cfg);
    var i := After(cfg, EMPTY, run).dels[t].inst;
    RunKeepsOnce(cfg, EMPTY, run, e, i);
    assert Mine(After(cfg, EMPTY, run), t, e, i) && Mine(After(cfg, EMPTY, run), u, e, i);
  }

  lemma {:induction false} NobodyRefused(cfg: Config, s: State, run: seq<Action>, e: string, i: nat)
    requires Legal(cfg, s, run) && !InsertRefused(cfg, s, run, e)
    ensures !RefusedTo(cfg, s, run, e, i)
    decreases |run|
  {
    hide Apply, Enabled, RefusesInsert;
    if run != [] { NobodyRefused(cfg, Apply(cfg, s, run[0]), run[1..], e, i); }
  }

  /** The processes, dead or alive, that consumed a queue of the notification service. */
  ghost function Notifiers(cfg: Config, s: State): set<nat> {
    set i: nat | 0 <= i < |s.insts| && s.insts[i].queue in cfg.notifies
  }

  lemma MailersNotify(cfg: Config, s: State, t: nat, e: string)
    requires Inv(cfg, s) && t in MailedBy(s, e)
    ensures s.dels[t].inst in Notifiers(cfg, s)
  {
    assert DelOk(cfg, s, t);
  }

  /** So an event none of whose inserts is refused is mailed at most as often as there were notifying processes ... */
  lemma MailsWithinProcesses(cfg: Config, run: seq<Action>, e: string)
    requires ValidConfig(cfg) && Legal(cfg, EMPTY, run) && !InsertRefused(cfg, EMPTY, run, e)
    ensures var s := After(cfg, EMPTY, run); |MailedBy(s, e)| <= |Notifiers(cfg, s)|
  {
    StartIsGood(cfg);
    RunKeepsGood(cfg, EMPTY, run);
    var s := After(cfg, EMPTY, run);
    var mailer := map t | t in MailedBy(s, e) :: s.dels[t].inst;
    assert Inv(cfg, s);
    hide Good, Inv, Notifiers, RefusedTo, InsertRefused, Legal, After;
    forall t | t in mailer ensures mailer[t] in Notifiers(cfg, s) { MailersNotify(cfg, s, t, e); }
    forall t, u | t in mailer && u in mailer && mailer[t] == mailer[u] ensures t == u {
      NobodyRefused(cfg, EMPTY, run, e, s.dels[t].inst);
      MailedOncePerProcess(cfg, run, e, t, u);
    }
    InjectiveSize(mailer, Notifiers(cfg, s));
    assert mailer.Keys == MailedBy(s, e) && |mailer| == |mailer.Keys|;
  }

  /** ... and at most once if there was one, among any number of other consumers. */
  lemma MailedAtMostOnce(cfg: Config, run: seq<Action>, e: string, t: nat, u: nat)
    requires ValidConfig(cfg) && Legal(cfg, EMPTY, run) && !InsertRefused(cfg, EMPTY, run, e)
    requires var s := After(cfg, EMPTY, run); OneNotifier(cfg, s) && t in MailedBy(s, e) && u in MailedBy(s, e)
    ensures t == u
  {
    StartIsGood(cfg);
    RunKeepsGood(cfg, EMPTY, run);
    var s := After(cfg, EMPTY, run);
    MailersNotify(cfg, s, t, e);
    MailersNotify(cfg, s, u, e);
    NobodyRefused(cfg, EMPTY, run, e, s.dels[t].inst);
    MailedOncePerProcess(cfg, run, e, t, u);
  }
}
