// When a failed row tells the truth about mails: with one notifying process among any number of other consumers.
module MailSafety {
  import opened Bus
  import opened BusInvariant
  import opened BusTally
  import opened DeliveryGuarantees

  /** No two processes, at any time, were notification services. */
  ghost predicate OneNotifier(cfg: Config, s: State) {
    forall i, j :: 0 <= i < j < |s.insts| ==> !(s.insts[i].queue in cfg.notifies && s.insts[j].queue in cfg.notifies)
  }

  ghost predicate SentRow(s: State, e: string) { e in s.rows && s.rows[e].status.Sent? }

  /** A call that mailed e has a sent row to show for it, or there is no row and it is about to insert, or died. */
  ghost predicate MailOk(cfg: Config, s: State, t: nat, e: string)
    requires About(s, t, e)
  {
    var D := s.dels[t];
    && (D.mailed ==> SentRow(s, e) || D.pc.Inserting? || (e !in s.rows && D.inst < |s.insts| && !s.insts[D.inst].alive))
    && (D.pc.Sending? || D.pc.Inserting? ==> e !in s.rows)
  }

  /** Every call that mailed e has a sent row to show for it, once it is past its insert. */
  ghost predicate MailsHaveRows(cfg: Config, s: State, e: string) {
    OneNotifier(cfg, s) && forall t: nat :: About(s, t, e) ==> MailOk(cfg, s, t, e)
  }

  // -------------------------------------------------------- steps of a call

  /** A step of a call keeps what every other call is about. */
  lemma CallsKeepAbout(s: State, s': State, t: nat, u: nat, e: string)
    requires Stays(s, s', t)
    ensures About(s', u, e) <==> About(s, u, e)
    ensures About(s, u, e) ==> LineOf(s', u).queue == LineOf(s, u).queue
    ensures u < |s.dels| && u != t ==> u < |s'.dels| && s'.dels[u] == s.dels[u]
    ensures s'.insts == s.insts
  {
    hide RowsStand, MayClear;
  }

  /** A step of a call about another event. */
  lemma ForeignCallKeepsMailRows(cfg: Config, s: State, s': State, t: nat, e: string)
    requires MailsHaveRows(cfg, s, e) && Stays(s, s', t) && t < |s.dels| && !About(s, t, e)
    requires e in s'.rows ==> e in s.rows
    ensures MailsHaveRows(cfg, s', e)
  {
    assert e in s.rows ==> e in s'.rows && s'.rows[e] == s.rows[e];
    forall u: nat ensures About(s', u, e) <==> About(s, u, e)
                  ensures About(s, u, e) ==> s'.dels[u] == s.dels[u] && LineOf(s', u).queue == LineOf(s, u).queue
    {
      CallsKeepAbout(s, s', t, u, e);
    }
    hide Stays, About;
    forall u: nat | About(s', u, e) ensures MailOk(cfg, s', u, e) { assert MailOk(cfg, s, u, e); }
  }

  /** Call u neither is about to mail or insert, nor has mailed an event without a row. */
  ghost predicate Idles(s: State, u: nat, e: string)
    requires u < |s.dels|
  {
    !s.dels[u].pc.Sending? && !s.dels[u].pc.Inserting? && (e !in s.rows ==> !s.dels[u].mailed)
  }

  /** A step of a call about e that keeps the invariant of its own delivery. */
  lemma OwnCallKeepsMailRows(cfg: Config, s: State, s': State, t: nat, e: string)
    requires MailsHaveRows(cfg, s, e) && Stays(s, s', t) && About(s, t, e) && About(s', t, e)
    requires MailOk(cfg, s', t, e)
    requires s'.rows == s.rows || forall u: nat :: About(s, u, e) && u != t ==> Idles(s, u, e)
    ensures MailsHaveRows(cfg, s', e)
  {
    assert e in s.rows ==> e in s'.rows && s'.rows[e] == s.rows[e];
    forall u: nat ensures About(s', u, e) <==> About(s, u, e)
                  ensures About(s, u, e) && u != t ==>
                        s'.dels[u] == s.dels[u] && LineOf(s', u).queue == LineOf(s, u).queue
    {
      CallsKeepAbout(s, s', t, u, e);
    }
    hide Stays, About;
    forall u: nat | About(s', u, e) ensures MailOk(cfg, s', u, e) { if u != t { assert MailOk(cfg, s, u, e); } }
  }

  /** The notifying process is inside one call at a time. */
  lemma OneNotifyingCall(cfg: Config, s: State, t: nat, u: nat)
    requires Inv(cfg, s) && OneNotifier(cfg, s) && t < |s.dels| && u < |s.dels| && t != u
    requires s.dels[t].line < |s.lines| && LineOf(s, t).queue in cfg.notifies && Active(s.dels[t].pc)
    requires s.dels[u].line < |s.lines| && LineOf(s, u).queue in cfg.notifies
    ensures s.dels[u].inst == s.dels[t].inst && !Active(s.dels[u].pc)
    ensures s.dels[t].inst < |s.insts| && s.insts[s.dels[t].inst].alive
  {
    assert DelOk(cfg, s, t) && DelOk(cfg, s, u);
  }

  /** A call that is checking, sending, inserting or recording works for the notification service. */
  lemma NotifyingCall(cfg: Config, s: State, t: nat)
    requires Inv(cfg, s) && t < |s.dels|
    requires var pc := s.dels[t].pc; pc.Checking? || pc.Sending? || pc.Inserting? || pc.Recording?
    ensures s.dels[t].line < |s.lines| && LineOf(s, t).queue in cfg.notifies && LineOf(s, t).body.Event?
    ensures s.dels[t].pc.Inserting? ==> s.dels[t].mailed
  {
    assert DelOk(cfg, s, t);
  }

  /** No other call about e, on a queue of the notification service, is under way ... */
  lemma NoRival(cfg: Config, s: State, t: nat, e: string, u: nat)
    requires Inv(cfg, s) && MailsHaveRows(cfg, s, e) && About(s, t, e) && About(s, u, e) && u != t
    requires var pc := s.dels[t].pc; pc.Sending? || pc.Inserting? || pc.Recording?
    ensures Idles(s, u, e)
  {
    NotifyingCall(cfg, s, t);
    assert MailOk(cfg, s, u, e) && DelOk(cfg, s, u);
    if s.dels[u].pc.Sending? || s.dels[u].pc.Inserting? {
      NotifyingCall(cfg, s, u);
      OneNotifyingCall(cfg, s, t, u);
    } else if s.dels[u].mailed && e !in s.rows {
      OneNotifyingCall(cfg, s, t, u);
    }
  }

  /** A step that neither mails nor writes a row nor leads to either. */
  lemma PlainStepKeepsMailRows(cfg: Config, s: State, s': State, t: nat, e: string)
    requires MailsHaveRows(cfg, s, e) && Stays(s, s', t) && t < |s.dels| == |s'.dels| && s'.rows == s.rows
    requires s'.dels[t].mailed == s.dels[t].mailed && !s.dels[t].pc.Inserting?
    requires !s'.dels[t].pc.Inserting? && (s'.dels[t].pc.Sending? ==> !About(s, t, e) || e !in s.rows)
    ensures MailsHaveRows(cfg, s', e)
  {
    CallsKeepAbout(s, s', t, t, e);
    if About(s, t, e) {
      assert MailOk(cfg, s, t, e);
      assert s'.dels[t].inst == s.dels[t].inst;
      OwnCallKeepsMailRows(cfg, s, s', t, e);
    } else {
      ForeignCallKeepsMailRows(cfg, s, s', t, e);
    }
  }

  lemma CheckKeepsMailRows(cfg: Config, s: State, t: nat, fault: bool, e: string)
    requires MailsHaveRows(cfg, s, e) && At(s, t, Checking) && LineOf(s, t).body.Event?
    ensures MailsHaveRows(cfg, CheckRow(s, t, fault), e)
  {
    CheckMeans(s, t, fault);
    hide CheckRow, Stays, MailsHaveRows;
    PlainStepKeepsMailRows(cfg, s, CheckRow(s, t, fault), t, e);
  }

  lemma SendKeepsMailRows(cfg: Config, s: State, t: nat, sent: bool, e: string)
    requires Inv(cfg, s) && MailsHaveRows(cfg, s, e) && At(s, t, Sending)
    ensures MailsHaveRows(cfg, SendMail(s, t, sent), e)
  {
    var s' := SendMail(s, t, sent);
    SendMeans(s, t, sent);
    CallsKeepAbout(s, s', t, t, e);
    hide SendMail, Stays;
    if About(s, t, e) {
      NotifyingCall(cfg, s, t);
      assert MailOk(cfg, s, t, e);
      hide Inv;
      OwnCallKeepsMailRows(cfg, s, s', t, e);
    } else {
      ForeignCallKeepsMailRows(cfg, s, s', t, e);
    }
  }

  /** The event of an insert. */
  lemma CommitsOnlyItsOwn(s: State, t: nat, eventId: string, row: Row, db: Outcome, e: string)
    requires eventId != e
    ensures var rows := Commit(s, t, eventId, row, db).rows; e in rows ==> e in s.rows
  {
  }

  lemma InsertKeepsMailRows(cfg: Config, s: State, t: nat, db: Outcome, e: string)
    requires Inv(cfg, s) && MailsHaveRows(cfg, s, e) && At(s, t, Inserting)
    requires LineOf(s, t).body.Event? && LineOf(s, t).body.payload.Some?
    requires About(s, t, e) ==> !db.Refused?
    ensures MailsHaveRows(cfg, InsertSent(s, t, db), e)
  {
    var s' := InsertSent(s, t, db);
    var body := LineOf(s, t).body;
    InsertMeans(s, t, db);
    CallsKeepAbout(s, s', t, t, e);
    hide InsertSent, Stays;
    if About(s, t, e) {
      assert MailOk(cfg, s, t, e);
      forall u: nat | About(s, u, e) && u != t ensures Idles(s, u, e) { NoRival(cfg, s, t, e, u); }
      hide Inv;
      OwnCallKeepsMailRows(cfg, s, s', t, e);
    } else {
      CommitsOnlyItsOwn(s, t, body.eventId, Row(USER_CREATED, body.payload.value.email, Sent), db, e);
      ForeignCallKeepsMailRows(cfg, s, s', t, e);
    }
  }

  lemma RecordKeepsMailRows(cfg: Config, s: State, t: nat, db: Outcome, e: string)
    requires Inv(cfg, s) && MailsHaveRows(cfg, s, e) && At(s, t, Recording) && LineOf(s, t).body.Event?
    ensures MailsHaveRows(cfg, RecordFailed(s, t, db), e)
  {
    var s' := RecordFailed(s, t, db);
    var body := LineOf(s, t).body;
    RecordMeans(s, t, db);
    CallsKeepAbout(s, s', t, t, e);
    hide RecordFailed, Stays;
    if About(s, t, e) {
      NotifyingCall(cfg, s, t);
      assert MailOk(cfg, s, t, e);
      forall u: nat | About(s, u, e) && u != t ensures Idles(s, u, e) { NoRival(cfg, s, t, e, u); }
      assert DelOk(cfg, s, t);
      hide Inv;
      assert s'.dels[t].inst == s.dels[t].inst by { CallsKeepInst(s, s', t); }
      OwnCallKeepsMailRows(cfg, s, s', t, e);
    } else {
      CommitsOnlyItsOwn(s, t, body.eventId, Row(body.kind, Recipient(body), Failure), db, e);
      ForeignCallKeepsMailRows(cfg, s, s', t, e);
    }
  }

  lemma CallsKeepInst(s: State, s': State, t: nat)
    requires Stays(s, s', t) && t < |s.dels|
    ensures t < |s'.dels| && s'.dels[t].inst == s.dels[t].inst
  {
    hide RowsStand, MayClear;
  }

  lemma OtherCallsKeepMailRows(cfg: Config, s: State, a: Action, e: string)
    requires MailsHaveRows(cfg, s, e) && Enabled(cfg, s, a)
    requires a.Begin? || a.Answer? || a.Decide? || a.Park?
    ensures MailsHaveRows(cfg, Apply(cfg, s, a), e)
  {
    CallStepStays(cfg, s, a);
    OtherCallsMailNothing(cfg, s, a);
    hide MailsHaveRows, Stays, Apply, Enabled;
    PlainStepKeepsMailRows(cfg, s, Apply(cfg, s, a), a.tag, e);
  }

  lemma OtherCallsMailNothing(cfg: Config, s: State, a: Action)
    requires Enabled(cfg, s, a)
    requires a.Begin? || a.Answer? || a.Decide? || a.Park?
    ensures var s' := Apply(cfg, s, a); var t := a.tag;
            && t < |s.dels| == |s'.dels| && s'.rows == s.rows && s'.dels[t].mailed == s.dels[t].mailed
            && !s.dels[t].pc.Inserting? && !s'.dels[t].pc.Sending? && !s'.dels[t].pc.Inserting?
  {
    hide Stays, StartHandler, Answered, DecideRetry, ParkCopy;
    match a
    case Begin(t) => BeginMeans(cfg, s, t);
    case Answer(t, success) => AnswerMeans(s, t, success);
    case Decide(t) => DecideMeans(cfg, s, t);
    case Park(t, publish) => ParkMeans(s, t, publish);
  }

  // ------------------------------------------------- steps outside the calls

  /** A call only ever ends, or dies with its process. */
  ghost predicate Outside(s: State, s': State, u: nat)
    requires u < |s.dels| <= |s'.dels| && |s.insts| <= |s'.insts|
  {
    || s'.dels[u].pc == s.dels[u].pc
    || (s'.dels[u].pc.Finished? && !s.dels[u].pc.Inserting?)
    || (s'.dels[u].pc.Killed? && (s.dels[u].inst < |s.insts| ==> !s'.insts[s.dels[u].inst].alive))
  }

  lemma BrokerStepsLeaveTheCall(cfg: Config, s: State, a: Action, u: nat)
    requires Enabled(cfg, s, a) && !InCall(a) && u < |s.dels|
    ensures var s' := Apply(cfg, s, a); |s.dels| <= |s'.dels| && |s.insts| <= |s'.insts| && Outside(s, s', u)
  {
    hide Stays, SameHeaders, Copies, FreshAll, Settled, LoseDelivery;
  }

  lemma FrameKeepsAbout(cfg: Config, s: State, s': State, u: nat, e: string)
    requires Inv(cfg, s) && Frame(s, s')
    ensures u < |s.dels| ==> u < |s'.dels| && (About(s', u, e) <==> About(s, u, e))
    ensures About(s, u, e) ==> LineOf(s', u).queue == LineOf(s, u).queue
  {
    if u < |s.dels| { assert DelOk(cfg, s, u); }
  }

  lemma OutsideMailOk(cfg: Config, s: State, s': State, u: nat, e: string)
    requires Inv(cfg, s) && About(s, u, e) && About(s', u, e) && MailOk(cfg, s, u, e)
    requires Frame(s, s') && Outside(s, s', u)
    ensures MailOk(cfg, s', u, e)
  {
    assert DelOk(cfg, s, u);
  }

  lemma OutsideKeepsMailRows(cfg: Config, s: State, s': State, e: string)
    requires Inv(cfg, s) && MailsHaveRows(cfg, s, e) && Frame(s, s') && OneNotifier(cfg, s')
    requires forall u :: 0 <= u < |s.dels| ==> Outside(s, s', u)
    ensures MailsHaveRows(cfg, s', e)
  {
    forall u: nat ensures u < |s.dels| ==> u < |s'.dels| && (About(s', u, e) <==> About(s, u, e)) {
      FrameKeepsAbout(cfg, s, s', u, e);
    }
    forall u: nat | About(s', u, e) ensures MailOk(cfg, s', u, e) {
      if u < |s.dels| {
        FrameKeepsAbout(cfg, s, s', u, e);
        OutsideMailOk(cfg, s, s', u, e);
      }
    }
    hide Inv, MailOk, Outside;
  }

  /** The insert after e's mail failed, with no effect. */
  ghost predicate RefusesInsert(s: State, a: Action, e: string) { a.Insert? && About(s, a.tag, e) && a.db.Refused? }

  lemma StepKeepsMailRows(cfg: Config, s: State, a: Action, e: string)
    requires Inv(cfg, s) && MailsHaveRows(cfg, s, e) && Enabled(cfg, s, a) && !RefusesInsert(s, a, e)
    requires OneNotifier(cfg, Apply(cfg, s, a))
    ensures MailsHaveRows(cfg, Apply(cfg, s, a), e)
  {
    hide Inv, MailsHaveRows, OneNotifier, About, Outside, Stays, SameHeaders, StartHandler, CheckRow, SendMail,
      InsertSent, Answered, DecideRetry, RecordFailed, ParkCopy, SettleDelivery, CloseChannel, CrashProcess,
      Delivered, ExpireRetry;
    match a
    case Check(t, fault) => CheckKeepsMailRows(cfg, s, t, fault, e);
    case Send(t, sent) => SendKeepsMailRows(cfg, s, t, sent, e);
    case Insert(t, db) => InsertKeepsMailRows(cfg, s, t, db, e);
    case Record(t, db) => RecordKeepsMailRows(cfg, s, t, db, e);
    case _ =>
      if InCall(a) {
        OtherCallsKeepMailRows(cfg, s, a, e);
      } else {
        BrokerKeepsMailRows(cfg, s, a, e);
      }
  }

  lemma BrokerKeepsMailRows(cfg: Config, s: State, a: Action, e: string)
    requires Inv(cfg, s) && MailsHaveRows(cfg, s, e) && Enabled(cfg, s, a) && !InCall(a)
    requires OneNotifier(cfg, Apply(cfg, s, a))
    ensures MailsHaveRows(cfg, Apply(cfg, s, a), e)
  {
    hide Inv, MailsHaveRows, OneNotifier, Outside, Apply, Enabled;
    var s' := Apply(cfg, s, a);
    BrokerFrame(cfg, s, a);
    forall u | 0 <= u < |s.dels| ensures |s.dels| <= |s'.dels| && |s.insts| <= |s'.insts| && Outside(s, s', u) {
      BrokerStepsLeaveTheCall(cfg, s, a, u);
    }
    OutsideKeepsMailRows(cfg, s, s', e);
  }

  // ------------------------------------------------------------------- runs

  /** Whether the run refuses an insert after a mail of e. */
  ghost predicate InsertRefused(cfg: Config, s: State, run: seq<Action>, e: string)
    requires Legal(cfg, s, run)
    decreases |run|
  {
    run != [] && (RefusesInsert(s, run[0], e) || InsertRefused(cfg, Apply(cfg, s, run[0]), run[1..], e))
  }

  /** Processes keep their queues, and the dead still count. */
  lemma InstsStay(cfg: Config, s: State, a: Action)
    requires Enabled(cfg, s, a)
    ensures var s' := Apply(cfg, s, a);
            |s.insts| <= |s'.insts| && forall i :: 0 <= i < |s.insts| ==> s'.insts[i].queue == s.insts[i].queue
  {
    hide Apply, Enabled;
    if InCall(a) {
      CallStepStays(cfg, s, a);
      CallsKeepAbout(s, Apply(cfg, s, a), a.tag, 0, "");
    } else {
      BrokerFrame(cfg, s, a);
    }
  }

  lemma {:induction false} OneNotifierThroughout(cfg: Config, s: State, run: seq<Action>)
    requires Legal(cfg, s, run) && OneNotifier(cfg, After(cfg, s, run))
    ensures OneNotifier(cfg, s)
    decreases |run|
  {
    hide Apply, Enabled;
    if run != [] {
      OneNotifierThroughout(cfg, Apply(cfg, s, run[0]), run[1..]);
      InstsStay(cfg, s, run[0]);
    }
  }

  lemma {:induction false} RunKeepsMailRows(cfg: Config, s: State, run: seq<Action>, e: string)
    requires ValidConfig(cfg) && Good(cfg, s) && MailsHaveRows(cfg, s, e) && Legal(cfg, s, run)
    requires !InsertRefused(cfg, s, run, e) && OneNotifier(cfg, After(cfg, s, run))
    ensures MailsHaveRows(cfg, After(cfg, s, run), e)
    decreases |run|
  {
    if run != [] {
      assert Inv(cfg, s);
      hide Apply, Enabled, Good, Inv, MailsHaveRows, RefusesInsert, OneNotifier;
      OneNotifierThroughout(cfg, Apply(cfg, s, run[0]), run[1..]);
      StepKeepsGood(cfg, s, run[0]);
      StepKeepsMailRows(cfg, s, run[0], e);
      RunKeepsMailRows(cfg, Apply(cfg, s, run[0]), run[1..], e);
    }
  }

  // ------------------------------------------------- what a failed row tells

  /** A mail is never forgotten. */
  lemma MailsStay(cfg: Config, s: State, a: Action, t: nat, e: string)
    requires Inv(cfg, s) && Enabled(cfg, s, a) && t in MailedBy(s, e)
    ensures t in MailedBy(Apply(cfg, s, a), e)
  {
    if InCall(a) { CallMailsStay(cfg, s, a, t); }
    hide Apply, Enabled;
    if InCall(a) {
      CallStepStays(cfg, s, a);
      CallsKeepAbout(s, Apply(cfg, s, a), a.tag, t, e);
    } else {
      BrokerFrame(cfg, s, a);
      FrameKeepsAbout(cfg, s, Apply(cfg, s, a), t, e);
    }
  }

  lemma CallMailsStay(cfg: Config, s: State, a: Action, t: nat)
    requires Enabled(cfg, s, a) && InCall(a) && t < |s.dels| && s.dels[t].mailed
    ensures t < |Apply(cfg, s, a).dels| && Apply(cfg, s, a).dels[t].mailed
  {
    CallStepStays(cfg, s, a);
    CallsKeepAbout(s, Apply(cfg, s, a), a.tag, t, "");
    hide Stays, StartHandler, CheckRow, SendMail, InsertSent, Answered, DecideRetry, RecordFailed, ParkCopy;
    match a
    case Begin(u) => BeginMeans(cfg, s, u);
    case Check(u, fault) => CheckMeans(s, u, fault);
    case Send(u, sent) => SendMeans(s, u, sent);
    case Insert(u, db) => InsertMeans(s, u, db);
    case Answer(u, success) => AnswerMeans(s, u, success);
    case Decide(u) => DecideMeans(cfg, s, u);
    case Record(u, db) => RecordMeans(s, u, db);
    case Park(u, publish) => ParkMeans(s, u, publish);
  }

  lemma {:induction false} RunMailsStay(cfg: Config, s: State, run: seq<Action>, t: nat, e: string)
    requires ValidConfig(cfg) && Good(cfg, s) && Legal(cfg, s, run) && t in MailedBy(s, e)
    ensures t in MailedBy(After(cfg, s, run), e)
    decreases |run|
  {
    if run != [] {
      assert Inv(cfg, s);
      hide Apply, Enabled, Good, Inv, MailedBy;
      StepKeepsGood(cfg, s, run[0]);
      MailsStay(cfg, s, run[0], t, e);
      RunMailsStay(cfg, Apply(cfg, s, run[0]), run[1..], t, e);
    }
  }

  /** A refused insert had mailed. */
  lemma {:induction false} RefusedWasMailed(cfg: Config, s: State, run: seq<Action>, e: string) returns (t: nat)
    requires ValidConfig(cfg) && Good(cfg, s) && Legal(cfg, s, run) && InsertRefused(cfg, s, run, e)
    ensures t in MailedBy(After(cfg, s, run), e)
    decreases |run|
  {
    if RefusesInsert(s, run[0], e) {
      t := run[0].tag;
      assert DelOk(cfg, s, t);
      assert t in MailedBy(s, e);
      hide *;
      RunMailsStay(cfg, s, run, t, e);
    } else {
      hide Apply, Enabled, Good, MailedBy, RefusesInsert;
      StepKeepsGood(cfg, s, run[0]);
      t := RefusedWasMailed(cfg, Apply(cfg, s, run[0]), run[1..], e);
    }
  }

  /** What its documentation says of a failed row, that no mail went out, holds - with one notifying process, and even
      if that has died - if and only if none of the event's inserts was refused. */
  lemma FailedRowIsTrueIff(cfg: Config, run: seq<Action>, e: string)
    requires ValidConfig(cfg) && Legal(cfg, EMPTY, run)
    requires var s := After(cfg, EMPTY, run);
             && OneNotifier(cfg, s)
             && e in s.rows && s.rows[e].status.Failure?
    ensures MailedBy(After(cfg, EMPTY, run), e) == {} <==> !InsertRefused(cfg, EMPTY, run, e)
  {
    StartIsGood(cfg);
    if InsertRefused(cfg, EMPTY, run, e) {
      var t := RefusedWasMailed(cfg, EMPTY, run, e);
    } else {
      RunKeepsMailRows(cfg, EMPTY, run, e);
      RunKeepsGood(cfg, EMPTY, run);
      var s := After(cfg, EMPTY, run);
      forall t | t in MailedBy(s, e) ensures SentRow(s, e) { MailedHasSentRow(cfg, s, t, e); }
    }
  }

  lemma MailedHasSentRow(cfg: Config, s: State, t: nat, e: string)
    requires Good(cfg, s) && MailsHaveRows(cfg, s, e) && t in MailedBy(s, e) && e in s.rows
    ensures SentRow(s, e)
  {
    assert MailOk(cfg, s, t, e) && DelOk(cfg, s, t);
  }
}
