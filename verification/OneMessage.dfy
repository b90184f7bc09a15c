// One copy of a message among any other traffic: what the rest of the system can do to it, and how it moves.
module OneMessage {
  import opened XDeath
  import opened Bus
  import opened BusInvariant
  import opened BusTally

  /** Where the copy is, and how far the call that holds it has got. */
  datatype Spot = Queued | Held(pc: Pc) | Delayed | Done(fate: Fate)

  datatype View = View(spot: Spot, row: bool, letters: nat, requeues: nat, inherited: nat)

  ghost function SpotOf(s: State, place: Place): Spot {
    match place
    case Ready => Queued
    case Waiting => Delayed
    case Gone(fate) => Done(fate)
    case Unacked(t) => Held(if t < |s.dels| then s.dels[t].pc else Finished)
  }

  /** All that the rest of this module says about copy l. */
  ghost function ViewOf(s: State, l: nat): View
    requires l < |s.lines|
  {
    var L := s.lines[l];
    View(SpotOf(s, L.place), HasRow(s, L.body), Letters(s.dlq, l), L.requeues, L.inherited)
  }

  /** The copy is held under this delivery. A call that outlived its channel holds nothing. */
  ghost predicate HeldUnder(s: State, t: nat, l: nat) {
    t < |s.dels| && s.dels[t].line == l && l < |s.lines| && s.lines[l].place == Unacked(t)
  }

  /** The action is an effect on copy l, or of the call that holds it. */
  ghost predicate Concerns(s: State, a: Action, l: nat) {
    match a
    case Deliver(k, _) => k == l
    case Expire(k) => k == l
    case Publish(_, _) => false
    case Connect(_) => false
    case Close(_) => false
    case Crash(_) => false
    case _ => HeldUnder(s, a.tag, l)
  }

  /** The channel or process that holds the copy ends. */
  ghost predicate Loses(s: State, a: Action, l: nat) {
    && (a.Close? || a.Crash?) && l < |s.lines| && s.lines[l].place.Unacked?
    && s.lines[l].place.tag < |s.dels| && s.dels[s.lines[l].place.tag].inst == a.inst
  }

  ghost predicate Affects(s: State, a: Action, l: nat) { Concerns(s, a, l) || Loses(s, a, l) }

  ghost predicate TookEffect(outcome: Outcome) { !outcome.Refused? }

  /** What an effect on a copy of this queue and body does to it. */
  ghost predicate Moves(cfg: Config, L: Line, v: View, a: Action, v': View) {
    match a
    case Deliver(_, _) => v.spot == Queued && v' == v.(spot := Held(Buffered))
    case Expire(_) => v.spot == Delayed && v' == v.(spot := Queued)
    case Begin(_) => v.spot == Held(Buffered) && v' == v.(spot := Held(FirstStep(cfg, L)))
    case Check(_, fault) =>
      && v.spot == Held(Checking)
      && v' == v.(spot := Held(if fault then Failed else if v.row then Acking(Handled) else Sending))
    case Send(_, sent) => v.spot == Held(Sending) && v' == v.(spot := Held(if sent then Inserting else Failed))
    case Insert(_, db) =>
      && v.spot == Held(Inserting)
      && v' == v.(spot := Held(if db.Ok? then Acking(Handled) else Failed), row := v.row || TookEffect(db))
    case Answer(_, success) =>
      v.spot == Held(Foreign) && v' == v.(spot := Held(if success then Acking(Handled) else Failed))
    case Decide(_) =>
      && v.spot == Held(Failed) && v' == v.(spot := v'.spot)
      && v'.spot in {Held(Rejecting), Held(if L.queue in cfg.notifies then Recording else Parking)}
    case Record(_, db) => v.spot == Held(Recording) && v' == v.(spot := Held(Parking), row := v.row || TookEffect(db))
    case Park(_, publish) =>
      && v.spot == Held(Parking)
      && v' == v.(spot := Held(if publish.Ok? then Acking(Parked) else Requeueing),
                  letters := v.letters + if TookEffect(publish) then 1 else 0)
    case Settle(_, false) => v.spot.Held? && Settling(v.spot.pc) && v' == v.(spot := Held(Finished))
    case Settle(_, true) =>
      || (v.spot == Held(Rejecting) && v' == v.(spot := Delayed))
      || (v.spot == Held(Requeueing) && v' == v.(spot := Queued, requeues := v.requeues + 1))
      || (v.spot.Held? && v.spot.pc.Acking? && v' == v.(spot := Done(v.spot.pc.fate)))
    case Close(_) => v.spot.Held? && v' == v.(spot := Queued, requeues := v.requeues + 1)
    case Crash(_) => v.spot.Held? && v' == v.(spot := Queued, requeues := v.requeues + 1)
    case _ => false
  }

  /** What anything else does to it: its event may get a row. */
  ghost predicate Stands(v: View, v': View) { v' == v.(row := v'.row) && (v.row ==> v'.row) }

  // ------------------------------------------------- effects of its own call

  lemma CallView(s: State, s': State, t: nat, l: nat)
    requires HeldUnder(s, t, l) && Stays(s, s', t)
    ensures l < |s'.lines| && t < |s'.dels| && ViewOf(s, l).spot == Held(s.dels[t].pc)
    ensures var L := s.lines[l];
            ViewOf(s', l)
            == View(Held(s'.dels[t].pc), HasRow(s', L.body), Letters(s'.dlq, l), L.requeues, L.inherited)
  {
    hide HasRow, Letters, MayClear, RowsStand;
  }

  lemma InsertMoves(cfg: Config, s: State, t: nat, db: Outcome, l: nat)
    requires HeldUnder(s, t, l) && Enabled(cfg, s, Insert(t, db))
    ensures var s' := InsertSent(s, t, db);
            l < |s'.lines| && Moves(cfg, s.lines[l], ViewOf(s, l), Insert(t, db), ViewOf(s', l))
  {
    InsertMeans(s, t, db);
    CallView(s, InsertSent(s, t, db), t, l);
    hide Stays, InsertSent, Letters;
  }

  lemma RecordMoves(cfg: Config, s: State, t: nat, db: Outcome, l: nat)
    requires HeldUnder(s, t, l) && Enabled(cfg, s, Record(t, db))
    ensures var s' := RecordFailed(s, t, db);
            l < |s'.lines| && Moves(cfg, s.lines[l], ViewOf(s, l), Record(t, db), ViewOf(s', l))
  {
    RecordMeans(s, t, db);
    CallView(s, RecordFailed(s, t, db), t, l);
    hide Stays, RecordFailed, Letters, Recipient;
  }

  lemma ParkMoves(cfg: Config, s: State, t: nat, publish: Outcome, l: nat)
    requires HeldUnder(s, t, l) && Enabled(cfg, s, Park(t, publish))
    ensures var s' := ParkCopy(s, t, publish);
            l < |s'.lines| && Moves(cfg, s.lines[l], ViewOf(s, l), Park(t, publish), ViewOf(s', l))
  {
    var letter := Letter(LineOf(s, t).queue, s.dels[t].line, LineOf(s, t).body);
    ParkMeans(s, t, publish);
    LettersAppend(s.dlq, letter, l);
    CallView(s, ParkCopy(s, t, publish), t, l);
    hide Stays, ParkCopy, Letters;
  }

  /** The effects that write neither a row nor a letter. */
  lemma PlainCallMoves(cfg: Config, s: State, a: Action, l: nat)
    requires Enabled(cfg, s, a) && InCall(a) && HeldUnder(s, a.tag, l) && !a.Insert? && !a.Record? && !a.Park?
    ensures var s' := Apply(cfg, s, a);
            l < |s'.lines| && Moves(cfg, s.lines[l], ViewOf(s, l), a, ViewOf(s', l))
  {
    CallStepStays(cfg, s, a);
    CallView(s, Apply(cfg, s, a), a.tag, l);
    hide Stays, StartHandler, CheckRow, SendMail, Answered, DecideRetry, FirstStep, RetriesSeen, Letters, Limit;
    match a
    case Begin(t) => BeginMeans(cfg, s, t);
    case Check(t, fault) => CheckMeans(s, t, fault);
    case Send(t, sent) => SendMeans(s, t, sent);
    case Answer(t, success) => AnswerMeans(s, t, success);
    case Decide(t) => DecideMeans(cfg, s, t);
  }

  lemma CallMoves(cfg: Config, s: State, a: Action, l: nat)
    requires Enabled(cfg, s, a) && InCall(a) && HeldUnder(s, a.tag, l)
    ensures var s' := Apply(cfg, s, a);
            l < |s'.lines| && Moves(cfg, s.lines[l], ViewOf(s, l), a, ViewOf(s', l))
  {
    hide Moves, ViewOf, InsertSent, RecordFailed, ParkCopy, HeldUnder, Enabled;
    if a.Insert? {
      InsertMoves(cfg, s, a.tag, a.db, l);
    } else if a.Record? {
      RecordMoves(cfg, s, a.tag, a.db, l);
    } else if a.Park? {
      ParkMoves(cfg, s, a.tag, a.publish, l);
    } else {
      PlainCallMoves(cfg, s, a, l);
    }
  }

  // ------------------------------------------------ effects of the broker on it

  lemma SettleMoves(cfg: Config, s: State, t: nat, success: bool, l: nat)
    requires HeldUnder(s, t, l) && Settling(s.dels[t].pc)
    ensures var s' := SettleDelivery(s, t, success);
            l < |s'.lines| && Moves(cfg, s.lines[l], ViewOf(s, l), Settle(t, success), ViewOf(s', l))
  {
    if success { SettlesTo(s, t); }
    hide Letters, Bump, Stays;
  }

  lemma DeliverMoves(cfg: Config, s: State, i: nat, l: nat)
    requires l < |s.lines| && s.lines[l].place == Ready
    ensures var s' := Delivered(s, l, i);
            l < |s'.lines| && Moves(cfg, s.lines[l], ViewOf(s, l), Deliver(l, i), ViewOf(s', l))
  {
    hide Letters;
  }

  lemma ExpireMoves(cfg: Config, s: State, l: nat)
    requires l < |s.lines| && s.lines[l].place == Waiting && s.lines[l].queue in cfg.routes
    ensures var s' := ExpireRetry(cfg, s, l);
            l < |s'.lines| && Moves(cfg, s.lines[l], ViewOf(s, l), Expire(l), ViewOf(s', l))
  {
    hide Letters, Bump, Without1;
  }

  lemma CloseMoves(cfg: Config, s: State, i: nat, l: nat)
    requires i < |s.insts| && Loses(s, Close(i), l)
    ensures var s' := CloseChannel(s, i);
            l < |s'.lines| && Moves(cfg, s.lines[l], ViewOf(s, l), Close(i), ViewOf(s', l))
  {
    hide Letters;
  }

  lemma CrashMoves(cfg: Config, s: State, i: nat, l: nat)
    requires i < |s.insts| && Loses(s, Crash(i), l)
    ensures var s' := CrashProcess(s, i);
            l < |s'.lines| && Moves(cfg, s.lines[l], ViewOf(s, l), Crash(i), ViewOf(s', l))
  {
    hide Letters;
  }

  lemma BrokerMoves(cfg: Config, s: State, a: Action, l: nat)
    requires l < |s.lines| && Enabled(cfg, s, a) && !InCall(a) && Affects(s, a, l)
    ensures var s' := Apply(cfg, s, a);
            l < |s'.lines| && Moves(cfg, s.lines[l], ViewOf(s, l), a, ViewOf(s', l))
  {
    hide Moves, ViewOf, HeldUnder, SettleDelivery, ExpireRetry, Delivered, CloseChannel, CrashProcess, Stays;
    match a
    case Deliver(_, i) => DeliverMoves(cfg, s, i, l);
    case Expire(_) => ExpireMoves(cfg, s, l);
    case Settle(t, success) => SettleMoves(cfg, s, t, success, l);
    case Close(i) => CloseMoves(cfg, s, i, l);
    case Crash(i) => CrashMoves(cfg, s, i, l);
    case Publish(_, _) => assert false;
    case Connect(_) => assert false;
  }

  // ------------------------------------------------------ effects elsewhere

  /** Another call, of this copy or another, leaves the copy and its letters alone. */
  lemma CallsElsewhere(cfg: Config, s: State, a: Action, l: nat)
    requires Inv(cfg, s) && l < |s.lines| && Enabled(cfg, s, a) && InCall(a) && !HeldUnder(s, a.tag, l)
    ensures l < |Apply(cfg, s, a).lines| && Stands(ViewOf(s, l), ViewOf(Apply(cfg, s, a), l))
  {
    LettersElsewhere(cfg, s, a, l);
    CallStepStays(cfg, s, a);
    assert LineOk(cfg, s, l);
    hide Enabled, Apply, Letters, MayClear, Inv, SameHeaders;
  }

  lemma LettersElsewhere(cfg: Config, s: State, a: Action, l: nat)
    requires Inv(cfg, s) && Enabled(cfg, s, a) && InCall(a) && !HeldUnder(s, a.tag, l)
    ensures Letters(Apply(cfg, s, a).dlq, l) == Letters(s.dlq, l)
  {
    assert a.Park? && s.dels[a.tag].line == l ==> a.publish.Refused? by { assert DelOk(cfg, s, a.tag); }
    hide Inv, Stays, HeldUnder, RetriesSeen, FirstStep, Checked, Decided, StartHandler, CheckRow, SendMail, InsertSent,
      Answered, DecideRetry, RecordFailed, ParkCopy, Letters, Commit, Recipient;
    match a
    case Begin(t) => BeginMeans(cfg, s, t);
    case Check(t, fault) => CheckMeans(s, t, fault);
    case Send(t, sent) => SendMeans(s, t, sent);
    case Insert(t, db) => InsertMeans(s, t, db);
    case Answer(t, success) => AnswerMeans(s, t, success);
    case Decide(t) => DecideMeans(cfg, s, t);
    case Record(t, db) => RecordMeans(s, t, db);
    case Park(t, publish) =>
      ParkMeans(s, t, publish);
      LettersAppend(s.dlq, Letter(LineOf(s, t).queue, s.dels[t].line, LineOf(s, t).body), l);
  }

  lemma BrokerElsewhere(cfg: Config, s: State, a: Action, l: nat)
    requires Inv(cfg, s) && l < |s.lines| && Enabled(cfg, s, a) && !InCall(a) && !Affects(s, a, l)
    ensures l < |Apply(cfg, s, a).lines| && ViewOf(Apply(cfg, s, a), l) == ViewOf(s, l)
  {
    assert LineOk(cfg, s, l);
    hide Inv, LineOk, ViewOf, SettleDelivery, ExpireRetry, Delivered, CloseChannel, CrashProcess, FreshAll, Stays;
    match a
    case Settle(t, success) => SettleElsewhere(cfg, s, t, success, l);
    case Expire(k) => ExpireElsewhere(cfg, s, k, l);
    case Deliver(k, i) => DeliverElsewhere(cfg, s, k, i, l);
    case Publish(body, targets) => PublishElsewhere(cfg, s, FreshAll(body, targets), l);
    case Connect(q) => ConnectElsewhere(cfg, s, s.insts + [Inst(q, true, true)], l);
    case Close(i) => CloseElsewhere(cfg, s, i, l);
    case Crash(i) => CrashElsewhere(cfg, s, i, l);
  }

  lemma SettleElsewhere(cfg: Config, s: State, t: nat, success: bool, l: nat)
    requires l < |s.lines| && LineOk(cfg, s, l) && Enabled(cfg, s, Settle(t, success)) && !HeldUnder(s, t, l)
    ensures var s' := SettleDelivery(s, t, success); l < |s'.lines| && ViewOf(s', l) == ViewOf(s, l)
  {
    hide Stays, Letters, Settled, History;
  }

  lemma ExpireElsewhere(cfg: Config, s: State, k: nat, l: nat)
    requires l < |s.lines| && LineOk(cfg, s, l) && k < |s.lines| && s.lines[k].queue in cfg.routes && k != l
    ensures var s' := ExpireRetry(cfg, s, k); l < |s'.lines| && ViewOf(s', l) == ViewOf(s, l)
  {
    hide Letters, Without1, History;
  }

  lemma DeliverElsewhere(cfg: Config, s: State, k: nat, i: nat, l: nat)
    requires l < |s.lines| && LineOk(cfg, s, l) && k < |s.lines| && k != l
    ensures var s' := Delivered(s, k, i); l < |s'.lines| && ViewOf(s', l) == ViewOf(s, l)
  {
    hide Letters, History;
  }

  lemma PublishElsewhere(cfg: Config, s: State, more: seq<Line>, l: nat)
    requires l < |s.lines|
    ensures var s' := s.(lines := s.lines + more); l < |s'.lines| && ViewOf(s', l) == ViewOf(s, l)
  {
    hide Letters;
  }

  lemma ConnectElsewhere(cfg: Config, s: State, insts: seq<Inst>, l: nat)
    requires l < |s.lines|
    ensures ViewOf(s.(insts := insts), l) == ViewOf(s, l)
  {
    hide Letters;
  }

  lemma CloseElsewhere(cfg: Config, s: State, i: nat, l: nat)
    requires l < |s.lines| && LineOk(cfg, s, l) && i < |s.insts| && !Loses(s, Close(i), l)
    ensures var s' := CloseChannel(s, i); l < |s'.lines| && ViewOf(s', l) == ViewOf(s, l)
  {
    hide Letters, History;
  }

  lemma CrashElsewhere(cfg: Config, s: State, i: nat, l: nat)
    requires l < |s.lines| && LineOk(cfg, s, l) && i < |s.insts| && !Loses(s, Crash(i), l)
    ensures var s' := CrashProcess(s, i); l < |s'.lines| && ViewOf(s', l) == ViewOf(s, l)
  {
    hide Letters, History;
  }

  /** Whatever step is taken, by anyone, a copy moves by the effects of the call that holds it, by those of the broker
      on it, and by the loss of its delivery; all that anything else can do is to give its event a row. */
  lemma StepMoves(cfg: Config, s: State, a: Action, l: nat)
    requires Inv(cfg, s) && l < |s.lines| && Enabled(cfg, s, a)
    ensures var s' := Apply(cfg, s, a);
            && l < |s'.lines|
            && if Affects(s, a, l) then Moves(cfg, s.lines[l], ViewOf(s, l), a, ViewOf(s', l))
               else Stands(ViewOf(s, l), ViewOf(s', l))
  {
    assert InCall(a) ==> (Affects(s, a, l) <==> HeldUnder(s, a.tag, l));
    hide Inv, Enabled, Apply, Affects, HeldUnder, Moves, ViewOf;
    if InCall(a) {
      if Affects(s, a, l) { CallMoves(cfg, s, a, l); } else { CallsElsewhere(cfg, s, a, l); }
    } else {
      if Affects(s, a, l) { BrokerMoves(cfg, s, a, l); } else { BrokerElsewhere(cfg, s, a, l); }
    }
  }
}
