// What one call of Consumer.handle does, from the delivery to its ack or nack, when nothing gets in its way: its
// effects in order, and what they come to.
module Undisturbed {
  import opened XDeath
  import opened Bus
  import opened BusInvariant

  /** The effects of HandleUserCreated. */
  function UndisturbedNotify(recorded: bool, tag: nat): seq<Action> {
    [Check(tag, false)] + if recorded then [] else [Send(tag, true), Insert(tag, Ok)]
  }

  function UndisturbedPark(up: bool, tag: nat): seq<Action> {
    [Park(tag, if up then Ok else Refused), Settle(tag, up)]
  }

  /** The effects that follow a failed handler run. */
  function UndisturbedFailure(cfg: Config, queue: string, retries: int, up: bool, tag: nat): seq<Action> {
    [Decide(tag)]
    + if retries < Limit(cfg, queue) then [Settle(tag, up)]
      else (if queue in cfg.notifies then [Record(tag, Ok)] else []) + UndisturbedPark(up, tag)
  }

  /** The effects of handle, in order. */
  function Effects(cfg: Config, line: Line, recorded: bool, retries: int, up: bool, tag: nat): seq<Action> {
    if line.body.Garbage? then [Begin(tag), Settle(tag, up)]
    else if line.queue !in cfg.notifies then [Begin(tag), Answer(tag, true), Settle(tag, up)]
    else if line.body.payload.None? then [Begin(tag)] + UndisturbedFailure(cfg, line.queue, retries, up, tag)
    else [Begin(tag)] + (UndisturbedNotify(recorded, tag) + [Settle(tag, up)])
  }

  lemma EffectsOfHandle(cfg: Config, line: Line, recorded: bool, retries: int, up: bool, tag: nat)
    ensures Effects(cfg, line, recorded, retries, up, tag) == [Begin(tag)] +
              (if line.body.Garbage? then [Settle(tag, up)]
               else if line.queue !in cfg.notifies then [Answer(tag, true), Settle(tag, up)]
               else if line.body.payload.None? then UndisturbedFailure(cfg, line.queue, retries, up, tag)
               else UndisturbedNotify(recorded, tag) + [Settle(tag, up)])
  {
  }

  // ----------------------------------------------------- what they come to

  /** The copy of delivery t has gone to this place, and rows, DLQ and mail are so; no other copy or delivery moved. */
  ghost predicate Leaves(s: State, s': State, t: nat, place: Place, mailed: bool, rows: map<string, Row>,
          dlq: seq<Letter>)
  {
    && t < |s.dels| == |s'.dels| && s.dels[t].line < |s.lines| == |s'.lines|
    && s'.dels[t].pc == Finished && s'.dels[t].mailed == mailed && s'.rows == rows && s'.dlq == dlq
    && s'.lines[s.dels[t].line].place == place
    && (forall l :: 0 <= l < |s.lines| ==> s'.lines[l].queue == s.lines[l].queue && s'.lines[l].body == s.lines[l].body)
    && (forall l :: 0 <= l < |s.lines| && l != s.dels[t].line ==> s'.lines[l].place == s.lines[l].place)
    && (forall u :: 0 <= u < |s.dels| && u != t ==> s'.dels[u] == s.dels[u])
    && s'.insts == s.insts
  }

  /** What does not decode is dropped. What another service's handler takes, or has a row already, is acknowledged and
      that is all. A first user.created event is mailed, its row says so, with its address, and it is acknowledged. One
      whose payload does not decode waits in the retry queue if the retries read from its headers are fewer than
      maxRetries; if not, its failure is recorded, unless it has a row, its body is put on the DLQ, and it is
      acknowledged. */
  ghost predicate ComesTo(cfg: Config, s: State, s': State, t: nat)
    requires t < |s.dels| && s.dels[t].line < |s.lines|
  {
    var l, mailed := s.dels[t].line, s.dels[t].mailed;
    var queue := s.lines[l].queue;
    var limit := if queue in cfg.max then cfg.max[queue] else 0;
    match s.lines[l].body
    case Garbage(_) => Leaves(s, s', t, Gone(Dropped), mailed, s.rows, s.dlq)
    case Event(e, kind, payload) =>
      if queue !in cfg.notifies || (payload.Some? && e in s.rows) then
        Leaves(s, s', t, Gone(Handled), mailed, s.rows, s.dlq)
      else if payload.Some? then
        Leaves(s, s', t, Gone(Handled), true, s.rows[e := Row("user.created", payload.value.email, Sent)], s.dlq)
      else if Retries(HeadersOf(s.dels[t].deaths), queue + ".retry") < limit then
        Leaves(s, s', t, Waiting, mailed, s.rows, s.dlq)
      else
        Leaves(s, s', t, Gone(Parked), mailed, if e in s.rows then s.rows else s.rows[e := Row(kind, "", Failure)],
               s.dlq + [Letter(queue, l, Event(e, kind, payload))])
  }

  /** Call t has got from s to here, and not settled yet. */
  ghost predicate Stage(s: State, now: State, t: nat, pc: Pc, mailed: bool, rows: map<string, Row>, dlq: seq<Letter>) {
    && t < |s.dels| == |now.dels| && s.dels[t].line < |s.lines| == |now.lines|
    && now.dels[t].pc == pc && now.dels[t].mailed == mailed && now.rows == rows && now.dlq == dlq
    && now.dels[t].line == s.dels[t].line && now.dels[t].inst == s.dels[t].inst
    && now.dels[t].deaths == s.dels[t].deaths
    && (forall l :: 0 <= l < |s.lines| ==>
          && now.lines[l].queue == s.lines[l].queue && now.lines[l].body == s.lines[l].body
          && now.lines[l].place == s.lines[l].place)
    && (forall u :: 0 <= u < |s.dels| && u != t ==> now.dels[u] == s.dels[u])
    && now.insts == s.insts
  }

  lemma Peel(cfg: Config, s: State, a: Action, rest: seq<Action>)
    requires Legal(cfg, s, [a] + rest)
    ensures Enabled(cfg, s, a) && Legal(cfg, Apply(cfg, s, a), rest)
    ensures After(cfg, s, [a] + rest) == After(cfg, Apply(cfg, s, a), rest)
  {
    hide Enabled, Apply;
    assert ([a] + rest)[1..] == rest;
  }

  lemma StaysAtStage(s: State, now: State, next: State, t: nat, pc: Pc, mailed: bool, rows: map<string, Row>,
                     dlq: seq<Letter>)
    requires t < |now.dels| && Stage(s, now, t, now.dels[t].pc, now.dels[t].mailed, now.rows, now.dlq)
    requires Stays(now, next, t) && Effect(now, next, t, pc, mailed, rows, dlq)
    ensures Stage(s, next, t, pc, mailed, rows, dlq)
  {
    hide MayClear, RowsStand;
  }

  lemma SettledLeaves(s: State, now: State, t: nat)
    requires t < |now.dels| && Settling(now.dels[t].pc) && now.dels[t].line < |now.lines|
    requires Stage(s, now, t, now.dels[t].pc, now.dels[t].mailed, now.rows, now.dlq)
    ensures var place := match now.dels[t].pc case Rejecting => Waiting case Requeueing => Ready
                         case Acking(fate) => Gone(fate);
            Leaves(s, SettleDelivery(now, t, true), t, place, now.dels[t].mailed, now.rows, now.dlq)
  {
    SettlesTo(now, t);
    hide SettleDelivery;
  }

  lemma SettlingLeaves(cfg: Config, s: State, now: State, t: nat, pc: Pc, mailed: bool, rows: map<string, Row>,
                       dlq: seq<Letter>)
    requires Stage(s, now, t, pc, mailed, rows, dlq) && Legal(cfg, now, [Settle(t, true)])
    ensures Settling(pc)
    ensures var place := match pc case Rejecting => Waiting case Requeueing => Ready case Acking(fate) => Gone(fate);
            Leaves(s, After(cfg, now, [Settle(t, true)]), t, place, mailed, rows, dlq)
  {
    assert [Settle(t, true)][1..] == [];
    SettledLeaves(s, now, t);
    hide Leaves, Stage, SettleDelivery;
  }

  lemma Begins(cfg: Config, s: State, t: nat)
    requires Enabled(cfg, s, Begin(t))
    ensures Stage(s, Apply(cfg, s, Begin(t)), t, FirstStep(cfg, LineOf(s, t)), s.dels[t].mailed, s.rows, s.dlq)
  {
    CallStepStays(cfg, s, Begin(t));
    BeginMeans(cfg, s, t);
    hide Stays, Effect, StartHandler, FirstStep;
    assert Stage(s, s, t, s.dels[t].pc, s.dels[t].mailed, s.rows, s.dlq);
    StaysAtStage(s, s, Apply(cfg, s, Begin(t)), t, FirstStep(cfg, LineOf(s, t)), s.dels[t].mailed, s.rows, s.dlq);
  }

  /** One effect of the call. */
  lemma Stepped(cfg: Config, s: State, now: State, a: Action, t: nat, pc: Pc, mailed: bool, rows: map<string, Row>,
                dlq: seq<Letter>) returns (next: State)
    requires t < |now.dels| && Stage(s, now, t, now.dels[t].pc, now.dels[t].mailed, now.rows, now.dlq)
    requires Enabled(cfg, now, a) && InCall(a) && a.tag == t && !a.Begin? && Means(cfg, now, a, pc, mailed, rows, dlq)
    ensures next == Apply(cfg, now, a) && Stage(s, next, t, pc, mailed, rows, dlq)
  {
    next := Apply(cfg, now, a);
    CallStepStays(cfg, now, a);
    MeansSo(cfg, now, a, pc, mailed, rows, dlq);
    hide Stays, Effect, Apply, Enabled, Means;
    StaysAtStage(s, now, next, t, pc, mailed, rows, dlq);
  }

  /** What an effect of a call that succeeds leads to. */
  ghost predicate Means(cfg: Config, s: State, a: Action, pc: Pc, mailed: bool, rows: map<string, Row>,
          dlq: seq<Letter>)
    requires InCall(a) && !a.Begin?
  {
    var t := a.tag;
    && t < |s.dels| && s.dels[t].line < |s.lines|
    && var L := s.lines[s.dels[t].line];
    && (a.Send? || mailed == s.dels[t].mailed) && (a.Insert? || a.Record? || rows == s.rows)
    && (a.Park? || dlq == s.dlq)
    && match a
       case Check(_, fault) =>
         !fault && L.body.Event? && pc == if L.body.eventId in s.rows then Acking(Handled) else Sending
       case Send(_, sent) => sent && mailed && pc == Inserting
       case Insert(_, db) =>
         && db.Ok? && L.body.Event? && L.body.payload.Some? && pc == Acking(Handled)
         && rows == if L.body.eventId in s.rows then s.rows
                    else s.rows[L.body.eventId := Row("user.created", L.body.payload.value.email, Sent)]
       case Answer(_, success) => success && pc == Acking(Handled)
       case Decide(_) =>
         pc == if Retries(HeadersOf(s.dels[t].deaths), L.queue + ".retry")
                  < (if L.queue in cfg.max then cfg.max[L.queue] else 0) then Rejecting
               else if L.queue in cfg.notifies then Recording else Parking
       case Record(_, db) =>
         && db.Ok? && L.body.Event? && pc == Parking
         && rows == if L.body.eventId in s.rows then s.rows
                    else s.rows[L.body.eventId := Row(L.body.kind, Recipient(L.body), Failure)]
       case Park(_, publish) =>
         publish.Ok? && pc == Acking(Parked) && dlq == s.dlq + [Letter(L.queue, s.dels[t].line, L.body)]
  }

  lemma MeansSo(cfg: Config, s: State, a: Action, pc: Pc, mailed: bool, rows: map<string, Row>, dlq: seq<Letter>)
    requires Enabled(cfg, s, a) && InCall(a) && !a.Begin? && Means(cfg, s, a, pc, mailed, rows, dlq)
    ensures Effect(s, Apply(cfg, s, a), a.tag, pc, mailed, rows, dlq)
  {
    hide CheckRow, SendMail, InsertSent, Answered, DecideRetry, RecordFailed, ParkCopy, Stays, Retries, Recipient;
    match a
    case Check(t, fault) => CheckMeans(s, t, fault);
    case Send(t, sent) => SendMeans(s, t, sent);
    case Insert(t, db) => InsertMeans(s, t, db);
    case Answer(t, success) => AnswerMeans(s, t, success);
    case Decide(t) => DecideMeans(cfg, s, t);
    case Record(t, db) => RecordMeans(s, t, db);
    case Park(t, publish) => ParkMeans(s, t, publish);
  }

  lemma NotifiedComesTo(cfg: Config, s: State, now: State, t: nat)
    requires t < |s.dels| && s.dels[t].line < |s.lines|
    requires Stage(s, now, t, Checking, s.dels[t].mailed, s.rows, s.dlq)
    requires s.lines[s.dels[t].line].body.Event? && s.lines[s.dels[t].line].body.payload.Some?
    requires Legal(cfg, now, UndisturbedNotify(HasRow(s, s.lines[s.dels[t].line].body), t) + [Settle(t, true)])
    ensures var body := s.lines[s.dels[t].line].body; var recorded := body.eventId in s.rows;
            Leaves(s, After(cfg, now, UndisturbedNotify(recorded, t) + [Settle(t, true)]), t, Gone(Handled),
                   !recorded || s.dels[t].mailed,
                   if recorded then s.rows
                   else s.rows[body.eventId := Row("user.created", body.payload.value.email, Sent)],
                   s.dlq)
  {
    hide Stays, Leaves, Enabled, Apply, CheckRow, SendMail, InsertSent;
    var body, mailed := s.lines[s.dels[t].line].body, s.dels[t].mailed;
    var check, send, insert, settle := Check(t, false), Send(t, true), Insert(t, Ok), Settle(t, true);
    var recorded := body.eventId in s.rows;
    var rest := if recorded then [settle] else [send] + ([insert] + [settle]);
    assert UndisturbedNotify(recorded, t) + [settle] == [check] + rest;
    Peel(cfg, now, check, rest);
    var s1 := Stepped(cfg, s, now, check, t, if recorded then Acking(Handled) else Sending, mailed, s.rows, s.dlq);
    if !recorded {
      Peel(cfg, s1, send, [insert] + [settle]);
      var s2 := Stepped(cfg, s, s1, send, t, Inserting, true, s.rows, s.dlq);
      Peel(cfg, s2, insert, [settle]);
      var rows := s.rows[body.eventId := Row("user.created", body.payload.value.email, Sent)];
      var s3 := Stepped(cfg, s, s2, insert, t, Acking(Handled), true, rows, s.dlq);
      SettlingLeaves(cfg, s, s3, t, Acking(Handled), true, rows, s.dlq);
    } else {
      SettlingLeaves(cfg, s, s1, t, Acking(Handled), mailed, s.rows, s.dlq);
    }
  }

  /** The failure is within the retry budget ... */
  lemma RetriedComesTo(cfg: Config, s: State, now: State, t: nat)
    requires t < |s.dels| && s.dels[t].line < |s.lines| && s.lines[s.dels[t].line].body.Event?
    requires Stage(s, now, t, Failed, s.dels[t].mailed, s.rows, s.dlq)
    requires RetriesSeen(s, t) < Limit(cfg, LineOf(s, t).queue)
    requires Legal(cfg, now, [Decide(t)] + [Settle(t, true)])
    ensures Leaves(s, After(cfg, now, [Decide(t)] + [Settle(t, true)]), t, Waiting, s.dels[t].mailed, s.rows, s.dlq)
  {
    hide Stays, Leaves, Enabled, Apply, Retries;
    Peel(cfg, now, Decide(t), [Settle(t, true)]);
    var s1 := Stepped(cfg, s, now, Decide(t), t, Rejecting, s.dels[t].mailed, s.rows, s.dlq);
    SettlingLeaves(cfg, s, s1, t, Rejecting, s.dels[t].mailed, s.rows, s.dlq);
  }

  lemma RecordedAt(cfg: Config, s: State, now: State, t: nat) returns (next: State)
    requires t < |s.dels| && s.dels[t].line < |s.lines| && s.lines[s.dels[t].line].body.Event?
    requires Stage(s, now, t, Failed, s.dels[t].mailed, s.rows, s.dlq)
    requires RetriesSeen(s, t) >= Limit(cfg, LineOf(s, t).queue) && LineOf(s, t).queue in cfg.notifies
    requires Legal(cfg, now, [Decide(t)] + ([Record(t, Ok)] + UndisturbedPark(true, t)))
    ensures Legal(cfg, next, UndisturbedPark(true, t))
    ensures After(cfg, now, [Decide(t)] + ([Record(t, Ok)] + UndisturbedPark(true, t)))
         == After(cfg, next, UndisturbedPark(true, t))
    ensures var body := LineOf(s, t).body;
            Stage(s, next, t, Parking, s.dels[t].mailed,
                  if body.eventId in s.rows then s.rows
                  else s.rows[body.eventId := Row(body.kind, Recipient(body), Failure)],
                  s.dlq)
  {
    hide Stays, Enabled, Apply, Retries, Recipient, UndisturbedPark;
    var body, mailed := LineOf(s, t).body, s.dels[t].mailed;
    var rows := if body.eventId in s.rows then s.rows
                else s.rows[body.eventId := Row(body.kind, Recipient(body), Failure)];
    Peel(cfg, now, Decide(t), [Record(t, Ok)] + UndisturbedPark(true, t));
    var s1 := Stepped(cfg, s, now, Decide(t), t, Recording, mailed, s.rows, s.dlq);
    Peel(cfg, s1, Record(t, Ok), UndisturbedPark(true, t));
    next := Stepped(cfg, s, s1, Record(t, Ok), t, Parking, mailed, rows, s.dlq);
  }

  /** ... or is recorded, and parked. */
  lemma ParkedComesTo(cfg: Config, s: State, now: State, t: nat, mailed: bool, rows: map<string, Row>)
    requires t < |s.dels| && s.dels[t].line < |s.lines|
    requires Stage(s, now, t, Parking, mailed, rows, s.dlq) && Legal(cfg, now, UndisturbedPark(true, t))
    ensures Leaves(s, After(cfg, now, UndisturbedPark(true, t)), t, Gone(Parked), mailed, rows,
                   s.dlq + [Letter(LineOf(s, t).queue, s.dels[t].line, LineOf(s, t).body)])
  {
    hide Stays, Leaves, Enabled, Apply, Retries;
    var dlq := s.dlq + [Letter(LineOf(s, t).queue, s.dels[t].line, LineOf(s, t).body)];
    assert UndisturbedPark(true, t) == [Park(t, Ok)] + [Settle(t, true)];
    Peel(cfg, now, Park(t, Ok), [Settle(t, true)]);
    var next := Stepped(cfg, s, now, Park(t, Ok), t, Acking(Parked), mailed, rows, dlq);
    SettlingLeaves(cfg, s, next, t, Acking(Parked), mailed, rows, dlq);
  }

  /** Once the handler of another service has taken it. */
  lemma AnsweredComesTo(cfg: Config, s: State, now: State, t: nat)
    requires t < |s.dels| && s.dels[t].line < |s.lines|
    requires Stage(s, now, t, Foreign, s.dels[t].mailed, s.rows, s.dlq)
    requires Legal(cfg, now, [Answer(t, true)] + [Settle(t, true)])
    ensures Leaves(s, After(cfg, now, [Answer(t, true)] + [Settle(t, true)]), t, Gone(Handled), s.dels[t].mailed,
                   s.rows, s.dlq)
  {
    hide Stays, Leaves, Enabled, Apply, Retries;
    Peel(cfg, now, Answer(t, true), [Settle(t, true)]);
    var s1 := Stepped(cfg, s, now, Answer(t, true), t, Acking(Handled), s.dels[t].mailed, s.rows, s.dlq);
    SettlingLeaves(cfg, s, s1, t, Acking(Handled), s.dels[t].mailed, s.rows, s.dlq);
  }

  /** A failed call. */
  lemma FailedComesTo(cfg: Config, s: State, now: State, t: nat)
    requires t < |s.dels| && s.dels[t].line < |s.lines| && LineOf(s, t).queue in cfg.notifies
    requires LineOf(s, t).body.Event? && LineOf(s, t).body.payload.None?
    requires Stage(s, now, t, Failed, s.dels[t].mailed, s.rows, s.dlq)
    requires Legal(cfg, now, UndisturbedFailure(cfg, LineOf(s, t).queue, RetriesSeen(s, t), true, t))
    ensures ComesTo(cfg, s, After(cfg, now, UndisturbedFailure(cfg, LineOf(s, t).queue, RetriesSeen(s, t), true, t)), t)
  {
    var effects := UndisturbedFailure(cfg, LineOf(s, t).queue, RetriesSeen(s, t), true, t);
    if RetriesSeen(s, t) < Limit(cfg, LineOf(s, t).queue) {
      assert effects == [Decide(t)] + [Settle(t, true)];
      hide Leaves, Apply, Enabled, Legal, After, Retries, Stage, UndisturbedFailure, UndisturbedPark;
      RetriedComesTo(cfg, s, now, t);
    } else {
      assert effects == [Decide(t)] + ([Record(t, Ok)] + UndisturbedPark(true, t));
      hide Leaves, Apply, Enabled, Legal, After, Retries, UndisturbedFailure, UndisturbedPark;
      var next := RecordedAt(cfg, s, now, t);
      ParkedComesTo(cfg, s, next, t, next.dels[t].mailed, next.rows);
    }
  }

  /** The whole call, while its channel is open. */
  lemma HandleComesTo(cfg: Config, s: State, run: seq<Action>, t: nat)
    requires Enabled(cfg, s, Begin(t)) && Legal(cfg, s, run)
    requires run == Effects(cfg, LineOf(s, t), HasRow(s, LineOf(s, t).body), RetriesSeen(s, t), true, t)
    ensures ComesTo(cfg, s, After(cfg, s, run), t)
  {
    var L := LineOf(s, t);
    EffectsOfHandle(cfg, L, HasRow(s, L.body), RetriesSeen(s, t), true, t);
    hide Leaves, Apply, Legal, After, Retries, Stage, Effects, UndisturbedFailure, UndisturbedNotify;
    var rest := run[1..];
    assert run == [Begin(t)] + rest;
    Begins(cfg, s, t);
    Peel(cfg, s, Begin(t), rest);
    hide Enabled;
    var now := Apply(cfg, s, Begin(t));
    if L.body.Garbage? {
      SettlingLeaves(cfg, s, now, t, Acking(Dropped), s.dels[t].mailed, s.rows, s.dlq);
    } else if L.queue !in cfg.notifies {
      assert rest == [Answer(t, true)] + [Settle(t, true)];
      AnsweredComesTo(cfg, s, now, t);
    } else if L.body.payload.Some? {
      NotifiedComesTo(cfg, s, now, t);
    } else {
      hide ComesTo;
      FailedComesTo(cfg, s, now, t);
    }
  }
}
