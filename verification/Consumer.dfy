// Consumer.Consume, handle and park, and the notification handler behind them, as the program runs them:
// one effect after the other, each preceded by whatever the rest of the system does in between.
// Every execution is shown to be a run of the delivery protocol.
module Consumer {
  import opened XDeath
  import opened Bus
  import opened BusInvariant
  import opened BusTally
  import opened Undisturbed

  /** What comes before one effect of the program, and how that effect fares. */
  datatype Turn = Turn(others: seq<Action>, outcome: Outcome)

  /** a is a step of the handle call of this delivery. */
  predicate OwnStep(a: Action, tag: nat) {
    match a
    case Begin(t) => t == tag
    case Check(t, _) => t == tag
    case Send(t, _) => t == tag
    case Insert(t, _) => t == tag
    case Answer(t, _) => t == tag
    case Decide(t) => t == tag
    case Record(t, _) => t == tag
    case Park(t, _) => t == tag
    case Settle(t, _) => t == tag
    case _ => false
  }

  ghost predicate Present(s: State, tag: nat) {
    tag < |s.dels| && s.dels[tag].line < |s.lines| && s.dels[tag].inst < |s.insts|
  }

  /** The delivery and the message it carries are what they were. */
  ghost predicate SameDelivery(s: State, s': State, tag: nat) {
    && Present(s, tag) && Present(s', tag)
    && s'.dels[tag].line == s.dels[tag].line && s'.dels[tag].inst == s.dels[tag].inst
    && s'.dels[tag].deaths == s.dels[tag].deaths
    && LineOf(s', tag).body == LineOf(s, tag).body && LineOf(s', tag).queue == LineOf(s, tag).queue
    && s'.insts[s'.dels[tag].inst].queue == s.insts[s.dels[tag].inst].queue
  }

  /** s' is reached from s by a run of the protocol. */
  ghost predicate Ran(cfg: Config, s: State, run: seq<Action>, s': State) {
    Legal(cfg, s, run) && After(cfg, s, run) == s'
  }

  lemma RanNothing(cfg: Config, s: State)
    ensures Ran(cfg, s, [], s)
  {
  }

  lemma RanOneMore(cfg: Config, s: State, run: seq<Action>, s': State, a: Action)
    requires Ran(cfg, s, run, s') && Enabled(cfg, s', a)
    ensures Ran(cfg, s, run + [a], Apply(cfg, s', a))
  {
    hide Enabled, Apply;
    ThenOne(cfg, s, run, a);
  }

  lemma RanOn(cfg: Config, s: State, run: seq<Action>, s': State, more: seq<Action>, s'': State)
    requires Ran(cfg, s, run, s') && Ran(cfg, s', more, s'')
    ensures Ran(cfg, s, run + more, s'')
  {
    hide Enabled, Apply;
    LegalConcat(cfg, s, run, more);
  }

  lemma StayingKeepsTheDelivery(s: State, s': State, t: nat, tag: nat)
    requires Present(s, tag) && Stays(s, s', t)
    ensures SameDelivery(s, s', tag)
    ensures t != tag ==> s'.dels[tag].pc == s.dels[tag].pc
  {
    hide MayClear, RowsStand;
  }

  lemma BrokerKeepsTheDelivery(cfg: Config, s: State, a: Action, tag: nat)
    requires Present(s, tag) && Enabled(cfg, s, a) && !InCall(a)
    ensures SameDelivery(s, Apply(cfg, s, a), tag)
    ensures var s' := Apply(cfg, s, a);
            !OwnStep(a, tag) ==> s'.dels[tag].pc == s.dels[tag].pc || s'.dels[tag].pc.Killed?
  {
    BrokerFrame(cfg, s, a);
    BrokerMovesOnlyItsOwn(cfg, s, a, tag);
    hide Apply, Enabled;
  }

  lemma BrokerMovesOnlyItsOwn(cfg: Config, s: State, a: Action, tag: nat)
    requires Present(s, tag) && Enabled(cfg, s, a) && !InCall(a)
    ensures var s' := Apply(cfg, s, a);
            tag < |s'.dels| && (!OwnStep(a, tag) ==> s'.dels[tag].pc == s.dels[tag].pc || s'.dels[tag].pc.Killed?)
  {
    hide Bump, Stays, SameHeaders, Settled, Returned, Copies, FreshAll, LoseDelivery, Frame;
  }

  /** Nobody else moves a handle call on; a crash of its process kills it. */
  lemma OthersLeaveTheCall(cfg: Config, s: State, a: Action, tag: nat)
    requires Present(s, tag) && Enabled(cfg, s, a) && !OwnStep(a, tag)
    ensures SameDelivery(s, Apply(cfg, s, a), tag)
    ensures Apply(cfg, s, a).dels[tag].pc == s.dels[tag].pc || Apply(cfg, s, a).dels[tag].pc.Killed?
  {
    if InCall(a) { CallStepStays(cfg, s, a); }
    hide SameDelivery, Stays, Present, Apply, Enabled;
    if InCall(a) {
      StayingKeepsTheDelivery(s, Apply(cfg, s, a), a.tag, tag);
    } else {
      BrokerKeepsTheDelivery(cfg, s, a, tag);
    }
  }

  lemma OwnStepsKeepTheDelivery(cfg: Config, s: State, a: Action, tag: nat)
    requires Present(s, tag) && Enabled(cfg, s, a) && OwnStep(a, tag)
    ensures SameDelivery(s, Apply(cfg, s, a), tag)
  {
    if InCall(a) { CallStepStays(cfg, s, a); }
    hide SameDelivery, Stays, Present, Apply, Enabled;
    if InCall(a) {
      StayingKeepsTheDelivery(s, Apply(cfg, s, a), a.tag, tag);
    } else {
      BrokerKeepsTheDelivery(cfg, s, a, tag);
    }
  }

  /** The channel this delivery came on is open. */
  ghost predicate Up(s: State, tag: nat) { Present(s, tag) && ChannelOpen(s, tag) }

  lemma StayingKeepsTheChannel(s: State, s': State, t: nat, tag: nat)
    requires Present(s, tag) && Stays(s, s', t)
    ensures Up(s', tag) == Up(s, tag)
  {
    hide MayClear, RowsStand;
  }

  lemma OwnStepsKeepTheChannel(cfg: Config, s: State, a: Action, tag: nat)
    requires Present(s, tag) && Enabled(cfg, s, a) && InCall(a)
    ensures Up(Apply(cfg, s, a), tag) == Up(s, tag)
  {
    CallStepStays(cfg, s, a);
    hide Apply, Enabled, Stays, Up;
    StayingKeepsTheChannel(s, Apply(cfg, s, a), a.tag, tag);
  }

  lemma RanComesTo(cfg: Config, s: State, run: seq<Action>, s': State, t: nat)
    requires Enabled(cfg, s, Begin(t)) && Ran(cfg, s, run, s')
    requires run == Effects(cfg, LineOf(s, t), HasRow(s, LineOf(s, t).body), RetriesSeen(s, t), true, t)
    ensures ComesTo(cfg, s, s', t)
  {
    hide Enabled, ComesTo, Effects, RetriesSeen;
    HandleComesTo(cfg, s, run, t);
  }

  /** How the coming effect fares. */
  function NextOutcome(script: seq<Turn>): Outcome { if script == [] then Ok else script[0].outcome }

  /** What the rest of the system has in mind to do before it ... */
  function NextOthers(script: seq<Turn>): seq<Action> { if script == [] then [] else script[0].others }

  /** ... of which it does, one after the other, what is possible and no step of this handle call. */
  function Interference(cfg: Config, s: State, others: seq<Action>, tag: nat): seq<Action>
    decreases |others|
  {
    if others == [] then []
    else if Enabled(cfg, s, others[0]) && !OwnStep(others[0], tag)
    then [others[0]] + Interference(cfg, Apply(cfg, s, others[0]), others[1..], tag)
    else Interference(cfg, s, others[1..], tag)
  }

  /** Others act, from s to some state; the ack or nack that s was about to make then takes effect,
      exactly if it goes through and the channel is open at that moment. */
  ghost predicate SettledAfter(cfg: Config, s: State, run0: seq<Action>, run: seq<Action>, s': State, tag: nat,
          through: bool)
  {
    exists others: seq<Action>, asked: State :: Ran(cfg, s, others, asked)
      && (forall a :: a in others ==> !OwnStep(a, tag))
      && SameDelivery(s, asked, tag) && asked.dels[tag].pc == s.dels[tag].pc && Settling(s.dels[tag].pc)
      && run == run0 + others + [Settle(tag, through && Up(asked, tag))]
      && s' == SettleDelivery(asked, tag, through && Up(asked, tag))
  }

  /** The consumer processes, the broker and the table they share. `script` holds what happens
      around the coming effects; when it runs out, effects succeed undisturbed. */
  class System {
    const cfg: Config
    var st: State
    var script: seq<Turn>

    constructor (cfg: Config, st: State, script: seq<Turn>)
      ensures this.cfg == cfg && this.st == st && this.script == script
    {
      this.cfg, this.st, this.script := cfg, st, script;
    }

    /** The rest of the system acts; then it is this program's turn. Gone means that its process has died. */
    method Yield(tag: nat) returns (outcome: Outcome, gone: bool, ghost run: seq<Action>)
      requires Present(st, tag)
      modifies this
      ensures Ran(cfg, old(st), run, st) && SameDelivery(old(st), st, tag)
      ensures forall a :: a in run ==> !OwnStep(a, tag)
      ensures gone <==> st.dels[tag].pc.Killed?
      ensures !gone ==> st.dels[tag].pc == old(st).dels[tag].pc
      ensures outcome == NextOutcome(old(script)) && script == if old(script) == [] then [] else old(script)[1..]
      ensures run == Interference(cfg, old(st), NextOthers(old(script)), tag)
      ensures old(script) == [] ==> run == [] && script == [] && st == old(st)
    {
      hide Ran, Enabled, Apply;
      run := [];
      RanNothing(cfg, st);
      var others := [];
      outcome := Ok;
      if script != [] {
        others, outcome := script[0].others, script[0].outcome;
        script := script[1..];
      }
      ghost var rest := script;
      for i := 0 to |others|
        invariant Ran(cfg, old(st), run, st) && SameDelivery(old(st), st, tag)
        invariant forall a :: a in run ==> !OwnStep(a, tag)
        invariant st.dels[tag].pc == old(st).dels[tag].pc || st.dels[tag].pc.Killed?
        invariant script == rest && (others == [] ==> run == [] && st == old(st))
        invariant run + Interference(cfg, st, others[i..], tag) == Interference(cfg, old(st), others, tag)
      {
        assert others[i..][1..] == others[i + 1..];
        if Enabled(cfg, st, others[i]) && !OwnStep(others[i], tag) {
          OthersLeaveTheCall(cfg, st, others[i], tag);
          RanOneMore(cfg, old(st), run, st, others[i]);
          st := Apply(cfg, st, others[i]);
          run := run + [others[i]];
        }
      }
      gone := st.dels[tag].pc.Killed?;
    }

    /** One effect of this program. */
    method Act(a: Action, ghost tag: nat, ghost before: State, ghost run: seq<Action>) returns (ghost more: seq<Action>)
      requires Present(st, tag) && SameDelivery(before, st, tag) && Ran(cfg, before, run, st)
      requires OwnStep(a, tag) && Enabled(cfg, st, a)
      modifies this`st
      ensures st == Apply(cfg, old(st), a)
      ensures more == run + [a] && Ran(cfg, before, more, st) && SameDelivery(before, st, tag)
      ensures InCall(a) ==> Up(st, tag) == Up(old(st), tag)
    {
      hide Ran, Enabled, Apply;
      OwnStepsKeepTheDelivery(cfg, st, a, tag);
      if InCall(a) { OwnStepsKeepTheChannel(cfg, st, a, tag); }
      RanOneMore(cfg, before, run, st, a);
      st := Apply(cfg, st, a);
      more := run + [a];
    }

    // ------------------------------------------- services/notification

    /** repository.Create at the end of HandleUserCreated: the row is inserted, refused as a duplicate, or lost to an
        error. */
    method CreateSent(tag: nat, outcome: Outcome) returns (err: bool, conflict: bool)
      requires At(st, tag, Inserting) && LineOf(st, tag).body.Event? && LineOf(st, tag).body.payload.Some?
      modifies this`st
      ensures Enabled(cfg, old(st), Insert(tag, outcome)) && st == Apply(cfg, old(st), Insert(tag, outcome))
      ensures var e := LineOf(old(st), tag).body.eventId;
              && (err <==> !outcome.Ok? || e in old(st).rows)
              && (conflict <==> outcome.Ok? && e in old(st).rows)
              && (!err ==> e in st.rows && st.rows[e].status == Sent)
              && (conflict ==> e in st.rows)
      ensures tag < |st.dels| && st.dels[tag].pc == if err && !conflict then Failed else Acking(Handled)
    {
      var e := LineOf(st, tag).body.eventId;
      conflict := outcome.Ok? && e in st.rows;
      err := conflict || !outcome.Ok?;
      st := InsertSent(st, tag, outcome);
    }

    /** NotificationService.HandleUserCreated: check, then send, then record. */
    method HandleUserCreated(tag: nat) returns (err: bool, gone: bool, ghost run: seq<Action>)
      requires At(st, tag, Checking) && LineOf(st, tag).body.Event? && LineOf(st, tag).body.payload.Some?
      modifies this
      ensures Ran(cfg, old(st), run, st) && SameDelivery(old(st), st, tag)
      ensures gone ==> st.dels[tag].pc.Killed?
      ensures !gone ==> st.dels[tag].pc == if err then Failed else Acking(Handled)
      ensures !gone && !err ==> LineOf(st, tag).body.eventId in st.rows
      ensures !gone && !NextOutcome(old(script)).Ok? ==> err
      ensures old(script) == [] ==> !gone && !err && script == [] && Up(st, tag) == Up(old(st), tag)
      ensures old(script) == [] ==> run == UndisturbedNotify(HasRow(old(st), LineOf(old(st), tag).body), tag)
    {
      hide Ran, SameDelivery, Stays, SameHeaders, Up;
      var outcome;
      outcome, gone, run := Yield(tag);
      if gone { return false, true, run; }
      SameMeans(old(st), st, tag);
      var recorded := LineOf(st, tag).body.eventId in st.rows;
      run := Act(Check(tag, !outcome.Ok?), tag, old(st), run);
      if !outcome.Ok? { return true, false, run; }
      if recorded { return false, false, run; }

      err, gone, run := SendAndRecord(tag, old(st), run);
    }

    /** The rest of HandleUserCreated, once no row was found. */
    method SendAndRecord(tag: nat, ghost before: State, ghost run0: seq<Action>)
      returns (err: bool, gone: bool, ghost run: seq<Action>)
      requires At(st, tag, Sending) && LineOf(st, tag).body.Event? && LineOf(st, tag).body.payload.Some?
      requires Ran(cfg, before, run0, st) && SameDelivery(before, st, tag)
      modifies this
      ensures Ran(cfg, before, run, st) && SameDelivery(before, st, tag)
      ensures gone ==> st.dels[tag].pc.Killed?
      ensures !gone ==> st.dels[tag].pc == if err then Failed else Acking(Handled)
      ensures !gone && !err ==> LineOf(st, tag).body.eventId in st.rows
      ensures old(script) == [] ==> !gone && !err && script == [] && Up(st, tag) == Up(old(st), tag)
      ensures old(script) == [] ==> run == run0 + [Send(tag, true), Insert(tag, Ok)]
    {
      hide Ran, Stays, SameHeaders, Good, ValidConfig, Up, SendMail;
      var outcome;
      ghost var others;
      outcome, gone, others := Yield(tag);
      run := run0 + others;
      RanOn(cfg, before, run0, old(st), others, st);
      if gone { return false, true, run; }
      SendMeans(st, tag, outcome.Ok?);
      run := Act(Send(tag, outcome.Ok?), tag, before, run);
      if !outcome.Ok? { return true, false, run; }

      err, gone, run := RecordSent(tag, before, run);
    }

    /** ... and the row of a mail that went out; a duplicate is no error. */
    method RecordSent(tag: nat, ghost before: State, ghost run0: seq<Action>)
      returns (err: bool, gone: bool, ghost run: seq<Action>)
      requires At(st, tag, Inserting) && LineOf(st, tag).body.Event? && LineOf(st, tag).body.payload.Some?
      requires Ran(cfg, before, run0, st) && SameDelivery(before, st, tag)
      modifies this
      ensures Ran(cfg, before, run, st) && SameDelivery(before, st, tag)
      ensures gone ==> st.dels[tag].pc.Killed?
      ensures !gone ==> st.dels[tag].pc == if err then Failed else Acking(Handled)
      ensures !gone && !err ==> LineOf(st, tag).body.eventId in st.rows
      ensures old(script) == [] ==> !gone && !err && script == [] && Up(st, tag) == Up(old(st), tag)
      ensures old(script) == [] ==> run == run0 + [Insert(tag, Ok)]
    {
      hide Ran, Stays, SameHeaders, Good, ValidConfig, Up, Apply, Enabled, InsertSent;
      var outcome;
      ghost var others;
      outcome, gone, others := Yield(tag);
      RanOn(cfg, before, run0, old(st), others, st);
      run := run0 + others;
      if gone { return false, true, run; }
      ghost var asked := st;
      var conflict;
      err, conflict := CreateSent(tag, outcome);
      OwnStepsKeepTheDelivery(cfg, asked, Insert(tag, outcome), tag);
      OwnStepsKeepTheChannel(cfg, asked, Insert(tag, outcome), tag);
      RanOneMore(cfg, before, run, asked, Insert(tag, outcome));
      run := run + [Insert(tag, outcome)];
      if conflict { err := false; }
    }

    /** NotificationService.RecordFailure: a failed row, unless the event has one; errors are only logged. */
    method RecordFailure(tag: nat, ghost before: State, ghost run0: seq<Action>)
      returns (gone: bool, ghost run: seq<Action>)
      requires At(st, tag, Recording) && LineOf(st, tag).body.Event?
      requires Ran(cfg, before, run0, st) && SameDelivery(before, st, tag)
      modifies this
      ensures Ran(cfg, before, run, st) && SameDelivery(before, st, tag)
      ensures if gone then st.dels[tag].pc.Killed? else st.dels[tag].pc == Parking
      ensures old(script) == [] ==> !gone && script == [] && Up(st, tag) == Up(old(st), tag)
      ensures old(script) == [] ==> run == run0 + [Record(tag, Ok)]
    {
      hide Ran, Stays, SameHeaders, Good, ValidConfig, Up;
      var outcome;
      ghost var others;
      outcome, gone, others := Yield(tag);
      run := run0 + others;
      RanOn(cfg, before, run0, old(st), others, st);
      if !gone { run := Act(Record(tag, outcome), tag, before, run); }
    }

    // ---------------------------------------------- pkg/messaging/rabbitmq

    /** d.Ack or d.Nack, whichever the call has come to; it reaches the broker if the channel is up. */
    method AckOrNack(tag: nat, ghost before: State, ghost run0: seq<Action>)
      returns (gone: bool, ghost run: seq<Action>)
      requires Present(st, tag) && Settling(st.dels[tag].pc)
      requires Ran(cfg, before, run0, st) && SameDelivery(before, st, tag)
      requires ValidConfig(cfg) && Good(cfg, before)
      modifies this
      ensures Ran(cfg, before, run, st) && SameDelivery(before, st, tag)
      ensures if gone then st.dels[tag].pc.Killed? else st.dels[tag].pc == Finished
      ensures !gone ==> Free(st, tag)
      ensures !gone ==> SettledAfter(cfg, old(st), run0, run, st, tag, NextOutcome(old(script)).Ok?)
      ensures old(script) == [] ==> !gone && run == run0 + [Settle(tag, Up(old(st), tag))]
    {
      hide Ran, Stays, SameHeaders, Good, ValidConfig, SettledAfter, Settled, Bump;
      var outcome;
      ghost var others;
      outcome, gone, others := Yield(tag);
      run := run0 + others;
      RanOn(cfg, before, run0, old(st), others, st);
      if !gone {
        var reached := outcome.Ok? && ChannelOpen(st, tag) && LineOf(st, tag).place == Unacked(tag);
        RanStaysGood(cfg, before, run, st);
        OpenHoldsIt(cfg, st, tag);
        SettledIsFree(cfg, st, tag, reached);
        ghost var asked := st;
        assert reached == (outcome.Ok? && Up(asked, tag));
        run := Act(Settle(tag, reached), tag, before, run);
        hide *;
        ItSettled(cfg, old(st), run0, others, asked, tag, outcome.Ok?);
      }
    }

    /** Consumer.park: publish a copy to the DLQ, then ack the original; requeue it if publishing fails. */
    method ParkDelivery(tag: nat, ghost before: State, ghost run0: seq<Action>)
      returns (gone: bool, ghost run: seq<Action>)
      requires At(st, tag, Parking)
      requires Ran(cfg, before, run0, st) && SameDelivery(before, st, tag)
      requires ValidConfig(cfg) && Good(cfg, before)
      modifies this
      ensures Ran(cfg, before, run, st) && SameDelivery(before, st, tag)
      ensures if gone then st.dels[tag].pc.Killed? else st.dels[tag].pc == Finished
      ensures !gone ==> Free(st, tag)
      ensures old(script) == [] ==> !gone && run == run0 + UndisturbedPark(Up(old(st), tag), tag)
    {
      hide Ran, Stays, SameHeaders, Good, ValidConfig, SettledAfter, SettleDelivery;
      var outcome;
      ghost var others;
      outcome, gone, others := Yield(tag);
      run := run0 + others;
      RanOn(cfg, before, run0, old(st), others, st);
      if gone { return; }
      var publish := if ChannelOpen(st, tag) then outcome else Refused;
      run := Act(Park(tag, publish), tag, before, run);
      gone, run := AckOrNack(tag, before, run);
    }

    /** The handler h of this queue. */
    method Handler(tag: nat, ghost before: State, ghost run0: seq<Action>)
      returns (err: bool, gone: bool, ghost run: seq<Action>)
      requires Present(st, tag) && LineOf(st, tag).body.Event? && st.dels[tag].pc == FirstStep(cfg, LineOf(st, tag))
      requires Ran(cfg, before, run0, st) && SameDelivery(before, st, tag)
      modifies this
      ensures Ran(cfg, before, run, st) && SameDelivery(before, st, tag)
      ensures if gone then st.dels[tag].pc.Killed? else st.dels[tag].pc == if err then Failed else Acking(Handled)
      ensures !gone && !err && LineOf(st, tag).queue in cfg.notifies ==> HasRow(st, LineOf(st, tag).body)
      ensures old(script) == [] ==> !gone && script == [] && Up(st, tag) == Up(old(st), tag)
      ensures old(script) == [] ==>
                var L := LineOf(old(st), tag);
                if L.queue !in cfg.notifies then !err && run == run0 + [Answer(tag, true)]
                else if L.body.payload.None? then err && run == run0 && st == old(st)
                else !err && run == run0 + UndisturbedNotify(HasRow(old(st), L.body), tag)
    {
      hide Ran, Stays, SameHeaders, Good, ValidConfig, Up;
      if LineOf(st, tag).queue in cfg.notifies {
        if LineOf(st, tag).body.payload.None? { return true, false, run0; }
        ghost var others;
        err, gone, others := HandleUserCreated(tag);
        run := run0 + others;
        RanOn(cfg, before, run0, old(st), others, st);
      } else {
        var outcome;
        ghost var others;
        outcome, gone, others := Yield(tag);
        run := run0 + others;
        RanOn(cfg, before, run0, old(st), others, st);
        err := !outcome.Ok?;
        if !gone { run := Act(Answer(tag, !err), tag, before, run); }
      }
    }

    /** Consumer.handle: drop what does not decode; ack what the handler accepts; send what it fails through the
        retry queue while the x-death count allows, then record the failure and park it. */
    method Handle(tag: nat) returns (gone: bool, ghost run: seq<Action>)
      requires Enabled(cfg, st, Begin(tag))
      requires ValidConfig(cfg) && Good(cfg, st)
      modifies this
      ensures Ran(cfg, old(st), run, st) && SameDelivery(old(st), st, tag)
      ensures if gone then st.dels[tag].pc.Killed? else st.dels[tag].pc == Finished
      ensures !gone ==> Free(st, tag)
      ensures old(script) == [] ==> !gone
      ensures old(script) == [] ==>
                var L := LineOf(old(st), tag);
                run == Effects(cfg, L, HasRow(old(st), L.body), RetriesSeen(old(st), tag), Up(old(st), tag), tag)
      ensures old(script) == [] && Up(old(st), tag) ==> ComesTo(cfg, old(st), st, tag)
    {
      hide SettledAfter, Ran, Stays, SameHeaders, Cycles, Good, ValidConfig, Free, Up, StartHandler, RetriesSeen,
        ComesTo, Effects;
      ghost var L := LineOf(st, tag);
      EffectsOfHandle(cfg, L, HasRow(st, L.body), RetriesSeen(st, tag), Up(st, tag), tag);
      RanNothing(cfg, st);
      BeginMeans(cfg, st, tag);
      run := Act(Begin(tag), tag, old(st), []);
      SameMeans(old(st), st, tag);
      if LineOf(st, tag).body.Garbage? {
        gone, run := AckOrNack(tag, old(st), run);
        if old(script) == [] && Up(old(st), tag) { RanComesTo(cfg, old(st), run, st, tag); }
        return;
      }
      gone, run := HandleDecoded(tag, old(st), run);
      assert LineOf(old(st), tag).body.Event?;
      if old(script) == [] && Up(old(st), tag) { RanComesTo(cfg, old(st), run, st, tag); }
    }

    /** handle, for a body that decodes. */
    method HandleDecoded(tag: nat, ghost before: State, ghost run0: seq<Action>)
      returns (gone: bool, ghost run: seq<Action>)
      requires Present(st, tag) && LineOf(st, tag).body.Event? && st.dels[tag].pc == FirstStep(cfg, LineOf(st, tag))
      requires Ran(cfg, before, run0, st) && SameDelivery(before, st, tag)
      requires ValidConfig(cfg) && Good(cfg, before)
      modifies this
      ensures Ran(cfg, before, run, st) && SameDelivery(before, st, tag)
      ensures if gone then st.dels[tag].pc.Killed? else st.dels[tag].pc == Finished
      ensures !gone ==> Free(st, tag)
      ensures old(script) == [] ==> !gone
      ensures old(script) == [] ==>
                var L, up := LineOf(old(st), tag), Up(old(st), tag);
                run == run0 + if L.queue !in cfg.notifies then [Answer(tag, true), Settle(tag, up)]
                              else if L.body.payload.None?
                              then UndisturbedFailure(cfg, L.queue, RetriesSeen(old(st), tag), up, tag)
                              else UndisturbedNotify(HasRow(old(st), L.body), tag) + [Settle(tag, up)]
    {
      hide SettledAfter, Ran, Stays, SameHeaders, Cycles, Good, ValidConfig, Free, Up, RetriesSeen, Apply, Enabled;
      var err;
      err, gone, run := Handler(tag, before, run0);
      if gone { return; }
      if !err {
        gone, run := AckOrNack(tag, before, run);
        return;
      }
      gone, run := RetryOrPark(tag, before, run);
    }

    method RetryOrPark(tag: nat, ghost before: State, ghost run0: seq<Action>)
      returns (gone: bool, ghost run: seq<Action>)
      requires At(st, tag, Failed) && LineOf(st, tag).body.Event?
      requires Ran(cfg, before, run0, st) && SameDelivery(before, st, tag)
      requires ValidConfig(cfg) && Good(cfg, before)
      modifies this
      ensures Ran(cfg, before, run, st) && SameDelivery(before, st, tag)
      ensures if gone then st.dels[tag].pc.Killed? else st.dels[tag].pc == Finished
      ensures !gone ==> Free(st, tag)
      ensures old(script) == [] ==>
                && !gone
                && run == run0 + UndisturbedFailure(cfg, LineOf(old(st), tag).queue, RetriesSeen(old(st), tag),
                                                    Up(old(st), tag), tag)
    {
      hide SettledAfter, Ran, Stays, SameHeaders, RetriesSeen, Good, ValidConfig, Free, Up, DecideRetry, SameDelivery,
        UndisturbedPark;
      var queue := LineOf(st, tag).queue;
      var retries := CountRetries(tag);
      DecideMeans(cfg, st, tag);
      ghost var asked := st;
      run := Act(Decide(tag), tag, before, run0);
      SameMeans(before, st, tag);
      SameMeans(before, asked, tag);
      hide Apply, Enabled;
      if retries < Limit(cfg, queue) {
        gone, run := AckOrNack(tag, before, run);
      } else {
        gone, run := GiveUp(tag, before, run);
      }
    }

    /** What this delivery's headers say of it. */
    method CountRetries(tag: nat) returns (retries: int)
      requires Present(st, tag)
      ensures retries == RetriesSeen(st, tag)
    {
      retries := RetriesSoFar(HeadersOf(st.dels[tag].deaths), RetryQueueName(LineOf(st, tag).queue));
    }

    /** Retries are exhausted: onExhausted, if the queue has one, and then park. */
    method GiveUp(tag: nat, ghost before: State, ghost run0: seq<Action>)
      returns (gone: bool, ghost run: seq<Action>)
      requires Present(st, tag) && LineOf(st, tag).body.Event?
      requires st.dels[tag].pc == if LineOf(st, tag).queue in cfg.notifies then Recording else Parking
      requires Ran(cfg, before, run0, st) && SameDelivery(before, st, tag)
      requires ValidConfig(cfg) && Good(cfg, before)
      modifies this
      ensures Ran(cfg, before, run, st) && SameDelivery(before, st, tag)
      ensures if gone then st.dels[tag].pc.Killed? else st.dels[tag].pc == Finished
      ensures !gone ==> Free(st, tag)
      ensures old(script) == [] ==>
                && !gone
                && run == run0 + (if LineOf(old(st), tag).queue in cfg.notifies then [Record(tag, Ok)] else [])
                               + UndisturbedPark(Up(old(st), tag), tag)
    {
      hide Ran, Stays, SameHeaders, Good, ValidConfig, Free, Up, Apply, Enabled, UndisturbedPark;
      run := run0;
      if LineOf(st, tag).queue in cfg.notifies {
        gone, run := RecordFailure(tag, before, run);
        if gone { return; }
      }
      gone, run := ParkDelivery(tag, before, run);
    }

    /** The next delivery waiting in instance i's channel. */
    method NextDelivery(i: nat) returns (tag: nat)
      ensures tag <= |st.dels|
      ensures tag < |st.dels| ==> st.dels[tag].inst == i && st.dels[tag].pc == Buffered
      ensures tag == |st.dels| ==> forall t :: 0 <= t < |st.dels| ==>
            !(st.dels[t].inst == i && st.dels[t].pc == Buffered)
    {
      tag := 0;
      while tag < |st.dels| && !(st.dels[tag].inst == i && st.dels[tag].pc == Buffered)
        invariant tag <= |st.dels|
        invariant forall t :: 0 <= t < tag ==> !(st.dels[t].inst == i && st.dels[t].pc == Buffered)
      {
        tag := tag + 1;
      }
    }

    /** Consumer.Consume, for as long as there are deliveries waiting and at most `rounds` times: one handle call
        after the other. Whatever the rest of the system does meanwhile, the whole is a run of the protocol -
        so all its guarantees hold of it - and the instance is never inside two calls. It stops early only if the
        process died or no delivery is waiting. */
    method Consume(i: nat, rounds: nat) returns (left: nat, ghost run: seq<Action>)
      requires ValidConfig(cfg) && Good(cfg, st) && i < |st.insts| && st.insts[i].alive && Idle(st, i)
      modifies this
      ensures Ran(cfg, old(st), run, st) && Good(cfg, st)
      ensures left <= rounds && (left > 0 ==> Died(st, i) || NoneWaiting(st, i))
    {
      hide Ran, Good, SameDelivery, Died, NoneWaiting;
      run := [];
      RanNothing(cfg, st);
      var going := true;
      left := rounds;
      while left > 0 && going
        invariant Ran(cfg, old(st), run, st) && Good(cfg, st) && left <= rounds
        invariant if going then i < |st.insts| && st.insts[i].alive && Idle(st, i) else Died(st, i)
      {
        var tag := NextDelivery(i);
        if tag == |st.dels| {
          NothingFound(st, i);
          break;
        }
        left := left - 1;
        ghost var before := st;
        GoodIsPresent(cfg, st, tag);
        var gone;
        ghost var more;
        gone, more := Handle(tag);
        RanOn(cfg, old(st), run, before, more, st);
        run := run + more;
        RanStaysGood(cfg, before, more, st);
        going := !gone;
        if going { FreeMeans(before, st, tag); } else { KilledMeansDied(before, st, tag); }
      }
    }
  }

  ghost predicate NoneWaiting(s: State, i: nat) {
    forall t :: 0 <= t < |s.dels| ==> !(s.dels[t].inst == i && s.dels[t].pc == Buffered)
  }

  /** The process died in the middle of a call. */
  ghost predicate Died(s: State, i: nat) {
    exists t :: 0 <= t < |s.dels| && s.dels[t].inst == i && s.dels[t].pc.Killed?
  }

  lemma NothingFound(s: State, i: nat)
    requires forall t :: 0 <= t < |s.dels| ==> !(s.dels[t].inst == i && s.dels[t].pc == Buffered)
    ensures NoneWaiting(s, i)
  {
  }

  lemma KilledMeansDied(s: State, s': State, tag: nat)
    requires SameDelivery(s, s', tag) && s'.dels[tag].pc.Killed?
    ensures Present(s, tag) && Died(s', s.dels[tag].inst)
  {
  }

  /** The process this delivery went to is alive and inside no handle call. */
  ghost predicate Free(s: State, tag: nat) {
    Present(s, tag) && s.insts[s.dels[tag].inst].alive && Idle(s, s.dels[tag].inst)
  }

  lemma SettledIsFree(cfg: Config, s: State, tag: nat, success: bool)
    requires Good(cfg, s) && Present(s, tag) && Settling(s.dels[tag].pc)
    ensures Free(SettleDelivery(s, tag, success), tag)
  {
    assert DelOk(cfg, s, tag);
  }

  lemma OpenHoldsIt(cfg: Config, s: State, tag: nat)
    requires Good(cfg, s) && Present(s, tag) && Settling(s.dels[tag].pc)
    ensures ChannelOpen(s, tag) ==> LineOf(s, tag).place == Unacked(tag)
  {
    assert DelOk(cfg, s, tag);
  }

  lemma ItSettled(cfg: Config, s: State, run0: seq<Action>, others: seq<Action>, asked: State, tag: nat, through: bool)
    requires Ran(cfg, s, others, asked) && (forall a :: a in others ==> !OwnStep(a, tag))
    requires SameDelivery(s, asked, tag) && asked.dels[tag].pc == s.dels[tag].pc && Settling(s.dels[tag].pc)
    ensures var reached := through && Up(asked, tag);
            SettledAfter(cfg, s, run0, run0 + others + [Settle(tag, reached)],
                         SettleDelivery(asked, tag, reached), tag, through)
  {
    hide Ran, OwnStep, SettleDelivery, Up;
  }

  lemma FreeMeans(s: State, s': State, tag: nat)
    requires SameDelivery(s, s', tag) && Free(s', tag)
    ensures Present(s, tag) && Present(s', tag)
    ensures var i := s.dels[tag].inst; i < |s'.insts| && s'.insts[i].alive && Idle(s', i)
  {
  }

  lemma GoodIsPresent(cfg: Config, s: State, tag: nat)
    requires Good(cfg, s) && tag < |s.dels|
    ensures Present(s, tag)
  {
    assert DelOk(cfg, s, tag);
  }

  lemma RanStaysGood(cfg: Config, s: State, run: seq<Action>, s': State)
    requires ValidConfig(cfg) && Good(cfg, s) && Ran(cfg, s, run, s')
    ensures Good(cfg, s')
  {
    RunKeepsGood(cfg, s, run);
  }

  lemma SameMeans(s: State, s': State, tag: nat)
    requires SameDelivery(s, s', tag)
    ensures Present(s, tag) && Present(s', tag)
    ensures LineOf(s', tag).body == LineOf(s, tag).body && LineOf(s', tag).queue == LineOf(s, tag).queue
    ensures RetriesSeen(s', tag) == RetriesSeen(s, tag)
  {
    hide Cycles;
  }
}
