// Deliveries, handler runs and DLQ letters are accounted for copy by copy.
module BusTally {
  import opened XDeath
  import opened Bus
  import opened BusInvariant
  import opened BusSteps

  // ------------------------------------------------------- counting lemmas

  lemma {:induction false} DeliveriesSame(dels: seq<Delivery>, dels': seq<Delivery>, l: nat)
    requires |dels| == |dels'|
    requires forall t :: 0 <= t < |dels| ==> dels[t].line == dels'[t].line
    ensures Deliveries(dels, l) == Deliveries(dels', l)
  {
    if dels != [] {
      DeliveriesSame(dels[..|dels| - 1], dels'[..|dels| - 1], l);
    }
  }

  lemma DeliveriesAppend(dels: seq<Delivery>, d: Delivery, l: nat)
    ensures Deliveries(dels + [d], l) == Deliveries(dels, l) + if d.line == l then 1 else 0
  {
    assert (dels + [d])[..|dels|] == dels;
  }

  lemma LettersAppend(dlq: seq<Letter>, x: Letter, l: nat)
    ensures Letters(dlq + [x], l) == Letters(dlq, l) + if x.line == l then 1 else 0
  {
    assert (dlq + [x])[..|dlq|] == dlq;
  }

  lemma {:induction false} NoDeliveries(dels: seq<Delivery>, l: nat)
    requires forall t :: 0 <= t < |dels| ==> dels[t].line != l
    ensures Deliveries(dels, l) == 0
  {
    if dels != [] {
      NoDeliveries(dels[..|dels| - 1], l);
    }
  }

  lemma {:induction false} NoLetters(dlq: seq<Letter>, l: nat)
    requires forall k :: 0 <= k < |dlq| ==> dlq[k].line != l
    ensures Letters(dlq, l) == 0
  {
    if dlq != [] {
      NoLetters(dlq[..|dlq| - 1], l);
    }
  }

  lemma {:induction false} RunsWithinDeliveries(dels: seq<Delivery>, l: nat)
    ensures Runs(dels, l) <= Deliveries(dels, l)
    ensures (forall t :: 0 <= t < |dels| && dels[t].line == l ==> dels[t].ran) ==> Runs(dels, l) == Deliveries(dels, l)
  {
    if dels != [] {
      RunsWithinDeliveries(dels[..|dels| - 1], l);
    }
  }

  // ----------------------------------------------------------------- steps

  /** A delivery that moves on inside its handle call, short of parking. */
  lemma QuietStepKeeps(s: State, s': State, t: nat)
    requires Tallied(s) && t < |s.dels| && Stays(s, s', t) && s'.dlq == s.dlq
    requires !MayHaveParked(s.dels[t].pc) && s'.dels[t].pc != Acking(Parked)
    ensures Tallied(s')
  {
    forall l | 0 <= l < |s'.lines| ensures LineTally(s', l) {
      assert LineTally(s, l);
      DeliveriesSame(s.dels, s'.dels, l);
    }
  }

  lemma AppendKeepsTally(cfg: Config, s: State, more: seq<Line>)
    requires Inv(cfg, s) && Tallied(s)
    requires forall i :: 0 <= i < |more| ==> more[i].place.Ready? && more[i].own == more[i].requeues == 0
    ensures Tallied(s.(lines := s.lines + more))
  {
    var s' := s.(lines := s.lines + more);
    forall t | 0 <= t < |s'.dels| ensures s.dels[t].line < |s.lines| { assert DelOk(cfg, s, t); }
    forall k | 0 <= k < |s'.dlq| ensures s.dlq[k].line < |s.lines| { assert LetterOk(s, k); }
    forall l | 0 <= l < |s'.lines| ensures LineTally(s', l) {
      if l < |s.lines| {
        assert LineTally(s, l);
      } else {
        assert s'.lines[l] == more[l - |s.lines|];
        NoDeliveries(s.dels, l);
        NoLetters(s.dlq, l);
      }
    }
  }

  lemma DeliverKeepsTally(cfg: Config, s: State, l0: nat, i0: nat)
    requires Inv(cfg, s) && Tallied(s) && l0 < |s.lines| && s.lines[l0].place == Ready
    ensures Tallied(Delivered(s, l0, i0))
  {
    var s' := Delivered(s, l0, i0);
    forall l | 0 <= l < |s'.lines| ensures LineTally(s', l) {
      assert LineTally(s, l) && LineOk(cfg, s, l);
      DeliveriesAppend(s.dels, s'.dels[|s.dels|], l);
    }
  }

  lemma ParkShape(s: State, t: nat, publish: Outcome)
    requires At(s, t, Parking)
    ensures var letter := Letter(LineOf(s, t).queue, s.dels[t].line, LineOf(s, t).body);
            ParkCopy(s, t, publish)
            == s.(dlq := if publish.Refused? then s.dlq else s.dlq + [letter],
                  dels := s.dels[t := s.dels[t].(pc := if publish.Ok? then Acking(Parked) else Requeueing)])
  {
    hide Stays;
  }

  lemma SameLettersTally(s: State, s': State, l: nat)
    requires s'.lines == s.lines && l < |s.lines| && LineTally(s, l) && |s'.dels| == |s.dels|
    requires Deliveries(s'.dels, l) == Deliveries(s.dels, l) && Letters(s'.dlq, l) == Letters(s.dlq, l)
    requires forall u :: 0 <= u < |s.dels| && MayHaveParked(s.dels[u].pc) ==> MayHaveParked(s'.dels[u].pc)
    ensures LineTally(s', l)
  {
    hide Deliveries, Letters, MayHaveParked;
  }

  lemma OneMoreLetterTally(s: State, s': State, l: nat, t: nat)
    requires s'.lines == s.lines && l < |s.lines| && LineTally(s, l) && t < |s'.dels| == |s.dels|
    requires Deliveries(s'.dels, l) == Deliveries(s.dels, l) && Letters(s'.dlq, l) == Letters(s.dlq, l) + 1
    requires s.lines[l].place == Unacked(t) && !MayHaveParked(s.dels[t].pc) && MayHaveParked(s'.dels[t].pc)
    ensures LineTally(s', l)
  {
    hide Deliveries, Letters, MayHaveParked;
  }

  lemma ParkedTally(s: State, s': State, t: nat, letter: Letter, refused: bool, l: nat)
    requires l < |s.lines| && LineTally(s, l) && t < |s.dels| == |s'.dels| && s'.lines == s.lines
    requires s'.dlq == if refused then s.dlq else s.dlq + [letter]
    requires s'.dels == s.dels[t := s'.dels[t]] && s'.dels[t].line == s.dels[t].line == letter.line
    requires !MayHaveParked(s.dels[t].pc) && MayHaveParked(s'.dels[t].pc)
    requires !refused && l == letter.line ==> s.lines[l].place == Unacked(t)
    ensures LineTally(s', l)
    ensures Letters(s'.dlq, l) == Letters(s.dlq, l) + if !refused && l == letter.line then 1 else 0
  {
    hide Deliveries, Letters, LineTally, MayHaveParked;
    LettersAppend(s.dlq, letter, l);
    DeliveriesSame(s.dels, s'.dels, l);
    if letter.line == l && !refused {
      OneMoreLetterTally(s, s', l, t);
    } else {
      SameLettersTally(s, s', l);
    }
  }

  lemma ParkKeepsLineTally(cfg: Config, s: State, t: nat, publish: Outcome, l: nat)
    requires Inv(cfg, s) && Tallied(s) && Enabled(cfg, s, Park(t, publish)) && l < |s.lines|
    ensures LineTally(ParkCopy(s, t, publish), l)
    ensures publish.Ok? && s.dels[t].line == l ==> Letters(ParkCopy(s, t, publish).dlq, l) >= 1
    ensures Letters(ParkCopy(s, t, publish).dlq, l) >= Letters(s.dlq, l)
  {
    ParkShape(s, t, publish);
    var s' := ParkCopy(s, t, publish);
    var letter := Letter(LineOf(s, t).queue, s.dels[t].line, LineOf(s, t).body);
    assert !publish.Refused? ==> s.lines[s.dels[t].line].place == Unacked(t) by { assert DelOk(cfg, s, t); }
    hide Inv, Deliveries, Letters, ParkCopy, Stays, LineTally;
    assert LineTally(s, l);
    ParkedTally(s, s', t, letter, publish.Refused?, l);
  }

  lemma ParkKeepsTally(cfg: Config, s: State, t: nat, publish: Outcome)
    requires Inv(cfg, s) && Tallied(s) && Enabled(cfg, s, Park(t, publish))
    ensures Tallied(ParkCopy(s, t, publish))
  {
    var s' := ParkCopy(s, t, publish);
    assert DelOk(cfg, s, t);
    forall u | 0 <= u < |s.dels| ensures s.dels[u].line < |s.lines| { assert DelOk(cfg, s, u); }
    hide Inv, LineTally, Deliveries, Letters;
    forall l | 0 <= l < |s.lines|
      ensures LineTally(s', l) && Letters(s'.dlq, l) >= Letters(s.dlq, l)
      ensures publish.Ok? && s.dels[t].line == l ==> Letters(s'.dlq, l) >= 1
    {
      ParkKeepsLineTally(cfg, s, t, publish, l);
    }
  }

  lemma SettleKeepsLineTally(cfg: Config, s: State, t: nat, success: bool, l: nat)
    requires Inv(cfg, s) && Tallied(s) && l < |s.lines|
    requires t < |s.dels| && Settling(s.dels[t].pc) && s.dels[t].line < |s.lines|
    requires success ==> LineOf(s, t).place == Unacked(t)
    ensures LineTally(SettleDelivery(s, t, success), l)
  {
    var s' := SettleDelivery(s, t, success);
    assert LineTally(s, l) && LineOk(cfg, s, l);
    if success { SettlesTo(s, t); }
    assert s' == s.(lines := s'.lines, dels := s.dels[t := s.dels[t].(pc := Finished)]);
    assert !success ==> s'.lines == s.lines;
    hide Inv, Bump, History, Deliveries, Letters, SettleDelivery, Stays, Tallied, LineOk;
    DeliveriesSame(s.dels, s'.dels, l);
    if success && s.dels[t].line == l {
      SettledTally(s, s', t);
    } else {
      UnsettledTally(s, s', t, l);
    }
  }

  lemma SettledTally(s: State, s': State, t: nat)
    requires t < |s.dels| && Settling(s.dels[t].pc) && s.dels[t].line < |s.lines| == |s'.lines|
    requires LineOf(s, t).place == Unacked(t)
    requires var l := s.dels[t].line;
             && LineTally(s, l) && s'.lines[l] == Settled(s.lines[l], s.dels[t].pc) && s'.dlq == s.dlq
             && Deliveries(s'.dels, l) == Deliveries(s.dels, l)
             && (s.dels[t].pc == Acking(Parked) ==> Letters(s.dlq, l) >= 1)
    ensures LineTally(s', s.dels[t].line)
  {
    hide Deliveries, Letters, Bump;
  }

  lemma UnsettledTally(s: State, s': State, t: nat, l: nat)
    requires l < |s.lines| == |s'.lines| && LineTally(s, l) && s'.lines[l] == s.lines[l] && s'.dlq == s.dlq
    requires t < |s.dels| && s'.dels == s.dels[t := s.dels[t].(pc := Finished)]
    requires Deliveries(s'.dels, l) == Deliveries(s.dels, l)
    ensures LineTally(s', l)
  {
    hide Deliveries, Letters;
  }

  lemma SettleKeepsTally(cfg: Config, s: State, t: nat, success: bool)
    requires Inv(cfg, s) && Tallied(s)
    requires t < |s.dels| && Settling(s.dels[t].pc) && s.dels[t].line < |s.lines|
    requires success ==> LineOf(s, t).place == Unacked(t)
    ensures Tallied(SettleDelivery(s, t, success))
  {
    hide Inv, LineTally, Bump;
    var s' := SettleDelivery(s, t, success);
    forall l | 0 <= l < |s'.lines| ensures LineTally(s', l) { SettleKeepsLineTally(cfg, s, t, success, l); }
  }

  lemma ReturnKeepsTally(s: State, l0: nat)
    requires Tallied(s) && l0 < |s.lines| && s.lines[l0].place == Waiting
    ensures Tallied(s.(lines := s.lines[l0 := Returned(s.lines[l0])]))
  {
    var s' := s.(lines := s.lines[l0 := Returned(s.lines[l0])]);
    forall l | 0 <= l < |s'.lines| ensures LineTally(s', l) { assert LineTally(s, l); }
  }

  lemma CloseKeepsTally(cfg: Config, s: State, i0: nat)
    requires Inv(cfg, s) && Tallied(s) && i0 < |s.insts|
    ensures Tallied(CloseChannel(s, i0))
  {
    var s' := CloseChannel(s, i0);
    forall l | 0 <= l < |s'.lines| ensures LineTally(s', l) { assert LineTally(s, l); }
  }

  lemma CrashKeepsTally(cfg: Config, s: State, i0: nat)
    requires Inv(cfg, s) && Tallied(s) && i0 < |s.insts|
    ensures Tallied(CrashProcess(s, i0))
  {
    CloseKeepsTally(cfg, s, i0);
    CloseKeeps(cfg, s, i0);
    var s1, s' := CloseChannel(s, i0), CrashProcess(s, i0);
    forall l | 0 <= l < |s'.lines| ensures LineTally(s', l) {
      assert LineTally(s1, l) && LineOk(cfg, s1, l);
      DeliveriesSame(s1.dels, s'.dels, l);
    }
  }

  lemma ConnectKeepsTally(s: State, q: string)
    requires Tallied(s)
    ensures Tallied(s.(insts := s.insts + [Inst(q, true, true)]))
  {
    var s' := s.(insts := s.insts + [Inst(q, true, true)]);
    forall l | 0 <= l < |s'.lines| ensures LineTally(s', l) { assert LineTally(s, l); }
  }

  lemma StepKeepsTally(cfg: Config, s: State, a: Action)
    requires ValidConfig(cfg) && Inv(cfg, s) && Tallied(s) && Enabled(cfg, s, a)
    ensures Tallied(Apply(cfg, s, a))
  {
    hide Inv, Tallied, Go, Fail, StartHandler, CheckRow, SendMail, InsertSent, Answered, DecideRetry, RecordFailed,
      ParkCopy, SettleDelivery, CloseChannel, CrashProcess, Delivered, Stays, SameHeaders;
    match a
    case Publish(body, targets) => AppendKeepsTally(cfg, s, FreshAll(body, targets));
    case Connect(q) => ConnectKeepsTally(s, q);
    case Deliver(l, i) => DeliverKeepsTally(cfg, s, l, i);
    case Park(t, publish) => ParkKeepsTally(cfg, s, t, publish);
    case Settle(t, success) => SettleKeepsTally(cfg, s, t, success);
    case Expire(l) =>
      var line := s.lines[l];
      ReturnKeepsTally(s, l);
      ReturnKeeps(cfg, s, l);
      AppendKeepsTally(cfg, s.(lines := s.lines[l := Returned(line)]),
          Copies(line, Without1(cfg.routes[line.queue], line.queue)));
    case Close(i) => CloseKeepsTally(cfg, s, i);
    case Crash(i) => CrashKeepsTally(cfg, s, i);
    case _ => CallKeepsTally(cfg, s, a);
  }

  lemma CallKeepsTally(cfg: Config, s: State, a: Action)
    requires Tallied(s) && Enabled(cfg, s, a) && InCall(a) && !a.Park?
    ensures Tallied(Apply(cfg, s, a))
  {
    hide Tallied, Go, Fail, StartHandler, CheckRow, SendMail, InsertSent, Answered, DecideRetry, RecordFailed,
      ParkCopy, Stays, SameHeaders, Remaining;
    match a
    case Begin(t) => QuietStepKeeps(s, StartHandler(cfg, s, t), t);
    case Check(t, fault) => QuietStepKeeps(s, CheckRow(s, t, fault), t);
    case Send(t, sent) => QuietStepKeeps(s, SendMail(s, t, sent), t);
    case Insert(t, db) => QuietStepKeeps(s, InsertSent(s, t, db), t);
    case Answer(t, success) => QuietStepKeeps(s, Answered(s, t, success), t);
    case Decide(t) => QuietStepKeeps(s, DecideRetry(cfg, s, t), t);
    case Record(t, db) => QuietStepKeeps(s, RecordFailed(s, t, db), t);
  }

  lemma StepKeepsGood(cfg: Config, s: State, a: Action)
    requires ValidConfig(cfg) && Good(cfg, s) && Enabled(cfg, s, a)
    ensures Good(cfg, Apply(cfg, s, a))
  {
    hide Inv, HeadersTrue, Tallied, Apply, Enabled;
    StepKeepsInv(cfg, s, a);
    HeadersStayTrue(cfg, s, a);
    StepKeepsTally(cfg, s, a);
  }

  /** Every state of every run is good, whatever crashes, faults and interleavings it holds. */
  lemma {:induction false} RunKeepsGood(cfg: Config, s: State, run: seq<Action>)
    requires ValidConfig(cfg) && Good(cfg, s) && Legal(cfg, s, run)
    ensures Good(cfg, After(cfg, s, run))
    decreases |run|
  {
    hide Good, Apply, Enabled;
    if run != [] {
      StepKeepsGood(cfg, s, run[0]);
      RunKeepsGood(cfg, Apply(cfg, s, run[0]), run[1..]);
    }
  }

  lemma StartIsGood(cfg: Config)
    ensures Good(cfg, EMPTY)
  {
  }
}
