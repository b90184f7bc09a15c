// Every step of the delivery protocol keeps its invariant.
module BusSteps {
  import opened XDeath
  import opened Bus
  import opened BusInvariant

  // ------------------------------------------- steps of one handle call

  /** Step s -> s' is by delivery t: it changes that delivery's progress and its copy, and may add rows and letters. */
  ghost predicate StepBy(s: State, s': State, t: nat) {
    && t < |s.dels|
    && |s'.dels| == |s.dels| && |s'.lines| == |s.lines|
    && s'.insts == s.insts
    && (forall u :: 0 <= u < |s.dels| && u != t ==> s'.dels[u] == s.dels[u])
    && s.dels[t].line < |s.lines|
    && (forall l :: 0 <= l < |s.lines| && l != s.dels[t].line ==> s'.lines[l] == s.lines[l])
    && Advanced(s.dels[t], s'.dels[t])
    && Grown(s.lines[s.dels[t].line], s'.lines[s.dels[t].line], t)
    && (forall e :: e in s.rows ==> e in s'.rows && s'.rows[e] == s.rows[e])
    && (forall e :: e in s.rows && e in s.authors ==> e in s'.authors && s'.authors[e] == s.authors[e])
    && |s.dlq| <= |s'.dlq|
    && (forall k :: 0 <= k < |s.dlq| ==> s'.dlq[k] == s.dlq[k])
  }

  ghost predicate Advanced(d: Delivery, d': Delivery) {
    && d'.line == d.line && d'.inst == d.inst && d'.deaths == d.deaths && d'.past == d.past
    && (d.ran ==> d'.ran) && (d.clear ==> d'.clear) && (d.mailed ==> d'.mailed)
  }

  ghost predicate Grown(L: Line, L': Line, t: nat) {
    && L'.queue == L.queue && L'.body == L.body
    && L.path == L'.path
    && L.failures[L.queue] <= L'.failures[L.queue]
    && L.requeues <= L'.requeues
    && (L'.place == L.place || L.place == Unacked(t))
  }

  lemma OtherLines(cfg: Config, s: State, s': State, t: nat, l: nat)
    requires Inv(cfg, s) && StepBy(s, s', t) && l < |s.lines| && l != s.dels[t].line
    ensures LineOk(cfg, s', l)
  {
    assert LineOk(cfg, s, l);
  }

  lemma OtherDeliveries(cfg: Config, s: State, s': State, t: nat, u: nat)
    requires Inv(cfg, s) && StepBy(s, s', t) && u < |s.dels| && u != t
    ensures DelOk(cfg, s', u)
  {
    assert DelOk(cfg, s, u);
    assert LineOk(cfg, s, s.dels[u].line);
  }

  lemma OldRows(cfg: Config, s: State, s': State, t: nat, e: string)
    requires Inv(cfg, s) && StepBy(s, s', t) && e in s.rows
    ensures RowOk(cfg, s', e)
  {
    assert RowOk(cfg, s, e);
    assert DelOk(cfg, s, t);
  }

  lemma StillSerial(s: State, s': State, t: nat)
    requires OneAtATime(s) && StepBy(s, s', t)
    requires Active(s.dels[t].pc) || !Active(s'.dels[t].pc) || Idle(s, s.dels[t].inst)
    ensures OneAtATime(s')
  {
  }

  /** What is left to show for a step of delivery t: the delivery itself, its copy, and what it added. */
  lemma StepKeeps(cfg: Config, s: State, s': State, t: nat)
    requires Inv(cfg, s) && StepBy(s, s', t)
    requires LineOk(cfg, s', s.dels[t].line) && DelOk(cfg, s', t)
    requires forall e :: e in s'.rows && e !in s.rows ==> RowOk(cfg, s', e)
    requires forall k :: |s.dlq| <= k < |s'.dlq| ==> LetterOk(s', k)
    requires Active(s.dels[t].pc) || !Active(s'.dels[t].pc) || Idle(s, s.dels[t].inst)
    ensures Inv(cfg, s')
  {
    forall l | 0 <= l < |s'.lines| ensures LineOk(cfg, s', l) {
      if l != s.dels[t].line { OtherLines(cfg, s, s', t, l); }
    }
    forall u | 0 <= u < |s'.dels| ensures DelOk(cfg, s', u) {
      if u != t { OtherDeliveries(cfg, s, s', t, u); }
    }
    forall e | e in s'.rows ensures RowOk(cfg, s', e) {
      if e in s.rows { OldRows(cfg, s, s', t, e); }
    }
    forall i | 0 <= i < |s'.insts| ensures InstOk(s', i) { assert InstOk(s, i); }
    forall k | 0 <= k < |s'.dlq| ensures LetterOk(s', k) {
      if k < |s.dlq| { assert LetterOk(s, k); }
    }
    StillSerial(s, s', t);
  }

  /** Moving on to pc, with no other effect. */
  lemma GoKeeps(cfg: Config, s: State, t: nat, pc: Pc)
    requires Inv(cfg, s) && t < |s.dels| && DelOk(cfg, Go(s, t, pc), t)
    requires Active(s.dels[t].pc) || Idle(s, s.dels[t].inst)
    ensures Inv(cfg, Go(s, t, pc))
  {
    var s' := Go(s, t, pc);
    assert DelOk(cfg, s, t) && LineOk(cfg, s, s.dels[t].line);
    StepKeeps(cfg, s, s', t);
  }

  /** Noting something about the delivery, with its pc unchanged. */
  lemma NoteKeeps(cfg: Config, s: State, t: nat, d: Delivery)
    requires Inv(cfg, s) && t < |s.dels|
    requires Advanced(s.dels[t], d) && d.pc == s.dels[t].pc
    requires DelOk(cfg, s.(dels := s.dels[t := d]), t)
    ensures Inv(cfg, s.(dels := s.dels[t := d]))
  {
    var s' := s.(dels := s.dels[t := d]);
    assert DelOk(cfg, s, t) && LineOk(cfg, s, s.dels[t].line);
    StepKeeps(cfg, s, s', t);
  }

  lemma FailLine(cfg: Config, s: State, t: nat)
    requires Inv(cfg, s) && t < |s.dels|
    ensures s.dels[t].line < |s.lines|
    ensures LineOk(cfg, Fail(s, t), s.dels[t].line)
  {
    assert DelOk(cfg, s, t) && LineOk(cfg, s, s.dels[t].line);
  }

  lemma FailKeeps(cfg: Config, s: State, t: nat)
    requires Inv(cfg, s) && t < |s.dels| && s.dels[t].ran
    requires !s.dels[t].pc.Killed? && !s.dels[t].pc.Finished?
    requires Active(s.dels[t].pc) ||
             (s.dels[t].inst < |s.insts| && s.insts[s.dels[t].inst].alive && Idle(s, s.dels[t].inst))
    ensures s.dels[t].line < |s.lines|
    ensures Inv(cfg, Fail(s, t))
  {
    hide Stays, SameHeaders;
    assert DelOk(cfg, s, t);
    FailLine(cfg, s, t);
    var L := LineOf(s, t);
    assert L.path[L.queue] <= L.failures[L.queue] by { assert LineOk(cfg, s, s.dels[t].line); }
    StepKeeps(cfg, s, Fail(s, t), t);
  }

  lemma CommitKeeps(cfg: Config, s: State, t: nat, e: string, row: Row, db: Outcome)
    requires Inv(cfg, s) && t < |s.dels|
    requires RowOk(cfg, s.(rows := s.rows[e := row], authors := s.authors[e := t]), e)
    ensures Inv(cfg, Commit(s, t, e, row, db))
  {
    var s' := Commit(s, t, e, row, db);
    assert DelOk(cfg, s, t) && LineOk(cfg, s, s.dels[t].line);
    StepKeeps(cfg, s, s', t);
  }

  lemma BeginKeeps(cfg: Config, s: State, t: nat)
    requires Inv(cfg, s) && At(s, t, Buffered) && s.insts[s.dels[t].inst].alive && Idle(s, s.dels[t].inst)
    ensures Inv(cfg, StartHandler(cfg, s, t))
  {
    hide Stays, SameHeaders;
    assert DelOk(cfg, s, t);
    var pc := FirstStep(cfg, LineOf(s, t));
    if pc.Acking? {
      GoKeeps(cfg, s, t, pc);
    } else {
      var d := s.dels[t].(ran := true);
      var s1 := s.(dels := s.dels[t := d]);
      NoteKeeps(cfg, s, t, d);
      if pc.Failed? { FailKeeps(cfg, s1, t); } else { GoKeeps(cfg, s1, t, pc); }
    }
  }

  lemma CheckKeeps(cfg: Config, s: State, t: nat, fault: bool)
    requires Inv(cfg, s) && At(s, t, Checking) && LineOf(s, t).body.Event?
    ensures Inv(cfg, CheckRow(s, t, fault))
  {
    hide Stays, SameHeaders;
    assert DelOk(cfg, s, t);
    if fault {
      FailKeeps(cfg, s, t);
    } else if LineOf(s, t).body.eventId in s.rows {
      GoKeeps(cfg, s, t, Acking(Handled));
    } else {
      NoteKeeps(cfg, s, t, s.dels[t].(clear := true));
      GoKeeps(cfg, s.(dels := s.dels[t := s.dels[t].(clear := true)]), t, Sending);
    }
  }

  lemma SendKeeps(cfg: Config, s: State, t: nat, sent: bool)
    requires Inv(cfg, s) && At(s, t, Sending)
    ensures Inv(cfg, SendMail(s, t, sent))
  {
    hide Stays, SameHeaders;
    assert DelOk(cfg, s, t);
    if sent {
      NoteKeeps(cfg, s, t, s.dels[t].(mailed := true));
      GoKeeps(cfg, s.(dels := s.dels[t := s.dels[t].(mailed := true)]), t, Inserting);
    } else {
      FailKeeps(cfg, s, t);
    }
  }

  lemma InsertKeeps(cfg: Config, s: State, t: nat, db: Outcome)
    requires Inv(cfg, s) && At(s, t, Inserting) && LineOf(s, t).body.Event? && LineOf(s, t).body.payload.Some?
    ensures Inv(cfg, InsertSent(s, t, db))
  {
    hide Stays, SameHeaders;
    assert DelOk(cfg, s, t);
    var body := LineOf(s, t).body;
    var row := Row(USER_CREATED, body.payload.value.email, Sent);
    CommitKeeps(cfg, s, t, body.eventId, row, db);
    var s1 := Commit(s, t, body.eventId, row, db);
    assert DelOk(cfg, s1, t);
    if db.Ok? { GoKeeps(cfg, s1, t, Acking(Handled)); } else { FailKeeps(cfg, s1, t); }
  }

  lemma AnswerKeeps(cfg: Config, s: State, t: nat, success: bool)
    requires Inv(cfg, s) && At(s, t, Foreign)
    ensures Inv(cfg, Answered(s, t, success))
  {
    hide Stays, SameHeaders;
    assert DelOk(cfg, s, t);
    if success { GoKeeps(cfg, s, t, Acking(Handled)); } else { FailKeeps(cfg, s, t); }
  }

  lemma DecideKeeps(cfg: Config, s: State, t: nat)
    requires Inv(cfg, s) && HeadersTrue(cfg, s) && At(s, t, Failed)
    ensures Inv(cfg, DecideRetry(cfg, s, t))
  {
    hide Stays, SameHeaders;
    assert DelOk(cfg, s, t);
    var q := LineOf(s, t).queue;
    GoKeeps(cfg, s, t,
      if RetriesSeen(s, t) < Limit(cfg, q) then Rejecting else if q in cfg.notifies then Recording else Parking);
  }

  lemma RecordKeeps(cfg: Config, s: State, t: nat, db: Outcome)
    requires Inv(cfg, s) && At(s, t, Recording) && LineOf(s, t).body.Event?
    ensures Inv(cfg, RecordFailed(s, t, db))
  {
    hide Stays, SameHeaders;
    assert DelOk(cfg, s, t);
    var body := LineOf(s, t).body;
    var row := Row(body.kind, Recipient(body), Failure);
    assert LineOk(cfg, s, s.dels[t].line);
    CommitKeeps(cfg, s, t, body.eventId, row, db);
    var s1 := Commit(s, t, body.eventId, row, db);
    assert DelOk(cfg, s1, t);
    GoKeeps(cfg, s1, t, Parking);
  }

  lemma ParkKeeps(cfg: Config, s: State, t: nat, publish: Outcome)
    requires Inv(cfg, s) && At(s, t, Parking)
    ensures Inv(cfg, ParkCopy(s, t, publish))
  {
    var s' := ParkCopy(s, t, publish);
    assert DelOk(cfg, s, t) && LineOk(cfg, s, s.dels[t].line);
    StepKeeps(cfg, s, s', t);
  }

  lemma SettleLine(cfg: Config, s: State, t: nat)
    requires Inv(cfg, s) && t < |s.dels| && Settling(s.dels[t].pc) && s.dels[t].line < |s.lines|
    requires LineOf(s, t).place == Unacked(t)
    ensures LineOk(cfg, SettleDelivery(s, t, true), s.dels[t].line)
  {
    assert DelOk(cfg, s, t) && LineOk(cfg, s, s.dels[t].line);
  }

  lemma SettleKeeps(cfg: Config, s: State, t: nat, success: bool)
    requires Inv(cfg, s) && t < |s.dels| && Settling(s.dels[t].pc) && s.dels[t].line < |s.lines|
    requires success ==> LineOf(s, t).place == Unacked(t)
    ensures Inv(cfg, SettleDelivery(s, t, success))
  {
    var s' := SettleDelivery(s, t, success);
    assert DelOk(cfg, s, t) && LineOk(cfg, s, s.dels[t].line);
    if success { SettleLine(cfg, s, t); }
    StepKeeps(cfg, s, s', t);
  }

  // --------------------------------------- steps of the broker and processes

  lemma PublishKeeps(cfg: Config, s: State, body: Body, targets: seq<string>)
    requires Inv(cfg, s) && forall q :: q in targets ==> q in cfg.queues
    ensures Inv(cfg, s.(lines := s.lines + FreshAll(body, targets)))
  {
    AppendKeeps(cfg, s, FreshAll(body, targets));
  }

  /** New copies, ready and with their past in order, may join at any time. */
  lemma AppendKeeps(cfg: Config, s: State, more: seq<Line>)
    requires Inv(cfg, s)
    requires forall i :: 0 <= i < |more| ==>
          History(cfg, more[i]) && more[i].place.Ready? && more[i].own == more[i].requeues == 0
    ensures Inv(cfg, s.(lines := s.lines + more))
  {
    var s' := s.(lines := s.lines + more);
    forall t | 0 <= t < |s'.dels| ensures DelOk(cfg, s', t) && s.dels[t].line < |s.lines| { assert DelOk(cfg, s, t); }
    forall k | 0 <= k < |s'.dlq| ensures LetterOk(s', k) && s.dlq[k].line < |s.lines| { assert LetterOk(s, k); }
    forall l | 0 <= l < |s'.lines| ensures LineOk(cfg, s', l) {
      if l < |s.lines| {
        assert LineOk(cfg, s, l);
      } else {
        assert s'.lines[l] == more[l - |s.lines|];
      }
    }
    forall e | e in s'.rows ensures RowOk(cfg, s', e) { assert RowOk(cfg, s, e); }
    forall i | 0 <= i < |s'.insts| ensures InstOk(s', i) { assert InstOk(s, i); }
  }

  lemma ConnectKeeps(cfg: Config, s: State, q: string)
    requires Inv(cfg, s)
    ensures Inv(cfg, s.(insts := s.insts + [Inst(q, true, true)]))
  {
    var s' := s.(insts := s.insts + [Inst(q, true, true)]);
    forall l | 0 <= l < |s'.lines| ensures LineOk(cfg, s', l) { assert LineOk(cfg, s, l); }
    forall t | 0 <= t < |s'.dels| ensures DelOk(cfg, s', t) { assert DelOk(cfg, s, t); }
    forall e | e in s'.rows ensures RowOk(cfg, s', e) { assert RowOk(cfg, s, e); }
    forall i | 0 <= i < |s'.insts| ensures InstOk(s', i) { if i < |s.insts| { assert InstOk(s, i); } }
    forall k | 0 <= k < |s'.dlq| ensures LetterOk(s', k) { assert LetterOk(s, k); }
  }

  lemma DeliverLines(cfg: Config, s: State, l0: nat, i0: nat, l: nat)
    requires Inv(cfg, s) && l0 < |s.lines| && i0 < |s.insts| && l < |s.lines|
    requires s.lines[l0].place == Ready && s.insts[i0].open
    ensures LineOk(cfg, Delivered(s, l0, i0), l)
  {
    assert LineOk(cfg, s, l);
  }

  lemma DeliverDeliveries(cfg: Config, s: State, l0: nat, i0: nat, t: nat)
    requires Inv(cfg, s) && l0 < |s.lines| && i0 < |s.insts| && t <= |s.dels|
    requires s.lines[l0].place == Ready && s.insts[i0].open && s.insts[i0].queue == s.lines[l0].queue
    ensures DelOk(cfg, Delivered(s, l0, i0), t)
  {
    assert LineOk(cfg, s, l0) && InstOk(s, i0);
    if t < |s.dels| { assert DelOk(cfg, s, t); }
  }

  lemma DeliverKeeps(cfg: Config, s: State, l0: nat, i0: nat)
    requires Inv(cfg, s) && l0 < |s.lines| && i0 < |s.insts|
    requires s.lines[l0].place == Ready && s.insts[i0].open && s.insts[i0].queue == s.lines[l0].queue
    ensures Inv(cfg, Delivered(s, l0, i0))
  {
    var s' := Delivered(s, l0, i0);
    forall l | 0 <= l < |s'.lines| ensures LineOk(cfg, s', l) { DeliverLines(cfg, s, l0, i0, l); }
    forall t | 0 <= t < |s'.dels| ensures DelOk(cfg, s', t) { DeliverDeliveries(cfg, s, l0, i0, t); }
    forall e | e in s'.rows ensures RowOk(cfg, s', e) { assert RowOk(cfg, s, e); }
    forall i | 0 <= i < |s'.insts| ensures InstOk(s', i) { assert InstOk(s, i); }
    forall k | 0 <= k < |s'.dlq| ensures LetterOk(s', k) { assert LetterOk(s, k); }
  }

  lemma {:induction false} OthersAreTargets(qs: seq<string>, q: string)
    ensures forall r :: r in Without1(qs, q) ==> r in qs
  {
    if qs != [] { OthersAreTargets(qs[1..], q); }
  }

  lemma ReturnKeepsLine(cfg: Config, s: State, l0: nat, l: nat)
    requires Inv(cfg, s) && l0 < |s.lines| && s.lines[l0].place == Waiting && l < |s.lines|
    ensures LineOk(cfg, s.(lines := s.lines[l0 := Returned(s.lines[l0])]), l)
  {
    hide DelOk, RowOk, Bump;
    assert LineOk(cfg, s, l);
  }

  lemma ReturnKeepsDelivery(cfg: Config, s: State, l0: nat, t: nat)
    requires Inv(cfg, s) && l0 < |s.lines| && s.lines[l0].place == Waiting && t < |s.dels|
    ensures DelOk(cfg, s.(lines := s.lines[l0 := Returned(s.lines[l0])]), t)
  {
    hide LineOk, RowOk, Bump;
    assert DelOk(cfg, s, t);
  }

  lemma ReturnKeeps(cfg: Config, s: State, l0: nat)
    requires Inv(cfg, s) && l0 < |s.lines| && s.lines[l0].place == Waiting
    ensures Inv(cfg, s.(lines := s.lines[l0 := Returned(s.lines[l0])]))
  {
    hide LineOk, DelOk, Bump;
    var s' := s.(lines := s.lines[l0 := Returned(s.lines[l0])]);
    forall l | 0 <= l < |s'.lines| ensures LineOk(cfg, s', l) { ReturnKeepsLine(cfg, s, l0, l); }
    forall t | 0 <= t < |s'.dels| ensures DelOk(cfg, s', t) { ReturnKeepsDelivery(cfg, s, l0, t); }
    forall e | e in s'.rows ensures RowOk(cfg, s', e) { assert RowOk(cfg, s, e); }
    forall i | 0 <= i < |s'.insts| ensures InstOk(s', i) { assert InstOk(s, i); }
    forall k | 0 <= k < |s'.dlq| ensures LetterOk(s', k) { assert LetterOk(s, k); }
  }

  lemma ExpireKeeps(cfg: Config, s: State, l0: nat)
    requires ValidConfig(cfg) && Inv(cfg, s) && l0 < |s.lines| && s.lines[l0].place == Waiting
    requires s.lines[l0].queue in cfg.routes
    ensures Inv(cfg, ExpireRetry(cfg, s, l0))
  {
    var line := s.lines[l0];
    assert LineOk(cfg, s, l0);
    ReturnKeeps(cfg, s, l0);
    var s1 := s.(lines := s.lines[l0 := Returned(line)]);
    var others := Without1(cfg.routes[line.queue], line.queue);
    OthersAreTargets(cfg.routes[line.queue], line.queue);
    assert LineOk(cfg, s1, l0);
    AppendKeeps(cfg, s1, Copies(line, others));
    assert ExpireRetry(cfg, s, l0).lines == s1.lines + Copies(line, others);
  }

  lemma CloseKeepsLine(cfg: Config, s: State, i0: nat, l: nat)
    requires Inv(cfg, s) && i0 < |s.insts| && l < |s.lines|
    ensures LineOk(cfg, CloseChannel(s, i0), l)
  {
    hide DelOk, RowOk, SameHeaders;
    assert LineOk(cfg, s, l);
  }

  lemma CloseKeepsDelivery(cfg: Config, s: State, i0: nat, t: nat)
    requires Inv(cfg, s) && i0 < |s.insts| && t < |s.dels|
    ensures DelOk(cfg, CloseChannel(s, i0), t)
  {
    hide RowOk, SameHeaders, History;
    assert DelOk(cfg, s, t) && LineOk(cfg, s, s.dels[t].line);
  }

  lemma CloseKeepsRow(cfg: Config, s: State, i0: nat, e: string)
    requires Inv(cfg, s) && i0 < |s.insts| && e in s.rows
    ensures RowOk(cfg, CloseChannel(s, i0), e)
  {
    hide DelOk, LineOk, SameHeaders;
    assert RowOk(cfg, s, e);
  }

  lemma CloseKeeps(cfg: Config, s: State, i0: nat)
    requires Inv(cfg, s) && i0 < |s.insts|
    ensures Inv(cfg, CloseChannel(s, i0))
  {
    hide LineOk, DelOk, RowOk, SameHeaders;
    var s' := CloseChannel(s, i0);
    forall l | 0 <= l < |s'.lines| ensures LineOk(cfg, s', l) { CloseKeepsLine(cfg, s, i0, l); }
    forall t | 0 <= t < |s'.dels| ensures DelOk(cfg, s', t) { CloseKeepsDelivery(cfg, s, i0, t); }
    forall e | e in s'.rows ensures RowOk(cfg, s', e) { CloseKeepsRow(cfg, s, i0, e); }
    forall i | 0 <= i < |s'.insts| ensures InstOk(s', i) { assert InstOk(s, i); }
    forall k | 0 <= k < |s'.dlq| ensures LetterOk(s', k) { assert LetterOk(s, k); }
  }

  /** The process is gone, and with it the calls it was in. */
  function Killed(s: State, i0: nat): State
    requires i0 < |s.insts|
  {
    s.(insts := s.insts[i0 := s.insts[i0].(alive := false)],
       dels := seq(|s.dels|, t requires 0 <= t < |s.dels| => KillDelivery(s.dels[t], i0)))
  }

  lemma KillKeepsLine(cfg: Config, s: State, i0: nat, l: nat)
    requires Inv(cfg, s) && i0 < |s.insts| && !s.insts[i0].open && l < |s.lines|
    ensures LineOk(cfg, Killed(s, i0), l)
  {
    hide DelOk, RowOk;
    assert LineOk(cfg, s, l);
  }

  lemma KillKeepsDelivery(cfg: Config, s: State, i0: nat, t: nat)
    requires Inv(cfg, s) && i0 < |s.insts| && !s.insts[i0].open && t < |s.dels|
    ensures DelOk(cfg, Killed(s, i0), t)
  {
    hide LineOk, RowOk;
    assert DelOk(cfg, s, t);
  }

  lemma KillKeepsRow(cfg: Config, s: State, i0: nat, e: string)
    requires Inv(cfg, s) && i0 < |s.insts| && e in s.rows
    ensures RowOk(cfg, Killed(s, i0), e)
  {
    hide DelOk, LineOk;
    assert RowOk(cfg, s, e);
  }

  lemma KillKeeps(cfg: Config, s: State, i0: nat)
    requires Inv(cfg, s) && i0 < |s.insts| && !s.insts[i0].open
    ensures Inv(cfg, Killed(s, i0))
  {
    hide LineOk, DelOk, RowOk;
    var s' := Killed(s, i0);
    forall l | 0 <= l < |s'.lines| ensures LineOk(cfg, s', l) { KillKeepsLine(cfg, s, i0, l); }
    forall t | 0 <= t < |s'.dels| ensures DelOk(cfg, s', t) { KillKeepsDelivery(cfg, s, i0, t); }
    forall e | e in s'.rows ensures RowOk(cfg, s', e) { KillKeepsRow(cfg, s, i0, e); }
    forall i | 0 <= i < |s'.insts| ensures InstOk(s', i) { assert InstOk(s, i); }
    forall k | 0 <= k < |s'.dlq| ensures LetterOk(s', k) { assert LetterOk(s, k); }
  }

  lemma CrashKeeps(cfg: Config, s: State, i0: nat)
    requires Inv(cfg, s) && i0 < |s.insts|
    ensures Inv(cfg, CrashProcess(s, i0))
  {
    hide Inv, SameHeaders;
    CloseKeeps(cfg, s, i0);
    KillKeeps(cfg, CloseChannel(s, i0), i0);
    assert CrashProcess(s, i0) == Killed(CloseChannel(s, i0), i0);
  }

  // ---------------------------------------------------- the header count

  lemma ReadsAfterReject(cfg: Config, deaths: seq<Death>, past: multiset<string>, q: string)
    requires ValidConfig(cfg) && q in cfg.queues && Reads(cfg, deaths, past)
    ensures Reads(cfg, Bump(deaths, q, "rejected"), past)
  {
    forall r | r in cfg.queues
      ensures Cycles(Bump(deaths, q, "rejected"), r) == past[r]
      ensures OnlyReason(Bump(deaths, q, "rejected"), RetryQueueName(r), "expired")
    {
      ForeignDeathKeepsCycles(deaths, q, "rejected", r);
      BumpKeepsReason(deaths, q, "rejected", RetryQueueName(r), "expired");
    }
  }

  lemma ReadsAfterExpiry(cfg: Config, deaths: seq<Death>, past: multiset<string>, q: string)
    requires Reads(cfg, deaths, past)
    ensures Reads(cfg, Bump(deaths, RetryQueueName(q), "expired"), past + multiset{q})
  {
    forall r | r in cfg.queues
      ensures Cycles(Bump(deaths, RetryQueueName(q), "expired"), r) == (past + multiset{q})[r]
      ensures OnlyReason(Bump(deaths, RetryQueueName(q), "expired"), RetryQueueName(r), "expired")
    {
      RetryNameInjective(q, r);
      if q == r {
        ExpiryCountsOneCycle(deaths, q);
      } else {
        ForeignDeathKeepsCycles(deaths, RetryQueueName(q), "expired", r);
      }
      BumpKeepsReason(deaths, RetryQueueName(q), "expired", RetryQueueName(r), "expired");
    }
  }

  lemma SameHeadersStayTrue(cfg: Config, s: State, s': State)
    requires HeadersTrue(cfg, s) && SameHeaders(s, s')
    ensures HeadersTrue(cfg, s')
  {
  }

  lemma SettleKeepsHeaders(cfg: Config, s: State, t: nat, success: bool)
    requires ValidConfig(cfg) && Inv(cfg, s) && HeadersTrue(cfg, s) && Enabled(cfg, s, Settle(t, success))
    ensures HeadersTrue(cfg, SettleDelivery(s, t, success))
  {
    hide Reads;
    assert LineOk(cfg, s, s.dels[t].line);
    ReadsAfterReject(cfg, LineOf(s, t).deaths, LineOf(s, t).path, LineOf(s, t).queue);
  }

  lemma ExpireKeepsHeaders(cfg: Config, s: State, l: nat)
    requires HeadersTrue(cfg, s) && l < |s.lines| && s.lines[l].queue in cfg.routes
    ensures HeadersTrue(cfg, ExpireRetry(cfg, s, l))
  {
    hide Reads;
    ReadsAfterExpiry(cfg, s.lines[l].deaths, s.lines[l].path, s.lines[l].queue);
  }

  lemma PublishKeepsHeaders(cfg: Config, s: State, body: Body, targets: seq<string>)
    requires ValidConfig(cfg) && HeadersTrue(cfg, s)
    ensures HeadersTrue(cfg, s.(lines := s.lines + FreshAll(body, targets)))
  {
    var s' := s.(lines := s.lines + FreshAll(body, targets));
    forall l | |s.lines| <= l < |s'.lines| ensures Reads(cfg, s'.lines[l].deaths, s'.lines[l].path) {
      assert s'.lines[l] == FreshAll(body, targets)[l - |s.lines|];
    }
  }

  lemma HeadersStayTrue(cfg: Config, s: State, a: Action)
    requires ValidConfig(cfg) && Inv(cfg, s) && HeadersTrue(cfg, s) && Enabled(cfg, s, a)
    ensures HeadersTrue(cfg, Apply(cfg, s, a))
  {
    hide Inv, Reads, Go, Fail, StartHandler, CheckRow, SendMail, InsertSent, DecideRetry, RecordFailed, ParkCopy,
      SettleDelivery, CloseChannel, CrashProcess;
    match a
    case Settle(t, success) => SettleKeepsHeaders(cfg, s, t, success);
    case Expire(l) => ExpireKeepsHeaders(cfg, s, l);
    case Publish(body, targets) => PublishKeepsHeaders(cfg, s, body, targets);
    case Deliver(l, i) =>
    case _ => SameHeadersStayTrue(cfg, s, Apply(cfg, s, a));
  }

  // --------------------------------------------------------------- all steps

  lemma StepKeepsInv(cfg: Config, s: State, a: Action)
    requires ValidConfig(cfg) && Inv(cfg, s) && HeadersTrue(cfg, s) && Enabled(cfg, s, a)
    ensures Inv(cfg, Apply(cfg, s, a))
  {
    hide Inv, HeadersTrue, Go, Fail, StartHandler, CheckRow, SendMail, InsertSent, DecideRetry, RecordFailed, ParkCopy,
      SettleDelivery, CloseChannel, CrashProcess, Delivered, Stays, SameHeaders;
    match a
    case Publish(body, targets) => PublishKeeps(cfg, s, body, targets);
    case Connect(q) => ConnectKeeps(cfg, s, q);
    case Deliver(l, i) => DeliverKeeps(cfg, s, l, i);
    case Begin(t) => BeginKeeps(cfg, s, t);
    case Check(t, fault) => CheckKeeps(cfg, s, t, fault);
    case Send(t, sent) => SendKeeps(cfg, s, t, sent);
    case Insert(t, db) => InsertKeeps(cfg, s, t, db);
    case Answer(t, success) => AnswerKeeps(cfg, s, t, success);
    case Decide(t) => DecideKeeps(cfg, s, t);
    case Record(t, db) => RecordKeeps(cfg, s, t, db);
    case Park(t, publish) => ParkKeeps(cfg, s, t, publish);
    case Settle(t, success) => SettleKeeps(cfg, s, t, success);
    case Expire(l) => ExpireKeeps(cfg, s, l);
    case Close(i) => CloseKeeps(cfg, s, i);
    case Crash(i) => CrashKeeps(cfg, s, i);
  }
}
