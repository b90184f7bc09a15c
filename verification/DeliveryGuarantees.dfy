// What the retry/DLQ consumer and the notification handler guarantee over all runs.
module DeliveryGuarantees {
  import opened XDeath
  import opened Bus
  import opened BusInvariant
  import opened BusTally

  // -------------------------------------------------------------- no loss

  ghost predicate Live(L: Line) { L.place.Ready? || L.place.Unacked? || L.place.Waiting? }

  /** The DLQ of the copy's queue holds its body. */
  ghost predicate OnDlq(s: State, l: nat)
    requires l < |s.lines|
  {
    exists k :: 0 <= k < |s.dlq| && s.dlq[k] == Letter(s.lines[l].queue, l, s.lines[l].body)
  }

  lemma {:induction false} LetterExists(dlq: seq<Letter>, l: nat)
    requires Letters(dlq, l) >= 1
    ensures exists k :: 0 <= k < |dlq| && dlq[k].line == l
  {
    var n := |dlq| - 1;
    if dlq[n].line != l {
      LetterExists(dlq[..n], l);
      var k :| 0 <= k < n && dlq[..n][k].line == l;
      assert dlq[k].line == l;
    }
  }

  /** No silent loss: whatever crashes, closed channels and failed calls a run holds, every decodable copy ever
      put on a consumer's queue is still live, or parked on its DLQ, or handled - and for the notification
      consumer handled means that its event has a row. */
  lemma NoSilentLoss(cfg: Config, run: seq<Action>, l: nat)
    requires ValidConfig(cfg) && Legal(cfg, EMPTY, run)
    requires var s := After(cfg, EMPTY, run); l < |s.lines| && s.lines[l].body.Event?
    ensures var s := After(cfg, EMPTY, run); var L := s.lines[l];
            || Live(L)
            || OnDlq(s, l)
            || (L.place == Gone(Handled) && (L.queue in cfg.notifies ==> L.body.eventId in s.rows))
  {
    StartIsGood(cfg);
    RunKeepsGood(cfg, EMPTY, run);
    var s := After(cfg, EMPTY, run);
    assert LineOk(cfg, s, l) && LineTally(s, l);
    match s.lines[l].place
    case Gone(Parked) =>
      LetterExists(s.dlq, l);
      var k :| 0 <= k < |s.dlq| && s.dlq[k].line == l;
      assert LetterOk(s, k);
      assert s.dlq[k] == Letter(s.lines[l].queue, l, s.lines[l].body);
    case Gone(Handled) =>
    case Gone(Dropped) =>
    case _ =>
  }

  // ------------------------------------------------------- the retry count

  /** The count that the consumer of q reads from a copy is the number of cycles its lineage completed
      through q's retry queue, and no interleaving takes it past maxRetries. */
  lemma RetryCountIsCyclesCompleted(cfg: Config, run: seq<Action>, l: nat, q: string)
    requires ValidConfig(cfg) && Legal(cfg, EMPTY, run) && q in cfg.queues
    requires l < |After(cfg, EMPTY, run).lines|
    ensures var L := After(cfg, EMPTY, run).lines[l];
            Retries(HeadersOf(L.deaths), RetryQueueName(q)) == L.path[q] <= Budget(cfg, q)
  {
    StartIsGood(cfg);
    RunKeepsGood(cfg, EMPTY, run);
    var s := After(cfg, EMPTY, run);
    assert LineOk(cfg, s, l) && Reads(cfg, s.lines[l].deaths, s.lines[l].path);
    assert Cycles(s.lines[l].deaths, q) == s.lines[l].path[q];
  }

  /** Redelivery that is not a retry cycle leaves the count alone: after a crash, a closed channel,
      or a requeue because parking failed, every consumer reads what it would have read before. */
  lemma RequeueKeepsCount(cfg: Config, s: State, a: Action, l: nat, q: string)
    requires Enabled(cfg, s, a) && l < |s.lines|
    requires a.Crash? || a.Close? || (a.Settle? && s.dels[a.tag].pc.Requeueing?)
    ensures l < |Apply(cfg, s, a).lines|
    ensures Cycles(Apply(cfg, s, a).lines[l].deaths, q) == Cycles(s.lines[l].deaths, q)
  {
    hide Cycles;
    match a
    case Crash(i) => assert SameHeaders(s, CrashProcess(s, i));
    case Close(i) => assert SameHeaders(s, CloseChannel(s, i));
    case Settle(t, success) =>
      var l0 := s.dels[t].line;
      assert SettleDelivery(s, t, success).lines[l].deaths == s.lines[l].deaths;
  }

  lemma HolderMayGo(cfg: Config, s: State, l: nat)
    requires Inv(cfg, s) && l < |s.lines| && s.lines[l].place.Unacked?
    ensures var t := s.lines[l].place.tag;
            && t < |s.dels| && s.dels[t].inst < |s.insts|
            && s.insts[s.dels[t].inst].open && s.insts[s.dels[t].inst].alive
  {
    assert LineOk(cfg, s, l) && InstOk(s, s.dels[s.lines[l].place.tag].inst);
  }

  lemma ClosingRequeues(s: State, l: nat, i: nat)
    requires i < |s.insts| && l < |s.lines| && s.lines[l].place.Unacked? && s.lines[l].place.tag < |s.dels|
    requires s.dels[s.lines[l].place.tag].inst == i
    ensures var s' := CloseChannel(s, i); var L := s.lines[l];
            && |s'.lines| == |s.lines| && s'.lines[l] == L.(place := Ready, requeues := L.requeues + 1)
            && s'.insts == s.insts[i := s.insts[i].(open := false)] && s'.rows == s.rows && s'.dlq == s.dlq
  {
    hide SameHeaders;
  }

  /** Whatever holds a delivered copy may lose its channel or die at any time; the copy is then back on its queue, as it
      was but for the redelivery, and any other consumer j of the queue can get it. */
  lemma LostDeliveryComesBack(cfg: Config, s: State, l: nat, t: nat, a: Action, j: nat)
    requires Good(cfg, s) && l < |s.lines| && s.lines[l].place == Unacked(t) && t < |s.dels| && j < |s.insts|
    requires a == Close(s.dels[t].inst) || a == Crash(s.dels[t].inst)
    ensures Enabled(cfg, s, a)
    ensures var s' := Apply(cfg, s, a); var L := s.lines[l];
            && |s'.lines| == |s.lines| && s'.lines[l] == L.(place := Ready, requeues := L.requeues + 1)
            && s'.rows == s.rows && s'.dlq == s.dlq
            && (s.insts[j].open && s.insts[j].queue == L.queue && j != a.inst ==> Enabled(cfg, s', Deliver(l, j)))
  {
    HolderMayGo(cfg, s, l);
    hide Inv, Good;
    ClosingRequeues(s, l, a.inst);
    hide CloseChannel, SameHeaders;
  }

  // ------------------------------------------------------------- attempts

  /** A copy's handler runs are bounded by its retry budget, one, and the redeliveries that were no retry. */
  lemma AttemptBound(cfg: Config, run: seq<Action>, l: nat)
    requires ValidConfig(cfg) && Legal(cfg, EMPTY, run) && l < |After(cfg, EMPTY, run).lines|
    ensures var s := After(cfg, EMPTY, run); var L := s.lines[l];
            Runs(s.dels, l) <= Budget(cfg, L.queue) + 1 + L.requeues
  {
    StartIsGood(cfg);
    RunKeepsGood(cfg, EMPTY, run);
    var s := After(cfg, EMPTY, run);
    assert LineOk(cfg, s, l) && LineTally(s, l);
    RunsWithinDeliveries(s.dels, l);
    assert s.lines[l].path[s.lines[l].queue] <= Budget(cfg, s.lines[l].queue);
  }

  lemma ParkedWithoutRequeue(cfg: Config, s: State, l: nat)
    requires Good(cfg, s) && l < |s.lines|
    requires var L := s.lines[l]; L.place == Gone(Parked) && L.requeues == 0 && L.body.Event?
    ensures Runs(s.dels, l) + s.lines[l].inherited == Budget(cfg, s.lines[l].queue) + 1
    ensures Letters(s.dlq, l) == 1 && OnDlq(s, l)
  {
    assert LineOk(cfg, s, l) && LineTally(s, l);
    forall t | 0 <= t < |s.dels| && s.dels[t].line == l ensures s.dels[t].ran { assert DelOk(cfg, s, t); }
    RunsWithinDeliveries(s.dels, l);
    assert s.lines[l].path[s.lines[l].queue] <= Budget(cfg, s.lines[l].queue);
    LetterExists(s.dlq, l);
    var k :| 0 <= k < |s.dlq| && s.dlq[k].line == l;
    assert LetterOk(s, k);
    assert s.dlq[k] == Letter(s.lines[l].queue, l, s.lines[l].body);
  }

  /** A copy that was parked without ever being requeued had exactly maxRetries + 1 handler runs (one, if maxRetries is
      negative), less the cycles it inherited if it was fanned out, and left exactly one copy of itself on the DLQ. */
  lemma ParkedExactly(cfg: Config, run: seq<Action>, l: nat)
    requires ValidConfig(cfg) && Legal(cfg, EMPTY, run) && l < |After(cfg, EMPTY, run).lines|
    requires var L := After(cfg, EMPTY, run).lines[l];
             L.place == Gone(Parked) && L.requeues == 0 && L.body.Event?
    ensures var s := After(cfg, EMPTY, run);
            && Runs(s.dels, l) + s.lines[l].inherited == Budget(cfg, s.lines[l].queue) + 1
            && Letters(s.dlq, l) == 1
            && OnDlq(s, l)
  {
    StartIsGood(cfg);
    RunKeepsGood(cfg, EMPTY, run);
    ParkedWithoutRequeue(cfg, After(cfg, EMPTY, run), l);
  }

  /** A copy leaves at most one letter on the DLQ, and one more for each redelivery that was no retry. */
  lemma LettersBound(cfg: Config, run: seq<Action>, l: nat)
    requires ValidConfig(cfg) && Legal(cfg, EMPTY, run) && l < |After(cfg, EMPTY, run).lines|
    ensures var s := After(cfg, EMPTY, run); Letters(s.dlq, l) <= s.lines[l].requeues + 1
  {
    StartIsGood(cfg);
    RunKeepsGood(cfg, EMPTY, run);
    assert LineTally(After(cfg, EMPTY, run), l);
  }

  // ----------------------------------------------------------------- rows

  lemma StepKeepsRows(cfg: Config, s: State, a: Action, e: string)
    requires Enabled(cfg, s, a) && e in s.rows
    ensures e in Apply(cfg, s, a).rows && Apply(cfg, s, a).rows[e] == s.rows[e]
  {
    hide Go, Fail, StartHandler, CheckRow, SendMail, InsertSent, DecideRetry, RecordFailed, ParkCopy;
  }

  /** The first row committed for an event, sent or failed, is its row for ever. */
  lemma {:induction false} FirstRowStands(cfg: Config, s: State, run: seq<Action>, e: string)
    requires Legal(cfg, s, run) && e in s.rows
    ensures e in After(cfg, s, run).rows && After(cfg, s, run).rows[e] == s.rows[e]
    decreases |run|
  {
    hide Apply, Enabled;
    if run != [] {
      StepKeepsRows(cfg, s, run[0], e);
      FirstRowStands(cfg, Apply(cfg, s, run[0]), run[1..], e);
    }
  }

  /** A `sent` row was written by a handler call whose Send had succeeded; a `failed` row by one whose copy,
      with the copies it was fanned out from, had by then failed more than maxRetries handler runs at this consumer. */
  lemma RowsTellTheTruth(cfg: Config, run: seq<Action>, e: string)
    requires ValidConfig(cfg) && Legal(cfg, EMPTY, run) && e in After(cfg, EMPTY, run).rows
    ensures var s := After(cfg, EMPTY, run);
            && e in s.authors && s.authors[e] < |s.dels| && s.dels[s.authors[e]].line < |s.lines|
            && var L := LineOf(s, s.authors[e]);
            && L.body.Event? && L.body.eventId == e
            && s.rows[e].recipient == Recipient(L.body)
            && s.rows[e].kind == (if s.rows[e].status.Sent? then USER_CREATED else L.body.kind)
            && (s.rows[e].status.Sent? ==> s.dels[s.authors[e]].mailed)
            && (s.rows[e].status.Failure? ==> L.failures[L.queue] >= Budget(cfg, L.queue) + 1)
  {
    StartIsGood(cfg);
    RunKeepsGood(cfg, EMPTY, run);
    assert RowOk(cfg, After(cfg, EMPTY, run), e);
  }

  // ---------------------------------------------------------------- mails

  ghost predicate About(s: State, t: nat, e: string) {
    && t < |s.dels| && s.dels[t].line < |s.lines|
    && LineOf(s, t).body.Event? && LineOf(s, t).body.eventId == e
  }

  /** The handler calls for event e whose Send succeeded. */
  ghost function MailedBy(s: State, e: string): set<nat> {
    set t: nat | 0 <= t < |s.dels| && About(s, t, e) && s.dels[t].mailed
  }

  /** The handler calls for event e whose existence check found no row. */
  ghost function ClearedBy(s: State, e: string): set<nat> {
    set t: nat | 0 <= t < |s.dels| && About(s, t, e) && s.dels[t].clear
  }

  ghost predicate Persists(s: State, s': State) {
    && |s.dels| <= |s'.dels| && |s.lines| <= |s'.lines|
    && (forall l :: 0 <= l < |s.lines| ==> s'.lines[l].body == s.lines[l].body && s'.lines[l].queue == s.lines[l].queue)
    && (forall t :: 0 <= t < |s.dels| ==> s'.dels[t].line == s.dels[t].line)
    && (forall t :: 0 <= t < |s.dels| ==> s'.dels[t].clear ==> s.dels[t].clear || MayClear(s, t))
    && (forall t :: |s.dels| <= t < |s'.dels| ==> !s'.dels[t].clear)
  }

  lemma StepPersists(cfg: Config, s: State, a: Action)
    requires Enabled(cfg, s, a)
    ensures Persists(s, Apply(cfg, s, a))
  {
    hide Apply, Enabled, Persists, Stays;
    if InCall(a) {
      CallStepStays(cfg, s, a);
      StayingPersists(s, Apply(cfg, s, a), a.tag);
    } else {
      BrokerFrame(cfg, s, a);
      FramePersists(s, Apply(cfg, s, a));
    }
  }

  lemma FramePersists(s: State, s': State)
    requires Frame(s, s')
    ensures Persists(s, s')
  {
    hide MayClear;
  }

  lemma StayingPersists(s: State, s': State, t: nat)
    requires Stays(s, s', t)
    ensures Persists(s, s')
  {
    hide MayClear, RowsStand;
  }

  lemma RowFreezesClearing(cfg: Config, s: State, s': State, e: string)
    requires Inv(cfg, s) && Persists(s, s') && e in s.rows
    ensures ClearedBy(s', e) <= ClearedBy(s, e)
  {
    forall t | t in ClearedBy(s', e) ensures t in ClearedBy(s, e) { assert DelOk(cfg, s, t); }
  }

  /** Send safety: once an event's row is committed, no handler call that had not yet passed its existence check
      ever mails it. Its mails, at any later time, are among the calls that had checked before the commit. */
  lemma {:induction false} MailsWereClearedBeforeCommit(cfg: Config, s: State, run: seq<Action>, e: string)
    requires ValidConfig(cfg) && Good(cfg, s) && Legal(cfg, s, run) && e in s.rows
    ensures MailedBy(After(cfg, s, run), e) <= ClearedBy(s, e)
    decreases |run|
  {
    hide Apply, Enabled;
    if run == [] {
      forall t | t in MailedBy(s, e) ensures t in ClearedBy(s, e) { assert DelOk(cfg, s, t); }
    } else {
      var next := Apply(cfg, s, run[0]);
      StepKeepsGood(cfg, s, run[0]);
      StepKeepsRows(cfg, s, run[0], e);
      StepPersists(cfg, s, run[0]);
      RowFreezesClearing(cfg, s, next, e);
      MailsWereClearedBeforeCommit(cfg, next, run[1..], e);
    }
  }
}
