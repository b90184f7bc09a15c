// The delivery protocol as a state machine: n consumer queues with their retry
// queues and DLQs, any number of consumer instances, and the notification
// handler in front of its table. One action is one effect visible to others.
module Bus {
  import opened Wrappers
  import opened XDeath

  // -------------------------------------------------------------- messages

  datatype Payload = Payload(id: int, name: string, email: string)

  /** A message body: JSON that decodes to an envelope, or bytes that do not. */
  datatype Body =
    | Garbage(bytes: string)
    | Event(eventId: string, kind: string, payload: Option<Payload>)

  /** How a copy of a message left the consumer for good. */
  datatype Fate = Dropped | Handled | Parked

  /** Where the broker holds a copy: in the main queue, delivered under a tag, in the retry queue, or nowhere. */
  datatype Place = Ready | Unacked(tag: nat) | Waiting | Gone(fate: Fate)

  /** One copy of a message on one consumer's queue, through all its retry cycles.
      `path` and `failures` record, per queue, the retry cycles completed and the handler runs
      failed by this copy and by the copies it was fanned out from. */
  datatype Line = Line(
    queue: string,
    body: Body,
    deaths: seq<Death>,
    place: Place,
    path: multiset<string>,
    failures: multiset<string>,
    inherited: nat,
    own: nat,
    requeues: nat)

  // ------------------------------------------------------------- consumers

  /** The next effect of one call of Consumer.handle. */
  datatype Pc =
    | Buffered | Checking | Sending | Inserting | Foreign
    | Failed | Rejecting | Recording | Parking | Requeueing
    | Acking(fate: Fate) | Finished | Killed

  /** One delivery of a copy to an instance, with the headers it was delivered with
      and the cycles the copy had completed by then. */
  datatype Delivery = Delivery(
    line: nat,
    inst: nat,
    deaths: seq<Death>,
    past: multiset<string>,
    pc: Pc,
    ran: bool,      // the handler was invoked
    clear: bool,    // its existence check found no row
    mailed: bool)   // its Send returned success

  /** A process consuming one queue; `open` is its AMQP channel. */
  datatype Inst = Inst(queue: string, open: bool, alive: bool)

  datatype Status = Sent | Failure

  datatype Row = Row(kind: string, recipient: string, status: Status)

  /** A message parked on the DLQ of `queue`. */
  datatype Letter = Letter(queue: string, line: nat, body: Body)

  datatype Config = Config(
    queues: seq<string>,
    max: map<string, int>,
    routes: map<string, seq<string>>,  // main queues that an expiring retry of this queue is routed to
    notifies: set<string>)             // queues whose handler is the notification service

  datatype State = State(
    lines: seq<Line>,
    dels: seq<Delivery>,
    insts: seq<Inst>,
    rows: map<string, Row>,
    authors: map<string, nat>,         // the delivery that inserted each row
    dlq: seq<Letter>)

  const USER_CREATED: string := "user.created"

  predicate Distinct(qs: seq<string>) {
    forall i, j :: 0 <= i < j < |qs| ==> qs[i] != qs[j]
  }

  predicate ValidConfig(cfg: Config) {
    && Distinct(cfg.queues)
    && (forall q :: q in cfg.queues ==>
          && q in cfg.max
          && q in cfg.routes
          && RetryQueueName(q) !in cfg.queues
          && q in cfg.routes[q]
          && Distinct(cfg.routes[q])
          && (forall r :: r in cfg.routes[q] ==> r in cfg.queues))
  }

  /** maxRetries as configured for the consumer of q. */
  function Limit(cfg: Config, q: string): int {
    if q in cfg.max then cfg.max[q] else 0
  }

  /** How many retry cycles that allows: none when maxRetries is negative. */
  function Budget(cfg: Config, q: string): nat {
    if Limit(cfg, q) > 0 then Limit(cfg, q) else 0
  }

  const EMPTY: State := State([], [], [], map[], map[], [])

  // --------------------------------------------------------------- actions

  /** A remote call succeeded; failed with no effect; or took effect and still reported an error. */
  datatype Outcome = Ok | Refused | Unclear

  datatype Action =
    | Publish(body: Body, targets: seq<string>)
    | Connect(queue: string)
    | Deliver(line: nat, inst: nat)
    | Begin(tag: nat)
    | Check(tag: nat, fault: bool)
    | Send(tag: nat, sent: bool)
    | Insert(tag: nat, db: Outcome)
    | Answer(tag: nat, success: bool)
    | Decide(tag: nat)
    | Record(tag: nat, db: Outcome)
    | Park(tag: nat, publish: Outcome)
    | Settle(tag: nat, success: bool)
    | Expire(line: nat)
    | Close(inst: nat)
    | Crash(inst: nat)

  predicate Active(pc: Pc) { !pc.Buffered? && !pc.Finished? && !pc.Killed? }

  predicate At(s: State, t: nat, pc: Pc) {
    t < |s.dels| && s.dels[t].pc == pc && s.dels[t].line < |s.lines| && s.dels[t].inst < |s.insts|
  }

  /** Consume calls handle for one delivery at a time. */
  predicate Idle(s: State, i: nat) {
    forall t :: 0 <= t < |s.dels| && s.dels[t].inst == i ==> !Active(s.dels[t].pc)
  }

  function LineOf(s: State, t: nat): Line
    requires t < |s.dels| && s.dels[t].line < |s.lines|
  {
    s.lines[s.dels[t].line]
  }

  function RetriesSeen(s: State, t: nat): int
    requires t < |s.dels| && s.dels[t].line < |s.lines|
  {
    Cycles(s.dels[t].deaths, LineOf(s, t).queue)
  }

  predicate ChannelOpen(s: State, t: nat)
    requires t < |s.dels| && s.dels[t].inst < |s.insts|
  {
    s.insts[s.dels[t].inst].open
  }

  predicate Settling(pc: Pc) { pc.Rejecting? || pc.Requeueing? || pc.Acking? }

  predicate Enabled(cfg: Config, s: State, a: Action) {
    match a
    case Publish(_, targets) => Distinct(targets) && forall q :: q in targets ==> q in cfg.queues
    case Connect(q) => q in cfg.queues
    case Deliver(l, i) =>
      && l < |s.lines| && i < |s.insts|
      && s.lines[l].place == Ready && s.insts[i].open && s.insts[i].queue == s.lines[l].queue
    case Begin(t) => At(s, t, Buffered) && s.insts[s.dels[t].inst].alive && Idle(s, s.dels[t].inst)
    case Check(t, _) => At(s, t, Checking) && LineOf(s, t).body.Event?
    case Send(t, _) => At(s, t, Sending)
    case Insert(t, _) => At(s, t, Inserting) && LineOf(s, t).body.Event? && LineOf(s, t).body.payload.Some?
    case Answer(t, _) => At(s, t, Foreign)
    case Decide(t) => At(s, t, Failed)
    case Record(t, _) => At(s, t, Recording) && LineOf(s, t).body.Event?
    case Park(t, publish) => At(s, t, Parking) && (!publish.Refused? ==> ChannelOpen(s, t))
    case Settle(t, success) =>
      && t < |s.dels| && At(s, t, s.dels[t].pc) && Settling(s.dels[t].pc)
      && (success ==> ChannelOpen(s, t) && LineOf(s, t).place == Unacked(t))
    case Expire(l) => l < |s.lines| && s.lines[l].place == Waiting && s.lines[l].queue in cfg.routes
    case Close(i) => i < |s.insts| && s.insts[i].open
    case Crash(i) => i < |s.insts| && s.insts[i].alive
  }

  /** The step left every header, and every copy's completed cycles, alone. */
  ghost predicate SameHeaders(s: State, s': State) {
    && |s.lines| == |s'.lines| && |s.dels| == |s'.dels|
    && (forall l :: 0 <= l < |s.lines| ==>
          s'.lines[l].deaths == s.lines[l].deaths && s'.lines[l].path == s.lines[l].path)
    && (forall t :: 0 <= t < |s.dels| ==> s'.dels[t].deaths == s.dels[t].deaths && s'.dels[t].past == s.dels[t].past)
  }

  /** A step inside one handle call: nothing moves on the broker, and no other delivery is touched. */
  ghost predicate Stays(s: State, s': State, t: nat) {
    && SameHeaders(s, s')
    && (forall l :: 0 <= l < |s.lines| ==>
          && s'.lines[l].queue == s.lines[l].queue && s'.lines[l].body == s.lines[l].body
          && s'.lines[l].place == s.lines[l].place && s'.lines[l].requeues == s.lines[l].requeues
          && s'.lines[l].own == s.lines[l].own && s'.lines[l].inherited == s.lines[l].inherited)
    && (forall u :: 0 <= u < |s.dels| ==> s'.dels[u].line == s.dels[u].line && s'.dels[u].inst == s.dels[u].inst)
    && (forall u :: 0 <= u < |s.dels| && u != t ==> s'.dels[u] == s.dels[u])
    && s'.insts == s.insts
    && RowsStand(s, s')
    && (t < |s.dels| && s'.dels[t].clear && !s.dels[t].clear ==> MayClear(s, t))
  }

  /** No row is changed or removed. */
  ghost predicate RowsStand(s: State, s': State) {
    forall e :: e in s.rows ==> e in s'.rows && s'.rows[e] == s.rows[e]
  }

  /** Delivery t is at its existence check, and its event has no row. */
  ghost predicate MayClear(s: State, t: nat)
    requires t < |s.dels|
  {
    && s.dels[t].pc.Checking? && s.dels[t].line < |s.lines|
    && LineOf(s, t).body.Event? && LineOf(s, t).body.eventId !in s.rows
  }

  /** How many effects a handle call has ahead of it, at most. */
  function Remaining(pc: Pc): nat {
    match pc
    case Buffered => 9
    case Checking => 8
    case Sending => 7
    case Inserting => 6
    case Foreign => 6
    case Failed => 5
    case Recording => 4
    case Parking => 3
    case Rejecting => 1
    case Requeueing => 1
    case Acking(_) => 1
    case Finished => 0
    case Killed => 0
  }

  /** The effects of a handle call come in this order. */
  predicate Follows(pc: Pc, next: Pc) {
    match next
    case Checking => pc.Buffered?
    case Foreign => pc.Buffered?
    case Sending => pc.Checking?
    case Inserting => pc.Sending?
    case Failed => pc.Buffered? || pc.Checking? || pc.Sending? || pc.Inserting? || pc.Foreign?
    case Recording => pc.Failed?
    case Parking => pc.Failed? || pc.Recording?
    case Rejecting => pc.Failed?
    case Requeueing => pc.Parking?
    case Acking(fate) =>
      if fate.Parked? then pc.Parking?
      else if fate.Dropped? then pc.Buffered?
      else pc.Checking? || pc.Inserting? || pc.Foreign?
    case _ => false
  }

  lemma FollowingShrinks(pc: Pc, next: Pc)
    requires Follows(pc, next)
    ensures 0 < Remaining(next) < Remaining(pc)
    ensures AfterPark(next) ==> pc.Parking?
  {
  }

  predicate AfterPark(pc: Pc) { pc == Acking(Parked) || pc.Requeueing? }

  /** A step that changes nothing but rows, the failures of the copy at hand, and how far the call has got. */
  lemma TouchesOnlyTheCall(s: State, s': State, t: nat)
    requires t < |s.dels| == |s'.dels| && s.dels[t].line < |s.lines| == |s'.lines|
    requires s'.insts == s.insts && RowsStand(s, s')
    requires var l := s.dels[t].line; s'.lines == s.lines[l := s.lines[l].(failures := s'.lines[l].failures)]
    requires var D := s'.dels[t];
             s'.dels == s.dels[t := s.dels[t].(pc := D.pc, ran := D.ran, clear := D.clear, mailed := D.mailed)]
    requires s'.dels[t].clear && !s.dels[t].clear ==> MayClear(s, t)
    ensures Stays(s, s', t)
  {
    hide MayClear, RowsStand;
  }

  function Go(s: State, t: nat, pc: Pc): (s': State)
    requires t < |s.dels|
    ensures Stays(s, s', t) && s'.dlq == s.dlq
  {
    s.(dels := s.dels[t := s.dels[t].(pc := pc)])
  }

  /** The handler returned an error. */
  function Fail(s: State, t: nat): (s': State)
    requires t < |s.dels| && s.dels[t].line < |s.lines|
    ensures Stays(s, s', t) && s'.dlq == s.dlq && !AfterPark(s'.dels[t].pc)
  {
    hide Stays;
    var l := s.dels[t].line;
    var failed := s.lines[l].(failures := s.lines[l].failures + multiset{s.lines[l].queue});
    var s' := Go(s.(lines := s.lines[l := failed]), t, Failed);
    TouchesOnlyTheCall(s, s', t);
    s'
  }

  function Fresh(body: Body, q: string): Line {
    Line(q, body, [], Ready, multiset{}, multiset{}, 0, 0, 0)
  }

  function FreshAll(body: Body, targets: seq<string>): (ls: seq<Line>)
    ensures |ls| == |targets|
    ensures forall i :: 0 <= i < |ls| ==> ls[i] == Fresh(body, targets[i])
  {
    seq(|targets|, i requires 0 <= i < |targets| => Fresh(body, targets[i]))
  }

  /** The broker hands a ready copy to a consumer, under the next delivery tag. */
  function Delivered(s: State, l: nat, i: nat): State
    requires l < |s.lines|
  {
    s.(lines := s.lines[l := s.lines[l].(place := Unacked(|s.dels|))],
       dels := s.dels + [Delivery(l, i, s.lines[l].deaths, s.lines[l].path, Buffered, false, false, false)])
  }

  /** The first effect of the handler in front of this queue. */
  function FirstStep(cfg: Config, line: Line): Pc {
    if line.body.Garbage? then Acking(Dropped)
    else if line.queue !in cfg.notifies then Foreign
    else if line.body.payload.None? then Failed
    else Checking
  }

  /** The handler of q comes to the existence check. */
  predicate ChecksRows(cfg: Config, q: string, body: Body) { q in cfg.notifies && body.Event? && body.payload.Some? }

  /** handle begins: a body that does not decode is dropped, any other goes to the handler;
      the notification handler fails at once on a payload that does not decode. */
  function StartHandler(cfg: Config, s: State, t: nat): (s': State)
    requires At(s, t, Buffered)
    ensures Stays(s, s', t) && s'.dlq == s.dlq && !AfterPark(s'.dels[t].pc)
    ensures 0 < Remaining(s'.dels[t].pc) < Remaining(s.dels[t].pc)
  {
    hide Stays, Remaining;
    var pc := FirstStep(cfg, LineOf(s, t));
    FollowingShrinks(Buffered, pc);
    hide FirstStep, Follows, AfterPark, MayClear;
    if pc.Acking? then Go(s, t, pc)
    else
      var s1 := s.(dels := s.dels[t := s.dels[t].(ran := true)]);
      var s' := if pc.Failed? then Fail(s1, t) else Go(s1, t, pc);
      TouchesOnlyTheCall(s, s', t);
      s'
  }

  function CheckRow(s: State, t: nat, fault: bool): (s': State)
    requires At(s, t, Checking) && LineOf(s, t).body.Event?
    ensures Stays(s, s', t) && s'.dlq == s.dlq && !AfterPark(s'.dels[t].pc)
    ensures 0 < Remaining(s'.dels[t].pc) < Remaining(s.dels[t].pc)
  {
    hide Stays, Remaining;
    var found := LineOf(s, t).body.eventId in s.rows;
    var pc := if fault then Failed else if found then Acking(Handled) else Sending;
    FollowingShrinks(Checking, pc);
    hide Follows, AfterPark;
    var s' := if fault then Fail(s, t)
              else Go(if found then s else s.(dels := s.dels[t := s.dels[t].(clear := true)]), t, pc);
    TouchesOnlyTheCall(s, s', t);
    s'
  }

  function SendMail(s: State, t: nat, sent: bool): (s': State)
    requires At(s, t, Sending)
    ensures Stays(s, s', t) && s'.dlq == s.dlq && !AfterPark(s'.dels[t].pc)
    ensures 0 < Remaining(s'.dels[t].pc) < Remaining(s.dels[t].pc)
  {
    hide Stays, Remaining;
    FollowingShrinks(Sending, if sent then Inserting else Failed);
    var s' := if sent then Go(s.(dels := s.dels[t := s.dels[t].(mailed := true)]), t, Inserting) else Fail(s, t);
    TouchesOnlyTheCall(s, s', t);
    s'
  }

  /** The INSERT itself: the UNIQUE event_id lets at most one row in. */
  function Commit(s: State, t: nat, eventId: string, row: Row, db: Outcome): State {
    if eventId in s.rows || db.Refused? then s
    else s.(rows := s.rows[eventId := row], authors := s.authors[eventId := t])
  }

  lemma CommitAddsRows(s: State, t: nat, eventId: string, row: Row, db: Outcome)
    ensures var s' := Commit(s, t, eventId, row, db);
            s' == s.(rows := s'.rows, authors := s'.authors) && RowsStand(s, s')
  {
  }

  function InsertSent(s: State, t: nat, db: Outcome): (s': State)
    requires At(s, t, Inserting) && LineOf(s, t).body.Event? && LineOf(s, t).body.payload.Some?
    ensures Stays(s, s', t) && s'.dlq == s.dlq && !AfterPark(s'.dels[t].pc)
    ensures 0 < Remaining(s'.dels[t].pc) < Remaining(s.dels[t].pc)
  {
    var body := LineOf(s, t).body;
    var s1 := Commit(s, t, body.eventId, Row(USER_CREATED, body.payload.value.email, Sent), db);
    CommitAddsRows(s, t, body.eventId, Row(USER_CREATED, body.payload.value.email, Sent), db);
    FollowingShrinks(Inserting, if db.Ok? then Acking(Handled) else Failed);
    hide Stays, Remaining, Commit, RowsStand;
    var s' := if db.Ok? then Go(s1, t, Acking(Handled)) else Fail(s1, t);
    TouchesOnlyTheCall(s, s', t);
    s'
  }

  function Recipient(body: Body): string {
    if body.Event? && body.payload.Some? then body.payload.value.email else ""
  }

  function RecordFailed(s: State, t: nat, db: Outcome): (s': State)
    requires At(s, t, Recording) && LineOf(s, t).body.Event?
    ensures Stays(s, s', t) && s'.dlq == s.dlq && !AfterPark(s'.dels[t].pc)
    ensures 0 < Remaining(s'.dels[t].pc) < Remaining(s.dels[t].pc)
  {
    var body := LineOf(s, t).body;
    var s1 := Commit(s, t, body.eventId, Row(body.kind, Recipient(body), Failure), db);
    CommitAddsRows(s, t, body.eventId, Row(body.kind, Recipient(body), Failure), db);
    FollowingShrinks(Recording, Parking);
    hide Stays, Remaining, Commit, RowsStand, Recipient;
    var s' := Go(s1, t, Parking);
    TouchesOnlyTheCall(s, s', t);
    s'
  }

  /** What another handler than the notification service's comes back with. */
  function Answered(s: State, t: nat, success: bool): (s': State)
    requires At(s, t, Foreign)
    ensures Stays(s, s', t) && s'.dlq == s.dlq && !AfterPark(s'.dels[t].pc)
    ensures 0 < Remaining(s'.dels[t].pc) < Remaining(s.dels[t].pc)
  {
    if success then Go(s, t, Acking(Handled)) else Fail(s, t)
  }

  function DecideRetry(cfg: Config, s: State, t: nat): (s': State)
    requires At(s, t, Failed)
    ensures Stays(s, s', t) && s'.dlq == s.dlq && !AfterPark(s'.dels[t].pc)
    ensures 0 < Remaining(s'.dels[t].pc) < Remaining(s.dels[t].pc)
  {
    hide Stays, Cycles, Remaining;
    var q := LineOf(s, t).queue;
    var pc := if RetriesSeen(s, t) < Limit(cfg, q) then Rejecting else if q in cfg.notifies then Recording else Parking;
    FollowingShrinks(Failed, pc);
    Go(s, t, pc)
  }

  function ParkCopy(s: State, t: nat, publish: Outcome): (s': State)
    requires At(s, t, Parking)
    ensures Stays(s, s', t)
    ensures 0 < Remaining(s'.dels[t].pc) < Remaining(s.dels[t].pc)
  {
    hide Stays, Remaining;
    var letter := Letter(LineOf(s, t).queue, s.dels[t].line, LineOf(s, t).body);
    var pc := if publish.Ok? then Acking(Parked) else Requeueing;
    FollowingShrinks(Parking, pc);
    var s1 := if publish.Refused? then s else s.(dlq := s.dlq + [letter]);
    var s' := Go(s1, t, pc);
    TouchesOnlyTheCall(s, s', t);
    s'
  }

  function Settled(line: Line, pc: Pc): Line
    requires Settling(pc)
  {
    match pc
    case Rejecting => line.(place := Waiting, deaths := Bump(line.deaths, line.queue, "rejected"))
    case Requeueing => Requeued(line)
    case Acking(fate) => line.(place := Gone(fate))
  }

  function Requeued(line: Line): Line {
    line.(place := Ready, requeues := line.requeues + 1)
  }

  function SettleDelivery(s: State, t: nat, success: bool): State
    requires t < |s.dels| && Settling(s.dels[t].pc) && s.dels[t].line < |s.lines|
  {
    var l := s.dels[t].line;
    var s1 := if success then s.(lines := s.lines[l := Settled(s.lines[l], s.dels[t].pc)]) else s;
    Go(s1, t, Finished)
  }

  /** A retry queue's TTL ran out: the copy returns to its own queue ... */
  function Returned(line: Line): Line {
    line.(
      place := Ready,
      deaths := Bump(line.deaths, RetryQueueName(line.queue), "expired"),
      path := line.path + multiset{line.queue},
      own := line.own + 1)
  }

  /** ... and every other queue bound to the same key gets a copy of its own. */
  function CopyFor(line: Line, q: string): Line {
    var back := Returned(line);
    Line(q, back.body, back.deaths, Ready, back.path, back.failures, back.path[q], 0, 0)
  }

  function Without1(qs: seq<string>, q: string): seq<string> {
    if qs == [] then [] else if qs[0] == q then qs[1..] else [qs[0]] + Without1(qs[1..], q)
  }

  function Copies(line: Line, targets: seq<string>): (ls: seq<Line>)
    ensures |ls| == |targets|
    ensures forall i :: 0 <= i < |ls| ==> ls[i] == CopyFor(line, targets[i])
  {
    seq(|targets|, i requires 0 <= i < |targets| => CopyFor(line, targets[i]))
  }

  function ExpireRetry(cfg: Config, s: State, l: nat): State
    requires l < |s.lines| && s.lines[l].queue in cfg.routes
  {
    var line := s.lines[l];
    s.(lines := s.lines[l := Returned(line)] + Copies(line, Without1(cfg.routes[line.queue], line.queue)))
  }

  function LoseDelivery(line: Line, dels: seq<Delivery>, i: nat): Line {
    if line.place.Unacked? && line.place.tag < |dels| && dels[line.place.tag].inst == i then Requeued(line) else line
  }

  /** A channel closes: what it held unacknowledged is requeued, headers and all. */
  function CloseChannel(s: State, i: nat): (s': State)
    requires i < |s.insts|
    ensures SameHeaders(s, s')
  {
    s.(insts := s.insts[i := s.insts[i].(open := false)],
       lines := seq(|s.lines|, l requires 0 <= l < |s.lines| => LoseDelivery(s.lines[l], s.dels, i)))
  }

  function KillDelivery(d: Delivery, i: nat): Delivery {
    if d.inst == i && !d.pc.Finished? then d.(pc := Killed) else d
  }

  /** A process dies: its channel closes and its handler calls stop where they are. */
  function CrashProcess(s: State, i: nat): (s': State)
    requires i < |s.insts|
    ensures SameHeaders(s, s')
  {
    var s1 := CloseChannel(s, i);
    s1.(insts := s1.insts[i := s1.insts[i].(alive := false)],
        dels := seq(|s.dels|, t requires 0 <= t < |s.dels| => KillDelivery(s.dels[t], i)))
  }

  function Apply(cfg: Config, s: State, a: Action): State
    requires Enabled(cfg, s, a)
  {
    match a
    case Publish(body, targets) => s.(lines := s.lines + FreshAll(body, targets))
    case Connect(q) => s.(insts := s.insts + [Inst(q, true, true)])
    case Deliver(l, i) => Delivered(s, l, i)
    case Begin(t) => StartHandler(cfg, s, t)
    case Check(t, fault) => CheckRow(s, t, fault)
    case Send(t, sent) => SendMail(s, t, sent)
    case Insert(t, db) => InsertSent(s, t, db)
    case Answer(t, success) => Answered(s, t, success)
    case Decide(t) => DecideRetry(cfg, s, t)
    case Record(t, db) => RecordFailed(s, t, db)
    case Park(t, publish) => ParkCopy(s, t, publish)
    case Settle(t, success) => SettleDelivery(s, t, success)
    case Expire(l) => ExpireRetry(cfg, s, l)
    case Close(i) => CloseChannel(s, i)
    case Crash(i) => CrashProcess(s, i)
  }

  /** The steps of a handle call before it is settled. */
  predicate InCall(a: Action) {
    a.Begin? || a.Check? || a.Send? || a.Insert? || a.Answer? || a.Decide? || a.Record? || a.Park?
  }

  /** What no step outside a handle call changes. */
  ghost predicate Frame(s: State, s': State) {
    && |s.lines| <= |s'.lines| && |s.dels| <= |s'.dels| && |s.insts| <= |s'.insts|
    && (forall l :: 0 <= l < |s.lines| ==> s'.lines[l].body == s.lines[l].body && s'.lines[l].queue == s.lines[l].queue)
    && (forall u :: 0 <= u < |s.dels| ==>
          && s'.dels[u].line == s.dels[u].line && s'.dels[u].inst == s.dels[u].inst
          && s'.dels[u].deaths == s.dels[u].deaths
          && s'.dels[u].clear == s.dels[u].clear && s'.dels[u].mailed == s.dels[u].mailed)
    && (forall u :: |s.dels| <= u < |s'.dels| ==> !s'.dels[u].clear && !s'.dels[u].mailed && s'.dels[u].pc == Buffered)
    && (forall i :: 0 <= i < |s.insts| ==>
          s'.insts[i].queue == s.insts[i].queue && (s'.insts[i].alive ==> s.insts[i].alive))
    && s'.rows == s.rows
  }

  lemma SettleFrame(s: State, t: nat, success: bool)
    requires t < |s.dels| && Settling(s.dels[t].pc) && s.dels[t].line < |s.lines|
    ensures Frame(s, SettleDelivery(s, t, success))
  {
    hide Bump, Stays;
  }

  lemma ExpireFrame(cfg: Config, s: State, l: nat)
    requires l < |s.lines| && s.lines[l].queue in cfg.routes
    ensures Frame(s, ExpireRetry(cfg, s, l))
  {
    hide Bump, Copies;
  }

  lemma BrokerFrame(cfg: Config, s: State, a: Action)
    requires Enabled(cfg, s, a) && !InCall(a)
    ensures Frame(s, Apply(cfg, s, a))
  {
    hide Bump, Stays, SameHeaders, Go, Fail, StartHandler, CheckRow, SendMail, InsertSent, DecideRetry, RecordFailed,
      ParkCopy, SettleDelivery, ExpireRetry, FreshAll;
    match a
    case Settle(t, success) => SettleFrame(s, t, success);
    case Expire(l) => ExpireFrame(cfg, s, l);
    case _ =>
  }

  /** What else a step of handle call t leads to. */
  ghost predicate Effect(s: State, s': State, t: nat, pc: Pc, mailed: bool, rows: map<string, Row>, dlq: seq<Letter>) {
    && t < |s.dels| == |s'.dels|
    && s'.dels[t].pc == pc && s'.dels[t].mailed == mailed && s'.rows == rows && s'.dlq == dlq
  }

  lemma BeginMeans(cfg: Config, s: State, t: nat)
    requires At(s, t, Buffered)
    ensures Effect(s, StartHandler(cfg, s, t), t, FirstStep(cfg, LineOf(s, t)), s.dels[t].mailed, s.rows, s.dlq)
  {
    hide Stays;
  }

  function Checked(s: State, t: nat, fault: bool): Pc
    requires t < |s.dels| && s.dels[t].line < |s.lines| && LineOf(s, t).body.Event?
  {
    if fault then Failed else if LineOf(s, t).body.eventId in s.rows then Acking(Handled) else Sending
  }

  lemma CheckMeans(s: State, t: nat, fault: bool)
    requires At(s, t, Checking) && LineOf(s, t).body.Event?
    ensures Effect(s, CheckRow(s, t, fault), t, Checked(s, t, fault), s.dels[t].mailed, s.rows, s.dlq)
  {
    hide Stays;
  }

  lemma SendMeans(s: State, t: nat, sent: bool)
    requires At(s, t, Sending)
    ensures Effect(s, SendMail(s, t, sent), t, if sent then Inserting else Failed,
                   s.dels[t].mailed || sent, s.rows, s.dlq)
  {
    hide Stays;
  }

  lemma InsertMeans(s: State, t: nat, db: Outcome)
    requires At(s, t, Inserting) && LineOf(s, t).body.Event? && LineOf(s, t).body.payload.Some?
    ensures var body := LineOf(s, t).body;
            var rows := Commit(s, t, body.eventId, Row(USER_CREATED, body.payload.value.email, Sent), db).rows;
            Effect(s, InsertSent(s, t, db), t, if db.Ok? then Acking(Handled) else Failed,
                   s.dels[t].mailed, rows, s.dlq)
  {
    hide Stays;
  }

  lemma AnswerMeans(s: State, t: nat, success: bool)
    requires At(s, t, Foreign)
    ensures Effect(s, Answered(s, t, success), t, if success then Acking(Handled) else Failed,
                   s.dels[t].mailed, s.rows, s.dlq)
  {
    hide Stays;
  }

  function Decided(cfg: Config, s: State, t: nat): Pc
    requires t < |s.dels| && s.dels[t].line < |s.lines|
  {
    var q := LineOf(s, t).queue;
    if RetriesSeen(s, t) < Limit(cfg, q) then Rejecting else if q in cfg.notifies then Recording else Parking
  }

  lemma DecideMeans(cfg: Config, s: State, t: nat)
    requires At(s, t, Failed)
    ensures Effect(s, DecideRetry(cfg, s, t), t, Decided(cfg, s, t), s.dels[t].mailed, s.rows, s.dlq)
  {
    hide Stays, Cycles;
  }

  lemma RecordMeans(s: State, t: nat, db: Outcome)
    requires At(s, t, Recording) && LineOf(s, t).body.Event?
    ensures var body := LineOf(s, t).body;
            var rows := Commit(s, t, body.eventId, Row(body.kind, Recipient(body), Failure), db).rows;
            Effect(s, RecordFailed(s, t, db), t, Parking, s.dels[t].mailed, rows, s.dlq)
  {
    hide Stays;
  }

  lemma ParkMeans(s: State, t: nat, publish: Outcome)
    requires At(s, t, Parking)
    ensures var letter := Letter(LineOf(s, t).queue, s.dels[t].line, LineOf(s, t).body);
            Effect(s, ParkCopy(s, t, publish), t, if publish.Ok? then Acking(Parked) else Requeueing,
                   s.dels[t].mailed, s.rows,
                   if publish.Refused? then s.dlq else s.dlq + [letter])
  {
    hide Stays;
  }

  lemma SettlesTo(s: State, t: nat)
    requires t < |s.dels| && s.dels[t].line < |s.lines| && Settling(s.dels[t].pc)
    ensures var l, s' := s.dels[t].line, SettleDelivery(s, t, true);
            && |s'.lines| == |s.lines| && (forall k :: 0 <= k < |s.lines| && k != l ==> s'.lines[k] == s.lines[k])
            && s'.lines[l] == Settled(s.lines[l], s.dels[t].pc)
            && s' == s.(lines := s'.lines, dels := s.dels[t := s.dels[t].(pc := Finished)])
  {
    hide Stays, Settled;
  }

  lemma CallStepStays(cfg: Config, s: State, a: Action)
    requires Enabled(cfg, s, a) && InCall(a)
    ensures Stays(s, Apply(cfg, s, a), a.tag)
  {
    hide Stays, Go, Fail, StartHandler, CheckRow, SendMail, InsertSent, DecideRetry, RecordFailed, ParkCopy;
  }

  // ------------------------------------------------------------------ runs

  predicate Legal(cfg: Config, s: State, run: seq<Action>)
    decreases |run|
  {
    run == [] || (Enabled(cfg, s, run[0]) && Legal(cfg, Apply(cfg, s, run[0]), run[1..]))
  }

  function After(cfg: Config, s: State, run: seq<Action>): State
    requires Legal(cfg, s, run)
    decreases |run|
  {
    if run == [] then s else After(cfg, Apply(cfg, s, run[0]), run[1..])
  }

  lemma ThenOne(cfg: Config, s: State, run: seq<Action>, a: Action)
    requires Legal(cfg, s, run) && Enabled(cfg, After(cfg, s, run), a)
    ensures Legal(cfg, s, run + [a]) && After(cfg, s, run + [a]) == Apply(cfg, After(cfg, s, run), a)
  {
    hide Enabled, Apply;
    assert [a][1..] == [];
    assert Legal(cfg, After(cfg, s, run), [a])
        && After(cfg, After(cfg, s, run), [a]) == Apply(cfg, After(cfg, s, run), a);
    LegalConcat(cfg, s, run, [a]);
  }

  lemma {:induction false} LegalConcat(cfg: Config, s: State, run: seq<Action>, more: seq<Action>)
    requires Legal(cfg, s, run) && Legal(cfg, After(cfg, s, run), more)
    ensures Legal(cfg, s, run + more) && After(cfg, s, run + more) == After(cfg, After(cfg, s, run), more)
    decreases |run|
  {
    hide Apply, Enabled;
    if run == [] {
      assert [] + more == more;
    } else {
      var next := Apply(cfg, s, run[0]);
      LegalConcat(cfg, next, run[1..], more);
      assert (run + more)[0] == run[0] && (run + more)[1..] == run[1..] + more;
      assert Legal(cfg, s, run + more) && After(cfg, s, run + more) == After(cfg, next, run[1..] + more);
    }
  }
}
