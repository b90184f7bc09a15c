// From a user's registration to its notification: the user service and the delivery protocol, joined by the
// exchange. What the user service publishes reaches every queue bound to user.created.
module EndToEnd {
  import opened Wrappers
  import U = Users
  import opened Bus
  import opened DeliveryGuarantees

  datatype World = World(users: U.State, bus: State)

  datatype Step = OfUsers(u: U.Action) | OfBus(b: Action)

  /** The consumers' configuration, and the queues bound to user.created. */
  datatype Wiring = Wiring(cfg: Config, bound: seq<string>)

  const START: World := World(U.EMPTY, EMPTY)

  predicate ValidWiring(w: Wiring) {
    ValidConfig(w.cfg) && Distinct(w.bound) && forall q :: q in w.bound ==> q in w.cfg.queues
  }

  /** The message that PublishUserCreated builds from the inserted row. */
  function MessageOf(p: U.Post): Body { Event(p.eventId, USER_CREATED, Some(Payload(p.id, p.name, p.email))) }

  /** Only the user service publishes events; others may put garbage on the queues. */
  predicate Can(w: Wiring, s: World, step: Step) {
    match step
    case OfUsers(u) => U.Enabled(s.users, u)
    case OfBus(b) => Enabled(w.cfg, s.bus, b) && (b.Publish? ==> b.body.Garbage?)
  }

  /** What a user-service step puts on the exchange. */
  function Published(w: Wiring, before: U.State, after: U.State): seq<Action> {
    if |after.posts| > |before.posts| then [Publish(MessageOf(after.posts[|after.posts| - 1]), w.bound)] else []
  }

  lemma PublishIsEnabled(w: Wiring, s: State, body: Body)
    requires ValidWiring(w)
    ensures Enabled(w.cfg, s, Publish(body, w.bound))
  {
  }

  function Do(w: Wiring, s: World, step: Step): World
    requires ValidWiring(w) && Can(w, s, step)
  {
    match step
    case OfUsers(u) =>
      var users := U.Apply(s.users, u);
      if Published(w, s.users, users) == [] then World(users, s.bus)
      else World(users, Apply(w.cfg, s.bus, Published(w, s.users, users)[0]))
    case OfBus(b) => World(s.users, Apply(w.cfg, s.bus, b))
  }

  predicate Possible(w: Wiring, s: World, run: seq<Step>)
    requires ValidWiring(w)
    decreases |run|
  {
    run == [] || (Can(w, s, run[0]) && Possible(w, Do(w, s, run[0]), run[1..]))
  }

  function End(w: Wiring, s: World, run: seq<Step>): World
    requires ValidWiring(w) && Possible(w, s, run)
    decreases |run|
  {
    if run == [] then s else End(w, Do(w, s, run[0]), run[1..])
  }

  // ------------------------------------------------------------ projections

  /** What a run does to the bus, and to the user service. */
  function BusRun(w: Wiring, s: World, run: seq<Step>): seq<Action>
    requires ValidWiring(w) && Possible(w, s, run)
    decreases |run|
  {
    if run == [] then []
    else
      (match run[0]
       case OfUsers(u) => Published(w, s.users, U.Apply(s.users, u))
       case OfBus(b) => [b])
      + BusRun(w, Do(w, s, run[0]), run[1..])
  }

  function UserRun(run: seq<Step>): seq<U.Action> {
    if run == [] then [] else (if run[0].OfUsers? then [run[0].u] else []) + UserRun(run[1..])
  }

  lemma OneThen(cfg: Config, s: State, a: Action, more: seq<Action>)
    requires Enabled(cfg, s, a) && Legal(cfg, Apply(cfg, s, a), more)
    ensures Legal(cfg, s, [a] + more) && After(cfg, s, [a] + more) == After(cfg, Apply(cfg, s, a), more)
  {
    hide Enabled, Apply;
    assert ([a] + more)[1..] == more;
  }

  /** The bus's part of a run is a run of the delivery protocol ... */
  lemma {:induction false} BusPart(w: Wiring, s: World, run: seq<Step>)
    requires ValidWiring(w) && Possible(w, s, run)
    ensures Legal(w.cfg, s.bus, BusRun(w, s, run)) && After(w.cfg, s.bus, BusRun(w, s, run)) == End(w, s, run).bus
    decreases |run|
  {
    hide Enabled, Apply, U.Apply, U.Enabled;
    if run != [] {
      var next := Do(w, s, run[0]);
      var rest := BusRun(w, next, run[1..]);
      BusPart(w, next, run[1..]);
      match run[0]
      case OfUsers(u) =>
        if Published(w, s.users, next.users) == [] {
          assert BusRun(w, s, run) == rest;
        } else {
          PublishIsEnabled(w, s.bus, Published(w, s.users, next.users)[0].body);
          OneThen(w.cfg, s.bus, Published(w, s.users, next.users)[0], rest);
        }
      case OfBus(b) => OneThen(w.cfg, s.bus, b, rest);
    }
  }

  /** ... and the user service's part is a run of the user machine. */
  lemma {:induction false} UserPart(w: Wiring, s: World, run: seq<Step>)
    requires ValidWiring(w) && Possible(w, s, run)
    ensures U.Legal(s.users, UserRun(run)) && U.After(s.users, UserRun(run)) == End(w, s, run).users
    decreases |run|
  {
    hide Enabled, Apply, U.Apply, U.Enabled;
    if run != [] {
      var next := Do(w, s, run[0]);
      UserPart(w, next, run[1..]);
      if run[0].OfUsers? {
        assert UserRun(run) == [run[0].u] + UserRun(run[1..])
            && ([run[0].u] + UserRun(run[1..]))[1..] == UserRun(run[1..]);
      } else {
        assert UserRun(run) == UserRun(run[1..]);
      }
    }
  }

  // ------------------------------------------------------------ provenance

  /** Every event on the bus is one the user service published ... */
  ghost predicate Traced(s: World) {
    forall l :: 0 <= l < |s.bus.lines| && s.bus.lines[l].body.Event? ==> IsPost(s.users.posts, s.bus.lines[l].body)
  }

  ghost predicate IsPost(posts: seq<U.Post>, body: Body) {
    exists k :: 0 <= k < |posts| && MessageOf(posts[k]) == body
  }

  /** ... and every event the user service published is on every bound queue. */
  ghost predicate Spread(w: Wiring, s: World) {
    forall k, q :: 0 <= k < |s.users.posts| && q in w.bound ==> OnQueue(s.bus, MessageOf(s.users.posts[k]), q)
  }

  ghost predicate OnQueue(s: State, body: Body, q: string) {
    exists l :: 0 <= l < |s.lines| && s.lines[l].body == body && s.lines[l].queue == q
  }

  /** Lines are never removed, and keep queue and body; a new line carries an old body or a published one. */
  lemma BodiesStay(cfg: Config, s: State, a: Action)
    requires Enabled(cfg, s, a)
    ensures var s' := Apply(cfg, s, a);
            && |s.lines| <= |s'.lines|
            && (forall l :: 0 <= l < |s.lines| ==>
                  s'.lines[l].body == s.lines[l].body && s'.lines[l].queue == s.lines[l].queue)
            && (forall l :: |s.lines| <= l < |s'.lines| ==>
                  (a.Publish? && s'.lines[l].body == a.body)
                  || (a.Expire? && a.line < |s.lines| && s'.lines[l].body == s.lines[a.line].body))
  {
    NewBodies(cfg, s, a);
    if InCall(a) { CallStepStays(cfg, s, a); } else { BrokerFrame(cfg, s, a); }
    hide Apply, Enabled;
  }

  lemma NewBodies(cfg: Config, s: State, a: Action)
    requires Enabled(cfg, s, a)
    ensures var s' := Apply(cfg, s, a);
            forall l :: |s.lines| <= l < |s'.lines| ==>
              (a.Publish? && s'.lines[l].body == a.body)
              || (a.Expire? && a.line < |s.lines| && s'.lines[l].body == s.lines[a.line].body)
  {
    hide Stays, Fail, StartHandler, CheckRow, SendMail, InsertSent, DecideRetry, RecordFailed, ParkCopy, Settled,
      LoseDelivery;
    if InCall(a) {
      CallStepStays(cfg, s, a);
      StayingAddsNothing(s, Apply(cfg, s, a), a.tag);
      hide Apply, Enabled;
    }
  }

  lemma StayingAddsNothing(s: State, s': State, t: nat)
    requires Stays(s, s', t)
    ensures |s'.lines| == |s.lines|
  {
  }

  lemma PublishSpreads(w: Wiring, s: State, body: Body, q: string)
    requires ValidWiring(w) && q in w.bound && Enabled(w.cfg, s, Publish(body, w.bound))
    ensures OnQueue(Apply(w.cfg, s, Publish(body, w.bound)), body, q)
  {
    var i :| 0 <= i < |w.bound| && w.bound[i] == q;
    var s' := Apply(w.cfg, s, Publish(body, w.bound));
    assert s'.lines[|s.lines| + i] == Fresh(body, q);
  }

  lemma StillOnQueue(cfg: Config, s: State, a: Action, body: Body, q: string)
    requires Enabled(cfg, s, a) && OnQueue(s, body, q)
    ensures OnQueue(Apply(cfg, s, a), body, q)
  {
    hide Enabled, Apply;
    BodiesStay(cfg, s, a);
    var l :| 0 <= l < |s.lines| && s.lines[l].body == body && s.lines[l].queue == q;
    assert Apply(cfg, s, a).lines[l].body == body;
  }

  lemma PostsGrow(s: U.State, a: U.Action)
    requires U.Enabled(s, a)
    ensures var s' := U.Apply(s, a); s.posts <= s'.posts && |s'.posts| <= |s.posts| + 1
  {
    hide U.Taken, U.TakenByOther, U.Patched, U.NewUser;
  }

  lemma MorePosts(posts: seq<U.Post>, posts': seq<U.Post>, body: Body)
    requires posts <= posts' && IsPost(posts, body)
    ensures IsPost(posts', body)
  {
    var k :| 0 <= k < |posts| && MessageOf(posts[k]) == body;
    assert posts'[k] == posts[k];
  }

  lemma BusStepTraces(w: Wiring, s: World, b: Action, users: U.State)
    requires ValidWiring(w) && Traced(s) && Enabled(w.cfg, s.bus, b) && s.users.posts <= users.posts
    requires b.Publish? ==> b.body.Garbage? || IsPost(users.posts, b.body)
    ensures Traced(World(users, Apply(w.cfg, s.bus, b)))
  {
    hide Enabled, Apply, IsPost;
    BodiesStay(w.cfg, s.bus, b);
    var s' := World(users, Apply(w.cfg, s.bus, b));
    forall l | 0 <= l < |s'.bus.lines| && s'.bus.lines[l].body.Event?
      ensures IsPost(users.posts, s'.bus.lines[l].body)
    {
      if l < |s.bus.lines| {
        MorePosts(s.users.posts, users.posts, s.bus.lines[l].body);
      } else if b.Expire? {
        MorePosts(s.users.posts, users.posts, s.bus.lines[b.line].body);
      }
    }
  }

  lemma BusStepSpreads(w: Wiring, s: World, b: Action)
    requires ValidWiring(w) && Spread(w, s) && Enabled(w.cfg, s.bus, b)
    ensures Spread(w, World(s.users, Apply(w.cfg, s.bus, b)))
  {
    hide Enabled, Apply, OnQueue;
    forall k, q | 0 <= k < |s.users.posts| && q in w.bound
      ensures OnQueue(Apply(w.cfg, s.bus, b), MessageOf(s.users.posts[k]), q)
    {
      StillOnQueue(w.cfg, s.bus, b, MessageOf(s.users.posts[k]), q);
    }
  }

  lemma UserStepKeeps(w: Wiring, s: World, u: U.Action)
    requires ValidWiring(w) && Traced(s) && Spread(w, s) && U.Enabled(s.users, u)
    ensures Traced(Do(w, s, OfUsers(u))) && Spread(w, Do(w, s, OfUsers(u)))
  {
    hide Enabled, Apply, U.Enabled, U.Apply;
    PostsGrow(s.users, u);
    var users := U.Apply(s.users, u);
    var n := |s.users.posts|;
    if |users.posts| == n {
      assert users.posts == s.users.posts;
    } else {
      var body := MessageOf(users.posts[n]);
      var publish := Publish(body, w.bound);
      PublishIsEnabled(w, s.bus, body);
      assert IsPost(users.posts, body);
      BusStepTraces(w, s, publish, users);
      BusStepSpreads(w, s, publish);
      var bus := Apply(w.cfg, s.bus, publish);
      forall k, q | 0 <= k < |users.posts| && q in w.bound ensures OnQueue(bus, MessageOf(users.posts[k]), q) {
        if k == n { PublishSpreads(w, s.bus, body, q); } else { assert users.posts[k] == s.users.posts[k]; }
      }
    }
  }

  lemma {:induction false} RunTraces(w: Wiring, s: World, run: seq<Step>)
    requires ValidWiring(w) && Traced(s) && Spread(w, s) && Possible(w, s, run)
    ensures Traced(End(w, s, run)) && Spread(w, End(w, s, run))
    decreases |run|
  {
    hide Enabled, Apply, U.Enabled, U.Apply, Traced, Spread;
    if run != [] {
      match run[0] {
        case OfUsers(u) => UserStepKeeps(w, s, u);
        case OfBus(b) =>
          BusStepTraces(w, s, b, s.users);
          BusStepSpreads(w, s, b);
      }
      RunTraces(w, Do(w, s, run[0]), run[1..]);
    }
  }

  // ------------------------------------------------------------- guarantees

  /** End to end: every notification row, sent or failed, is about a user that was inserted and whose event was
      published - under this event id, and to the address it was inserted with. */
  lemma EveryRowTracesToAnInsert(w: Wiring, run: seq<Step>, e: string) returns (k: nat)
    requires ValidWiring(w) && Possible(w, START, run) && e in End(w, START, run).bus.rows
    ensures var s := End(w, START, run);
            && k < |s.users.posts| && s.users.posts[k].eventId == e
            && s.users.posts[k].id in s.users.inserted
            && s.bus.rows[e].recipient == s.users.inserted[s.users.posts[k].id].user.email
            && s.bus.rows[e].kind == USER_CREATED
  {
    hide Enabled, Apply, U.Enabled, U.Apply;
    var s := End(w, START, run);
    BusPart(w, START, run);
    UserPart(w, START, run);
    RunTraces(w, START, run);
    RowsTellTheTruth(w.cfg, BusRun(w, START, run), e);
    var body := LineOf(s.bus, s.bus.authors[e]).body;
    assert IsPost(s.users.posts, body);
    k :| 0 <= k < |s.users.posts| && MessageOf(s.users.posts[k]) == body;
    U.OneEventPerInsert(UserRun(run), k, k);
  }

  /** The row of event e is about user id: the event was published for that user, and the row has the address
      inserted. */
  ghost predicate IsFor(s: World, e: string, id: int) {
    && e in s.bus.rows && id in s.users.inserted && s.bus.rows[e].recipient == s.users.inserted[id].user.email
    && exists k :: 0 <= k < |s.users.posts| && s.users.posts[k].eventId == e && s.users.posts[k].id == id
  }

  lemma EveryRowIsForSomeone(w: Wiring, run: seq<Step>, e: string) returns (id: int)
    requires ValidWiring(w) && Possible(w, START, run) && e in End(w, START, run).bus.rows
    ensures IsFor(End(w, START, run), e, id)
  {
    var k := EveryRowTracesToAnInsert(w, run, e);
    id := End(w, START, run).users.posts[k].id;
  }

  lemma RowsOfOneUser(w: Wiring, run: seq<Step>, e: string, f: string, id: int)
    requires ValidWiring(w) && Possible(w, START, run)
    requires IsFor(End(w, START, run), e, id) && IsFor(End(w, START, run), f, id)
    ensures e == f
  {
    var s := End(w, START, run);
    var j :| 0 <= j < |s.users.posts| && s.users.posts[j].eventId == e && s.users.posts[j].id == id;
    var k :| 0 <= k < |s.users.posts| && s.users.posts[k].eventId == f && s.users.posts[k].id == id;
    UserPart(w, START, run);
    U.OneEventPerInsert(UserRun(run), j, k);
  }

  /** So every notification row belongs to a user that was inserted, no two to the same one, and there are at most as
      many as users, however often their events were delivered, retried or copied. */
  lemma OneRowPerUser(w: Wiring, run: seq<Step>) returns (owner: map<string, int>)
    requires ValidWiring(w) && Possible(w, START, run)
    ensures var s := End(w, START, run);
            && owner.Keys == s.bus.rows.Keys
            && (forall e :: e in owner ==> IsFor(s, e, owner[e]))
            && (forall e, f :: e in owner && f in owner && owner[e] == owner[f] ==> e == f)
            && |s.bus.rows| <= |s.users.inserted|
  {
    var s := End(w, START, run);
    hide *;
    forall e | e in s.bus.rows ensures exists id :: IsFor(s, e, id) {
      var id := EveryRowIsForSomeone(w, run, e);
      assert IsFor(s, e, id);
    }
    owner := map e | e in s.bus.rows :: var id :| IsFor(s, e, id); id;
    forall e, f | e in owner && f in owner && owner[e] == owner[f]
      ensures e == f
    {
      RowsOfOneUser(w, run, e, f, owner[e]);
    }
    OwnersFit(s, owner);
  }

  lemma OwnersFit(s: World, owner: map<string, int>)
    requires owner.Keys == s.bus.rows.Keys && forall e :: e in owner ==> IsFor(s, e, owner[e])
    requires forall e, f :: e in owner && f in owner && owner[e] == owner[f] ==> e == f
    ensures |s.bus.rows| <= |s.users.inserted|
  {
    InjectiveSize(owner, s.users.inserted.Keys);
    assert |owner| == |owner.Keys| && |s.bus.rows| == |s.bus.rows.Keys|
        && |s.users.inserted| == |s.users.inserted.Keys|;
  }

  /** And no published event is lost: on each bound queue it is still live, or parked on that queue's DLQ, or was
      handled - which for the notification service means that it has a row, and that row the user's address. */
  lemma EveryEventIsAccountedFor(w: Wiring, run: seq<Step>, k: nat, q: string) returns (l: nat)
    requires ValidWiring(w) && Possible(w, START, run) && k < |End(w, START, run).users.posts| && q in w.bound
    ensures var s := End(w, START, run); var p := s.users.posts[k];
            && l < |s.bus.lines| && s.bus.lines[l].queue == q && s.bus.lines[l].body == MessageOf(p)
            && (|| Live(s.bus.lines[l])
                || OnDlq(s.bus, l)
                || (s.bus.lines[l].place == Gone(Handled)
                    && (q in w.cfg.notifies ==> p.eventId in s.bus.rows && s.bus.rows[p.eventId].recipient == p.email)))
  {
    hide Enabled, Apply, U.Enabled, U.Apply;
    var s := End(w, START, run);
    var p := s.users.posts[k];
    BusPart(w, START, run);
    UserPart(w, START, run);
    RunTraces(w, START, run);
    assert OnQueue(s.bus, MessageOf(p), q);
    l :| 0 <= l < |s.bus.lines| && s.bus.lines[l].body == MessageOf(p) && s.bus.lines[l].queue == q;
    NoSilentLoss(w.cfg, BusRun(w, START, run), l);
    if p.eventId in s.bus.rows {
      var j := EveryRowTracesToAnInsert(w, run, p.eventId);
      U.OneEventPerInsert(UserRun(run), j, k);
    }
  }

  /** From a registration to its notification: a call answered with a created user, whose publish was not refused, has
      exactly one event, and on each bound queue a copy of it - with the user's id, name and address - is still live, or
      parked, or was handled, which for the notification service means that it has a row with that address. */
  lemma EveryRegistrationIsAccountedFor(w: Wiring, run: seq<Step>, c: nat, id: int, user: U.User, q: string)
    returns (e: string, l: nat)
    requires ValidWiring(w) && Possible(w, START, run) && c < |End(w, START, run).users.calls| && q in w.bound
    requires End(w, START, run).users.calls[c].pc == U.Done(U.Created(id, user))
    requires forall a :: a in UserRun(run) ==> !U.Refuses(a, c)
    ensures var s := End(w, START, run);
            && l < |s.bus.lines| && s.bus.lines[l].queue == q
            && s.bus.lines[l].body == Event(e, "user.created", Some(Payload(id, user.name, user.email)))
            && (|| Live(s.bus.lines[l])
                || OnDlq(s.bus, l)
                || (s.bus.lines[l].place == Gone(Handled)
                    && (q in w.cfg.notifies ==> e in s.bus.rows && s.bus.rows[e].recipient == user.email)))
  {
    hide Enabled, Apply, U.Enabled, U.Apply, U.Refuses;
    var s := End(w, START, run);
    UserPart(w, START, run);
    U.CreatedIsAnnouncedIff(UserRun(run), c, id, user);
    var k: nat :| U.TellsOf(s.users, k, c, id, user);
    e := s.users.posts[k].eventId;
    l := EveryEventIsAccountedFor(w, run, k, q);
  }

  /** The four effects of an undisturbed Create. */
  function Registration(c: nat, name: string, email: string, eventId: string): seq<Step> {
    [OfUsers(U.Start(U.Request.Create(name, email))), OfUsers(U.Check(c, false)), OfUsers(U.Insert(c, U.Ok)),
     OfUsers(U.Publish(c, eventId, U.Ok))]
  }

  lemma ThenStep(w: Wiring, s: World, step: Step, more: seq<Step>)
    requires ValidWiring(w) && Can(w, s, step) && Possible(w, Do(w, s, step), more)
    ensures Possible(w, s, [step] + more) && End(w, s, [step] + more) == End(w, Do(w, s, step), more)
  {
    hide Can, Do;
    assert ([step] + more)[1..] == more;
  }

  lemma Registered(u: U.State, name: string, email: string, eventId: string)
    returns (u1: U.State, u2: U.State, u3: U.State, u4: U.State)
    requires eventId !in u.eventIds && forall id :: id in u.rows ==> u.rows[id].email != email
    ensures var start := U.Start(U.Request.Create(name, email)); U.Enabled(u, start) && u1 == U.Apply(u, start)
    ensures var check := U.Check(|u.calls|, false); U.Enabled(u1, check) && u2 == U.Apply(u1, check)
    ensures var insert := U.Insert(|u.calls|, U.Ok); U.Enabled(u2, insert) && u3 == U.Apply(u2, insert)
    ensures var publish := U.Publish(|u.calls|, eventId, U.Ok); U.Enabled(u3, publish) && u4 == U.Apply(u3, publish)
    ensures u1.posts == u2.posts == u3.posts == u.posts
    ensures u4.posts == u.posts + [U.Post(eventId, u.nextId, name, email, |u.calls|)]
    ensures |u.calls| < |u4.calls| && u4.calls[|u.calls|].pc == U.Done(U.Created(u.nextId, U.User(name, email, "")))
  {
    u1 := U.Apply(u, U.Start(U.Request.Create(name, email)));
    u2 := U.Apply(u1, U.Check(|u.calls|, false));
    u3 := U.Apply(u2, U.Insert(|u.calls|, U.Ok));
    u4 := U.Apply(u3, U.Publish(|u.calls|, eventId, U.Ok));
  }

  lemma PublishAppends(w: Wiring, s: State, body: Body, q: string)
    requires ValidWiring(w) && q in w.bound && Enabled(w.cfg, s, Publish(body, w.bound))
    ensures var s' := Apply(w.cfg, s, Publish(body, w.bound));
            && |s'.lines| == |s.lines| + |w.bound| && s'.lines[..|s.lines|] == s.lines
            && exists l :: |s.lines| <= l < |s'.lines| && s'.lines[l] == Fresh(body, q)
  {
    var i :| 0 <= i < |w.bound| && w.bound[i] == q;
    var s' := Apply(w.cfg, s, Publish(body, w.bound));
    assert s'.lines[|s.lines| + i] == Fresh(body, q);
  }

  /** In whatever state a free address is registered without disturbance: it is answered with the new user, and
      a fresh copy of the event lands on every bound queue, behind what is there. */
  lemma RegistrationReachesEveryQueue(w: Wiring, s: World, name: string, email: string, eventId: string, q: string)
    requires ValidWiring(w) && q in w.bound && eventId !in s.users.eventIds
    requires forall id :: id in s.users.rows ==> s.users.rows[id].email != email
    ensures var c := |s.users.calls|; var run := Registration(c, name, email, eventId); var id := s.users.nextId;
            && Possible(w, s, run)
            && var s' := End(w, s, run);
            && c < |s'.users.calls| && s'.users.calls[c].pc == U.Done(U.Created(id, U.User(name, email, "")))
            && |s'.bus.lines| == |s.bus.lines| + |w.bound| && s'.bus.lines[..|s.bus.lines|] == s.bus.lines
            && exists l :: |s.bus.lines| <= l < |s'.bus.lines| && s'.bus.lines[l].queue == q
                 && s'.bus.lines[l].place == Ready
                 && s'.bus.lines[l].body == Event(eventId, "user.created", Some(Payload(id, name, email)))
  {
    hide U.Enabled, U.Apply, Enabled, Apply, Possible, End, ValidConfig;
    var u1, u2, u3, u4 := Registered(s.users, name, email, eventId);
    var run := Registration(|s.users.calls|, name, email, eventId);
    var s1 := Do(w, s, run[0]);
    var s2 := Do(w, s1, run[1]);
    var s3 := Do(w, s2, run[2]);
    var s4 := Do(w, s3, run[3]);
    var body := Event(eventId, "user.created", Some(Payload(s.users.nextId, name, email)));
    PublishIsEnabled(w, s3.bus, body);
    PublishAppends(w, s3.bus, body, q);
    assert s4.bus == Apply(w.cfg, s.bus, Publish(body, w.bound));
    InOrder(w, s, run, s1, s2, s3, s4);
  }

  lemma InOrder(w: Wiring, s: World, run: seq<Step>, s1: World, s2: World, s3: World, s4: World)
    requires ValidWiring(w) && |run| == 4
    requires Can(w, s, run[0]) && s1 == Do(w, s, run[0]) && Can(w, s1, run[1]) && s2 == Do(w, s1, run[1])
    requires Can(w, s2, run[2]) && s3 == Do(w, s2, run[2]) && Can(w, s3, run[3]) && s4 == Do(w, s3, run[3])
    ensures Possible(w, s, run) && End(w, s, run) == s4
  {
    hide Can, Do;
    assert Possible(w, s4, []) && End(w, s4, []) == s4;
    ThenStep(w, s3, run[3], []);
    ThenStep(w, s2, run[2], [run[3]]);
    ThenStep(w, s1, run[1], [run[2]] + [run[3]]);
    ThenStep(w, s, run[0], [run[1]] + ([run[2]] + [run[3]]));
    assert [run[3]] + [] == [run[3]];
    assert run == [run[0]] + ([run[1]] + ([run[2]] + [run[3]]));
  }
}
