// User creation, update and deletion (services/user/internal/user) by concurrent callers on one table with a
// UNIQUE email, and the user.created events they publish.
module Users {

  datatype User = User(name: string, email: string, password: string)

  datatype Request =
    | Create(name: string, email: string)
    | CreateWithPassword(name: string, email: string, password: string)
    | Update(id: int, name: string, email: string)
    | Delete(id: int)

  datatype Error = Conflict | NotFound | Internal

  datatype Answer = Created(id: int, user: User) | Updated(id: int, user: User) | Removed | Failed(error: Error)

  /** The next effect of a call; `loaded` is the row an update has read. */
  datatype Pc =
    | Checking | Inserting | Publishing(id: int)
    | Loading | Comparing(loaded: User) | Writing(loaded: User)
    | Removing
    | Done(answer: Answer)

  datatype Call = Call(request: Request, pc: Pc)

  /** A statement or publish succeeded; failed with no effect; or took effect and still reported an error. */
  datatype Outcome = Ok | Refused | Unclear

  /** A row as it was inserted, and the call that inserted it. */
  datatype Insertion = Insertion(user: User, call: nat)

  /** A user.created event that reached the broker. */
  datatype Post = Post(eventId: string, id: int, name: string, email: string, call: nat)

  datatype State = State(
    rows: map<int, User>,
    nextId: nat,
    inserted: map<int, Insertion>,
    posts: seq<Post>,
    eventIds: set<string>,
    calls: seq<Call>)

  const EMPTY: State := State(map[], 1, map[], [], {}, [])

  datatype Action =
    | Start(request: Request)
    | Check(call: nat, fault: bool)
    | Insert(call: nat, outcome: Outcome)
    | Publish(call: nat, eventId: string, outcome: Outcome)
    | Load(call: nat, fault: bool)
    | Compare(call: nat, fault: bool)
    | Write(call: nat, outcome: Outcome)
    | Remove(call: nat, outcome: Outcome)

  function First(request: Request): Pc {
    match request
    case Create(_, _) => Checking
    case CreateWithPassword(_, _, _) => Inserting
    case Update(_, _, _) => Loading
    case Delete(_) => Removing
  }

  predicate Creates(request: Request) { request.Create? || request.CreateWithPassword? }

  /** The row a creating call inserts. */
  function NewUser(request: Request): User
    requires Creates(request)
  {
    User(request.name, request.email, if request.CreateWithPassword? then request.password else "")
  }

  predicate Taken(rows: map<int, User>, email: string) { exists id :: id in rows && rows[id].email == email }

  predicate TakenByOther(rows: map<int, User>, email: string, id: int) {
    exists j :: j in rows && j != id && rows[j].email == email
  }

  predicate At(s: State, c: nat) { c < |s.calls| }

  predicate Enabled(s: State, a: Action) {
    match a
    case Start(_) => true
    case Check(c, _) => At(s, c) && s.calls[c].pc.Checking? && Creates(s.calls[c].request)
    case Insert(c, _) => At(s, c) && s.calls[c].pc.Inserting? && Creates(s.calls[c].request)
    case Publish(c, eventId, _) =>
      At(s, c) && s.calls[c].pc.Publishing? && Creates(s.calls[c].request) && eventId !in s.eventIds
    case Load(c, _) => At(s, c) && s.calls[c].pc.Loading? && s.calls[c].request.Update?
    case Compare(c, _) => At(s, c) && s.calls[c].pc.Comparing? && s.calls[c].request.Update?
    case Write(c, _) => At(s, c) && s.calls[c].pc.Writing? && s.calls[c].request.Update?
    case Remove(c, _) => At(s, c) && s.calls[c].pc.Removing? && s.calls[c].request.Delete?
  }

  function Move(s: State, c: nat, pc: Pc): State
    requires At(s, c)
  {
    s.(calls := s.calls[c := s.calls[c].(pc := pc)])
  }

  /** ExistsByEmail before the insert. */
  function DoCheck(s: State, c: nat, fault: bool): State
    requires Enabled(s, Check(c, fault))
  {
    Move(s, c, if fault then Done(Failed(Internal))
               else if Taken(s.rows, s.calls[c].request.email) then Done(Failed(Conflict))
               else Inserting)
  }

  /** The INSERT: the sequence yields a new id, and the UNIQUE email may refuse the row. */
  function DoInsert(s: State, c: nat, outcome: Outcome): State
    requires Enabled(s, Insert(c, outcome))
  {
    var user, id := NewUser(s.calls[c].request), s.nextId;
    var taken := Taken(s.rows, user.email);
    var s1 := if outcome.Refused? then s else s.(nextId := id + 1);
    var s2 := if outcome.Refused? || taken then s1
              else s1.(rows := s.rows[id := user], inserted := s.inserted[id := Insertion(user, c)]);
    Move(s2, c,
         if !outcome.Ok? then Done(Failed(Internal)) else if taken then Done(Failed(Conflict)) else Publishing(id))
  }

  /** PublishUserCreated: its errors are only logged. */
  function DoPublish(s: State, c: nat, eventId: string, outcome: Outcome): State
    requires Enabled(s, Publish(c, eventId, outcome))
  {
    var user, id := NewUser(s.calls[c].request), s.calls[c].pc.id;
    var s1 := s.(eventIds := s.eventIds + {eventId});
    var s2 := if outcome.Refused? then s1 else s1.(posts := s.posts + [Post(eventId, id, user.name, user.email, c)]);
    Move(s2, c, Done(Created(id, user)))
  }

  function DoLoad(s: State, c: nat, fault: bool): State
    requires Enabled(s, Load(c, fault))
  {
    var r := s.calls[c].request;
    Move(s, c, if fault then Done(Failed(Internal))
               else if r.id !in s.rows then Done(Failed(NotFound))
               else if r.email != s.rows[r.id].email then Comparing(s.rows[r.id])
               else Writing(s.rows[r.id]))
  }

  /** ExistsByEmail before a change of address. */
  function DoCompare(s: State, c: nat, fault: bool): State
    requires Enabled(s, Compare(c, fault))
  {
    Move(s, c, if fault then Done(Failed(Internal))
               else if Taken(s.rows, s.calls[c].request.email) then Done(Failed(Conflict))
               else Writing(s.calls[c].pc.loaded))
  }

  /** gorm's Updates writes the fields of u that are not zero, and leaves the others. */
  function Patched(row: User, u: User): User {
    User(if u.name != "" then u.name else row.name,
         if u.email != "" then u.email else row.email,
         if u.password != "" then u.password else row.password)
  }

  /** The UPDATE and its commit: nothing for a row that is gone, refused for a taken email. */
  function DoWrite(s: State, c: nat, outcome: Outcome): State
    requires Enabled(s, Write(c, outcome))
  {
    var r := s.calls[c].request;
    var u := s.calls[c].pc.loaded.(name := r.name, email := r.email);
    if outcome.Refused? then Move(s, c, Done(Failed(Internal)))
    else if r.id !in s.rows then Move(s, c, Done(Failed(if outcome.Ok? then NotFound else Internal)))
    else
      var row := Patched(s.rows[r.id], u);
      if TakenByOther(s.rows, row.email, r.id) then Move(s, c, Done(Failed(if outcome.Ok? then Conflict else Internal)))
      else Move(s.(rows := s.rows[r.id := row]), c, Done(if outcome.Ok? then Updated(r.id, u) else Failed(Internal)))
  }

  function DoRemove(s: State, c: nat, outcome: Outcome): State
    requires Enabled(s, Remove(c, outcome))
  {
    var id := s.calls[c].request.id;
    var s1 := if outcome.Refused? then s else s.(rows := s.rows - {id});
    Move(s1, c, Done(if !outcome.Ok? then Failed(Internal) else if id in s.rows then Removed else Failed(NotFound)))
  }

  function Apply(s: State, a: Action): State
    requires Enabled(s, a)
  {
    match a
    case Start(request) => s.(calls := s.calls + [Call(request, First(request))])
    case Check(c, fault) => DoCheck(s, c, fault)
    case Insert(c, outcome) => DoInsert(s, c, outcome)
    case Publish(c, eventId, outcome) => DoPublish(s, c, eventId, outcome)
    case Load(c, fault) => DoLoad(s, c, fault)
    case Compare(c, fault) => DoCompare(s, c, fault)
    case Write(c, outcome) => DoWrite(s, c, outcome)
    case Remove(c, outcome) => DoRemove(s, c, outcome)
  }

  predicate Legal(s: State, run: seq<Action>)
    decreases |run|
  {
    run == [] || (Enabled(s, run[0]) && Legal(Apply(s, run[0]), run[1..]))
  }

  function After(s: State, run: seq<Action>): State
    requires Legal(s, run)
    decreases |run|
  {
    if run == [] then s else After(Apply(s, run[0]), run[1..])
  }

  lemma {:induction false} LegalConcat(s: State, run: seq<Action>, more: seq<Action>)
    requires Legal(s, run) && Legal(After(s, run), more)
    ensures Legal(s, run + more) && After(s, run + more) == After(After(s, run), more)
    decreases |run|
  {
    hide Apply, Enabled;
    if run == [] {
      assert [] + more == more;
    } else {
      LegalConcat(Apply(s, run[0]), run[1..], more);
      assert (run + more)[0] == run[0] && (run + more)[1..] == run[1..] + more;
    }
  }

  lemma ThenOne(s: State, run: seq<Action>, a: Action)
    requires Legal(s, run) && Enabled(After(s, run), a)
    ensures Legal(s, run + [a]) && After(s, run + [a]) == Apply(After(s, run), a)
  {
    hide Enabled, Apply;
    assert [a][1..] == [];
    assert Legal(After(s, run), [a]) && After(After(s, run), [a]) == Apply(After(s, run), a);
    LegalConcat(s, run, [a]);
  }

  // ------------------------------------------------------------ invariant

  ghost predicate UniqueEmails(rows: map<int, User>) {
    forall i, j :: i in rows && j in rows && rows[i].email == rows[j].email ==> i == j
  }

  /** What a call that inserted row id can be doing now. */
  predicate HasInserted(pc: Pc, id: int, user: User) {
    pc == Publishing(id) || pc == Done(Created(id, user)) || pc == Done(Failed(Internal))
  }

  ghost predicate InsertionOk(s: State, id: int)
    requires id in s.inserted
  {
    var i := s.inserted[id];
    && id < s.nextId && i.call < |s.calls|
    && Creates(s.calls[i.call].request) && NewUser(s.calls[i.call].request) == i.user
    && HasInserted(s.calls[i.call].pc, id, i.user)
  }

  ghost predicate CallOk(s: State, c: nat)
    requires c < |s.calls|
  {
    var k := s.calls[c];
    && (k.pc.Publishing? ==> k.pc.id in s.inserted && s.inserted[k.pc.id].call == c)
    && (k.pc.Done? && k.pc.answer.Created? ==>
          k.pc.answer.id in s.inserted && s.inserted[k.pc.answer.id] == Insertion(k.pc.answer.user, c))
    && (k.pc.Comparing? || k.pc.Writing? ==>
          && k.request.Update? && k.request.id in s.inserted
          && k.pc.loaded.password == s.inserted[k.request.id].user.password)
  }

  ghost predicate PostOk(s: State, k: nat)
    requires k < |s.posts|
  {
    var p := s.posts[k];
    && p.id in s.inserted && p.call == s.inserted[p.id].call < |s.calls|
    && p.name == s.inserted[p.id].user.name && p.email == s.inserted[p.id].user.email
    && s.calls[p.call].pc == Done(Created(p.id, s.inserted[p.id].user))
    && p.eventId in s.eventIds
  }

  ghost predicate Inv(s: State) {
    && UniqueEmails(s.rows)
    && (forall id :: id in s.rows ==> id in s.inserted && s.rows[id].password == s.inserted[id].user.password)
    && (forall id :: id in s.inserted ==> InsertionOk(s, id))
    && (forall i, j :: i in s.inserted && j in s.inserted && s.inserted[i].call == s.inserted[j].call ==> i == j)
    && (forall c :: 0 <= c < |s.calls| ==> CallOk(s, c))
    && (forall k :: 0 <= k < |s.posts| ==> PostOk(s, k))
    && (forall j, k :: 0 <= j < k < |s.posts| ==>
          s.posts[j].id != s.posts[k].id && s.posts[j].eventId != s.posts[k].eventId)
  }

  /** Inv, for a step that only moves call c on, and perhaps changes rows. */
  lemma MovedKeeps(s: State, s': State, c: nat)
    requires Inv(s) && At(s, c) && At(s', c) && s'.calls == s.calls[c := s.calls[c].(pc := s'.calls[c].pc)]
    requires s' == s.(rows := s'.rows, calls := s'.calls)
    requires UniqueEmails(s'.rows)
    requires forall id :: id in s'.rows ==> id in s.inserted && s'.rows[id].password == s.inserted[id].user.password
    requires CallOk(s', c) && !s.calls[c].pc.Done? && !s.calls[c].pc.Publishing?
    ensures Inv(s')
  {
    forall id | id in s'.inserted ensures InsertionOk(s', id) { assert InsertionOk(s, id); }
    forall d | 0 <= d < |s'.calls| ensures CallOk(s', d) { assert CallOk(s, d); }
    forall k | 0 <= k < |s'.posts| ensures PostOk(s', k) { assert PostOk(s, k); }
  }

  lemma StartKeeps(s: State, request: Request)
    requires Inv(s)
    ensures Inv(Apply(s, Start(request)))
  {
    var s' := Apply(s, Start(request));
    forall id | id in s'.inserted ensures InsertionOk(s', id) { assert InsertionOk(s, id); }
    forall d | 0 <= d < |s'.calls| ensures CallOk(s', d) { if d < |s.calls| { assert CallOk(s, d); } }
    forall k | 0 <= k < |s'.posts| ensures PostOk(s', k) { assert PostOk(s, k); }
  }

  lemma StillUnique(rows: map<int, User>, id: int, user: User)
    requires UniqueEmails(rows) && !Taken(rows, user.email)
    ensures UniqueEmails(rows[id := user])
  {
  }

  lemma InsertionsKept(s: State, c: nat, outcome: Outcome, id: int)
    requires Inv(s) && Enabled(s, Insert(c, outcome)) && id in DoInsert(s, c, outcome).inserted
    ensures InsertionOk(DoInsert(s, c, outcome), id)
    ensures id in s.inserted ==> id < s.nextId && s.inserted[id].call != c
  {
    hide Taken, UniqueEmails;
    if id in s.inserted { assert InsertionOk(s, id); }
  }

  lemma InsertKeepsCall(s: State, c: nat, outcome: Outcome, d: nat)
    requires Inv(s) && Enabled(s, Insert(c, outcome)) && d < |s.calls|
    ensures CallOk(DoInsert(s, c, outcome), d)
  {
    assert CallOk(s, d);
    assert s.nextId !in s.inserted;
    hide Inv, Taken, NewUser;
  }

  lemma InsertKeepsPost(s: State, c: nat, outcome: Outcome, k: nat)
    requires Inv(s) && Enabled(s, Insert(c, outcome)) && k < |s.posts|
    ensures PostOk(DoInsert(s, c, outcome), k)
  {
    assert PostOk(s, k);
    assert s.nextId !in s.inserted;
    hide Inv, Taken, NewUser;
  }

  lemma InsertKeeps(s: State, c: nat, outcome: Outcome)
    requires Inv(s) && Enabled(s, Insert(c, outcome))
    ensures Inv(DoInsert(s, c, outcome))
  {
    var s' := DoInsert(s, c, outcome);
    var user := NewUser(s.calls[c].request);
    if !Taken(s.rows, user.email) { StillUnique(s.rows, s.nextId, user); }
    hide Taken, NewUser, UniqueEmails, HasInserted, InsertionOk, CallOk, PostOk;
    forall id | id in s'.inserted
      ensures InsertionOk(s', id) && (id in s.inserted ==> id < s.nextId && s.inserted[id].call != c)
    {
      InsertionsKept(s, c, outcome, id);
    }
    forall d | 0 <= d < |s'.calls| ensures CallOk(s', d) { InsertKeepsCall(s, c, outcome, d); }
    forall k | 0 <= k < |s'.posts| ensures PostOk(s', k) { InsertKeepsPost(s, c, outcome, k); }
  }

  lemma PublishKeepsPost(s: State, c: nat, eventId: string, outcome: Outcome, k: nat)
    requires Inv(s) && Enabled(s, Publish(c, eventId, outcome)) && k < |s.posts|
    ensures PostOk(DoPublish(s, c, eventId, outcome), k) && s.posts[k].id != s.calls[c].pc.id
    ensures s.posts[k].eventId != eventId
  {
    assert CallOk(s, c) && PostOk(s, k);
    hide InsertionOk;
  }

  lemma PublishKeepsInsertion(s: State, c: nat, eventId: string, outcome: Outcome, id: int)
    requires Inv(s) && Enabled(s, Publish(c, eventId, outcome)) && id in s.inserted
    ensures InsertionOk(DoPublish(s, c, eventId, outcome), id)
  {
    assert CallOk(s, c) && InsertionOk(s, id);
    hide PostOk;
  }

  lemma PublishKeeps(s: State, c: nat, eventId: string, outcome: Outcome)
    requires Inv(s) && Enabled(s, Publish(c, eventId, outcome))
    ensures Inv(DoPublish(s, c, eventId, outcome))
  {
    var s' := DoPublish(s, c, eventId, outcome);
    assert CallOk(s, c) && InsertionOk(s, s.calls[c].pc.id);
    assert |s'.posts| > |s.posts| ==> PostOk(s', |s.posts|);
    forall d | 0 <= d < |s'.calls| ensures CallOk(s', d) { assert CallOk(s, d); }
    hide InsertionOk, CallOk, PostOk, NewUser, HasInserted;
    forall id | id in s'.inserted ensures InsertionOk(s', id) { PublishKeepsInsertion(s, c, eventId, outcome, id); }
    forall k | 0 <= k < |s.posts|
      ensures PostOk(s', k) && s.posts[k].id != s.calls[c].pc.id && s.posts[k].eventId != eventId
    {
      PublishKeepsPost(s, c, eventId, outcome, k);
    }
  }

  lemma WriteKeeps(s: State, c: nat, outcome: Outcome)
    requires Inv(s) && Enabled(s, Write(c, outcome))
    ensures Inv(DoWrite(s, c, outcome))
  {
    assert CallOk(s, c);
    MovedKeeps(s, DoWrite(s, c, outcome), c);
  }

  lemma StepKeeps(s: State, a: Action)
    requires Inv(s) && Enabled(s, a)
    ensures Inv(Apply(s, a))
  {
    match a
    case Start(request) => StartKeeps(s, request);
    case Insert(c, outcome) => InsertKeeps(s, c, outcome);
    case Publish(c, eventId, outcome) => PublishKeeps(s, c, eventId, outcome);
    case Write(c, outcome) => WriteKeeps(s, c, outcome);
    case Check(c, _) => assert CallOk(s, c); MovedKeeps(s, Apply(s, a), c);
    case Load(c, _) => assert CallOk(s, c); MovedKeeps(s, Apply(s, a), c);
    case Compare(c, _) => assert CallOk(s, c); MovedKeeps(s, Apply(s, a), c);
    case Remove(c, _) => assert CallOk(s, c); MovedKeeps(s, Apply(s, a), c);
  }

  lemma {:induction false} RunKeeps(s: State, run: seq<Action>)
    requires Inv(s) && Legal(s, run)
    ensures Inv(After(s, run))
    decreases |run|
  {
    hide Inv, Apply, Enabled;
    if run != [] {
      StepKeeps(s, run[0]);
      RunKeeps(Apply(s, run[0]), run[1..]);
    }
  }

  lemma StartIsGood()
    ensures Inv(EMPTY)
  {
  }

  // ----------------------------------------------------------- guarantees

  /** A sanity check of the statements as modelled: however creations, updates and deletions interleave,
      no two rows ever share an email. */
  lemma EmailsStayUnique(run: seq<Action>, i: int, j: int)
    requires Legal(EMPTY, run) && i in After(EMPTY, run).rows && j in After(EMPTY, run).rows
    requires After(EMPTY, run).rows[i].email == After(EMPTY, run).rows[j].email
    ensures i == j
  {
    StartIsGood();
    RunKeeps(EMPTY, run);
  }

  /** A call answered with a conflict has inserted no row and published no event. */
  lemma LoserPublishesNothing(run: seq<Action>, c: nat)
    requires Legal(EMPTY, run) && c < |After(EMPTY, run).calls|
    requires After(EMPTY, run).calls[c].pc == Done(Failed(Conflict))
    ensures var s := After(EMPTY, run);
            && (forall id :: id in s.inserted ==> s.inserted[id].call != c)
            && (forall k :: 0 <= k < |s.posts| ==> s.posts[k].call != c)
  {
    StartIsGood();
    RunKeeps(EMPTY, run);
    var s := After(EMPTY, run);
    forall id | id in s.inserted ensures s.inserted[id].call != c { assert InsertionOk(s, id); }
    forall k | 0 <= k < |s.posts| ensures s.posts[k].call != c { assert PostOk(s, k); }
  }

  /** The step that answers a conflict changes nothing else, and some row has the wanted email at that moment. */
  lemma ConflictIsReal(s: State, a: Action, c: nat)
    requires Inv(s) && Enabled(s, a) && c < |s.calls| && !s.calls[c].pc.Done?
    requires Apply(s, a).calls[c].pc == Done(Failed(Conflict))
    ensures var s' := Apply(s, a); s'.rows == s.rows && s'.inserted == s.inserted && s'.posts == s.posts
    ensures !s.calls[c].request.Delete? && exists id :: id in s.rows && s.rows[id].email == s.calls[c].request.email
  {
    ConflictMeansTaken(s, a, c);
    hide Inv, Apply, Enabled;
  }

  lemma ConflictMeansTaken(s: State, a: Action, c: nat)
    requires Inv(s) && Enabled(s, a) && c < |s.calls| && !s.calls[c].pc.Done?
    requires Apply(s, a).calls[c].pc == Done(Failed(Conflict))
    ensures var s' := Apply(s, a); s'.rows == s.rows && s'.inserted == s.inserted && s'.posts == s.posts
    ensures !s.calls[c].request.Delete? && Taken(s.rows, s.calls[c].request.email)
  {
    hide InsertionOk, CallOk, PostOk, NewUser, Taken;
    match a
    case Insert(_, _) => NewUsersEmail(s.calls[c].request);
    case Write(_, _) => WriteConflict(s, c, a.outcome);
    case _ =>
  }

  /** The statement reports an error. */
  predicate Faulty(a: Action) {
    match a
    case Check(_, fault) => fault
    case Load(_, fault) => fault
    case Compare(_, fault) => fault
    case Insert(_, outcome) => !outcome.Ok?
    case Write(_, outcome) => !outcome.Ok?
    case Remove(_, outcome) => !outcome.Ok?
    case _ => false
  }

  /** A statement that reports an error is answered with Internal and nothing else is; one that had no effect, or is no
      write, leaves the table and the events alone. */
  lemma InternalIffFault(s: State, a: Action)
    requires Enabled(s, a) && !a.Start?
    ensures var s' := Apply(s, a);
            && a.call < |s'.calls| && (s'.calls[a.call].pc == Done(Failed(Internal)) <==> Faulty(a))
            && (a.Check? || a.Load? || a.Compare? || (!a.Publish? && a.outcome.Refused?) ==>
                  s'.rows == s.rows && s'.inserted == s.inserted && s'.posts == s.posts)
  {
    hide Taken, TakenByOther, Patched, NewUser;
  }

  /** NotFound is answered exactly when an update or deletion finds no row of that id. */
  lemma NotFoundIffGone(s: State, a: Action)
    requires Enabled(s, a) && !a.Start? && !Faulty(a)
    ensures var s' := Apply(s, a); var r := s.calls[a.call].request;
            && a.call < |s'.calls|
            && (s'.calls[a.call].pc == Done(Failed(NotFound)) <==>
                  (a.Load? || a.Write? || a.Remove?) && r.id !in s.rows)
  {
    hide Taken, TakenByOther, Patched, NewUser;
  }

  // -------------------------------------------------------- what reaches the broker

  /** The broker did not get the event that call c wanted to publish. */
  predicate Refuses(a: Action, c: nat) { a.Publish? && a.call == c && a.outcome.Refused? }

  /** Event k tells of the user that call c created. */
  ghost predicate TellsOf(s: State, k: nat, c: nat, id: int, user: User) {
    && k < |s.posts| && s.posts[k].call == c
    && s.posts[k].id == id && s.posts[k].name == user.name && s.posts[k].email == user.email
  }

  /** Call c has not created a user, or the broker has its event. */
  ghost predicate Announced(s: State, c: nat) {
    c < |s.calls| && s.calls[c].pc.Done? && s.calls[c].pc.answer.Created? ==>
      exists k :: TellsOf(s, k, c, s.calls[c].pc.answer.id, s.calls[c].pc.answer.user)
  }

  lemma StepAnnounces(s: State, a: Action, c: nat)
    requires Enabled(s, a) && Announced(s, c) && !Refuses(a, c)
    ensures Announced(Apply(s, a), c)
  {
    hide Taken, TakenByOther, Patched, NewUser;
    var s' := Apply(s, a);
    if c < |s'.calls| && s'.calls[c].pc.Done? && s'.calls[c].pc.answer.Created? {
      var id, user := s'.calls[c].pc.answer.id, s'.calls[c].pc.answer.user;
      if c < |s.calls| && s.calls[c].pc == s'.calls[c].pc {
        var k :| TellsOf(s, k, c, id, user);
        assert TellsOf(s', k, c, id, user);
      } else {
        assert TellsOf(s', |s.posts|, c, id, user);
      }
    }
  }

  lemma {:induction false} RunAnnounces(s: State, run: seq<Action>, c: nat)
    requires Legal(s, run) && Announced(s, c) && forall a :: a in run ==> !Refuses(a, c)
    ensures Announced(After(s, run), c)
    decreases |run|
  {
    hide Apply, Enabled, Announced, Refuses;
    if run != [] {
      StepAnnounces(s, run[0], c);
      RunAnnounces(Apply(s, run[0]), run[1..], c);
    }
  }

  /** Call c is over, and none of its events is on the broker. */
  ghost predicate Silent(s: State, c: nat) {
    c < |s.calls| && s.calls[c].pc.Done? && forall k :: 0 <= k < |s.posts| ==> s.posts[k].call != c
  }

  lemma StepStaysSilent(s: State, a: Action, c: nat)
    requires Enabled(s, a) && Silent(s, c)
    ensures Silent(Apply(s, a), c)
  {
    hide Taken, TakenByOther, Patched, NewUser;
  }

  lemma RefusalSilences(s: State, a: Action, c: nat)
    requires Inv(s) && Enabled(s, a) && Refuses(a, c)
    ensures Silent(Apply(s, a), c)
  {
    forall k | 0 <= k < |s.posts| ensures s.posts[k].call != c { assert PostOk(s, k); }
    hide Inv, NewUser;
  }

  lemma {:induction false} RefusedStaysSilent(s: State, run: seq<Action>, c: nat)
    requires Inv(s) && Legal(s, run) && (Silent(s, c) || exists a :: a in run && Refuses(a, c))
    ensures Silent(After(s, run), c)
    decreases |run|
  {
    hide Apply, Enabled, Silent, Refuses, Inv;
    if run != [] {
      StepKeeps(s, run[0]);
      if Silent(s, c) {
        StepStaysSilent(s, run[0], c);
      } else if Refuses(run[0], c) {
        RefusalSilences(s, run[0], c);
      }
      RefusedStaysSilent(Apply(s, run[0]), run[1..], c);
    }
  }

  /** A call that created a user has put its event on the broker - one event, with that user's id, name and email - if
      and only if its publish was not refused, whatever else went on; otherwise it has put none there. */
  lemma CreatedIsAnnouncedIff(run: seq<Action>, c: nat, id: int, user: User)
    requires Legal(EMPTY, run) && c < |After(EMPTY, run).calls|
    requires After(EMPTY, run).calls[c].pc == Done(Created(id, user))
    ensures var s := After(EMPTY, run);
            && ((exists k :: TellsOf(s, k, c, id, user)) <==> forall a :: a in run ==> !Refuses(a, c))
            && ((exists k :: 0 <= k < |s.posts| && s.posts[k].call == c) <==> exists k :: TellsOf(s, k, c, id, user))
            && forall j, k :: 0 <= j < |s.posts| && 0 <= k < |s.posts| && s.posts[j].call == s.posts[k].call == c ==>
                 j == k
  {
    StartIsGood();
    RunKeeps(EMPTY, run);
    var s := After(EMPTY, run);
    if forall a :: a in run ==> !Refuses(a, c) {
      RunAnnounces(EMPTY, run, c);
    } else {
      RefusedStaysSilent(EMPTY, run, c);
    }
    forall j, k | 0 <= j < |s.posts| && 0 <= k < |s.posts| && s.posts[j].call == s.posts[k].call == c ensures j == k {
      assert PostOk(s, j) && PostOk(s, k);
    }
  }

  lemma NewUsersEmail(request: Request)
    ensures Creates(request) ==> NewUser(request).email == request.email
  {
  }

  lemma WriteConflict(s: State, c: nat, outcome: Outcome)
    requires Inv(s) && Enabled(s, Write(c, outcome)) && DoWrite(s, c, outcome).calls[c].pc == Done(Failed(Conflict))
    ensures DoWrite(s, c, outcome).rows == s.rows && Taken(s.rows, s.calls[c].request.email)
  {
    hide InsertionOk, CallOk, PostOk;
  }

  /** Each inserted row gives rise to at most one event, under an id of its own, and the event tells what was
      inserted. */
  lemma OneEventPerInsert(run: seq<Action>, j: nat, k: nat)
    requires Legal(EMPTY, run) && j < |After(EMPTY, run).posts| && k < |After(EMPTY, run).posts|
    ensures var s := After(EMPTY, run);
            && (s.posts[j].id == s.posts[k].id ==> j == k) && (s.posts[j].eventId == s.posts[k].eventId ==> j == k)
            && (s.posts[j].call == s.posts[k].call ==> j == k)
            && s.posts[k].id in s.inserted && s.inserted[s.posts[k].id].call == s.posts[k].call
            && s.inserted[s.posts[k].id].user.name == s.posts[k].name
            && s.inserted[s.posts[k].id].user.email == s.posts[k].email
  {
    StartIsGood();
    RunKeeps(EMPTY, run);
    var s := After(EMPTY, run);
    assert PostOk(s, j) && PostOk(s, k);
  }

  predicate Grows(a: Action) { !a.Write? && !a.Remove? }

  ghost predicate AllAsInserted(s: State) {
    s.rows.Keys == s.inserted.Keys && forall id :: id in s.rows ==> s.rows[id] == s.inserted[id].user
  }

  lemma {:induction false} RunOnlyInserts(s: State, run: seq<Action>)
    requires AllAsInserted(s) && Legal(s, run) && forall a :: a in run ==> Grows(a)
    ensures AllAsInserted(After(s, run))
    decreases |run|
  {
    hide Apply, Enabled, AllAsInserted;
    if run != [] {
      StepOnlyInserts(s, run[0]);
      RunOnlyInserts(Apply(s, run[0]), run[1..]);
    }
  }

  lemma StepOnlyInserts(s: State, a: Action)
    requires AllAsInserted(s) && Enabled(s, a) && Grows(a)
    ensures AllAsInserted(Apply(s, a))
  {
  }

  /** Of any number of registrations of one email, racing or not, at most one inserts - and so at most one
      publishes - as long as nobody updates or deletes a user. */
  lemma OneWinnerPerEmail(run: seq<Action>, i: int, j: int)
    requires Legal(EMPTY, run) && forall a :: a in run ==> Grows(a)
    requires var s := After(EMPTY, run);
             i in s.inserted && j in s.inserted && s.inserted[i].user.email == s.inserted[j].user.email
    ensures i == j
  {
    StartIsGood();
    RunKeeps(EMPTY, run);
    RunOnlyInserts(EMPTY, run);
  }

  /** An update writes back the password it read some time before; it is still the one the user was created with. */
  lemma PasswordsSurviveUpdates(run: seq<Action>, id: int)
    requires Legal(EMPTY, run) && id in After(EMPTY, run).rows
    ensures var s := After(EMPTY, run); id in s.inserted && s.rows[id].password == s.inserted[id].user.password
  {
    StartIsGood();
    RunKeeps(EMPTY, run);
  }

  /** An update's answer shows the row as stored if and only if it asked for no empty field - which Updates skips - or
      had one. */
  lemma UpdateAnswersTheRowIff(s: State, c: nat)
    requires Inv(s) && Enabled(s, Write(c, Ok)) && DoWrite(s, c, Ok).calls[c].pc.answer.Updated?
    ensures var r := s.calls[c].request; var s' := DoWrite(s, c, Ok);
            && r.id in s.rows && r.id in s'.rows
            && (s'.calls[c].pc.answer.user == s'.rows[r.id] <==>
                  (r.name != "" || s.rows[r.id].name == "") && (r.email != "" || s.rows[r.id].email == ""))
  {
    assert CallOk(s, c);
  }

  /** The request validation lets no empty name or email through, so an update that is answered with a user is always
      answered with the stored row. */
  lemma ValidUpdateAnswersTheRow(s: State, c: nat)
    requires Inv(s) && Enabled(s, Write(c, Ok)) && DoWrite(s, c, Ok).calls[c].pc.answer.Updated?
    requires s.calls[c].request.name != "" && s.calls[c].request.email != ""
    ensures var r := s.calls[c].request; var s' := DoWrite(s, c, Ok);
            && r.id in s'.rows && s'.calls[c].pc.answer.user == s'.rows[r.id]
            && s'.rows[r.id].name == r.name && s'.rows[r.id].email == r.email
  {
    UpdateAnswersTheRowIff(s, c);
  }
}
