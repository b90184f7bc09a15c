// UserService and its repository and publisher, as the program runs them: one statement or publish after the
// other, each preceded by whatever other calls do in between. Every execution is a run of the user machine.
module UserService {
  import opened Wrappers
  import opened Users

  /** What comes before one effect of the program, and how that effect fares. */
  datatype Turn = Turn(others: seq<Action>, outcome: Outcome)

  /** a is a step of call c, or uses the event id that call c has drawn. */
  predicate OwnStep(a: Action, c: nat, eventId: Option<string>) {
    match a
    case Start(_) => false
    case Publish(k, e, _) => k == c || eventId == Some(e)
    case _ => a.call == c
  }

  ghost predicate Ran(s: State, run: seq<Action>, s': State) { Legal(s, run) && After(s, run) == s' }

  lemma RanOneMore(s: State, run: seq<Action>, s': State, a: Action)
    requires Ran(s, run, s') && Enabled(s', a)
    ensures Ran(s, run + [a], Apply(s', a))
  {
    hide Enabled, Apply;
    ThenOne(s, run, a);
  }

  lemma RanOn(s: State, run: seq<Action>, s': State, more: seq<Action>, s'': State)
    requires Ran(s, run, s') && Ran(s', more, s'')
    ensures Ran(s, run + more, s'')
  {
    hide Enabled, Apply;
    LegalConcat(s, run, more);
  }

  lemma RanKeeps(s: State, run: seq<Action>, s': State)
    requires Inv(s) && Ran(s, run, s')
    ensures Inv(s')
  {
    RunKeeps(s, run);
  }

  ghost predicate Undrawn(s: State, eventId: Option<string>) { eventId.Some? ==> eventId.value !in s.eventIds }

  lemma OthersLeaveTheCall(s: State, a: Action, c: nat, eventId: Option<string>)
    requires c < |s.calls| && Undrawn(s, eventId) && Enabled(s, a) && !OwnStep(a, c, eventId)
    ensures c < |Apply(s, a).calls| && Apply(s, a).calls[c] == s.calls[c] && Undrawn(Apply(s, a), eventId)
  {
    hide Taken, TakenByOther, Patched, NewUser;
  }

  /** Call c has answered so; if it created a user, that is the row it inserted, and if not, it published nothing. */
  ghost predicate Answered(s: State, c: nat, answer: Answer) {
    && c < |s.calls| && s.calls[c].pc == Done(answer)
    && (answer.Created? ==> answer.id in s.inserted && s.inserted[answer.id] == Insertion(answer.user, c))
    && (!answer.Created? ==> forall k :: 0 <= k < |s.posts| ==> s.posts[k].call != c)
  }

  lemma DoneIsAnswered(s: State, c: nat, answer: Answer)
    requires Inv(s) && c < |s.calls| && s.calls[c].pc == Done(answer)
    ensures Answered(s, c, answer)
  {
    assert CallOk(s, c);
    forall k | 0 <= k < |s.posts| && s.posts[k].call == c ensures answer.Created? { assert PostOk(s, k); }
  }

  /** The effects of an insert when nothing gets in its way ... */
  function UndisturbedInsert(s: State, email: string, c: nat, eventId: string): seq<Action> {
    if Taken(s.rows, email) then [Insert(c, Ok)] else [Insert(c, Ok), Publish(c, eventId, Ok)]
  }

  /** ... and of an update. */
  function UndisturbedUpdate(rows: map<int, User>, c: nat, id: int, email: string): seq<Action> {
    if id !in rows then [Load(c, false)]
    else if email == rows[id].email then [Load(c, false), Write(c, Ok)]
    else if Taken(rows, email) then [Load(c, false), Compare(c, false)]
    else [Load(c, false), Compare(c, false), Write(c, Ok)]
  }

  /** How the coming effect fares. */
  function NextOutcome(script: seq<Turn>): Outcome { if script == [] then Ok else script[0].outcome }

  /** What others have in mind to do before it ... */
  function NextOthers(script: seq<Turn>): seq<Action> { if script == [] then [] else script[0].others }

  /** ... of which they do, one after the other, what is possible and not for call c to do. */
  function Interference(s: State, others: seq<Action>, c: nat, eventId: Option<string>): seq<Action>
    decreases |others|
  {
    if others == [] then []
    else if Enabled(s, others[0]) && !OwnStep(others[0], c, eventId)
    then [others[0]] + Interference(Apply(s, others[0]), others[1..], c, eventId)
    else Interference(s, others[1..], c, eventId)
  }

  /** What registering a user comes to when nothing gets in its way: a row under the next id and one event about it,
      or a conflict. */
  ghost predicate Registers(s: State, s': State, user: User, c: nat, eventId: string, answer: Answer) {
    if exists id :: id in s.rows && s.rows[id].email == user.email
    then answer == Failed(Conflict) && s'.rows == s.rows && s'.posts == s.posts
    else
      && answer == Created(s.nextId, user) && s'.rows == s.rows[s.nextId := user]
      && s'.posts == s.posts + [Post(eventId, s.nextId, user.name, user.email, c)]
  }

  lemma RegistersOrNot(s: State, s': State, user: User, c: nat, eventId: string, answer: Answer)
    ensures Taken(s.rows, user.email) && answer == Failed(Conflict) && s'.rows == s.rows && s'.posts == s.posts ==>
              Registers(s, s', user, c, eventId, answer)
    ensures !Taken(s.rows, user.email) && answer == Created(s.nextId, user) && s'.rows == s.rows[s.nextId := user]
            && s'.posts == s.posts + [Post(eventId, s.nextId, user.name, user.email, c)] ==>
              Registers(s, s', user, c, eventId, answer)
  {
  }

  /** What has not touched the table or the events makes no difference. */
  lemma SameRegistration(s: State, s1: State, s': State, user: User, c: nat, eventId: string, answer: Answer)
    requires s1.rows == s.rows && s1.posts == s.posts && s1.nextId == s.nextId
    requires Registers(s1, s', user, c, eventId, answer)
    ensures Registers(s, s', user, c, eventId, answer)
  {
  }

  lemma NextIdIsFree(s: State)
    requires Inv(s)
    ensures s.nextId !in s.rows
  {
    forall id | id in s.rows ensures id < s.nextId { assert InsertionOk(s, id); }
  }

  /** What updating a user comes to: an empty name or email leaves the stored one as it is, and a password stays. */
  ghost predicate Amends(s: State, s': State, id: int, name: string, email: string, answer: Answer) {
    && s'.posts == s.posts
    && if id !in s.rows then answer == Failed(NotFound) && s'.rows == s.rows
       else
         var row := s.rows[id];
         if email != row.email && exists j :: j in s.rows && s.rows[j].email == email
         then answer == Failed(Conflict) && s'.rows == s.rows
         else
           && answer == Updated(id, User(name, email, row.password))
           && s'.rows == s.rows[id := User(if name == "" then row.name else name,
                                           if email == "" then row.email else email, row.password)]
  }

  lemma AmendsOrNot(s: State, s': State, id: int, name: string, email: string, answer: Answer)
    requires UniqueEmails(s.rows) && s'.posts == s.posts
    ensures id !in s.rows && answer == Failed(NotFound) && s'.rows == s.rows ==> Amends(s, s', id, name, email, answer)
    ensures id in s.rows && email != s.rows[id].email && Taken(s.rows, email) && answer == Failed(Conflict)
            && s'.rows == s.rows ==>
              Amends(s, s', id, name, email, answer)
    ensures id in s.rows && (email == s.rows[id].email || !Taken(s.rows, email)) ==>
              var u := User(name, email, s.rows[id].password);
              && !TakenByOther(s.rows, Patched(s.rows[id], u).email, id)
              && (answer == Updated(id, u) && s'.rows == s.rows[id := Patched(s.rows[id], u)] ==>
                    Amends(s, s', id, name, email, answer))
  {
  }

  /** The user service's processes and the table and broker they share. `script` holds what happens around
      the coming effects; when it runs out, they succeed undisturbed. */
  class Service {
    var st: State
    var script: seq<Turn>

    constructor (st: State, script: seq<Turn>)
      ensures this.st == st && this.script == script
    {
      this.st, this.script := st, script;
    }

    /** Others act; then it is this call's turn. */
    method Yield(c: nat, eventId: Option<string>, ghost before: State, ghost run0: seq<Action>)
      returns (outcome: Outcome, ghost run: seq<Action>)
      requires c < |st.calls| && Undrawn(st, eventId) && Ran(before, run0, st)
      modifies this
      ensures Ran(before, run, st) && Undrawn(st, eventId)
      ensures c < |st.calls| && st.calls[c] == old(st).calls[c]
      ensures outcome == NextOutcome(old(script)) && script == if old(script) == [] then [] else old(script)[1..]
      ensures run == run0 + Interference(old(st), NextOthers(old(script)), c, eventId)
      ensures old(script) == [] ==> outcome == Ok && run == run0 && script == [] && st == old(st)
    {
      hide Enabled, Apply, Undrawn, Ran;
      run, outcome := run0, Ok;
      var others := [];
      if script != [] {
        others, outcome := script[0].others, script[0].outcome;
        script := script[1..];
      }
      ghost var rest := script;
      for i := 0 to |others|
        invariant Ran(before, run, st) && Undrawn(st, eventId)
        invariant script == rest && (others == [] ==> run == run0 && st == old(st))
        invariant run + Interference(st, others[i..], c, eventId)
               == run0 + Interference(old(st), others, c, eventId)
        invariant c < |st.calls| && st.calls[c] == old(st).calls[c]
      {
        assert others[i..][1..] == others[i + 1..];
        if Enabled(st, others[i]) && !OwnStep(others[i], c, eventId) {
          OthersLeaveTheCall(st, others[i], c, eventId);
          RanOneMore(before, run, st, others[i]);
          st := Apply(st, others[i]);
          run := run + [others[i]];
        }
      }
    }

    /** A request arrives and becomes call c. */
    method Arrive(request: Request) returns (c: nat, ghost run: seq<Action>)
      modifies this`st
      ensures Ran(old(st), run, st) && st.eventIds == old(st).eventIds
      ensures st.rows == old(st).rows && st.posts == old(st).posts && st.nextId == old(st).nextId
      ensures run == [Start(request)]
      ensures c == |old(st).calls| < |st.calls| && st.calls[c] == Call(request, First(request))
    {
      assert [Start(request)][1..] == [];
      c, run := |st.calls|, [Start(request)];
      st := Apply(st, Start(request));
    }

    /** One effect of this program. */
    method Act(a: Action, ghost before: State, ghost run0: seq<Action>) returns (ghost run: seq<Action>)
      requires Enabled(st, a) && Ran(before, run0, st)
      modifies this`st
      ensures st == Apply(old(st), a) && Ran(before, run, st) && run == run0 + [a]
    {
      hide Ran, Enabled, Apply;
      RanOneMore(before, run0, st, a);
      st := Apply(st, a);
      run := run0 + [a];
    }

    // ------------------------------------------------------------ repository.go

    /** repository.Create. */
    method CreateRow(c: nat, outcome: Outcome) returns (id: int, error: Option<Error>)
      requires Enabled(st, Insert(c, outcome))
      modifies this`st
      ensures st == Apply(old(st), Insert(c, outcome))
      ensures error == if !outcome.Ok? then Some(Internal)
                       else if Taken(old(st).rows, NewUser(old(st).calls[c].request).email) then Some(Conflict)
                       else None
      ensures var user := NewUser(old(st).calls[c].request);
              st.rows == if outcome.Refused? || Taken(old(st).rows, user.email) then old(st).rows
                         else old(st).rows[id := user]
      ensures id == old(st).nextId && st.posts == old(st).posts
      ensures st.eventIds == old(st).eventIds && c < |st.calls| && st.calls[c].request == old(st).calls[c].request
      ensures st.calls[c].pc == if error.Some? then Done(Failed(error.value)) else Publishing(id)
    {
      var user := NewUser(st.calls[c].request);
      var taken := Taken(st.rows, user.email);
      hide Taken;
      id := st.nextId;
      error := if !outcome.Ok? then Some(Internal) else if taken then Some(Conflict) else None;
      st := Apply(st, Insert(c, outcome));
    }

    /** repository.Update within its transaction: zero fields of u are left as they are. */
    method UpdateRow(c: nat, u: User, outcome: Outcome) returns (error: Option<Error>)
      requires Enabled(st, Write(c, outcome))
      requires u == st.calls[c].pc.loaded.(name := st.calls[c].request.name, email := st.calls[c].request.email)
      modifies this`st
      ensures st == Apply(old(st), Write(c, outcome)) && c < |st.calls|
      ensures var id := old(st).calls[c].request.id; var rows := old(st).rows;
              && (match error
                  case None => id in rows && !TakenByOther(rows, Patched(rows[id], u).email, id)
                  case Some(NotFound) => id !in rows
                  case Some(Conflict) => id in rows && TakenByOther(rows, Patched(rows[id], u).email, id)
                  case Some(Internal) => !outcome.Ok?)
              && st.rows == if outcome.Refused? || id !in rows || TakenByOther(rows, Patched(rows[id], u).email, id)
                            then rows
                            else rows[id := Patched(rows[id], u)]
      ensures st.posts == old(st).posts
      ensures st.calls[c].pc ==
              Done(if error.None? then Updated(old(st).calls[c].request.id, u) else Failed(error.value))
    {
      var id := st.calls[c].request.id;
      if !outcome.Ok? {
        error := Some(Internal);
      } else if id !in st.rows {
        error := Some(NotFound);
      } else {
        var taken := TakenByOther(st.rows, Patched(st.rows[id], u).email, id);
        error := if taken then Some(Conflict) else None;
      }
      hide TakenByOther, Patched;
      st := Apply(st, Write(c, outcome));
    }

    /** repository.Delete. */
    method DeleteRow(c: nat, outcome: Outcome) returns (error: Option<Error>)
      requires Enabled(st, Remove(c, outcome))
      modifies this`st
      ensures st == Apply(old(st), Remove(c, outcome)) && c < |st.calls|
      ensures var id := old(st).calls[c].request.id;
              error == if !outcome.Ok? then Some(Internal) else if id in old(st).rows then None else Some(NotFound)
      ensures st.rows == if outcome.Refused? then old(st).rows else old(st).rows - {old(st).calls[c].request.id}
      ensures st.posts == old(st).posts
      ensures st.calls[c].pc == Done(if error.None? then Removed else Failed(error.value))
    {
      error := if !outcome.Ok? then Some(Internal)
               else if st.calls[c].request.id in st.rows then None else Some(NotFound);
      st := Apply(st, Remove(c, outcome));
    }

    // ---------------------------------------------------------------- service.go

    /** UserService.create: insert, then publish user.created; a failed publish is only logged. */
    method CreateAndPublish(c: nat, eventId: string, ghost before: State, ghost run0: seq<Action>)
      returns (answer: Answer, ghost run: seq<Action>)
      requires c < |st.calls| && st.calls[c].pc.Inserting? && Creates(st.calls[c].request)
      requires Undrawn(st, Some(eventId)) && Ran(before, run0, st)
      modifies this
      ensures Ran(before, run, st) && c < |st.calls| && st.calls[c].pc == Done(answer)
      ensures answer.Failed? || (answer.Created? && answer.user == NewUser(old(st).calls[c].request))
      ensures !NextOutcome(old(script)).Ok? ==> answer == Failed(Internal)
      ensures old(script) == [] ==>
                && run == run0 + UndisturbedInsert(old(st), NewUser(old(st).calls[c].request).email, c, eventId)
                && Registers(old(st), st, NewUser(old(st).calls[c].request), c, eventId, answer)
    {
      hide Ran, Taken, NewUser, Registers;
      ghost var arrived, user := st, NewUser(st.calls[c].request);
      var outcome, id, error;
      outcome, run := Yield(c, Some(eventId), before, run0);
      RanOneMore(before, run, st, Insert(c, outcome));
      run := run + [Insert(c, outcome)];
      id, error := CreateRow(c, outcome);
      if error.Some? {
        RegistersOrNot(arrived, st, user, c, eventId, Failed(error.value));
        return Failed(error.value), run;
      }

      outcome, run := Yield(c, Some(eventId), before, run);
      answer := Created(id, NewUser(st.calls[c].request));
      run := Act(Publish(c, eventId, outcome), before, run);
      RegistersOrNot(arrived, st, user, c, eventId, answer);
    }

    /** UserService.Create: check that the email is free, then create. */
    method Create(name: string, email: string, eventId: string)
      returns (answer: Answer, ghost c: nat, ghost run: seq<Action>)
      requires Inv(st) && eventId !in st.eventIds
      modifies this
      ensures Ran(old(st), run, st) && Inv(st) && Answered(st, c, answer)
      ensures answer.Failed? || (answer.Created? && answer.user == User(name, email, ""))
      ensures !NextOutcome(old(script)).Ok? ==> answer == Failed(Internal)
      ensures old(script) == [] ==>
                && c == |old(st).calls|
                && run == [Start(Request.Create(name, email)), Check(c, false)]
                          + (if Taken(old(st).rows, email) then [] else [Insert(c, Ok), Publish(c, eventId, Ok)])
                && Registers(old(st), st, User(name, email, ""), c, eventId, answer)
                && old(st).nextId !in old(st).rows
    {
      hide Ran, Inv, Taken, Answered, Registers;
      ghost var user := User(name, email, "");
      NextIdIsFree(st);
      var call, outcome;
      call, run := Arrive(Request.Create(name, email));
      c := call;
      outcome, run := Yield(call, Some(eventId), old(st), run);
      var found := Taken(st.rows, email);
      run := Act(Check(call, !outcome.Ok?), old(st), run);
      if !outcome.Ok? {
        answer := Failed(Internal);
      } else if found {
        answer := Failed(Conflict);
        RegistersOrNot(old(st), st, user, c, eventId, answer);
      } else {
        ghost var checked := st;
        answer, run := CreateAndPublish(call, eventId, old(st), run);
        if old(script) == [] { SameRegistration(old(st), checked, st, user, c, eventId, answer); }
      }
      RanKeeps(old(st), run, st);
      DoneIsAnswered(st, call, answer);
    }

    /** UserService.CreateWithPassword: no check of its own. */
    method CreateWithPassword(name: string, email: string, password: string, eventId: string)
      returns (answer: Answer, ghost c: nat, ghost run: seq<Action>)
      requires Inv(st) && eventId !in st.eventIds
      modifies this
      ensures Ran(old(st), run, st) && Inv(st) && Answered(st, c, answer)
      ensures answer.Failed? || (answer.Created? && answer.user == User(name, email, password))
      ensures !NextOutcome(old(script)).Ok? ==> answer == Failed(Internal)
      ensures old(script) == [] ==>
                && c == |old(st).calls|
                && run == [Start(Request.CreateWithPassword(name, email, password))]
                          + UndisturbedInsert(old(st), email, c, eventId)
                && Registers(old(st), st, User(name, email, password), c, eventId, answer)
                && old(st).nextId !in old(st).rows
    {
      hide Ran, Inv, Taken, Answered, Registers;
      NextIdIsFree(st);
      var call;
      call, run := Arrive(Request.CreateWithPassword(name, email, password));
      c := call;
      ghost var arrived := st;
      answer, run := CreateAndPublish(call, eventId, old(st), run);
      if old(script) == [] {
        SameRegistration(old(st), arrived, st, User(name, email, password), c, eventId, answer);
      }
      RanKeeps(old(st), run, st);
      DoneIsAnswered(st, call, answer);
    }

    /** UserService.Update: load the row, check a changed email, write. */
    method Update(id: int, name: string, email: string) returns (answer: Answer, ghost c: nat, ghost run: seq<Action>)
      requires Inv(st)
      modifies this
      ensures Ran(old(st), run, st) && Inv(st) && Answered(st, c, answer)
      ensures answer.Failed? ||
              (answer.Updated? && answer.id == id && answer.user.name == name && answer.user.email == email)
      ensures !NextOutcome(old(script)).Ok? ==> answer == Failed(Internal)
      ensures old(script) == [] ==>
                && c == |old(st).calls|
                && run == [Start(Request.Update(id, name, email))] + UndisturbedUpdate(old(st).rows, c, id, email)
                && Amends(old(st), st, id, name, email, answer)
    {
      assert UniqueEmails(st.rows);
      hide Ran, Inv, Taken, TakenByOther, Answered, UniqueEmails;
      var call, outcome;
      call, run := Arrive(Request.Update(id, name, email));
      c := call;
      outcome, run := Yield(call, None, old(st), run);
      answer, run := UpdateTx(call, outcome, old(st), run);
      RanKeeps(old(st), run, st);
      DoneIsAnswered(st, call, answer);
    }

    /** The statements of the transaction, the first of which fares as `first` says. */
    method UpdateTx(c: nat, first: Outcome, ghost before: State, ghost run0: seq<Action>)
      returns (answer: Answer, ghost run: seq<Action>)
      requires c < |st.calls| && st.calls[c].pc.Loading? && st.calls[c].request.Update? && Ran(before, run0, st)
      modifies this
      ensures Ran(before, run, st) && c < |st.calls| && st.calls[c].pc == Done(answer)
      ensures var r := old(st).calls[c].request;
              answer.Failed? ||
              (answer.Updated? && answer.id == r.id && answer.user.name == r.name && answer.user.email == r.email)
      ensures !first.Ok? ==> answer == Failed(Internal)
      ensures var r := old(st).calls[c].request;
              old(script) == [] && first.Ok? ==>
                && run == run0 + UndisturbedUpdate(old(st).rows, c, r.id, r.email)
                && (UniqueEmails(old(st).rows) ==> Amends(old(st), st, r.id, r.name, r.email, answer))
    {
      hide Ran, Taken, TakenByOther, Patched, Amends, UniqueEmails;
      ghost var arrived := st;
      var r := st.calls[c].request;
      var loaded := if r.id in st.rows then Some(st.rows[r.id]) else None;
      run := Act(Load(c, !first.Ok?), before, run0);
      if !first.Ok? { return Failed(Internal), run; }
      if loaded.None? {
        if UniqueEmails(arrived.rows) { AmendsOrNot(arrived, st, r.id, r.name, r.email, Failed(NotFound)); }
        return Failed(NotFound), run;
      }

      var u, outcome := loaded.value, first;
      if r.email != u.email {
        outcome, run := Yield(c, None, before, run);
        var found := Taken(st.rows, r.email);
        run := Act(Compare(c, !outcome.Ok?), before, run);
        if !outcome.Ok? { return Failed(Internal), run; }
        if found {
          if old(script) == [] && UniqueEmails(arrived.rows) {
            AmendsOrNot(arrived, st, r.id, r.name, r.email, Failed(Conflict));
          }
          return Failed(Conflict), run;
        }
      }
      u := u.(name := r.name, email := r.email);
      outcome, run := Yield(c, None, before, run);
      RanOneMore(before, run, st, Write(c, outcome));
      run := run + [Write(c, outcome)];
      var error := UpdateRow(c, u, outcome);
      answer := if error.None? then Updated(r.id, u) else Failed(error.value);
      if old(script) == [] && first.Ok? && UniqueEmails(arrived.rows) {
        AmendsOrNot(arrived, st, r.id, r.name, r.email, answer);
      }
    }

    /** UserService.Delete. */
    method Delete(id: int) returns (answer: Answer, ghost c: nat, ghost run: seq<Action>)
      requires Inv(st)
      modifies this
      ensures Ran(old(st), run, st) && Inv(st) && Answered(st, c, answer)
      ensures answer == Removed ==> id !in st.rows
      ensures answer == Failed(Internal) <==> !NextOutcome(old(script)).Ok?
      ensures old(script) == [] ==> c == |old(st).calls| && run == [Start(Request.Delete(id)), Remove(c, Ok)]
      ensures old(script) == [] ==>
                && answer == (if id in old(st).rows then Removed else Failed(NotFound))
                && st.rows == old(st).rows - {id} && st.posts == old(st).posts
      ensures answer.Failed? || answer.Removed?
    {
      hide Ran, Inv, Answered;
      var call, outcome;
      call, run := Arrive(Request.Delete(id));
      c := call;
      outcome, run := Yield(call, None, old(st), run);
      RanOneMore(old(st), run, st, Remove(call, outcome));
      run := run + [Remove(call, outcome)];
      var error := DeleteRow(call, outcome);
      answer := if error.None? then Removed else Failed(error.value);
      RanKeeps(old(st), run, st);
      DoneIsAnswered(st, call, answer);
    }
  }
}
