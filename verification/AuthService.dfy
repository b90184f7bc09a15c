// Login, Refresh and Logout of services/auth/internal/auth/service.go as the program runs them: one store
// operation after the other, each preceded by whatever other calls do to the store in between.
// Every execution is shown to be a run of the token machine.
module AuthService {
  import opened Wrappers
  import opened Tokens

  /** What comes before one operation of the program, and how that operation fares. */
  datatype Turn = Turn(others: seq<Action>, outcome: Outcome)

  /** a is a step of this call, if it is one that reaches the store. */
  predicate OwnStep(a: Action, c: Option<nat>) {
    match a
    case Read(k, _) => c == Some(k)
    case Delete(k, _) => c == Some(k)
    case Sign(k, _) => c == Some(k)
    case Save(k, _) => c == Some(k)
    case _ => false
  }

  ghost predicate Ran(s: State, run: seq<Action>, s': State) { Legal(s, run) && After(s, run) == s' }

  lemma RanOneMore(s: State, run: seq<Action>, s': State, a: Action)
    requires Ran(s, run, s') && Enabled(s', a)
    ensures Ran(s, run + [a], Apply(s', a))
  {
    hide Enabled, Apply;
    ThenOne(s, run, a);
  }

  lemma RanOn(s: State, run: seq<Action>, s': State, more: seq<Action>, s'': State)
    requires Ran(s, run, s') && Ran(s', more, s'')
    ensures Ran(s, run + more, s'')
  {
    hide Enabled, Apply;
    LegalConcat(s, run, more);
  }

  ghost predicate SameCall(s: State, s': State, c: Option<nat>) {
    c.Some? && c.value < |s.calls| ==> c.value < |s'.calls| && s'.calls[c.value] == s.calls[c.value]
  }

  lemma OthersLeaveTheCall(s: State, a: Action, c: Option<nat>)
    requires Enabled(s, a) && !OwnStep(a, c)
    ensures SameCall(s, Apply(s, a), c)
  {
    hide Text.Atoi, Text.Itoa;
  }

  lemma RanKeeps(s: State, run: seq<Action>, s': State)
    requires Inv(s) && Ran(s, run, s')
    ensures Inv(s')
  {
    RunKeeps(s, run);
  }

  /** What it means that a refresh of t answered with a pair. */
  ghost predicate Rotated(s: State, t: nat, pair: Answer) {
    && pair.Pair? && t < |s.issued| && pair.refreshToken < |s.issued|
    && t !in s.store && s.issued[pair.refreshToken].parent == Some(t)
    && s.issued[pair.refreshToken].owner == s.issued[t].owner == pair.accessUser
  }

  lemma PairMeans(s: State, c: nat)
    requires Inv(s) && c < |s.calls| && s.calls[c].pc.Done? && s.calls[c].pc.answer.Pair?
    ensures s.calls[c].request.Refresh? ==> Rotated(s, s.calls[c].request.token, s.calls[c].pc.answer)
    ensures s.calls[c].request.Login? ==> s.calls[c].pc.answer.accessUser == s.calls[c].request.user
  {
    assert CallOk(s, c);
    assert TokenOk(s, s.calls[c].pc.answer.refreshToken);
  }

  /** Every token but t is stored as before. */
  ghost predicate SameBut(store: map<nat, string>, store': map<nat, string>, t: nat) {
    && (forall u :: u != t ==> (u in store' <==> u in store))
    && (forall u :: u != t && u in store ==> store'[u] == store[u])
  }

  /** How the coming operation fares. */
  function NextOutcome(script: seq<Turn>): Outcome { if script == [] then Ok else script[0].outcome }

  /** What others have in mind to do before it ... */
  function NextOthers(script: seq<Turn>): seq<Action> { if script == [] then [] else script[0].others }

  /** ... of which they do, one after the other, what is possible and not for call c to do. */
  function Interference(s: State, others: seq<Action>, c: Option<nat>): seq<Action>
    decreases |others|
  {
    if others == [] then []
    else if Enabled(s, others[0]) && !OwnStep(others[0], c)
    then [others[0]] + Interference(Apply(s, others[0]), others[1..], c)
    else Interference(s, others[1..], c)
  }

  /** The auth processes and the store they share. `script` holds what happens around
      the coming operations; when it runs out, they succeed undisturbed. */
  class Service {
    var st: State
    var script: seq<Turn>

    constructor (st: State, script: seq<Turn>)
      ensures this.st == st && this.script == script
    {
      this.st, this.script := st, script;
    }

    /** Others act; then it is this call's turn. */
    method Yield(c: Option<nat>) returns (outcome: Outcome, ghost run: seq<Action>)
      modifies this
      ensures Ran(old(st), run, st) && SameCall(old(st), st, c) && forall a :: a in run ==> !OwnStep(a, c)
      ensures outcome == NextOutcome(old(script)) && script == if old(script) == [] then [] else old(script)[1..]
      ensures run == Interference(old(st), NextOthers(old(script)), c)
      ensures old(script) == [] ==> outcome == Ok && run == [] && script == [] && st == old(st)
    {
      hide Enabled, Apply;
      run, outcome := [], Ok;
      var others := [];
      if script != [] {
        others, outcome := script[0].others, script[0].outcome;
        script := script[1..];
      }
      ghost var rest := script;
      for i := 0 to |others|
        invariant Ran(old(st), run, st) && SameCall(old(st), st, c) && forall a :: a in run ==> !OwnStep(a, c)
        invariant script == rest && (others == [] ==> run == [] && st == old(st))
        invariant run + Interference(st, others[i..], c) == Interference(old(st), others, c)
      {
        assert others[i..][1..] == others[i + 1..];
        if Enabled(st, others[i]) && !OwnStep(others[i], c) {
          OthersLeaveTheCall(st, others[i], c);
          RanOneMore(old(st), run, st, others[i]);
          st := Apply(st, others[i]);
          run := run + [others[i]];
        }
      }
    }

    /** A request arrives and becomes call c. */
    method Arrive(request: Request) returns (c: nat, ghost run: seq<Action>)
      requires Inv(st) && Enabled(st, Start(request))
      modifies this`st
      ensures Ran(old(st), run, st) && run == [Start(request)]
      ensures c == |old(st).calls| < |st.calls| && st.calls[c].request == request && st.calls[c].pc == First(request)
      ensures st.store == old(st).store && st.issued == old(st).issued
      ensures request.Login? ==> st.calls[c].user == request.user
    {
      assert [Start(request)][1..] == [];
      c, run := |st.calls|, [Start(request)];
      st := Apply(st, Start(request));
    }

    // ------------------------------------------------------------ repository.go

    /** RedisTokenRepository.UserID for the token this call presents. */
    method UserID(c: nat, fault: bool) returns (user: int, error: Option<Error>)
      requires Inv(st) && Enabled(st, Read(c, fault))
      modifies this`st
      ensures st == Apply(old(st), Read(c, fault))
      ensures var t := old(st).calls[c].request.token;
              match error
              case Some(Internal) => fault
              case Some(Unauthorized) => !fault && t !in old(st).store
              case None => !fault && t in old(st).store && t < |st.issued| && user == st.issued[t].owner
      ensures c < |st.calls| && st.calls[c].request == old(st).calls[c].request
      ensures st.calls[c].pc == if error.Some? then Done(Failed(error.value)) else Deleting
      ensures st.store == old(st).store && st.issued == old(st).issued
      ensures error.None? ==> st.calls[c].user == user && st.store[st.calls[c].request.token] == Text.Itoa(user)
    {
      var t := st.calls[c].request.token;
      user, error := 0, None;
      if fault {
        error := Some(Internal);
      } else if t !in st.store {
        error := Some(Unauthorized);
      } else {
        StoredReadsOwner(st, t);
        var parsed := Text.Atoi(st.store[t]);
        hide Text.Atoi;
        if parsed.Number? { user := parsed.n; } else { error := Some(Internal); }
      }
      hide Text.Atoi, Text.Itoa, Inv;
      st := Apply(st, Read(c, fault));
    }

    /** RedisTokenRepository.Delete; err says that Redis reported an error. */
    method Remove(c: nat, outcome: Outcome) returns (err: bool)
      requires Enabled(st, Delete(c, outcome))
      modifies this`st
      ensures st == Apply(old(st), Delete(c, outcome))
      ensures err <==> !outcome.Ok?
      ensures !err ==> old(st).calls[c].request.token in st.deleted
      ensures SameBut(old(st).store, st.store, old(st).calls[c].request.token)
      ensures outcome.Refused? ==> st.store == old(st).store
      ensures !outcome.Refused? ==> old(st).calls[c].request.token !in st.store
      ensures c < |st.calls| && st.calls[c].request == old(st).calls[c].request
      ensures var request := old(st).calls[c].request;
              st.calls[c].pc == if err then Done(Failed(Internal))
                                else if request.Refresh? then Signing else Done(LoggedOut)
    {
      err := !outcome.Ok?;
      st := Apply(st, Delete(c, outcome));
    }

    /** RedisTokenRepository.Save of the freshly drawn token. */
    method Store(c: nat, outcome: Outcome) returns (err: bool)
      requires Enabled(st, Save(c, outcome))
      modifies this`st
      ensures st == Apply(old(st), Save(c, outcome))
      ensures err <==> !outcome.Ok?
      ensures SameBut(old(st).store, st.store, old(st).calls[c].pc.minted)
      ensures outcome.Refused? ==> st.store == old(st).store
      ensures var k := old(st).calls[c];
              && (!outcome.Refused? ==> k.pc.minted in st.store && st.store[k.pc.minted] == Text.Itoa(k.user))
              && c < |st.calls| && st.calls[c].request == k.request
              && st.calls[c].pc == Done(if err then Failed(Internal) else Pair(k.user, k.pc.minted))
    {
      hide Text.Itoa;
      err := !outcome.Ok?;
      st := Apply(st, Save(c, outcome));
    }

    // --------------------------------------------------------------- service.go

    /** Service.issueTokenPair: sign an access token, draw a refresh token and save it. */
    method IssueTokenPair(c: nat, ghost before: State, ghost run0: seq<Action>)
      returns (answer: Answer, ghost run: seq<Action>)
      requires At(st, c, Signing) && !st.calls[c].request.Logout? && Ran(before, run0, st)
      modifies this
      ensures Ran(before, run, st) && At(st, c, Done(answer)) && st.calls[c].request == old(st).calls[c].request
      ensures answer.Pair? || answer == Failed(Internal)
      ensures !NextOutcome(old(script)).Ok? ==> answer == Failed(Internal)
      ensures old(script) == [] ==> answer.Pair? && run == run0 + [Sign(c, true), Save(c, Ok)]
      ensures old(script) == [] ==>
                && answer.refreshToken == |old(st).issued| && answer.accessUser == old(st).calls[c].user
                && st.store == old(st).store[answer.refreshToken := Text.Itoa(old(st).calls[c].user)]
    {
      hide Ran, Text.Itoa;
      var outcome;
      ghost var others;
      outcome, others := Yield(Some(c));
      RanOn(before, run0, old(st), others, st);
      run := run0 + others;
      var signed := outcome.Ok?;
      RanOneMore(before, run, st, Sign(c, signed));
      run := run + [Sign(c, signed)];
      st := Apply(st, Sign(c, signed));
      if !signed { return Failed(Internal), run; }

      ghost var drawn := st;
      outcome, others := Yield(Some(c));
      RanOn(before, run, drawn, others, st);
      run := run + others;
      RanOneMore(before, run, st, Save(c, outcome));
      run := run + [Save(c, outcome)];
      answer := Pair(st.calls[c].user, st.calls[c].pc.minted);
      var err := Store(c, outcome);
      if err { answer := Failed(Internal); }
    }

    /** Service.Login, given the user the lookup found and whether the password matched. */
    method Login(found: Option<int>, matches: bool) returns (answer: Answer, ghost c: nat, ghost run: seq<Action>)
      requires Inv(st) && (found.Some? ==> Text.IsInt64(found.value))
      modifies this
      ensures Ran(old(st), run, st) && Inv(st)
      ensures found.None? || !matches ==> answer == Failed(Unauthorized) && st == old(st)
      ensures found.Some? && matches ==>
                && At(st, c, Done(answer)) && st.calls[c].request == Request.Login(found.value)
                && (answer == Failed(Internal) || (answer.Pair? && answer.accessUser == found.value))
                && (!NextOutcome(old(script)).Ok? ==> answer == Failed(Internal))
      ensures found.Some? && matches && old(script) == [] ==>
                && c == |old(st).calls| && run == [Start(Request.Login(found.value)), Sign(c, true), Save(c, Ok)]
                && answer.Pair? && answer.refreshToken !in old(st).store
                && st.store == old(st).store[answer.refreshToken := Text.Itoa(found.value)]
    {
      NextTokenIsFresh(st);
      hide Ran, Inv, Text.Itoa;
      run, c := [], 0;
      assert Ran(st, run, st) by { RanNothing(st); }
      if found.None? || !matches { return Failed(Unauthorized), c, run; }
      var call;
      call, run := Arrive(Request.Login(found.value));
      c := call;
      answer, run := IssueTokenPair(call, old(st), run);
      RanKeeps(old(st), run, st);
      if answer.Pair? { PairMeans(st, call); }
    }

    /** Service.Refresh: read the token's user, delete the token, issue a new pair. The string presented is a token
        some client was given, or else (None) no token at all. */
    method Refresh(presented: Option<nat>) returns (answer: Answer, ghost c: nat, ghost run: seq<Action>)
      requires Inv(st) && (presented.Some? ==> presented.value in st.handed)
      modifies this
      ensures Ran(old(st), run, st) && Inv(st)
      ensures presented.Some? ==> At(st, c, Done(answer)) && st.calls[c].request == Request.Refresh(presented.value)
      ensures answer.Failed? || (answer.Pair? && presented.Some? && Rotated(st, presented.value, answer))
      ensures presented.Some? && presented.value in old(st).deleted ==> answer.Failed?
      ensures presented.Some? && old(script) == [] ==>
                c == |old(st).calls| && run == UndisturbedRefresh(old(st), presented.value, c)
      ensures !NextOutcome(old(script)).Ok? ==> answer == Failed(Internal)
      ensures presented.None? && NextOutcome(old(script)).Ok? ==> answer == Failed(Unauthorized)
      ensures presented.None? && old(script) == [] ==> answer == Failed(Unauthorized) && run == []
      ensures old(script) == [] ==> Replaces(old(st).store, st.store, presented, answer)
    {
      hide Ran, Inv, Rotated, Replaces;
      var outcome;
      c := |st.calls|;
      if presented.None? {
        outcome, run := Yield(None);
        RanKeeps(old(st), run, st);
        RefusedOrReplaced(old(st).store, presented, 0, 0);
        return Failed(if outcome.Ok? then Unauthorized else Internal), c, run;
      }
      answer, c, run := Redeem(presented.value);
      RanKeeps(old(st), run, st);
      if answer.Pair? { PairMeans(st, c); }
    }

    /** Refresh, for a string that is a token. */
    method Redeem(token: nat) returns (answer: Answer, ghost c: nat, ghost run: seq<Action>)
      requires Inv(st) && token in st.handed
      modifies this
      ensures Ran(old(st), run, st)
      ensures At(st, c, Done(answer)) && st.calls[c].request == Request.Refresh(token)
      ensures answer.Failed? || answer.Pair?
      ensures !NextOutcome(old(script)).Ok? ==> answer == Failed(Internal)
      ensures token in old(st).deleted ==> answer.Failed?
      ensures old(script) == [] ==> c == |old(st).calls| && run == UndisturbedRefresh(old(st), token, c)
      ensures old(script) == [] ==> Replaces(old(st).store, st.store, Some(token), answer)
    {
      NextTokenIsFresh(st);
      hide Ran, Inv, Replaces, Text.Itoa;
      var outcome, call;
      ghost var others;
      call, run := Arrive(Request.Refresh(token));
      c := call;
      ghost var arrived := st;
      outcome, others := Yield(Some(call));
      RanOn(old(st), run, arrived, others, st);
      run := run + others;
      RanKeeps(old(st), run, st);

      ghost var now := st;
      DeletedStaysAway(old(st), run, now, token);
      RanOneMore(old(st), run, st, Read(call, !outcome.Ok?));
      run := run + [Read(call, !outcome.Ok?)];
      var user, error := UserID(call, !outcome.Ok?);
      RefusedOrReplaced(old(st).store, Some(token), |old(st).issued|, user);
      if error.Some? { return Failed(error.value), c, run; }
      answer, run := Rotate(call, old(st), run);
    }

    /** The rest of Refresh, once the token's user is known. */
    method Rotate(c: nat, ghost before: State, ghost run0: seq<Action>) returns (answer: Answer, ghost run: seq<Action>)
      requires At(st, c, Deleting) && st.calls[c].request.Refresh? && Ran(before, run0, st)
      modifies this
      ensures Ran(before, run, st) && At(st, c, Done(answer)) && st.calls[c].request == old(st).calls[c].request
      ensures answer.Pair? || answer == Failed(Internal)
      ensures !NextOutcome(old(script)).Ok? ==> answer == Failed(Internal)
      ensures old(script) == [] ==> answer.Pair? && run == run0 + [Delete(c, Ok), Sign(c, true), Save(c, Ok)]
      ensures old(script) == [] ==>
                && answer.refreshToken == |old(st).issued| && answer.accessUser == old(st).calls[c].user
                && st.store == (old(st).store - {old(st).calls[c].request.token})
                               [answer.refreshToken := Text.Itoa(old(st).calls[c].user)]
    {
      hide Ran, Text.Itoa;
      var outcome;
      ghost var others;
      outcome, others := Yield(Some(c));
      RanOn(before, run0, old(st), others, st);
      run := run0 + others;
      RanOneMore(before, run, st, Delete(c, outcome));
      run := run + [Delete(c, outcome)];
      ghost var removing := st;
      var err := Remove(c, outcome);
      assert old(script) == [] ==> st.store == removing.store - {removing.calls[c].request.token};
      if err { return Failed(Internal), run; }
      answer, run := IssueTokenPair(c, before, run);
    }

    /** Service.Logout: once it returns without an error, the token is gone for good. */
    method Logout(presented: Option<nat>) returns (err: bool, ghost run: seq<Action>)
      requires Inv(st) && (presented.Some? ==> presented.value in st.handed)
      modifies this
      ensures Ran(old(st), run, st) && Inv(st)
      ensures !err && presented.Some? ==> presented.value in st.deleted && presented.value !in st.store
      ensures err <==> !NextOutcome(old(script)).Ok?
      ensures presented.None? && old(script) == [] ==> st.store == old(st).store
      ensures presented.Some? && old(script) == [] ==>
                presented.value !in st.store && SameBut(old(st).store, st.store, presented.value)
      ensures old(script) == [] ==>
                run == if presented.None? then []
                       else [Start(Request.Logout(presented.value)), Delete(|old(st).calls|, Ok)]
    {
      hide Ran, Inv;
      var c, outcome;
      ghost var others;
      if presented.None? {
        outcome, run := Yield(None);
        RanKeeps(old(st), run, st);
        return !outcome.Ok?, run;
      }
      var token := presented.value;
      c, run := Arrive(Request.Logout(token));
      ghost var arrived := st;
      outcome, others := Yield(Some(c));
      RanOn(old(st), run, arrived, others, st);
      run := run + others;
      RanOneMore(old(st), run, st, Delete(c, outcome));
      run := run + [Delete(c, outcome)];
      err := Remove(c, outcome);
      RanKeeps(old(st), run, st);
      if !err { DeletedIsNotStored(st, token); }
    }
  }

  /** What a refresh comes to when nothing gets in its way: a stored token gives way to a new one, which takes over its
      text; any other is refused, and the store left alone. */
  ghost predicate Replaces(store: map<nat, string>, store': map<nat, string>, presented: Option<nat>, answer: Answer) {
    if presented.Some? && presented.value in store
    then
      && answer.Pair? && answer.refreshToken !in store
      && store' == (store - {presented.value})[answer.refreshToken := store[presented.value]]
    else answer == Failed(Unauthorized) && store' == store
  }

  lemma RefusedOrReplaced(store: map<nat, string>, presented: Option<nat>, drawn: nat, user: int)
    ensures presented.None? || presented.value !in store ==>
              Replaces(store, store, presented, Failed(Unauthorized))
    ensures presented.Some? && presented.value in store && store[presented.value] == Text.Itoa(user)
            && drawn !in store ==>
              Replaces(store, (store - {presented.value})[drawn := Text.Itoa(user)], presented, Pair(user, drawn))
  {
    hide Text.Itoa;
  }

  lemma NextTokenIsFresh(s: State)
    requires Inv(s)
    ensures |s.issued| !in s.store
  {
  }

  /** What a refresh does to the store when nothing gets in its way. */
  function UndisturbedRefresh(s: State, token: nat, c: nat): seq<Action> {
    if token in s.store
    then [Start(Request.Refresh(token)), Read(c, false), Delete(c, Ok), Sign(c, true), Save(c, Ok)]
    else [Start(Request.Refresh(token)), Read(c, false)]
  }

  lemma DeletedIsNotStored(s: State, t: nat)
    requires Inv(s) && t in s.deleted
    ensures t !in s.store
  {
  }

  lemma RanNothing(s: State)
    ensures Ran(s, [], s)
  {
  }

  lemma DeletedOnce(s: State, a: Action, t: nat)
    requires t in s.deleted && Enabled(s, a)
    ensures t in Apply(s, a).deleted
  {
    hide Text.Atoi, Text.Itoa;
  }

  /** A token that was once deleted is never stored again. */
  lemma {:induction false} DeletedStaysAway(s: State, run: seq<Action>, s': State, t: nat)
    requires Inv(s) && Ran(s, run, s')
    ensures t in s.deleted ==> t in s'.deleted && t !in s'.store
    decreases |run|
  {
    hide Apply, Enabled;
    if t in s.deleted && run != [] {
      DeletedOnce(s, run[0], t);
      StepKeeps(s, run[0]);
      DeletedStaysAway(Apply(s, run[0]), run[1..], s', t);
    }
  }
}
