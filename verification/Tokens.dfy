// Refresh-token rotation (services/auth/internal/auth): concurrent Login, Refresh and Logout calls
// on one token store, each a sequence of separate store operations.
module Tokens {
  import opened Wrappers
  import Text

  /** A token is known by its place in the order of generation; `parent` is the token it was refreshed from. */
  datatype Issue = Issue(owner: int, parent: Option<nat>, call: nat)

  datatype Request = Login(user: int) | Refresh(token: nat) | Logout(token: nat)

  datatype Error = Unauthorized | Internal

  datatype Answer = Pair(accessUser: int, refreshToken: nat) | Failed(error: Error) | LoggedOut

  /** The next operation of a call. */
  datatype Pc = Reading | Deleting | Signing | Saving(minted: nat) | Done(answer: Answer)

  /** `readAt` is when a refresh read its token; `redeemed` says that it then deleted it without an error. */
  datatype Call = Call(request: Request, pc: Pc, user: int, readAt: nat, redeemed: bool)

  /** A store operation succeeded; failed with no effect; or took effect and still reported an error. */
  datatype Outcome = Ok | Refused | Unclear

  datatype State = State(
    store: map<nat, string>,     // refresh:<token> -> user id in decimal
    issued: seq<Issue>,
    handed: set<nat>,            // tokens some client was given
    deleted: map<nat, nat>,      // when each token was first deleted
    calls: seq<Call>,
    clock: nat)

  const EMPTY: State := State(map[], [], {}, map[], [], 0)

  datatype Action =
    | Start(request: Request)
    | Read(call: nat, fault: bool)
    | Delete(call: nat, outcome: Outcome)
    | Sign(call: nat, signed: bool)
    | Save(call: nat, outcome: Outcome)
    | Expire(token: nat)

  function First(request: Request): Pc {
    match request
    case Login(_) => Signing
    case Refresh(_) => Reading
    case Logout(_) => Deleting
  }

  predicate At(s: State, c: nat, pc: Pc) { c < |s.calls| && s.calls[c].pc == pc }

  /** Clients present tokens they were given: tokens are unguessable. A login has passed its password check. */
  predicate Enabled(s: State, a: Action) {
    match a
    case Start(Login(user)) => Text.IsInt64(user)
    case Start(Refresh(t)) => t in s.handed
    case Start(Logout(t)) => t in s.handed
    case Read(c, _) => At(s, c, Reading) && s.calls[c].request.Refresh?
    case Delete(c, _) => At(s, c, Deleting) && !s.calls[c].request.Login?
    case Sign(c, _) => At(s, c, Signing) && !s.calls[c].request.Logout?
    case Save(c, _) => c < |s.calls| && s.calls[c].pc.Saving?
    case Expire(t) => t in s.store
  }

  function Move(s: State, c: nat, pc: Pc): State
    requires c < |s.calls|
  {
    s.(calls := s.calls[c := s.calls[c].(pc := pc)])
  }

  function DoStart(s: State, request: Request): State {
    s.(calls := s.calls + [Call(request, First(request), if request.Login? then request.user else 0, 0, false)])
  }

  /** tokenStore.UserID: a missing key is Unauthorized, unreadable text Internal. */
  function DoRead(s: State, c: nat, fault: bool): State
    requires At(s, c, Reading) && s.calls[c].request.Refresh?
  {
    var t := s.calls[c].request.token;
    if fault then Move(s, c, Done(Failed(Internal)))
    else if t !in s.store then Move(s, c, Done(Failed(Unauthorized)))
    else match Text.Atoi(s.store[t])
      case Number(user) => s.(calls := s.calls[c := s.calls[c].(pc := Deleting, user := user, readAt := s.clock)])
      case _ => Move(s, c, Done(Failed(Internal)))
  }

  function DoDelete(s: State, c: nat, outcome: Outcome): State
    requires At(s, c, Deleting) && !s.calls[c].request.Login?
  {
    var t := s.calls[c].request.token;
    var s1 := if outcome.Refused? then s
              else s.(store := s.store - {t}, deleted := if t in s.deleted then s.deleted else s.deleted[t := s.clock]);
    if !outcome.Ok? then Move(s1, c, Done(Failed(Internal)))
    else if s.calls[c].request.Logout? then Move(s1, c, Done(LoggedOut))
    else s1.(calls := s1.calls[c := s1.calls[c].(pc := Signing, redeemed := true)])
  }

  function ParentOf(request: Request): Option<nat> {
    if request.Refresh? then Some(request.token) else None
  }

  /** issueTokenPair up to the new token: sign the access token, then draw a fresh UUID. */
  function DoSign(s: State, c: nat, signed: bool): State
    requires At(s, c, Signing)
  {
    if !signed then Move(s, c, Done(Failed(Internal)))
    else Move(s.(issued := s.issued + [Issue(s.calls[c].user, ParentOf(s.calls[c].request), c)]), c, Saving(|s.issued|))
  }

  function DoSave(s: State, c: nat, outcome: Outcome): State
    requires c < |s.calls| && s.calls[c].pc.Saving?
  {
    var t, user := s.calls[c].pc.minted, s.calls[c].user;
    var s1 := if outcome.Refused? then s else s.(store := s.store[t := Text.Itoa(user)]);
    if outcome.Ok? then Move(s1.(handed := s1.handed + {t}), c, Done(Pair(user, t)))
    else Move(s1, c, Done(Failed(Internal)))
  }

  function Tick(s: State): State { s.(clock := s.clock + 1) }

  function Apply(s: State, a: Action): State
    requires Enabled(s, a)
  {
    Tick(match a
         case Start(request) => DoStart(s, request)
         case Read(c, fault) => DoRead(s, c, fault)
         case Delete(c, outcome) => DoDelete(s, c, outcome)
         case Sign(c, signed) => DoSign(s, c, signed)
         case Save(c, outcome) => DoSave(s, c, outcome)
         case Expire(t) => s.(store := s.store - {t}))
  }

  predicate Legal(s: State, run: seq<Action>)
    decreases |run|
  {
    run == [] || (Enabled(s, run[0]) && Legal(Apply(s, run[0]), run[1..]))
  }

  function After(s: State, run: seq<Action>): State
    requires Legal(s, run)
    decreases |run|
  {
    if run == [] then s else After(Apply(s, run[0]), run[1..])
  }

  lemma {:induction false} LegalConcat(s: State, run: seq<Action>, more: seq<Action>)
    requires Legal(s, run) && Legal(After(s, run), more)
    ensures Legal(s, run + more) && After(s, run + more) == After(After(s, run), more)
    decreases |run|
  {
    hide Apply, Enabled;
    if run == [] {
      assert [] + more == more;
    } else {
      LegalConcat(Apply(s, run[0]), run[1..], more);
      assert (run + more)[0] == run[0] && (run + more)[1..] == run[1..] + more;
    }
  }

  lemma ThenOne(s: State, run: seq<Action>, a: Action)
    requires Legal(s, run) && Enabled(After(s, run), a)
    ensures Legal(s, run + [a]) && After(s, run + [a]) == Apply(After(s, run), a)
  {
    hide Enabled, Apply;
    assert [a][1..] == [];
    assert Legal(After(s, run), [a]) && After(After(s, run), [a]) == Apply(After(s, run), a);
    LegalConcat(s, run, [a]);
  }

  // ------------------------------------------------------------ invariant

  ghost predicate TokenOk(s: State, t: nat)
    requires t < |s.issued|
  {
    var i := s.issued[t];
    && Text.IsInt64(i.owner)
    && i.call < |s.calls| && !s.calls[i.call].pc.Signing? && i.parent == ParentOf(s.calls[i.call].request)
    && (i.parent.None? ==> s.calls[i.call].request == Login(i.owner))
    && (i.parent.Some? ==>
          && i.parent.value < t && i.parent.value in s.deleted
          && s.issued[i.parent.value].owner == i.owner
          && s.calls[i.call].redeemed)
  }

  ghost predicate CallOk(s: State, c: nat)
    requires c < |s.calls|
  {
    var k := s.calls[c];
    && (k.request.Login? ==> k.user == k.request.user && Text.IsInt64(k.user) && !k.pc.Deleting? && !k.pc.Reading?)
    && (!k.request.Login? ==> k.request.token in s.handed)
    && (k.request.Logout? ==> k.pc.Deleting? || (k.pc.Done? && !k.pc.answer.Pair?))
    && (k.redeemed ==> k.request.Refresh? && k.request.token in s.deleted && !k.pc.Deleting? && !k.pc.Reading?)
    && (k.request.Refresh? && (k.pc.Signing? || k.pc.Saving? || (k.pc.Done? && k.pc.answer.Pair?)) ==> k.redeemed)
    && (k.request.Refresh? && (k.pc.Deleting? || k.redeemed) ==>
          && k.request.token < |s.issued| && k.user == s.issued[k.request.token].owner
          && k.readAt < s.clock
          && (k.request.token in s.deleted ==> k.readAt < s.deleted[k.request.token]))
    && (k.pc.Saving? ==>
          && k.pc.minted < |s.issued| && s.issued[k.pc.minted].call == c && s.issued[k.pc.minted].owner == k.user
          && k.pc.minted !in s.store && k.pc.minted !in s.handed)
    && (k.pc.Done? && k.pc.answer.Pair? ==>
          && k.pc.answer.refreshToken < |s.issued| && s.issued[k.pc.answer.refreshToken].call == c
          && s.issued[k.pc.answer.refreshToken].owner == k.pc.answer.accessUser == k.user)
  }

  ghost predicate Inv(s: State) {
    && (forall t :: 0 <= t < |s.issued| ==> TokenOk(s, t))
    && (forall c :: 0 <= c < |s.calls| ==> CallOk(s, c))
    && (forall t, u :: 0 <= t < u < |s.issued| ==> s.issued[t].call != s.issued[u].call)
    && (forall t :: t in s.store ==> t < |s.issued| && s.store[t] == Text.Itoa(s.issued[t].owner))
    && (forall t :: t in s.handed ==> t < |s.issued|)
    && (forall t :: t in s.deleted ==> t in s.handed && t !in s.store && s.deleted[t] < s.clock)
  }

  lemma StartIsGood()
    ensures Inv(EMPTY)
  {
  }

  lemma StartKeeps(s: State, request: Request)
    requires Inv(s) && Enabled(s, Start(request))
    ensures Inv(Tick(DoStart(s, request)))
  {
    var s' := Tick(DoStart(s, request));
    forall t | 0 <= t < |s'.issued| ensures TokenOk(s', t) { assert TokenOk(s, t); }
    forall c | 0 <= c < |s'.calls| ensures CallOk(s', c) { if c < |s.calls| { assert CallOk(s, c); } }
  }

  /** Every stored token reads back as the user it was issued to. */
  lemma StoredReadsOwner(s: State, t: nat)
    requires Inv(s) && t in s.store
    ensures t < |s.issued| && Text.Atoi(s.store[t]) == Text.Number(s.issued[t].owner)
  {
    assert TokenOk(s, t);
    Text.AtoiOfItoa(s.issued[t].owner);
  }

  lemma ReadKeeps(s: State, c0: nat, fault: bool)
    requires Inv(s) && Enabled(s, Read(c0, fault))
    ensures Inv(Tick(DoRead(s, c0, fault)))
  {
    hide Text.Atoi, Text.Itoa;
    var s' := Tick(DoRead(s, c0, fault));
    assert CallOk(s, c0);
    if s.calls[c0].request.token in s.store { StoredReadsOwner(s, s.calls[c0].request.token); }
    forall t | 0 <= t < |s'.issued| ensures TokenOk(s', t) { assert TokenOk(s, t); }
    forall c | 0 <= c < |s'.calls| ensures CallOk(s', c) { assert CallOk(s, c); }
  }

  lemma DeleteKeepsToken(s: State, c0: nat, outcome: Outcome, t: nat)
    requires Inv(s) && Enabled(s, Delete(c0, outcome)) && t < |s.issued|
    ensures TokenOk(Tick(DoDelete(s, c0, outcome)), t)
  {
    assert CallOk(s, c0) && TokenOk(s, t);
  }

  lemma DeleteKeepsCall(s: State, c0: nat, outcome: Outcome, c: nat)
    requires Inv(s) && Enabled(s, Delete(c0, outcome)) && c < |s.calls|
    ensures CallOk(Tick(DoDelete(s, c0, outcome)), c)
  {
    assert CallOk(s, c0) && CallOk(s, c);
    hide TokenOk;
  }

  lemma DeleteKeeps(s: State, c0: nat, outcome: Outcome)
    requires Inv(s) && Enabled(s, Delete(c0, outcome))
    ensures Inv(Tick(DoDelete(s, c0, outcome)))
  {
    var s' := Tick(DoDelete(s, c0, outcome));
    assert CallOk(s, c0);
    hide TokenOk, CallOk;
    forall t | 0 <= t < |s'.issued| ensures TokenOk(s', t) { DeleteKeepsToken(s, c0, outcome, t); }
    forall c | 0 <= c < |s'.calls| ensures CallOk(s', c) { DeleteKeepsCall(s, c0, outcome, c); }
  }

  lemma SignKeeps(s: State, c0: nat, signed: bool)
    requires Inv(s) && Enabled(s, Sign(c0, signed))
    ensures Inv(Tick(DoSign(s, c0, signed)))
  {
    var s' := Tick(DoSign(s, c0, signed));
    assert CallOk(s, c0);
    forall t | 0 <= t < |s'.issued| ensures TokenOk(s', t) {
      if t < |s.issued| { assert TokenOk(s, t); } else { OwnerFits(s, c0); }
    }
    forall t | 0 <= t < |s.issued| ensures s.issued[t].call != c0 { assert TokenOk(s, t); }
    forall c | 0 <= c < |s'.calls| ensures CallOk(s', c) { assert CallOk(s, c); }
  }

  lemma OwnerFits(s: State, c: nat)
    requires Inv(s) && c < |s.calls| && s.calls[c].pc.Signing?
    ensures Text.IsInt64(s.calls[c].user)
  {
    assert CallOk(s, c);
    if s.calls[c].request.Refresh? { assert TokenOk(s, s.calls[c].request.token); }
  }

  lemma SaveKeepsCalls(s: State, c0: nat, outcome: Outcome, c: nat)
    requires Inv(s) && c0 < |s.calls| && s.calls[c0].pc.Saving? && c < |s.calls|
    ensures CallOk(Tick(DoSave(s, c0, outcome)), c)
  {
    hide Text.Itoa;
    assert CallOk(s, c0) && CallOk(s, c);
  }

  lemma SaveKeepsTokens(s: State, c0: nat, outcome: Outcome, t: nat)
    requires Inv(s) && c0 < |s.calls| && s.calls[c0].pc.Saving? && t < |s.issued|
    ensures TokenOk(Tick(DoSave(s, c0, outcome)), t)
  {
    hide Text.Itoa;
    assert CallOk(s, c0) && TokenOk(s, t);
  }

  lemma SaveKeeps(s: State, c0: nat, outcome: Outcome)
    requires Inv(s) && c0 < |s.calls| && s.calls[c0].pc.Saving?
    ensures Inv(Tick(DoSave(s, c0, outcome)))
  {
    hide Text.Itoa;
    var s' := Tick(DoSave(s, c0, outcome));
    assert CallOk(s, c0);
    forall t | 0 <= t < |s'.issued| ensures TokenOk(s', t) { SaveKeepsTokens(s, c0, outcome, t); }
    forall c | 0 <= c < |s'.calls| ensures CallOk(s', c) { SaveKeepsCalls(s, c0, outcome, c); }
  }

  lemma ExpireKeeps(s: State, t0: nat)
    requires Inv(s)
    ensures Inv(Tick(s.(store := s.store - {t0})))
  {
    var s' := Tick(s.(store := s.store - {t0}));
    forall t | 0 <= t < |s'.issued| ensures TokenOk(s', t) { assert TokenOk(s, t); }
    forall c | 0 <= c < |s'.calls| ensures CallOk(s', c) { assert CallOk(s, c); }
  }

  lemma StepKeeps(s: State, a: Action)
    requires Inv(s) && Enabled(s, a)
    ensures Inv(Apply(s, a))
  {
    hide Inv;
    match a
    case Start(request) => StartKeeps(s, request);
    case Read(c, fault) => ReadKeeps(s, c, fault);
    case Delete(c, outcome) => DeleteKeeps(s, c, outcome);
    case Sign(c, signed) => SignKeeps(s, c, signed);
    case Save(c, outcome) => SaveKeeps(s, c, outcome);
    case Expire(t) => ExpireKeeps(s, t);
  }

  lemma {:induction false} RunKeeps(s: State, run: seq<Action>)
    requires Inv(s) && Legal(s, run)
    ensures Inv(After(s, run))
    decreases |run|
  {
    hide Inv, Apply, Enabled;
    if run != [] {
      StepKeeps(s, run[0]);
      RunKeeps(Apply(s, run[0]), run[1..]);
    }
  }

  lemma RunKeepsFromEmpty(run: seq<Action>)
    requires Legal(EMPTY, run)
    ensures Inv(After(EMPTY, run))
  {
    StartIsGood();
    RunKeeps(EMPTY, run);
  }

  // ------------------------------------------------------------ guarantees

  /** u was obtained from t by one or more refreshes. */
  ghost predicate Descends(issued: seq<Issue>, u: nat, t: nat)
    decreases u
  {
    && u < |issued| && issued[u].parent.Some?
    && var p := issued[u].parent.value;
    && p < u && (p == t || Descends(issued, p, t))
  }

  lemma {:induction false} AncestorsAreDeleted(s: State, u: nat, t: nat)
    requires Inv(s) && Descends(s.issued, u, t)
    ensures t in s.deleted && t !in s.store
    decreases u
  {
    assert TokenOk(s, u);
    if s.issued[u].parent.value != t { AncestorsAreDeleted(s, s.issued[u].parent.value, t); }
  }

  /** Rotation exclusivity: whatever interleaving, store error or expiry, once a refresh of t has drawn a new token,
      t is gone from the store for good; so t is never stored together with a descendant. */
  lemma NeverStoredWithDescendant(run: seq<Action>, u: nat, t: nat)
    requires Legal(EMPTY, run) && Descends(After(EMPTY, run).issued, u, t)
    ensures t !in After(EMPTY, run).store
  {
    RunKeepsFromEmpty(run);
    AncestorsAreDeleted(After(EMPTY, run), u, t);
  }

  /** Every call that redeemed t had read it before t was first deleted; so only calls that overlap can both redeem
      it. */
  lemma RedeemersReadBeforeFirstDelete(run: seq<Action>, c: nat)
    requires Legal(EMPTY, run) && c < |After(EMPTY, run).calls| && After(EMPTY, run).calls[c].redeemed
    ensures var s := After(EMPTY, run); var k := s.calls[c];
            k.request.Refresh? && k.request.token in s.deleted && k.readAt < s.deleted[k.request.token]
  {
    RunKeepsFromEmpty(run);
    assert CallOk(After(EMPTY, run), c);
  }

  /** ... and any two that have both read it, and not yet deleted it, can: one stolen token then yields two chains. */
  lemma OverlappingReadersBothRedeem(s: State, c: nat, d: nat) returns (run: seq<Action>)
    requires Inv(s) && c != d && At(s, c, Deleting) && At(s, d, Deleting)
    requires s.calls[c].request.Refresh? && s.calls[d].request == s.calls[c].request
    ensures Legal(s, run)
    ensures var s' := After(s, run);
            && c < |s'.calls| && d < |s'.calls| && |s'.issued| == |s.issued| + 2
            && s'.calls[c].pc == Done(Pair(s.calls[c].user, |s.issued|))
            && s'.calls[d].pc == Done(Pair(s.calls[d].user, |s.issued| + 1))
            && s'.calls[c].redeemed && s'.calls[d].redeemed
            && s'.calls[c].request == s'.calls[d].request == s.calls[c].request
            && |s.issued| in s'.store && |s.issued| + 1 in s'.store
            && s'.issued[|s.issued|].parent == s'.issued[|s.issued| + 1].parent == Some(s.calls[c].request.token)
  {
    hide Text.Itoa;
    assert CallOk(s, c);
    var one := RedeemRun(s, c);
    var s1 := After(s, one);
    var two := RedeemRun(s1, d);
    LegalConcat(s, one, two);
    run := one + two;
  }

  lemma RedeemRun(s: State, c: nat) returns (run: seq<Action>)
    requires At(s, c, Deleting) && s.calls[c].request.Refresh?
    ensures Legal(s, run)
    ensures var s' := After(s, run); var t := |s.issued|;
            && s'.issued == s.issued + [Issue(s.calls[c].user, Some(s.calls[c].request.token), c)]
            && s'.calls == s.calls[c := s.calls[c].(pc := Done(Pair(s.calls[c].user, t)), redeemed := true)]
            && s'.store == (s.store - {s.calls[c].request.token})[t := Text.Itoa(s.calls[c].user)]
  {
    hide Text.Itoa;
    run := [Delete(c, Ok), Sign(c, true), Save(c, Ok)];
    var s1 := Apply(s, run[0]);
    var s2 := Apply(s1, run[1]);
    var s3 := Apply(s2, run[2]);
    assert run[1..] == [Sign(c, true), Save(c, Ok)] && run[1..][1..] == [Save(c, Ok)] && run[1..][1..][1..] == [];
    assert Legal(s2, [Save(c, Ok)]) && After(s2, [Save(c, Ok)]) == s3;
    assert Legal(s1, run[1..]) && After(s1, run[1..]) == s3;
  }

  /** One login, from the empty store. */
  lemma LoginRun() returns (run: seq<Action>)
    ensures Legal(EMPTY, run)
    ensures var s := After(EMPTY, run); |s.calls| == 1 && 0 in s.store && 0 in s.handed
  {
    hide Text.Itoa, Text.Atoi;
    run := [Start(Login(7))];
    assert run[1..] == [];
    assert After(EMPTY, run) == Apply(EMPTY, run[0]);
    ThenOne(EMPTY, run, Sign(0, true));
    run := run + [Sign(0, true)];
    ThenOne(EMPTY, run, Save(0, Ok));
    run := run + [Save(0, Ok)];
  }

  lemma ReadsStored(s: State, c: nat)
    requires Inv(s) && At(s, c, Reading) && s.calls[c].request.Refresh? && s.calls[c].request.token in s.store
    ensures var s' := Apply(s, Read(c, false));
            && s'.store == s.store && At(s', c, Deleting) && s'.calls == s.calls[c := s'.calls[c]]
            && s'.calls[c].request == s.calls[c].request
  {
    hide Text.Itoa, Text.Atoi;
    StoredReadsOwner(s, s.calls[c].request.token);
  }

  lemma Arrives(s: State, t: nat)
    requires t in s.handed && t in s.store
    ensures var s' := Apply(s, Start(Refresh(t)));
            && s'.store == s.store && s'.handed == s.handed && |s'.calls| == |s.calls| + 1
            && s'.calls[..|s.calls|] == s.calls
            && At(s', |s.calls|, Reading) && s'.calls[|s.calls|].request == Refresh(t)
  {
  }

  /** A login, and two refreshes of its token that have both read it. */
  lemma TwoReadersRun() returns (run: seq<Action>)
    ensures Legal(EMPTY, run) && Inv(After(EMPTY, run))
    ensures var s := After(EMPTY, run);
            At(s, 1, Deleting) && At(s, 2, Deleting) && s.calls[1].request == s.calls[2].request == Refresh(0)
  {
    hide Legal, After, Apply, Inv;
    run := LoginRun();
    for i := 0 to 2
      invariant Legal(EMPTY, run)
      invariant var s := After(EMPTY, run);
                && |s.calls| == i + 1 && 0 in s.store && 0 in s.handed
                && forall c :: 1 <= c <= i ==> At(s, c, Reading) && s.calls[c].request == Refresh(0)
    {
      var s := After(EMPTY, run);
      Arrives(s, 0);
      ThenOne(EMPTY, run, Start(Refresh(0)));
      assert forall c :: 0 <= c <= i ==> Apply(s, Start(Refresh(0))).calls[..i + 1][c] == s.calls[c];
      run := run + [Start(Refresh(0))];
    }
    RunKeepsFromEmpty(run);
    var s := After(EMPTY, run);
    assert At(s, 1, Reading) && At(s, 2, Reading);
    ReadsStored(s, 1);
    ThenOne(EMPTY, run, Read(1, false));
    run := run + [Read(1, false)];
    RunKeepsFromEmpty(run);
    var s1 := After(EMPTY, run);
    assert s1.calls[2] == s.calls[2] && At(s1, 2, Reading);
    ReadsStored(s1, 2);
    ThenOne(EMPTY, run, Read(2, false));
    run := run + [Read(2, false)];
    RunKeepsFromEmpty(run);
    var s2 := After(EMPTY, run);
    assert s2.calls[1] == s1.calls[1] && At(s2, 1, Deleting);
  }

  /** So the documented "a stolen token can only be used once" is false: here one token is redeemed by two calls,
      and two of its successors are stored at once. */
  lemma OneTokenRedeemedTwice() returns (run: seq<Action>)
    ensures Legal(EMPTY, run)
    ensures var s := After(EMPTY, run);
            && 2 < |s.calls| && s.calls[1].request == s.calls[2].request == Refresh(0)
            && s.calls[1].redeemed && s.calls[2].redeemed
            && exists u, v :: u in s.store && v in s.store && u != v && Descends(s.issued, u, 0)
                && Descends(s.issued, v, 0)
  {
    hide *;
    var overlap := TwoReadersRun();
    var s := After(EMPTY, overlap);
    var both := OverlappingReadersBothRedeem(s, 1, 2);
    run := overlap + both;
    LegalConcat(EMPTY, overlap, both);
    RunKeepsFromEmpty(run);
    var s' := After(EMPTY, run);
    ChildDescends(s', |s.issued|, 0);
    ChildDescends(s', |s.issued| + 1, 0);
  }

  lemma ChildDescends(s: State, u: nat, t: nat)
    requires Inv(s) && u < |s.issued| && s.issued[u].parent == Some(t)
    ensures Descends(s.issued, u, t)
  {
    assert TokenOk(s, u);
  }

  /** The token of the login that began u's chain. */
  ghost function Root(issued: seq<Issue>, u: nat): nat
    decreases u
  {
    if u < |issued| && issued[u].parent.Some? && issued[u].parent.value < u then Root(issued, issued[u].parent.value)
    else u
  }

  lemma {:induction false} RootOwns(s: State, u: nat)
    requires Inv(s) && u < |s.issued|
    ensures var r := Root(s.issued, u);
            r <= u && s.issued[r].call < |s.calls| && s.calls[s.issued[r].call].request == Login(s.issued[u].owner)
    decreases u
  {
    assert TokenOk(s, u);
    if s.issued[u].parent.Some? { RootOwns(s, s.issued[u].parent.value); }
  }

  /** Owner preservation: what the store holds for a refresh token reads back, through its decimal text, as the user
      whose login began the token's chain of refreshes. */
  lemma StoredTokensBelongToTheirLogin(run: seq<Action>, t: nat)
    requires Legal(EMPTY, run) && t in After(EMPTY, run).store
    ensures var s := After(EMPTY, run);
            && t < |s.issued| && Root(s.issued, t) < |s.issued| && s.issued[Root(s.issued, t)].call < |s.calls|
            && var login := s.calls[s.issued[Root(s.issued, t)].call].request;
            login.Login? && Text.Atoi(s.store[t]) == Text.Number(login.user)
  {
    RunKeepsFromEmpty(run);
    var s := After(EMPTY, run);
    StoredReadsOwner(s, t);
    RootOwns(s, t);
  }

  /** An access token is issued for the user that the refresh token handed out with it stands for. */
  lemma PairsAgree(run: seq<Action>, c: nat)
    requires Legal(EMPTY, run) && c < |After(EMPTY, run).calls|
    requires var pc := After(EMPTY, run).calls[c].pc; pc.Done? && pc.answer.Pair?
    ensures var s := After(EMPTY, run); var pair := s.calls[c].pc.answer;
            && pair.refreshToken < |s.issued| && s.issued[pair.refreshToken].owner == pair.accessUser
            && (pair.refreshToken in s.store ==> Text.Atoi(s.store[pair.refreshToken]) == Text.Number(pair.accessUser))
  {
    RunKeepsFromEmpty(run);
    var s := After(EMPTY, run);
    assert CallOk(s, c);
    if s.calls[c].pc.answer.refreshToken in s.store { StoredReadsOwner(s, s.calls[c].pc.answer.refreshToken); }
  }

  // ----------------------------------------------------- what becomes of a stored token

  /** a takes token t out of the store: its own expiry, or a DEL that took effect for a call presenting it. */
  ghost predicate Drops(calls: seq<Call>, a: Action, t: nat) {
    || a == Expire(t)
    || (a.Delete? && !a.outcome.Refused? && a.call < |calls|
        && (calls[a.call].request == Refresh(t) || calls[a.call].request == Logout(t)))
  }

  /** Every step leaves each stored token stored, unless it drops that very token, and never changes what is stored for
      it; any stored token may expire. */
  lemma OnlyItsOwnLeaves(s: State, a: Action, t: nat)
    requires Inv(s) && Enabled(s, a) && t in s.store
    ensures var s' := Apply(s, a);
            (t in s'.store <==> !Drops(s.calls, a, t)) && (t in s'.store ==> s'.store[t] == s.store[t])
    ensures Enabled(s, Expire(t))
  {
    if a.Save? { assert CallOk(s, a.call); }
    hide Inv, Apply, Drops;
    LeavesUnless(s, a, t);
  }

  lemma LeavesUnless(s: State, a: Action, t: nat)
    requires Enabled(s, a) && t in s.store && (a.Save? ==> s.calls[a.call].pc != Saving(t))
    ensures var s' := Apply(s, a);
            (t in s'.store <==> !Drops(s.calls, a, t)) && (t in s'.store ==> s'.store[t] == s.store[t])
  {
    hide Text.Atoi, Text.Itoa;
  }

  lemma SavedReadsBack(s: State, c: nat)
    requires Inv(s) && c < |s.calls| && s.calls[c].pc.Saving?
    ensures Text.Atoi(Text.Itoa(s.calls[c].user)) == Text.Number(s.calls[c].user)
  {
    assert CallOk(s, c) && TokenOk(s, s.calls[c].pc.minted);
    Text.AtoiOfItoa(s.calls[c].user);
  }

  lemma StoredBySave(s: State, a: Action, t: nat)
    requires Enabled(s, a) && t !in s.store
    ensures var s' := Apply(s, a);
            && (t in s'.store <==> a.Save? && !a.outcome.Refused? && s.calls[a.call].pc == Saving(t))
            && (t in s'.store ==> s'.store[t] == Text.Itoa(s.calls[a.call].user))
  {
    hide Text.Atoi, Text.Itoa;
  }

  /** The only step that stores anything is a SET that took effect, and it stores the token drawn by that call, as the
      text of the call's user. */
  lemma OnlySavingStores(s: State, a: Action, t: nat)
    requires Inv(s) && Enabled(s, a) && t !in s.store
    ensures var s' := Apply(s, a);
            && (t in s'.store <==> a.Save? && !a.outcome.Refused? && s.calls[a.call].pc == Saving(t))
            && (t in s'.store ==> Text.Atoi(s'.store[t]) == Text.Number(s.calls[a.call].user))
  {
    StoredBySave(s, a, t);
    if a.Save? { SavedReadsBack(s, a.call); }
    hide Text.Atoi, Text.Itoa, Inv, Apply;
  }

  /** Drawn, and saved or lost: no call will store it any more. */
  ghost predicate Settled(s: State, t: nat) {
    t < |s.issued| && forall c :: 0 <= c < |s.calls| ==> s.calls[c].pc != Saving(t)
  }

  lemma StoredIsSettled(s: State, t: nat)
    requires Inv(s) && t in s.store
    ensures Settled(s, t)
  {
    forall c | 0 <= c < |s.calls| ensures s.calls[c].pc != Saving(t) { assert CallOk(s, c); }
  }

  lemma StaysSettled(s: State, a: Action, t: nat)
    requires Enabled(s, a) && Settled(s, t)
    ensures Settled(Apply(s, a), t)
    ensures t !in s.store ==> t !in Apply(s, a).store
  {
    hide Text.Atoi, Text.Itoa;
  }

  lemma {:induction false} DroppedForGood(s: State, run: seq<Action>, t: nat)
    requires Legal(s, run) && Settled(s, t) && t !in s.store
    ensures t !in After(s, run).store
    decreases |run|
  {
    hide Apply, Enabled, Settled;
    if run != [] {
      StaysSettled(s, run[0], t);
      DroppedForGood(Apply(s, run[0]), run[1..], t);
    }
  }

  lemma {:induction false} RequestsStay(s: State, run: seq<Action>)
    requires Legal(s, run)
    ensures |s.calls| <= |After(s, run).calls|
    ensures forall c :: 0 <= c < |s.calls| ==> After(s, run).calls[c].request == s.calls[c].request
    decreases |run|
  {
    hide Apply, Enabled;
    if run != [] {
      CallsGrow(s, run[0]);
      RequestsStay(Apply(s, run[0]), run[1..]);
    }
  }

  lemma DropsLater(s: State, a: Action, more: seq<Action>, t: nat)
    requires Enabled(s, a) && Legal(Apply(s, a), more)
    ensures Drops(s.calls, a, t) <==> Drops(After(Apply(s, a), more).calls, a, t)
  {
    assert a.Delete? ==> a.call < |s.calls|;
    hide Apply, Enabled;
    CallsGrow(s, a);
    RequestsStay(Apply(s, a), more);
  }

  /** So over any run a stored token is still stored at the end if and only if no step dropped it, however many other
      users logged in, refreshed and logged out; and it still stands for the same user. */
  lemma {:induction false} StoredUnlessDropped(s: State, run: seq<Action>, t: nat)
    requires Inv(s) && Legal(s, run) && t in s.store
    ensures var s' := After(s, run);
            && (t in s'.store <==> forall a :: a in run ==> !Drops(s'.calls, a, t))
            && (t in s'.store ==> s'.store[t] == s.store[t])
    decreases |run|
  {
    hide Apply, Enabled, Drops, Inv, Settled;
    if run != [] {
      var a, next := run[0], Apply(s, run[0]);
      OnlyItsOwnLeaves(s, a, t);
      DropsLater(s, a, run[1..], t);
      StepKeeps(s, a);
      if Drops(s.calls, a, t) {
        StoredIsSettled(s, t);
        StaysSettled(s, a, t);
        DroppedForGood(next, run[1..], t);
      } else {
        StoredUnlessDropped(next, run[1..], t);
      }
    }
  }

  // ----------------------------------------------- when refreshes do not overlap

  ghost predicate Busy(k: Call, t: nat) { k.request == Refresh(t) && (k.pc.Deleting? || k.redeemed) }

  /** A refresh finds t in the store only while no other refresh of t stands between reading and deleting it. */
  ghost predicate NoOverlap(s: State, a: Action, t: nat) {
    a.Read? && !a.fault && a.call < |s.calls| && s.calls[a.call].request == Refresh(t) && t in s.store ==>
      forall c :: 0 <= c < |s.calls| && c != a.call && s.calls[c].pc.Deleting? ==> s.calls[c].request != Refresh(t)
  }

  ghost predicate NoOverlaps(s: State, run: seq<Action>, t: nat)
    requires Legal(s, run)
    decreases |run|
  {
    run == [] || (NoOverlap(s, run[0], t) && NoOverlaps(Apply(s, run[0]), run[1..], t))
  }

  ghost predicate OneRedeemer(s: State, t: nat) {
    forall c, d :: 0 <= c < d < |s.calls| && Busy(s.calls[c], t) ==> !Busy(s.calls[d], t)
  }

  /** Only reading a stored token makes a call busy with it. */
  lemma NewlyBusy(s: State, a: Action, c: nat, t: nat)
    requires Inv(s) && Enabled(s, a) && c < |Apply(s, a).calls| && Busy(Apply(s, a).calls[c], t)
    ensures c < |s.calls|
    ensures Busy(s.calls[c], t) ||
            (a.Read? && !a.fault && a.call == c && s.calls[c].request == Refresh(t) && t in s.store)
  {
    hide Text.Atoi, Text.Itoa, Inv;
  }

  lemma StepKeepsOneRedeemer(s: State, a: Action, t: nat)
    requires Inv(s) && OneRedeemer(s, t) && Enabled(s, a) && NoOverlap(s, a, t)
    ensures OneRedeemer(Apply(s, a), t)
  {
    var s' := Apply(s, a);
    forall c | 0 <= c < |s.calls| ensures s.calls[c].redeemed && s.calls[c].request == Refresh(t) ==> t !in s.store {
      assert CallOk(s, c);
    }
    forall c, d | 0 <= c < d < |s'.calls| && Busy(s'.calls[c], t) ensures !Busy(s'.calls[d], t) {
      NewlyBusy(s, a, c, t);
      if Busy(s'.calls[d], t) { NewlyBusy(s, a, d, t); }
    }
  }

  lemma {:induction false} RunKeepsOneRedeemer(s: State, run: seq<Action>, t: nat)
    requires Inv(s) && OneRedeemer(s, t) && Legal(s, run) && NoOverlaps(s, run, t)
    ensures OneRedeemer(After(s, run), t) && Inv(After(s, run))
    decreases |run|
  {
    hide Inv, OneRedeemer, NoOverlap, Apply, Enabled;
    if run != [] {
      StepKeepsOneRedeemer(s, run[0], t);
      StepKeeps(s, run[0]);
      RunKeepsOneRedeemer(Apply(s, run[0]), run[1..], t);
    }
  }

  /** A token no two of whose refreshes overlap is redeemed at most once, whatever happens to others. */
  lemma RedeemedAtMostOnce(run: seq<Action>, t: nat, c: nat, d: nat)
    requires Legal(EMPTY, run) && NoOverlaps(EMPTY, run, t)
    requires var s := After(EMPTY, run);
             && c < |s.calls| && d < |s.calls| && s.calls[c].redeemed && s.calls[d].redeemed
             && s.calls[c].request == s.calls[d].request == Refresh(t)
    ensures c == d
  {
    StartIsGood();
    RunKeepsOneRedeemer(EMPTY, run, t);
    var s := After(EMPTY, run);
    assert Busy(s.calls[c], t) && Busy(s.calls[d], t);
  }

  lemma OneChild(s: State, u: nat, v: nat)
    requires Inv(s) && u < |s.issued| && v < |s.issued|
    requires s.issued[u].parent.Some? && s.issued[u].parent == s.issued[v].parent
    requires OneRedeemer(s, s.issued[u].parent.value)
    ensures u == v
  {
    assert TokenOk(s, u) && TokenOk(s, v);
    var t := s.issued[u].parent.value;
    assert Busy(s.calls[s.issued[u].call], t) && Busy(s.calls[s.issued[v].call], t);
  }

  /** The child of p on the way down to v. */
  lemma {:induction false} ChildTowards(s: State, v: nat, p: nat) returns (w: nat)
    requires Inv(s) && Descends(s.issued, v, p)
    ensures w < |s.issued| && s.issued[w].parent == Some(p) && (w == v || Descends(s.issued, v, w))
    decreases v
  {
    if s.issued[v].parent.value == p { w := v; } else { w := ChildTowards(s, s.issued[v].parent.value, p); }
  }

  ghost predicate ChainIsALine(s: State, r: nat) {
    forall t :: 0 <= t < |s.issued| && Root(s.issued, t) == r ==> OneRedeemer(s, t)
  }

  lemma {:induction false} OneLineOfDescent(s: State, u: nat, v: nat)
    requires Inv(s) && u < |s.issued| && v < |s.issued| && Root(s.issued, u) == Root(s.issued, v)
    requires ChainIsALine(s, Root(s.issued, u))
    ensures u == v || Descends(s.issued, u, v) || Descends(s.issued, v, u)
    decreases u
  {
    hide OneRedeemer;
    assert TokenOk(s, u);
    if s.issued[u].parent.None? {
      RootIsAncestor(s, v);
    } else {
      var p := s.issued[u].parent.value;
      OneLineOfDescent(s, p, v);
      if Descends(s.issued, v, p) {
        var w := ChildTowards(s, v, p);
        OneChild(s, u, w);
      }
    }
  }

  lemma {:induction false} RootIsAncestor(s: State, v: nat)
    requires Inv(s) && v < |s.issued|
    ensures Root(s.issued, v) == v || Descends(s.issued, v, Root(s.issued, v))
    decreases v
  {
    assert TokenOk(s, v);
    if s.issued[v].parent.Some? { RootIsAncestor(s, s.issued[v].parent.value); }
  }

  /** When no two refreshes of a token of one login's chain overlap, at most one token of that chain is stored. */
  lemma OneLiveTokenPerLogin(run: seq<Action>, u: nat, v: nat)
    requires Legal(EMPTY, run)
    requires var s := After(EMPTY, run);
             && u in s.store && v in s.store && Root(s.issued, u) == Root(s.issued, v)
             && forall t :: 0 <= t < |s.issued| && Root(s.issued, t) == Root(s.issued, u) ==> NoOverlaps(EMPTY, run, t)
    ensures u == v
  {
    RunKeepsFromEmpty(run);
    var s := After(EMPTY, run);
    forall t | 0 <= t < |s.issued| && Root(s.issued, t) == Root(s.issued, u) ensures OneRedeemer(s, t) {
      StartIsGood();
      RunKeepsOneRedeemer(EMPTY, run, t);
    }
    OneLineOfDescent(s, u, v);
    if Descends(s.issued, u, v) { AncestorsAreDeleted(s, u, v); }
    if Descends(s.issued, v, u) { AncestorsAreDeleted(s, v, u); }
  }

  // ------------------------------------------------- exactly when two can redeem it

  /** This refresh has redeemed its token, or has read it and is about to, or is about to read it from the store. */
  ghost predicate CanRedeem(s: State, c: nat) {
    && c < |s.calls| && s.calls[c].request.Refresh?
    && (s.calls[c].redeemed || s.calls[c].pc.Deleting?
          || (s.calls[c].pc.Reading? && s.calls[c].request.token in s.store))
  }

  /** A token that was handed out and is not stored never comes back ... */
  lemma NeverStoredAgain(s: State, a: Action, t: nat)
    requires Inv(s) && Enabled(s, a) && t in s.handed && t !in s.store
    ensures t !in Apply(s, a).store
  {
    hide Text.Atoi, Text.Itoa, TokenOk;
    if a.Save? { assert CallOk(s, a.call); }
  }

  lemma OnlyReadersMoveOn(s: State, a: Action, c: nat)
    requires Enabled(s, a) && c < |s.calls| && s.calls[c].request.Refresh?
    ensures c < |Apply(s, a).calls|
    ensures var k, k' := s.calls[c], Apply(s, a).calls[c];
            && (k'.redeemed ==> k.redeemed || k.pc.Deleting?) && (k'.pc.Reading? ==> k.pc.Reading?)
            && (k'.pc.Deleting? ==> k.pc.Deleting? || (k.pc.Reading? && k.request.token in s.store))
  {
    hide Text.Atoi, Text.Itoa;
  }

  /** ... so nobody gets into a position to redeem it. */
  lemma StaysUnable(s: State, a: Action, c: nat)
    requires Inv(s) && Enabled(s, a) && c < |s.calls| && c < |Apply(s, a).calls| && CanRedeem(Apply(s, a), c)
    ensures CanRedeem(s, c)
  {
    assert CallOk(s, c);
    CallsGrow(s, a);
    hide Inv, Apply, Enabled;
    OnlyReadersMoveOn(s, a, c);
    if s.calls[c].request.token !in s.store { NeverStoredAgain(s, a, s.calls[c].request.token); }
  }

  lemma {:induction false} OnlyTheAble(s: State, run: seq<Action>, c: nat)
    requires Inv(s) && Legal(s, run) && c < |s.calls| && CanRedeem(After(s, run), c)
    ensures CanRedeem(s, c)
    decreases |run|
  {
    hide Inv, Apply, Enabled, CanRedeem;
    if run != [] {
      StepKeeps(s, run[0]);
      CallsGrow(s, run[0]);
      OnlyTheAble(Apply(s, run[0]), run[1..], c);
      StaysUnable(s, run[0], c);
    }
  }

  lemma CallsGrow(s: State, a: Action)
    requires Enabled(s, a)
    ensures |s.calls| <= |Apply(s, a).calls|
    ensures forall c :: 0 <= c < |s.calls| ==> Apply(s, a).calls[c].request == s.calls[c].request
  {
    hide Text.Atoi, Text.Itoa;
  }

  /** Reads the token, if that is still to be done. */
  lemma ReadRun(s: State, c: nat) returns (run: seq<Action>)
    requires Inv(s) && CanRedeem(s, c)
    ensures Legal(s, run)
    ensures var s' := After(s, run);
            && Inv(s') && s'.store == s.store && |s'.calls| == |s.calls| && s'.calls == s.calls[c := s'.calls[c]]
            && s'.calls[c].request == s.calls[c].request && (s'.calls[c].redeemed || s'.calls[c].pc.Deleting?)
  {
    run := [];
    if !s.calls[c].redeemed && s.calls[c].pc.Reading? {
      ReadsStored(s, c);
      run := [Read(c, false)];
      assert run[1..] == [];
      StepKeeps(s, Read(c, false));
      hide Inv, Apply;
    }
  }

  /** Redeems the token it has read, if that is still to be done. */
  lemma DeleteRun(s: State, c: nat) returns (run: seq<Action>)
    requires c < |s.calls| && s.calls[c].request.Refresh? && (s.calls[c].redeemed || s.calls[c].pc.Deleting?)
    ensures Legal(s, run)
    ensures var s' := After(s, run);
            |s'.calls| == |s.calls| && s'.calls == s.calls[c := s'.calls[c]] && s'.calls[c].redeemed
  {
    run := [];
    if !s.calls[c].redeemed {
      run := [Delete(c, Ok)];
      assert run[1..] == [];
    }
  }

  lemma BothRun(s: State, c: nat, d: nat) returns (run: seq<Action>)
    requires Inv(s) && c != d && CanRedeem(s, c) && CanRedeem(s, d)
    ensures BothRedeem(s, run, c, d)
  {
    run := ReadRun(s, c);
    var s1 := After(s, run);
    assert s1.calls[d] == s.calls[d];
    hide Inv, Legal, After;
    var more := ReadRun(s1, d);
    LegalConcat(s, run, more);
    run := run + more;
    var s2 := After(s, run);
    assert s2.calls[c] == s1.calls[c];
    more := DeleteRun(s2, c);
    LegalConcat(s, run, more);
    run := run + more;
    var s3 := After(s, run);
    assert s3.calls[d] == s2.calls[d];
    more := DeleteRun(s3, d);
    LegalConcat(s, run, more);
    run := run + more;
    assert After(s, run).calls[c] == s3.calls[c];
  }

  ghost predicate BothRedeem(s: State, run: seq<Action>, c: nat, d: nat) {
    && Legal(s, run)
    && var s' := After(s, run); c < |s'.calls| && d < |s'.calls| && s'.calls[c].redeemed && s'.calls[d].redeemed
  }

  /** One token, two refreshes: some continuation lets both redeem it if and only if each has done so,
      or has read it and not yet deleted it, or is about to read it while it is stored. */
  lemma BothCanRedeemIff(s: State, t: nat, c: nat, d: nat)
    requires Inv(s) && c != d && c < |s.calls| && d < |s.calls|
    requires s.calls[c].request == s.calls[d].request == Refresh(t)
    ensures (exists run :: BothRedeem(s, run, c, d)) <==> CanRedeem(s, c) && CanRedeem(s, d)
  {
    if CanRedeem(s, c) && CanRedeem(s, d) {
      var run := BothRun(s, c, d);
      assert BothRedeem(s, run, c, d);
    } else {
      forall run ensures !BothRedeem(s, run, c, d) {
        if BothRedeem(s, run, c, d) {
          RedeemedCan(s, run, c);
          RedeemedCan(s, run, d);
          assert false;
        }
      }
    }
  }

  lemma RedeemedCan(s: State, run: seq<Action>, c: nat)
    requires Inv(s) && Legal(s, run) && c < |s.calls| && c < |After(s, run).calls| && After(s, run).calls[c].redeemed
    ensures CanRedeem(s, c)
  {
    RunKeeps(s, run);
    assert CallOk(After(s, run), c);
    OnlyTheAble(s, run, c);
  }
}
