// Retrying ends: although every retry that expires is copied to all queues bound to its key, a run without new messages
// has bounded length if it has no requeues, and each requeue adds at most ten steps.
module BusTermination {
  import opened XDeath
  import opened Bus
  import opened BusInvariant
  import opened BusTally

  function Pow(base: nat, e: nat): nat {
    if e == 0 then 1 else base * Pow(base, e - 1)
  }

  lemma {:induction false} PowPositive(base: nat, e: nat)
    requires base > 0
    ensures Pow(base, e) >= 1
  {
    if e > 0 { PowPositive(base, e - 1); }
  }

  /** Retry cycles a copy with this past has left, over all consumers. */
  function Left(cfg: Config, qs: seq<string>, path: multiset<string>): nat {
    if qs == [] then 0
    else Left(cfg, qs[1..], path) + if path[qs[0]] < Budget(cfg, qs[0]) then Budget(cfg, qs[0]) - path[qs[0]] else 0
  }

  function Worth(cfg: Config, L: Line): nat {
    Pow(|cfg.queues| + 1, Left(cfg, cfg.queues, L.path))
  }

  function LineWeight(cfg: Config, L: Line): int {
    match L.place
    case Ready => 12 * Worth(cfg, L)
    case Unacked(_) => 12 * Worth(cfg, L) - 10
    case Waiting => 12 * Worth(cfg, L) - 10
    case Gone(_) => 0
  }

  function LinesWeight(cfg: Config, lines: seq<Line>): int {
    if lines == [] then 0 else LinesWeight(cfg, lines[..|lines| - 1]) + LineWeight(cfg, lines[|lines| - 1])
  }

  function PcsWeight(dels: seq<Delivery>): int {
    if dels == [] then 0 else PcsWeight(dels[..|dels| - 1]) + Remaining(dels[|dels| - 1].pc)
  }

  /** The work a state still holds. */
  function Measure(cfg: Config, s: State): int {
    LinesWeight(cfg, s.lines) + PcsWeight(s.dels)
  }

  lemma LineWeightNonNegative(cfg: Config, L: Line)
    ensures LineWeight(cfg, L) >= 0
  {
    PowPositive(|cfg.queues| + 1, Left(cfg, cfg.queues, L.path));
  }

  lemma {:induction false} LinesWeightNonNegative(cfg: Config, lines: seq<Line>)
    ensures LinesWeight(cfg, lines) >= 0
  {
    if lines != [] {
      LinesWeightNonNegative(cfg, lines[..|lines| - 1]);
      LineWeightNonNegative(cfg, lines[|lines| - 1]);
    }
  }

  lemma {:induction false} PcsWeightNonNegative(dels: seq<Delivery>)
    ensures PcsWeight(dels) >= 0
  {
    if dels != [] { PcsWeightNonNegative(dels[..|dels| - 1]); }
  }

  lemma {:induction false} LinesWeightUpdate(cfg: Config, lines: seq<Line>, l: nat, L: Line)
    requires l < |lines|
    ensures LinesWeight(cfg, lines[l := L]) == LinesWeight(cfg, lines) - LineWeight(cfg, lines[l]) + LineWeight(cfg, L)
  {
    hide LineWeight;
    var n := |lines| - 1;
    if l == n {
      assert lines[l := L][..n] == lines[..n];
    } else {
      LinesWeightUpdate(cfg, lines[..n], l, L);
      assert lines[l := L][..n] == lines[..n][l := L];
    }
  }

  /** Copies that weigh the same line for line weigh the same. */
  lemma {:induction false} LinesWeightSame(cfg: Config, lines: seq<Line>, lines': seq<Line>)
    requires |lines| == |lines'|
    requires forall l :: 0 <= l < |lines| ==> lines[l].path == lines'[l].path && lines[l].place == lines'[l].place
    ensures LinesWeight(cfg, lines) == LinesWeight(cfg, lines')
  {
    if lines != [] { LinesWeightSame(cfg, lines[..|lines| - 1], lines'[..|lines| - 1]); }
  }

  lemma {:induction false} LinesWeightConcat(cfg: Config, lines: seq<Line>, more: seq<Line>)
    ensures LinesWeight(cfg, lines + more) == LinesWeight(cfg, lines) + LinesWeight(cfg, more)
  {
    hide LineWeight;
    if more == [] {
      assert lines + more == lines;
    } else {
      var n := |more| - 1;
      LinesWeightConcat(cfg, lines, more[..n]);
      assert (lines + more)[..|lines| + n] == lines + more[..n];
    }
  }

  lemma {:induction false} LinesWeightUniform(cfg: Config, lines: seq<Line>, w: int)
    requires forall l :: 0 <= l < |lines| ==> LineWeight(cfg, lines[l]) == w
    ensures LinesWeight(cfg, lines) == |lines| * w
  {
    hide LineWeight;
    if lines != [] { LinesWeightUniform(cfg, lines[..|lines| - 1], w); }
  }

  lemma {:induction false} PcsWeightStep(dels: seq<Delivery>, dels': seq<Delivery>, t: nat)
    requires t < |dels| && |dels| == |dels'|
    requires forall u :: 0 <= u < |dels| && u != t ==> dels'[u] == dels[u]
    ensures PcsWeight(dels') == PcsWeight(dels) - Remaining(dels[t].pc) + Remaining(dels'[t].pc)
  {
    hide Remaining;
    var n := |dels| - 1;
    if t == n {
      assert dels'[..n] == dels[..n];
    } else {
      PcsWeightStep(dels[..n], dels'[..n], t);
    }
  }

  // ------------------------------------------------------ one cycle less left

  lemma {:induction false} LeftUnaffected(cfg: Config, qs: seq<string>, path: multiset<string>, q: string)
    requires q !in qs
    ensures Left(cfg, qs, path + multiset{q}) == Left(cfg, qs, path)
  {
    if qs != [] { LeftUnaffected(cfg, qs[1..], path, q); }
  }

  lemma {:induction false} LeftDrops(cfg: Config, qs: seq<string>, path: multiset<string>, q: string)
    requires Distinct(qs) && q in qs && path[q] < Budget(cfg, q)
    ensures Left(cfg, qs, path + multiset{q}) == Left(cfg, qs, path) - 1
  {
    if qs[0] == q {
      assert q !in qs[1..];
      LeftUnaffected(cfg, qs[1..], path, q);
    } else {
      LeftDrops(cfg, qs[1..], path, q);
    }
  }

  function Elements(qs: seq<string>): set<string> { set q | q in qs }

  lemma {:induction false} DistinctSize(qs: seq<string>)
    requires Distinct(qs)
    ensures |Elements(qs)| == |qs|
  {
    if qs != [] {
      var n := |qs| - 1;
      DistinctSize(qs[..n]);
      assert Elements(qs) == Elements(qs[..n]) + {qs[n]};
      assert qs[n] !in qs[..n];
    }
  }

  lemma SubsetSize(a: set<string>, b: set<string>)
    requires a <= b
    ensures |a| <= |b|
  {
    assert b == a + (b - a);
  }

  lemma RoutesFit(cfg: Config, q: string)
    requires ValidConfig(cfg) && q in cfg.queues
    ensures |cfg.routes[q]| <= |cfg.queues|
  {
    DistinctSize(cfg.routes[q]);
    DistinctSize(cfg.queues);
    SubsetSize(Elements(cfg.routes[q]), Elements(cfg.queues));
  }

  lemma {:induction false} Without1Length(qs: seq<string>, q: string)
    requires q in qs
    ensures |Without1(qs, q)| == |qs| - 1
  {
    if qs[0] != q { Without1Length(qs[1..], q); }
  }

  /** An expiring retry weighs more than the copies it is replaced by, one on each of up to n queues. */
  lemma ExpiryPays(n: nat, k: nat, w: nat)
    requires k <= n && w >= 1
    ensures 12 * ((n + 1) * w) - 10 > k * (12 * w)
  {
    assert (n + 1) * w == n * w + w;
    assert k * w <= n * w;
    assert k * (12 * w) == 12 * (k * w);
  }

  // ----------------------------------------------------------------- steps

  /** Neither a new message or consumer, nor a loss of deliveries, nor a requeue. */
  ghost predicate Benign(s: State, a: Action) {
    && !a.Publish? && !a.Connect? && !a.Close? && !a.Crash?
    && (a.Settle? && a.success && a.tag < |s.dels| ==> !s.dels[a.tag].pc.Requeueing?)
  }

  lemma QuietStepShrinks(cfg: Config, s: State, s': State, t: nat)
    requires t < |s.dels| && Stays(s, s', t)
    requires Remaining(s'.dels[t].pc) < Remaining(s.dels[t].pc)
    ensures Measure(cfg, s') < Measure(cfg, s)
  {
    LinesWeightSame(cfg, s.lines, s'.lines);
    PcsWeightStep(s.dels, s'.dels, t);
  }

  lemma DeliverShrinks(cfg: Config, s: State, l: nat, i: nat)
    requires l < |s.lines| && s.lines[l].place == Ready
    ensures Measure(cfg, Delivered(s, l, i)) < Measure(cfg, s)
  {
    var s' := Delivered(s, l, i);
    LinesWeightUpdate(cfg, s.lines, l, s'.lines[l]);
    assert s'.dels[..|s.dels|] == s.dels;
  }

  lemma SettleShrinks(cfg: Config, s: State, t: nat, success: bool)
    requires t < |s.dels| && Settling(s.dels[t].pc) && s.dels[t].line < |s.lines|
    requires success ==> LineOf(s, t).place == Unacked(t) && !s.dels[t].pc.Requeueing?
    ensures Measure(cfg, SettleDelivery(s, t, success)) < Measure(cfg, s)
  {
    hide Bump, Left, Pow;
    var s' := SettleDelivery(s, t, success);
    var l := s.dels[t].line;
    PcsWeightStep(s.dels, s'.dels, t);
    if success {
      LinesWeightUpdate(cfg, s.lines, l, s'.lines[l]);
      PowPositive(|cfg.queues| + 1, Left(cfg, cfg.queues, s.lines[l].path));
    }
  }

  lemma ReturnWorth(cfg: Config, L: Line, n: nat, w: nat)
    requires ValidConfig(cfg) && History(cfg, L) && L.place == Waiting && n == |cfg.queues|
    requires w == Worth(cfg, Returned(L))
    ensures LineWeight(cfg, L) == 12 * ((n + 1) * w) - 10
    ensures LineWeight(cfg, Returned(L)) == 12 * w
    ensures w >= 1
    ensures forall q :: LineWeight(cfg, CopyFor(L, q)) == 12 * w
  {
    LeftDrops(cfg, cfg.queues, L.path, L.queue);
    PowPositive(n + 1, Left(cfg, cfg.queues, Returned(L).path));
  }

  lemma OneMore(m: nat, v: int)
    ensures m * v + v == (m + 1) * v
  {
  }

  lemma ExpireWeight(cfg: Config, s: State, l: nat, v: int) returns (k: nat)
    requires l < |s.lines| && s.lines[l].queue in cfg.routes && s.lines[l].queue in cfg.routes[s.lines[l].queue]
    requires LineWeight(cfg, Returned(s.lines[l])) == v
    requires forall q :: LineWeight(cfg, CopyFor(s.lines[l], q)) == v
    ensures k == |cfg.routes[s.lines[l].queue]|
    ensures LinesWeight(cfg, ExpireRetry(cfg, s, l).lines) ==
            LinesWeight(cfg, s.lines) - LineWeight(cfg, s.lines[l]) + k * v
  {
    hide LineWeight, CopyFor, Returned;
    var L := s.lines[l];
    var others := Without1(cfg.routes[L.queue], L.queue);
    Without1Length(cfg.routes[L.queue], L.queue);
    var back, copies := s.lines[l := Returned(L)], Copies(L, others);
    LinesWeightUpdate(cfg, s.lines, l, Returned(L));
    LinesWeightConcat(cfg, back, copies);
    LinesWeightUniform(cfg, copies, v);
    k := |others| + 1;
    OneMore(|others|, v);
  }

  lemma ExpireShrinks(cfg: Config, s: State, l: nat)
    requires ValidConfig(cfg) && Inv(cfg, s) && l < |s.lines| && s.lines[l].place == Waiting
    ensures s.lines[l].queue in cfg.routes
    ensures Measure(cfg, ExpireRetry(cfg, s, l)) < Measure(cfg, s)
  {
    assert LineOk(cfg, s, l);
    var n, w := |cfg.queues|, Worth(cfg, Returned(s.lines[l]));
    ReturnWorth(cfg, s.lines[l], n, w);
    RoutesFit(cfg, s.lines[l].queue);
    var k := ExpireWeight(cfg, s, l, 12 * w);
    ExpiryPays(n, k, w);
  }

  lemma BenignStepShrinks(cfg: Config, s: State, a: Action)
    requires ValidConfig(cfg) && Inv(cfg, s) && Enabled(cfg, s, a) && Benign(s, a)
    ensures Measure(cfg, Apply(cfg, s, a)) < Measure(cfg, s)
  {
    hide Measure, Inv, Stays, SettleDelivery, Delivered, CloseChannel, CrashProcess, Remaining, Go, Fail,
      StartHandler, CheckRow, SendMail, InsertSent, Answered, DecideRetry, RecordFailed, ParkCopy;
    match a
    case Deliver(l, i) => DeliverShrinks(cfg, s, l, i);
    case Settle(t, success) => SettleShrinks(cfg, s, t, success);
    case Expire(l) => ExpireShrinks(cfg, s, l);
    case Publish(_, _) => assert false;
    case Connect(_) => assert false;
    case Close(_) => assert false;
    case Crash(_) => assert false;
    case _ => QuietStepShrinks(cfg, s, Apply(cfg, s, a), a.tag);
  }

  /** Each action of the run satisfies Benign where it is taken. */
  ghost predicate BenignRun(cfg: Config, s: State, run: seq<Action>)
    requires Legal(cfg, s, run)
    decreases |run|
  {
    run == [] || (Benign(s, run[0]) && BenignRun(cfg, Apply(cfg, s, run[0]), run[1..]))
  }

  /** No run without requeues and new messages is longer than the work its first state holds. */
  lemma {:induction false} BenignRunsAreBounded(cfg: Config, s: State, run: seq<Action>)
    requires ValidConfig(cfg) && Good(cfg, s) && Legal(cfg, s, run) && BenignRun(cfg, s, run)
    ensures |run| <= Measure(cfg, s) - Measure(cfg, After(cfg, s, run)) <= Measure(cfg, s)
    decreases |run|
  {
    if run == [] {
      LinesWeightNonNegative(cfg, s.lines);
      PcsWeightNonNegative(s.dels);
    } else {
      hide Measure, Good, Apply, Enabled, Benign;
      var next := Apply(cfg, s, run[0]);
      GoodIsInv(cfg, s);
      BenignStepShrinks(cfg, s, run[0]);
      StepKeepsGood(cfg, s, run[0]);
      BenignRunsAreBounded(cfg, next, run[1..]);
    }
  }

  lemma GoodIsInv(cfg: Config, s: State)
    requires Good(cfg, s)
    ensures Inv(cfg, s)
  {
  }

  /** One event published to k of n queues settles within 12 k (n+1)^R steps, R being the sum of all retry budgets,
      however its handlers answer and however its expiring retries are fanned out. */
  lemma OneEventIsBounded(cfg: Config, s: State, body: Body, targets: seq<string>, run: seq<Action>)
    requires ValidConfig(cfg) && Good(cfg, s) && s.lines == [] && s.dels == []
    requires Enabled(cfg, s, Publish(body, targets))
    requires var s1 := Apply(cfg, s, Publish(body, targets)); Legal(cfg, s1, run) && BenignRun(cfg, s1, run)
    ensures |run| <= |targets| * (12 * Pow(|cfg.queues| + 1, Left(cfg, cfg.queues, multiset{})))
  {
    var w := Pow(|cfg.queues| + 1, Left(cfg, cfg.queues, multiset{}));
    var s1 := Apply(cfg, s, Publish(body, targets));
    assert s1.lines == FreshAll(body, targets) && s1.dels == [];
    StepKeepsGood(cfg, s, Publish(body, targets));
    LinesWeightUniform(cfg, s1.lines, 12 * w);
    hide Good, Apply, Enabled, Pow, Left;
    BenignRunsAreBounded(cfg, s1, run);
  }

  // -------------------------------------------------- what a requeue costs

  /** How often copies were put back: their deliveries were lost, or parking them failed. */
  function Requeues(lines: seq<Line>): nat {
    if lines == [] then 0 else Requeues(lines[..|lines| - 1]) + lines[|lines| - 1].requeues
  }

  /** The closings and crashes still to come. */
  function InstsWeight(insts: seq<Inst>): nat {
    if insts == [] then 0
    else var I := insts[|insts| - 1];
         InstsWeight(insts[..|insts| - 1]) + (if I.open then 1 else 0) + if I.alive then 1 else 0
  }

  /** The work a state holds beyond what its requeues so far have added. */
  function Credit(cfg: Config, s: State): int {
    Measure(cfg, s) + InstsWeight(s.insts) - 10 * Requeues(s.lines)
  }

  lemma {:induction false} SameRequeues(lines: seq<Line>, lines': seq<Line>)
    requires |lines| == |lines'|
    requires forall l :: 0 <= l < |lines| ==> lines'[l].requeues == lines[l].requeues
    ensures Requeues(lines') == Requeues(lines)
  {
    if lines != [] { SameRequeues(lines[..|lines| - 1], lines'[..|lines| - 1]); }
  }

  lemma {:induction false} NewLinesRequeues(lines: seq<Line>, more: seq<Line>)
    requires forall l :: 0 <= l < |more| ==> more[l].requeues == 0
    ensures Requeues(lines + more) == Requeues(lines)
  {
    if more == [] {
      assert lines + more == lines;
    } else {
      NewLinesRequeues(lines, more[..|more| - 1]);
      assert (lines + more)[..|lines| + |more| - 1] == lines + more[..|more| - 1];
    }
  }

  lemma {:induction false} InstsWeightFalls(insts: seq<Inst>, i: nat, I: Inst)
    requires i < |insts| && (I.open ==> insts[i].open) && (I.alive ==> insts[i].alive)
    requires (insts[i].open && !I.open) || (insts[i].alive && !I.alive)
    ensures InstsWeight(insts[i := I]) < InstsWeight(insts)
  {
    var n := |insts| - 1;
    if i == n {
      assert insts[i := I][..n] == insts[..n];
    } else {
      InstsWeightFalls(insts[..n], i, I);
      assert insts[i := I][..n] == insts[..n][i := I];
    }
  }

  /** Putting a copy back adds what one requeue is reckoned at. */
  lemma LossIsReckoned(cfg: Config, L: Line, dels: seq<Delivery>, i: nat)
    ensures var L' := LoseDelivery(L, dels, i);
            LineWeight(cfg, L') - 10 * L'.requeues <= LineWeight(cfg, L) - 10 * L.requeues
  {
    hide Left, Pow;
  }

  lemma {:induction false} LossesAreReckoned(cfg: Config, lines: seq<Line>, lines': seq<Line>, dels: seq<Delivery>,
          i: nat)
    requires |lines'| == |lines| && forall l :: 0 <= l < |lines| ==> lines'[l] == LoseDelivery(lines[l], dels, i)
    ensures LinesWeight(cfg, lines') - 10 * Requeues(lines') <= LinesWeight(cfg, lines) - 10 * Requeues(lines)
  {
    hide LineWeight, LoseDelivery;
    if lines != [] {
      var n := |lines| - 1;
      LossesAreReckoned(cfg, lines[..n], lines'[..n], dels, i);
      LossIsReckoned(cfg, lines[n], dels, i);
    }
  }

  lemma {:induction false} KillingShrinks(dels: seq<Delivery>, dels': seq<Delivery>, i: nat)
    requires |dels'| == |dels| && forall t :: 0 <= t < |dels| ==> dels'[t] == KillDelivery(dels[t], i)
    ensures PcsWeight(dels') <= PcsWeight(dels)
  {
    if dels != [] { KillingShrinks(dels[..|dels| - 1], dels'[..|dels| - 1], i); }
  }

  lemma ClosePays(cfg: Config, s: State, i: nat)
    requires i < |s.insts| && s.insts[i].open
    ensures Credit(cfg, CloseChannel(s, i)) < Credit(cfg, s)
  {
    LossesAreReckoned(cfg, s.lines, CloseChannel(s, i).lines, s.dels, i);
    InstsWeightFalls(s.insts, i, s.insts[i].(open := false));
    hide LoseDelivery, LinesWeight, PcsWeight, InstsWeight, Requeues;
  }

  lemma CrashPays(cfg: Config, s: State, i: nat)
    requires i < |s.insts| && s.insts[i].alive
    ensures Credit(cfg, CrashProcess(s, i)) < Credit(cfg, s)
  {
    var s' := CrashProcess(s, i);
    LossesAreReckoned(cfg, s.lines, s'.lines, s.dels, i);
    InstsWeightFalls(s.insts, i, s.insts[i].(open := false, alive := false));
    assert s'.insts == s.insts[i := s.insts[i].(open := false, alive := false)];
    KillingShrinks(s.dels, s'.dels, i);
    hide LoseDelivery, KillDelivery, LinesWeight, PcsWeight, InstsWeight, Requeues;
  }

  lemma {:induction false} OneMoreRequeue(lines: seq<Line>, l: nat, L: Line)
    requires l < |lines| && L.requeues == lines[l].requeues + 1
    ensures Requeues(lines[l := L]) == Requeues(lines) + 1
  {
    var n := |lines| - 1;
    if l == n {
      assert lines[l := L][..n] == lines[..n];
    } else {
      OneMoreRequeue(lines[..n], l, L);
      assert lines[l := L][..n] == lines[..n][l := L];
    }
  }

  lemma RequeuePays(cfg: Config, s: State, t: nat)
    requires t < |s.dels| && s.dels[t].pc.Requeueing? && s.dels[t].line < |s.lines| && LineOf(s, t).place == Unacked(t)
    ensures Credit(cfg, SettleDelivery(s, t, true)) < Credit(cfg, s)
  {
    var l := s.dels[t].line;
    SettlesTo(s, t);
    var s' := SettleDelivery(s, t, true);
    PcsWeightStep(s.dels, s'.dels, t);
    LinesWeightUpdate(cfg, s.lines, l, Requeued(s.lines[l]));
    OneMoreRequeue(s.lines, l, Requeued(s.lines[l]));
    assert s'.lines == s.lines[l := Requeued(s.lines[l])];
    hide SettleDelivery, LinesWeight, PcsWeight, InstsWeight, Requeues, Left, Pow;
  }

  lemma BenignKeepsRequeues(cfg: Config, s: State, a: Action)
    requires Enabled(cfg, s, a) && Benign(s, a)
    ensures Requeues(Apply(cfg, s, a).lines) == Requeues(s.lines) && Apply(cfg, s, a).insts == s.insts
  {
    hide Requeues, Go, Fail, StartHandler, CheckRow, SendMail, InsertSent, Answered, DecideRetry, RecordFailed,
      ParkCopy, Bump, CloseChannel, CrashProcess, FreshAll, Without1;
    var s' := Apply(cfg, s, a);
    if InCall(a) { CallStepStays(cfg, s, a); }
    match a
    case Settle(t, success) =>
      hide Stays;
      SameRequeues(s.lines, s'.lines);
    case Expire(l) =>
      var L := s.lines[l];
      var others := Without1(cfg.routes[L.queue], L.queue);
      NewLinesRequeues(s.lines[l := Returned(L)], Copies(L, others));
      SameRequeues(s.lines, s.lines[l := Returned(L)]);
    case _ => SameRequeues(s.lines, s'.lines);
  }

  lemma StepPays(cfg: Config, s: State, a: Action)
    requires ValidConfig(cfg) && Inv(cfg, s) && Enabled(cfg, s, a) && !a.Publish? && !a.Connect?
    ensures Credit(cfg, Apply(cfg, s, a)) < Credit(cfg, s)
  {
    hide Inv, Measure, InstsWeight, Requeues, Stays, SettleDelivery, CloseChannel, CrashProcess, StartHandler,
      CheckRow, SendMail, InsertSent, Answered, DecideRetry, RecordFailed, ParkCopy, Delivered, ExpireRetry;
    if a.Close? {
      hide Credit;
      ClosePays(cfg, s, a.inst);
    } else if a.Crash? {
      hide Credit;
      CrashPays(cfg, s, a.inst);
    } else if a.Settle? && a.success && s.dels[a.tag].pc.Requeueing? {
      hide Credit;
      RequeuePays(cfg, s, a.tag);
    } else {
      BenignStepShrinks(cfg, s, a);
      BenignKeepsRequeues(cfg, s, a);
    }
  }

  lemma {:induction false} RunPays(cfg: Config, s: State, run: seq<Action>)
    requires ValidConfig(cfg) && Good(cfg, s) && Legal(cfg, s, run)
    requires forall a :: a in run ==> !a.Publish? && !a.Connect?
    ensures |run| <= Credit(cfg, s) - Credit(cfg, After(cfg, s, run))
    decreases |run|
  {
    if run != [] {
      GoodIsInv(cfg, s);
      hide Credit, Good, Inv, Apply, Enabled;
      assert run[0] in run;
      StepKeepsGood(cfg, s, run[0]);
      StepPays(cfg, s, run[0]);
      RunPays(cfg, Apply(cfg, s, run[0]), run[1..]);
    }
  }

  /** Retrying for ever takes requeueing for ever: without new messages and consumers, whatever crashes, closed
      channels and faults a run holds, it is no longer than the work of its first state, and ten steps for each
      requeue. */
  lemma RequeuesBoundTheRun(cfg: Config, s: State, run: seq<Action>)
    requires ValidConfig(cfg) && Good(cfg, s) && Legal(cfg, s, run)
    requires forall a :: a in run ==> !a.Publish? && !a.Connect?
    ensures var s' := After(cfg, s, run);
            |run| <= Measure(cfg, s) + InstsWeight(s.insts) + 10 * (Requeues(s'.lines) - Requeues(s.lines))
  {
    RunPays(cfg, s, run);
    LinesWeightNonNegative(cfg, After(cfg, s, run).lines);
    PcsWeightNonNegative(After(cfg, s, run).dels);
  }
}
