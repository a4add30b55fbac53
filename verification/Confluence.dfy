/** Exactly when the order of iteration matters: dry runs of a cascade can disagree if and only if
    one of its passes comes to a race. */
module Confluence {
  import opened FlowModel
  import opened StageStrategy
  import opened Replay
  import opened Structure
  import opened Recovery
  import opened Cascades
  import opened Ambiguity

  /** A cascade from `p` can end with `j`, nothing left to do. */
  ghost predicate Dry(p: seq<Event>, triggered: set<StageId>, forced: Forced, j: seq<Event>) {
    Reached(p, triggered, forced, j) && Exhausted(p, triggered, j)
  }

  /** No pass comes to a race. */
  ghost predicate RaceFree(p: seq<Event>, triggered: set<StageId>, forced: Forced) {
    forall m, a, ra, b, rb, o :: Reached(p, triggered, forced, m) ==> !Race(m, triggered, a, ra, b, rb, o)
  }

  /** Two graphs that differ at most in the data of results. */
  ghost predicate Alike(g: Graph, h: Graph) {
    && SameFrame(g, h) && h.state == g.state && h.terminationRoot == g.terminationRoot
    && forall x: StageId, ok: bool :: Flag(g, x, ok) <==> Flag(h, x, ok)
  }

  lemma AlikeRefl(g: Graph)
    ensures Alike(g, g)
  {
  }

  lemma AlikeSym(g: Graph, h: Graph)
    requires Alike(g, h)
    ensures Alike(h, g)
  {
  }

  lemma AlikeTransitive(a: Graph, b: Graph, c: Graph)
    requires Alike(a, b) && Alike(b, c)
    ensures Alike(a, c)
  {
    hide Flag;
  }

  lemma AlikePending(g: Graph, h: Graph, x: StageId)
    requires Alike(g, h)
    ensures Pending(g, x) <==> Pending(h, x)
    ensures Resolved(g, x) <==> Resolved(h, x)
  {
    if Resolved(g, x) { assert Flag(g, x, g.stages[x].result.value.successful); }
    if Resolved(h, x) { assert Flag(h, x, h.stages[x].result.value.successful); }
  }

  lemma AlikeChains(g: Graph, h: Graph, x: StageId, y: StageId)
    requires Alike(g, h) && OnChain(g, x, y)
    ensures OnChain(h, x, y)
  {
    var path :| ChainPath(g, x, y, path);
    forall i | 0 <= i < |path| ensures Pending(h, path[i]) { AlikePending(g, h, path[i]); }
    forall i | 0 <= i < |path| - 1 ensures ComposedInto(h, path[i], path[i + 1]) { assert ComposedInto(g, path[i], path[i + 1]); }
    assert ChainPath(h, x, y, path);
  }

  lemma AlikeDominates(g: Graph, h: Graph)
    requires Alike(g, h)
    ensures Dominates(h, g)
  {
    forall x: StageId | Resolved(g, x) ensures Flag(h, x, g.stages[x].result.value.successful) {
      assert Flag(g, x, g.stages[x].result.value.successful);
    }
  }

  lemma AlikeSameOutcome(g: Graph, h: Graph)
    requires Alike(g, h) && LifecycleOk(g) && LifecycleOk(h)
    ensures SameOutcome(g, h)
  {
    AlikeDominates(g, h);
    AlikeSym(g, h);
    AlikeDominates(h, g);
    MutualDominance(g, h);
  }

  // ----- Completions that do not race can be swapped -----

  /** The same completion takes like graphs to like graphs. */
  lemma SettledAlike(g: Graph, h: Graph, x: StageId, ok: bool, g': Graph, h': Graph)
    requires Alike(g, h) && Settled(g, x, ok, g') && Settled(h, x, ok, h')
    ensures Alike(g', h')
  {
    hide OnChain, Flag;
    AlikeSym(g, h);
    forall y: StageId, b: bool ensures Flag(g', y, b) <==> Flag(h', y, b) {
      if OnChain(g, x, y) { AlikeChains(g, h, x, y); }
      if OnChain(h, x, y) { AlikeChains(h, g, x, y); }
    }
  }

  lemma SettledPending(g: Graph, x: StageId, ok: bool, g': Graph, y: StageId)
    requires Settled(g, x, ok, g') && Pending(g, y)
    ensures Pending(g', y) <==> !OnChain(g, x, y)
  {
    hide OnChain;
    if OnChain(g, x, y) { assert Flag(g', y, ok); }
    if Resolved(g', y) { assert Flag(g', y, g'.stages[y].result.value.successful); }
  }

  lemma SettledWasPending(g: Graph, x: StageId, ok: bool, g': Graph, y: StageId)
    requires Settled(g, x, ok, g') && Pending(g', y)
    ensures Pending(g, y)
  {
    hide OnChain;
    if Resolved(g, y) { assert Flag(g', y, g.stages[y].result.value.successful); }
  }

  /** Completing `a` leaves of the chain of `b` what the chain of `a` does not reach. */
  lemma ChainAfter(g: Graph, a: StageId, ok: bool, g': Graph, b: StageId, y: StageId)
    requires Settled(g, a, ok, g')
    ensures OnChain(g', b, y) ==> OnChain(g, b, y)
    ensures OnChain(g, b, y) ==> OnChain(g, a, y) || OnChain(g', b, y)
  {
    hide Settled;
    assert SameFrame(g, g') by { SettledFrame(g, a, ok, g'); }
    if OnChain(g', b, y) {
      var path :| ChainPath(g', b, y, path);
      forall i | 0 <= i < |path| ensures Pending(g, path[i]) { SettledWasPending(g, a, ok, g', path[i]); }
      forall i | 0 <= i < |path| - 1 ensures ComposedInto(g, path[i], path[i + 1]) { assert ComposedInto(g', path[i], path[i + 1]); }
      assert ChainPath(g, b, y, path);
    }
    if OnChain(g, b, y) {
      var path :| ChainPath(g, b, y, path);
      if k :| 0 <= k < |path| && OnChain(g, a, path[k]) {
        SuffixOfPath(g, b, y, path, k);
        ChainsJoin(g, a, path[k], y);
      } else {
        forall i | 0 <= i < |path| ensures Pending(g', path[i]) { SettledPending(g, a, ok, g', path[i]); }
        forall i | 0 <= i < |path| - 1 ensures ComposedInto(g', path[i], path[i + 1]) { assert ComposedInto(g, path[i], path[i + 1]); }
        assert ChainPath(g', b, y, path);
      }
    }
  }

  lemma SettledFrame(g: Graph, a: StageId, ok: bool, g': Graph)
    requires Settled(g, a, ok, g')
    ensures SameFrame(g, g')
  {
  }

  lemma SuffixOfPath(g: Graph, x: StageId, y: StageId, path: seq<StageId>, k: nat)
    requires ChainPath(g, x, y, path) && k < |path|
    ensures OnChain(g, path[k], y)
  {
    var rest := path[k..];
    forall i | 0 <= i < |rest| - 1 ensures ComposedInto(g, rest[i], rest[i + 1]) { assert ComposedInto(g, path[k + i], path[k + i + 1]); }
    assert ChainPath(g, path[k], y, rest);
  }

  /** Either order of two completions gives like graphs, unless they race. */
  lemma CompletionsCommute(g: Graph, a: StageId, oka: bool, b: StageId, okb: bool, ga: Graph, gab: Graph, gb: Graph, gba: Graph)
    requires Settled(g, a, oka, ga) && Settled(ga, b, okb, gab) && Settled(g, b, okb, gb) && Settled(gb, a, oka, gba)
    requires oka == okb || forall y: StageId :: !(OnChain(g, a, y) && OnChain(g, b, y))
    ensures Alike(gab, gba)
  {
    hide OnChain, Flag;
    forall y: StageId, ok: bool ensures Flag(gab, y, ok) <==> Flag(gba, y, ok) {
      ChainAfter(g, a, oka, ga, b, y);
      ChainAfter(g, b, okb, gb, a, y);
    }
  }

  // ----- The steps of a cascade -----

  /** Applying `e` changes nothing. */
  predicate Quiet(m: seq<Event>, e: Event) { ReplayAll(m + [e]) == ReplayAll(m) }

  predicate IsLifecycle(e: Event) { e.GraphTerminating? || e.GraphCompleted? }

  /** A step that changes something completes a stage that fires or moves the lifecycle on. */
  lemma StepKinds(p: seq<Event>, triggered: set<StageId>, forced: Forced, m: seq<Event>, e: Event)
    requires Reached(p, triggered, forced, m + [e]) && p <= m
    ensures Reached(p, triggered, forced, m)
    ensures Quiet(m, e) || (e.StageCompleted? && Fires(m, triggered, e.stage, e.result)) || (IsLifecycle(e) && Admissible(m, e))
  {
    hide Shape, Settle, CompletedByTrigger, Admissible, Justified, Cascade;
    InitLast(m, e);
    CascadeInit(p, triggered, m + [e]);
    Append(m, e, forced);
    ReplayWellFormed(m, forced);
    if e.StageCompleted? && !Pending(ReplayAll(m), e.stage) { CompleteFacts(ReplayAll(m), e.stage, e.result); }
  }

  lemma FiresInForm(p: seq<Event>, triggered: set<StageId>, forced: Forced, m: seq<Event>, x: StageId) returns (r: Result)
    requires Reached(p, triggered, forced, m) && Pending(ReplayAll(m), x) && x !in triggered
    requires IsReady(ReplayAll(m), x) && CompletesAtOnce(ExecOf(ReplayAll(m), x))
    ensures Fires(m, triggered, x, r) && r.successful == Trigger(ReplayAll(m), x).status
  {
    hide KeysOk, ChainOk, RefsOk, LifecycleOk, ComposeClosed, Good, Cascade, ReplayAll;
    var g := ReplayAll(m);
    ReplayWellFormed(m, forced);
    StageOf(g, x);
    SingleInput(g.stages[x].operation, g.stages[x].strategy, DependencyResults(g, g.stages[x].dependencies));
    ImmediateFollowsStatus(g.stages[x].operation, g.stages[x].strategy, DependencyResults(g, g.stages[x].dependencies));
    r := Immediate(ExecOf(g, x), Trigger(g, x).inputs);
  }

  lemma FiresStatus(p: seq<Event>, triggered: set<StageId>, forced: Forced, m: seq<Event>, x: StageId, r: Result)
    requires Reached(p, triggered, forced, m) && Fires(m, triggered, x, r)
    ensures r.successful == Trigger(ReplayAll(m), x).status
  {
    var r' := FiresInForm(p, triggered, forced, m, x);
  }

  /** Who fires in one graph fires in every like one, with the same success. */
  lemma FiresAlike(p: seq<Event>, triggered: set<StageId>, forced: Forced, m1: seq<Event>, m2: seq<Event>, x: StageId, r1: Result)
    returns (r2: Result)
    requires Reached(p, triggered, forced, m1) && Reached(p, triggered, forced, m2) && Alike(ReplayAll(m1), ReplayAll(m2))
    requires Fires(m1, triggered, x, r1)
    ensures Fires(m2, triggered, x, r2) && r2.successful == r1.successful
  {
    hide KeysOk, StagesOk, ChainOk, RefsOk, ComposeClosed, Good, Cascade, ReplayAll, Dominates, Immediate, Trigger, Alike;
    var g, h := ReplayAll(m1), ReplayAll(m2);
    ReplayWellFormed(m1, forced);
    ReplayWellFormed(m2, forced);
    AlikeDominates(g, h);
    AlikePending(g, h, x);
    assert SameSkeleton(g, h) by { AlikeFrame(g, h); }
    ReadyInBoth(h, g, x);
    FiresStatus(p, triggered, forced, m1, x, r1);
    r2 := FiresInForm(p, triggered, forced, m2, x);
  }

  lemma AlikeFrame(g: Graph, h: Graph)
    requires Alike(g, h)
    ensures SameFrame(g, h)
  {
  }

  /** Completing another stage does not keep `b` from firing: nobody who fires is composed. */
  lemma FiresAfter(p: seq<Event>, triggered: set<StageId>, forced: Forced, m: seq<Event>, a: StageId, ra: Result, b: StageId, rb: Result)
    returns (r: Result)
    requires Reached(p, triggered, forced, m) && Fires(m, triggered, a, ra) && Fires(m, triggered, b, rb) && a != b
    ensures Fires(m + [StageCompleted(a, ra)], triggered, b, r) && r.successful == rb.successful
  {
    hide KeysOk, ChainOk, RefsOk, LifecycleOk, ComposeClosed, Good, Cascade, ReplayAll, Immediate, Trigger, Settled, OnChain;
    var m' := m + [StageCompleted(a, ra)];
    var g, g' := ReplayAll(m), ReplayAll(m');
    FireNext(p, triggered, forced, m, a, ra);
    ReplayWellFormed(m, forced);
    if OnChain(g, a, b) {
      ChainEndsComposed(g, a, b);
      var i :| ComposedInto(g, i, b);
      OuterWouldRun(m, forced, i, b);
    }
    SettledPending(g, a, ra.successful, g', b);
    FiresStatus(p, triggered, forced, m, b, rb);
    StageOf(g, b);
    ReplayExtends(m', |m|, forced);
    assert m'[..|m|] == m;
    ReadyStays(g, g', b);
    r := FiresInForm(p, triggered, forced, m', b);
  }

  /** Two stages that can both complete next can do so in either order, to the same effect. */
  lemma Diamond(p: seq<Event>, triggered: set<StageId>, forced: Forced, m: seq<Event>, a: StageId, ra: Result, b: StageId, rb: Result)
    returns (ma: seq<Event>, mb: seq<Event>)
    requires Reached(p, triggered, forced, m) && RaceFree(p, triggered, forced)
    requires Fires(m, triggered, a, ra) && Fires(m, triggered, b, rb) && a != b
    ensures m + [StageCompleted(a, ra)] <= ma && Reached(p, triggered, forced, ma)
    ensures m + [StageCompleted(b, rb)] <= mb && Reached(p, triggered, forced, mb)
    ensures Alike(ReplayAll(ma), ReplayAll(mb))
  {
    hide Reached, Fires, ReplayAll, Settled, OnChain, Alike;
    var m1, m2 := m + [StageCompleted(a, ra)], m + [StageCompleted(b, rb)];
    FireNext(p, triggered, forced, m, a, ra);
    FireNext(p, triggered, forced, m, b, rb);
    var rb' := FiresAfter(p, triggered, forced, m, a, ra, b, rb);
    var ra' := FiresAfter(p, triggered, forced, m, b, rb, a, ra);
    FireNext(p, triggered, forced, m1, b, rb');
    FireNext(p, triggered, forced, m2, a, ra');
    ma, mb := m1 + [StageCompleted(b, rb')], m2 + [StageCompleted(a, ra')];
    var g := ReplayAll(m);
    if ra.successful != rb.successful {
      forall y: StageId ensures !(OnChain(g, a, y) && OnChain(g, b, y)) { assert !Race(m, triggered, a, ra, b, rb, y); }
    }
    CompletionsCommute(g, a, ra.successful, b, rb.successful, ReplayAll(m1), ReplayAll(ma), ReplayAll(m2), ReplayAll(mb));
  }

  // ----- Lifecycle steps compete with nothing -----

  /** A lifecycle step that is due. */
  lemma LifecycleNext(p: seq<Event>, triggered: set<StageId>, forced: Forced, m: seq<Event>, e: Event)
    requires Reached(p, triggered, forced, m) && IsLifecycle(e) && Admissible(m, e)
    ensures Reached(p, triggered, forced, m + [e])
  {
    hide Cascade;
    Append(m, e, forced);
    CascadeExtends(p, triggered, m);
    CascadeSnoc(p, triggered, m, e);
  }

  /** While a lifecycle step is due nobody fires: only hooks can be pending, and they run. */
  lemma LifecycleAlone(p: seq<Event>, triggered: set<StageId>, forced: Forced, m: seq<Event>, e: Event, x: StageId, r: Result)
    requires Reached(p, triggered, forced, m) && IsLifecycle(e) && Admissible(m, e)
    ensures !Fires(m, triggered, x, r)
  {
    hide KeysOk, ChainOk, RefsOk, ComposeClosed, Good, Cascade, ReplayAll, Trigger, Immediate;
    ReplayWellFormed(m, forced);
    if Pending(ReplayAll(m), x) {
      StageOf(ReplayAll(m), x);
      OtherPhase(ReplayAll(m), MainPhase, x);
    }
  }

  lemma OtherPhase(g: Graph, phase: Phase, x: StageId)
    requires PendingIn(g, phase) == {} && Pending(g, x)
    ensures g.stages[x].phase != phase
  {
    assert x !in PendingIn(g, phase);
  }

  lemma AlikePendingIn(g: Graph, h: Graph, phase: Phase)
    requires Alike(g, h)
    ensures PendingIn(g, phase) == PendingIn(h, phase)
  {
    forall x: StageId ensures x in PendingIn(g, phase) <==> x in PendingIn(h, phase) { AlikePending(g, h, x); }
  }

  /** What is due in one graph is due in every like one, and has the same effect. */
  lemma LifecycleAlike(m1: seq<Event>, m2: seq<Event>, e: Event)
    requires Alike(ReplayAll(m1), ReplayAll(m2)) && IsLifecycle(e) && Admissible(m1, e) && m2 != []
    ensures Admissible(m2, e) && Alike(ReplayAll(m1 + [e]), ReplayAll(m2 + [e]))
  {
    var g, h := ReplayAll(m1), ReplayAll(m2);
    InitLast(m1, e);
    InitLast(m2, e);
    AlikePendingIn(g, h, MainPhase);
    AlikePendingIn(g, h, TerminationPhase);
    forall x: StageId, ok: bool ensures Flag(Apply(g, e), x, ok) <==> Flag(Apply(h, e), x, ok) {
      assert Flag(g, x, ok) <==> Flag(h, x, ok);
    }
  }

  // ----- Every cascade can be run dry -----

  /** Pending stages and lifecycle states still ahead. */
  function Left(g: Graph): nat { |PendingSet(g)| + (3 - Rank(g.state)) }

  lemma LeftShrinks(g: Graph, g': Graph)
    requires SameFrame(g, g') && Extends(g, g')
    ensures Left(g') <= Left(g)
    ensures (exists x :: Pending(g, x) && Resolved(g', x)) ==> Left(g') < Left(g)
    ensures Rank(g.state) < Rank(g'.state) ==> Left(g') < Left(g)
  {
    forall x | x in PendingSet(g') ensures x in PendingSet(g) { PendingAtStart(g, g', x); }
    FewerPending(PendingSet(g'), PendingSet(g));
    if x :| Pending(g, x) && Resolved(g', x) { FewerPending(PendingSet(g'), PendingSet(g) - {x}); }
  }

  lemma FewerPending(a: set<StageId>, b: set<StageId>)
    requires a <= b
    ensures |a| <= |b|
  {
    assert b == a + (b - a);
  }

  lemma ReachedShrinks(p: seq<Event>, triggered: set<StageId>, forced: Forced, m: seq<Event>, m': seq<Event>)
    requires p <= m <= m' && Reached(p, triggered, forced, m')
    ensures Reached(p, triggered, forced, m) && Left(ReplayAll(m')) <= Left(ReplayAll(m))
    ensures SameFrame(ReplayAll(m), ReplayAll(m')) && Extends(ReplayAll(m), ReplayAll(m'))
  {
    hide Good, ReplayAll, SameFrame, Extends, Left, Synchronous;
    assert m'[..|m|] == m;
    GoodPrefix(m', |m|, forced);
    if |m| < |m'| { CascadeAt(p, triggered, m', |m|); } else { assert m == m'; }
    CascadeRest(p, triggered, m, m');
    CascadeKeepsFrame(m, triggered, m', forced);
    LeftShrinks(ReplayAll(m), ReplayAll(m'));
  }

  lemma CascadeRest(p: seq<Event>, triggered: set<StageId>, m: seq<Event>, m': seq<Event>)
    requires p <= m <= m' && Cascade(p, triggered, m')
    ensures Cascade(m, triggered, m')
  {
    hide Synchronous;
  }

  /** A step that changes something leaves less to do. */
  lemma LeftDrops(p: seq<Event>, triggered: set<StageId>, forced: Forced, m: seq<Event>, e: Event)
    requires p <= m && Reached(p, triggered, forced, m + [e]) && !Quiet(m, e)
    ensures Left(ReplayAll(m + [e])) < Left(ReplayAll(m))
  {
    hide Reached, ReplayAll, Left, SameFrame, Extends, Trigger, CompletedByTrigger, Settle;
    StepKinds(p, triggered, forced, m, e);
    ReachedShrinks(p, triggered, forced, m, m + [e]);
    LeftShrinks(ReplayAll(m), ReplayAll(m + [e]));
    Append(m, e, forced);
    if e.StageCompleted? {
      ChainOfOne(ReplayAll(m), e.stage);
      FireNext(p, triggered, forced, m, e.stage, e.result);
      assert Flag(ReplayAll(m + [e]), e.stage, e.result.successful);
    }
  }

  /** Stages that wait to be invoked. */
  function Unstarted(p: seq<Event>, triggered: set<StageId>, m: seq<Event>): set<StageId>
    requires p <= m
  {
    set x | x in ReplayAll(m).stages && Pending(ReplayAll(m), x) && IsReady(ReplayAll(m), x) && x !in triggered
            && Invokes(ExecOf(ReplayAll(m), x)) && InvocationStarted(x) !in m[|p|..]
  }

  /** Nobody fires and no lifecycle step is due. */
  ghost predicate Stuck(m: seq<Event>, triggered: set<StageId>) {
    && (forall x: StageId :: Pending(ReplayAll(m), x) && IsReady(ReplayAll(m), x) && x !in triggered ==> !CompletesAtOnce(ExecOf(ReplayAll(m), x)))
    && (forall e :: IsLifecycle(e) ==> !Admissible(m, e))
  }

  lemma StartNext(p: seq<Event>, triggered: set<StageId>, forced: Forced, m: seq<Event>, x: StageId)
    requires Reached(p, triggered, forced, m) && x in Unstarted(p, triggered, m)
    ensures Reached(p, triggered, forced, m + [InvocationStarted(x)]) && ReplayAll(m + [InvocationStarted(x)]) == ReplayAll(m)
  {
    hide Cascade, Trigger;
    CascadeExtends(p, triggered, m);
    Append(m, InvocationStarted(x), forced);
    CascadeSnoc(p, triggered, m, InvocationStarted(x));
  }

  lemma FewerUnstarted(p: seq<Event>, triggered: set<StageId>, m: seq<Event>, x: StageId)
    requires p <= m && x in Unstarted(p, triggered, m) && ReplayAll(m + [InvocationStarted(x)]) == ReplayAll(m)
    ensures |Unstarted(p, triggered, m + [InvocationStarted(x)])| < |Unstarted(p, triggered, m)|
  {
    hide ReplayAll, IsReady, ExecOf;
    var m' := m + [InvocationStarted(x)];
    assert m'[|p|..] == m[|p|..] + [InvocationStarted(x)];
    FewerPending(Unstarted(p, triggered, m'), Unstarted(p, triggered, m) - {x});
  }

  /** With nobody left to complete, invoking those who wait to be ends the cascade. */
  lemma {:induction false} StartAll(p: seq<Event>, triggered: set<StageId>, forced: Forced, m: seq<Event>) returns (j: seq<Event>)
    requires Reached(p, triggered, forced, m) && p <= m && Stuck(m, triggered)
    ensures m <= j && Dry(p, triggered, forced, j)
    decreases |Unstarted(p, triggered, m)|
  {
    hide Good, ReplayAll, IsReady, ExecOf, Cascade, PendingIn;
    if x :| x in Unstarted(p, triggered, m) {
      StartNext(p, triggered, forced, m, x);
      FewerUnstarted(p, triggered, m, x);
      assert Stuck(m + [InvocationStarted(x)], triggered) by { StuckStays(m, triggered, m + [InvocationStarted(x)]); }
      j := StartAll(p, triggered, forced, m + [InvocationStarted(x)]);
    } else {
      j := m;
      forall x: StageId | Pending(ReplayAll(m), x) && IsReady(ReplayAll(m), x) && x !in triggered && Invokes(ExecOf(ReplayAll(m), x))
        ensures InvocationStarted(x) in m[|p|..]
      {
        assert x !in Unstarted(p, triggered, m);
      }
      NoStepDue(m, triggered);
    }
  }

  lemma StuckStays(m: seq<Event>, triggered: set<StageId>, m': seq<Event>)
    requires Stuck(m, triggered) && ReplayAll(m') == ReplayAll(m) && m != [] && m' != []
    ensures Stuck(m', triggered)
  {
    hide IsReady, ExecOf, PendingIn;
    forall e | IsLifecycle(e) ensures !Admissible(m', e) { assert !Admissible(m, e); }
  }

  lemma NoStepDue(m: seq<Event>, triggered: set<StageId>)
    requires Stuck(m, triggered) && m != []
    ensures ReplayAll(m).state.Committed? ==> PendingIn(ReplayAll(m), MainPhase) != {}
    ensures ReplayAll(m).state.Terminating? ==> PendingIn(ReplayAll(m), TerminationPhase) != {}
  {
    hide ReplayAll, IsReady, ExecOf, PendingIn;
    assert IsLifecycle(GraphTerminating(StatusSucceeded)) && IsLifecycle(GraphCompleted);
    assert !Admissible(m, GraphTerminating(StatusSucceeded)) && !Admissible(m, GraphCompleted);
  }

  /** Wherever a cascade has come, it can be run dry. */
  lemma {:induction false} RunDry(p: seq<Event>, triggered: set<StageId>, forced: Forced, m: seq<Event>) returns (j: seq<Event>)
    requires Reached(p, triggered, forced, m) && p <= m
    ensures m <= j && Dry(p, triggered, forced, j)
    decreases Left(ReplayAll(m))
  {
    hide Reached, Dry, ReplayAll, IsReady, ExecOf, Left, Admissible, Fires;
    if Stuck(m, triggered) {
      j := StartAll(p, triggered, forced, m);
    } else {
      var e := SomeStep(p, triggered, forced, m);
      LeftDrops(p, triggered, forced, m, e);
      j := RunDry(p, triggered, forced, m + [e]);
    }
  }

  lemma SomeStep(p: seq<Event>, triggered: set<StageId>, forced: Forced, m: seq<Event>) returns (e: Event)
    requires Reached(p, triggered, forced, m) && !Stuck(m, triggered)
    ensures Reached(p, triggered, forced, m + [e]) && !Quiet(m, e)
  {
    hide Reached, ReplayAll, IsReady, ExecOf, Fires, Settled, PendingIn;
    if e' :| IsLifecycle(e') && Admissible(m, e') {
      e := e';
      LifecycleNext(p, triggered, forced, m, e);
      Append(m, e, forced);
    } else {
      var x :| Pending(ReplayAll(m), x) && IsReady(ReplayAll(m), x) && x !in triggered && CompletesAtOnce(ExecOf(ReplayAll(m), x));
      var r := FiresInForm(p, triggered, forced, m, x);
      e := StageCompleted(x, r);
      FireNext(p, triggered, forced, m, x, r);
      ChainOfOne(ReplayAll(m), x);
      SettledPending(ReplayAll(m), x, r.successful, ReplayAll(m + [e]), x);
    }
  }

  // ----- Without races all dry runs agree -----

  /** Skips the steps of `j` after `m` that change nothing. */
  lemma {:induction false} SkipQuiet(p: seq<Event>, triggered: set<StageId>, forced: Forced, m: seq<Event>, j: seq<Event>) returns (n: seq<Event>)
    requires p <= m <= j && Reached(p, triggered, forced, j)
    ensures m <= n <= j && Reached(p, triggered, forced, n) && ReplayAll(n) == ReplayAll(m)
    ensures n == j || (n + [j[|n|]] <= j && Reached(p, triggered, forced, n + [j[|n|]]) && !Quiet(n, j[|n|]))
    decreases |j| - |m|
  {
    hide Reached, ReplayAll, Left, SameFrame, Extends;
    ReachedShrinks(p, triggered, forced, m, j);
    n := m;
    if m != j {
      var m' := m + [j[|m|]];
      ReachedShrinks(p, triggered, forced, m', j);
      if Quiet(m, j[|m|]) { n := SkipQuiet(p, triggered, forced, m', j); }
    }
  }

  /** If nothing can change one of two like graphs, nothing can change the other. */
  lemma NoStepAlike(p: seq<Event>, triggered: set<StageId>, forced: Forced, j: seq<Event>, m: seq<Event>, e: Event)
    requires Dry(p, triggered, forced, j) && Reached(p, triggered, forced, m + [e]) && p <= m && Alike(ReplayAll(j), ReplayAll(m))
    ensures Quiet(m, e)
  {
    hide Reached, ReplayAll, IsReady, ExecOf, Alike, Good, Cascade, Quiet;
    StepKinds(p, triggered, forced, m, e);
    AlikeSym(ReplayAll(j), ReplayAll(m));
    ReachedNonEmpty(p, triggered, forced, j);
    ReachedNonEmpty(p, triggered, forced, m);
    if IsLifecycle(e) && Admissible(m, e) {
      LifecycleAlike(m, j, e);
    } else if e.StageCompleted? && Fires(m, triggered, e.stage, e.result) {
      var r := FiresAlike(p, triggered, forced, m, j, e.stage, e.result);
    }
  }

  lemma ReachedNonEmpty(p: seq<Event>, triggered: set<StageId>, forced: Forced, m: seq<Event>)
    requires Reached(p, triggered, forced, m)
    ensures m != [] && p <= m
  {
  }

  /** The next changes of two like graphs that are the same lifecycle step or complete the same stage. */
  lemma SameStep(p: seq<Event>, triggered: set<StageId>, forced: Forced, m1: seq<Event>, e1: Event, m2: seq<Event>, e2: Event)
    requires p <= m1 && Reached(p, triggered, forced, m1 + [e1]) && !Quiet(m1, e1)
    requires p <= m2 && Reached(p, triggered, forced, m2 + [e2]) && !Quiet(m2, e2)
    requires Alike(ReplayAll(m1), ReplayAll(m2))
    ensures IsLifecycle(e1) || IsLifecycle(e2) ==> e1 == e2
    ensures e1 == e2 && IsLifecycle(e1) ==> Alike(ReplayAll(m1 + [e1]), ReplayAll(m2 + [e2]))
    ensures !IsLifecycle(e1) && !IsLifecycle(e2) ==>
              && e1.StageCompleted? && Fires(m1, triggered, e1.stage, e1.result)
              && e2.StageCompleted? && Fires(m2, triggered, e2.stage, e2.result)
  {
    hide Reached, ReplayAll, Alike, Quiet, Fires;
    StepKinds(p, triggered, forced, m1, e1);
    StepKinds(p, triggered, forced, m2, e2);
    ReachedNonEmpty(p, triggered, forced, m1);
    ReachedNonEmpty(p, triggered, forced, m2);
    AlikeSym(ReplayAll(m1), ReplayAll(m2));
    if IsLifecycle(e1) {
      LifecycleAlike(m1, m2, e1);
      DueIsUnique(p, triggered, forced, m2, e1, e2);
    } else if IsLifecycle(e2) {
      LifecycleAlike(m2, m1, e2);
      DueIsUnique(p, triggered, forced, m1, e2, e1);
    }
  }

  /** Where a lifecycle step is due, it is the only change. */
  lemma DueIsUnique(p: seq<Event>, triggered: set<StageId>, forced: Forced, m: seq<Event>, e: Event, e': Event)
    requires Reached(p, triggered, forced, m) && IsLifecycle(e) && Admissible(m, e)
    requires (e'.StageCompleted? && Fires(m, triggered, e'.stage, e'.result)) || (IsLifecycle(e') && Admissible(m, e'))
    ensures e == e'
  {
    hide Reached, ReplayAll, Fires, PendingIn;
    if e'.StageCompleted? { LifecycleAlone(p, triggered, forced, m, e, e'.stage, e'.result); }
  }

  /** The same stage completed in two like graphs. */
  lemma SameFire(p: seq<Event>, triggered: set<StageId>, forced: Forced, m1: seq<Event>, r1: Result, m2: seq<Event>, r2: Result, x: StageId)
    requires Reached(p, triggered, forced, m1) && Fires(m1, triggered, x, r1)
    requires Reached(p, triggered, forced, m2) && Fires(m2, triggered, x, r2)
    requires Alike(ReplayAll(m1), ReplayAll(m2))
    ensures Alike(ReplayAll(m1 + [StageCompleted(x, r1)]), ReplayAll(m2 + [StageCompleted(x, r2)]))
  {
    hide Reached, ReplayAll, Fires, Alike, Settled;
    var r := FiresAlike(p, triggered, forced, m1, m2, x, r1);
    FiresStatus(p, triggered, forced, m2, x, r);
    FiresStatus(p, triggered, forced, m2, x, r2);
    FireNext(p, triggered, forced, m1, x, r1);
    FireNext(p, triggered, forced, m2, x, r2);
    SettledAlike(ReplayAll(m1), ReplayAll(m2), x, r1.successful,
                 ReplayAll(m1 + [StageCompleted(x, r1)]), ReplayAll(m2 + [StageCompleted(x, r2)]));
  }

  /** Dry runs that go on from like graphs end in like graphs. */
  lemma {:induction false} DryRunsAgree(
    p: seq<Event>, triggered: set<StageId>, forced: Forced, m1: seq<Event>, j1: seq<Event>, m2: seq<Event>, j2: seq<Event>)
    requires RaceFree(p, triggered, forced) && Alike(ReplayAll(m1), ReplayAll(m2))
    requires p <= m1 <= j1 && Dry(p, triggered, forced, j1)
    requires p <= m2 <= j2 && Dry(p, triggered, forced, j2)
    ensures Alike(ReplayAll(j1), ReplayAll(j2))
    decreases Left(ReplayAll(m1))
  {
    hide Reached, ReplayAll, Fires, Alike, Exhausted, Left, RaceFree, Quiet;
    var n1 := SkipQuiet(p, triggered, forced, m1, j1);
    var n2 := SkipQuiet(p, triggered, forced, m2, j2);
    AlikeSym(ReplayAll(n1), ReplayAll(n2));
    if n1 == j1 || n2 == j2 {
      if n2 != j2 { NoStepAlike(p, triggered, forced, j1, n2, j2[|n2|]); }
      if n1 != j1 { NoStepAlike(p, triggered, forced, j2, n1, j1[|n1|]); }
    } else {
      var e1, e2 := j1[|n1|], j2[|n2|];
      LeftDrops(p, triggered, forced, n1, e1);
      SameStep(p, triggered, forced, n1, e1, n2, e2);
      if IsLifecycle(e1) || IsLifecycle(e2) {
        DryRunsAgree(p, triggered, forced, n1 + [e1], j1, n2 + [e2], j2);
      } else if e1.stage == e2.stage {
        SameFire(p, triggered, forced, n1, e1.result, n2, e2.result, e1.stage);
        DryRunsAgree(p, triggered, forced, n1 + [e1], j1, n2 + [e2], j2);
      } else {
        SwappedRunsAgree(p, triggered, forced, n1, e1, j1, n2, e2, j2);
      }
    }
  }

  /** The case of two different stages: both runs agree with one that completes both. */
  lemma {:induction false} SwappedRunsAgree(
    p: seq<Event>, triggered: set<StageId>, forced: Forced, m1: seq<Event>, e1: Event, j1: seq<Event>, m2: seq<Event>, e2: Event, j2: seq<Event>)
    requires RaceFree(p, triggered, forced) && Alike(ReplayAll(m1), ReplayAll(m2))
    requires p <= m1 && m1 + [e1] <= j1 && Reached(p, triggered, forced, m1) && Dry(p, triggered, forced, j1)
    requires p <= m2 && m2 + [e2] <= j2 && Reached(p, triggered, forced, m2) && Dry(p, triggered, forced, j2)
    requires e1.StageCompleted? && Fires(m1, triggered, e1.stage, e1.result)
    requires e2.StageCompleted? && Fires(m2, triggered, e2.stage, e2.result) && e1.stage != e2.stage
    ensures Alike(ReplayAll(j1), ReplayAll(j2))
    decreases Left(ReplayAll(m1)), 0
  {
    hide Reached, ReplayAll, Fires, Alike, Exhausted, Left, RaceFree, Quiet, SameFrame, Extends, Dry;
    var a, b := e1.stage, e2.stage;
    AlikeSym(ReplayAll(m1), ReplayAll(m2));
    var r := FiresAlike(p, triggered, forced, m2, m1, b, e2.result);
    var ma, mb := Diamond(p, triggered, forced, m1, a, e1.result, b, r);
    var k := RunDry(p, triggered, forced, ma);
    var l := RunDry(p, triggered, forced, mb);
    FireDrops(p, triggered, forced, m1, a, e1.result);
    FireDrops(p, triggered, forced, m1, b, r);
    ReachedShrinks(p, triggered, forced, m1 + [e1], ma);
    SameFire(p, triggered, forced, m1, r, m2, e2.result, b);
    AlikeRefl(ReplayAll(m1 + [e1]));
    DryRunsAgree(p, triggered, forced, m1 + [e1], j1, m1 + [e1], k);
    DryRunsAgree(p, triggered, forced, ma, k, mb, l);
    DryRunsAgree(p, triggered, forced, m1 + [StageCompleted(b, r)], l, m2 + [e2], j2);
    AlikeTransitive(ReplayAll(j1), ReplayAll(k), ReplayAll(l));
    AlikeTransitive(ReplayAll(j1), ReplayAll(l), ReplayAll(j2));
  }

  lemma FireDrops(p: seq<Event>, triggered: set<StageId>, forced: Forced, m: seq<Event>, x: StageId, r: Result)
    requires p <= m && Reached(p, triggered, forced, m) && Fires(m, triggered, x, r)
    ensures Left(ReplayAll(m + [StageCompleted(x, r)])) < Left(ReplayAll(m))
  {
    hide Reached, ReplayAll, Left, Settled, OnChain, CompletedByTrigger;
    FireNext(p, triggered, forced, m, x, r);
    ChainOfOne(ReplayAll(m), x);
    SettledPending(ReplayAll(m), x, r.successful, ReplayAll(m + [StageCompleted(x, r)]), x);
    LeftDrops(p, triggered, forced, m, StageCompleted(x, r));
  }

  // ----- The exact condition -----

  /** Any two dry runs resolve the same stages with the same success and end in the same state. */
  ghost predicate OutcomeFixed(p: seq<Event>, triggered: set<StageId>, forced: Forced) {
    forall j1, j2 :: Dry(p, triggered, forced, j1) && Dry(p, triggered, forced, j2) ==> SameOutcome(ReplayAll(j1), ReplayAll(j2))
  }

  lemma RaceFreeAgrees(p: seq<Event>, triggered: set<StageId>, forced: Forced, j1: seq<Event>, j2: seq<Event>)
    requires RaceFree(p, triggered, forced) && Dry(p, triggered, forced, j1) && Dry(p, triggered, forced, j2)
    ensures SameOutcome(ReplayAll(j1), ReplayAll(j2))
  {
    hide RaceFree, ReplayAll, Alike, Exhausted, KeysOk, StagesOk, ChainOk, RefsOk, LifecycleOk, ComposeClosed, SameOutcome, Cascade, Good;
    ReachedNonEmpty(p, triggered, forced, j1);
    ReachedNonEmpty(p, triggered, forced, j2);
    AlikeRefl(ReplayAll(p));
    DryRunsAgree(p, triggered, forced, p, j1, p, j2);
    ReplayWellFormed(j1, forced);
    ReplayWellFormed(j2, forced);
    AlikeSameOutcome(ReplayAll(j1), ReplayAll(j2));
  }

  lemma RaceDisagrees(
    p: seq<Event>, triggered: set<StageId>, forced: Forced, m: seq<Event>, a: StageId, ra: Result, b: StageId, rb: Result, o: StageId)
    returns (j1: seq<Event>, j2: seq<Event>)
    requires Reached(p, triggered, forced, m) && Race(m, triggered, a, ra, b, rb, o)
    ensures Dry(p, triggered, forced, j1) && Dry(p, triggered, forced, j2) && !SameOutcome(ReplayAll(j1), ReplayAll(j2))
  {
    hide ReplayAll, Exhausted, SameOutcome, Cascade, Good, Fires, OnChain;
    ReachedNonEmpty(p, triggered, forced, m);
    FireNext(p, triggered, forced, m, a, ra);
    FireNext(p, triggered, forced, m, b, rb);
    j1 := RunDry(p, triggered, forced, m + [StageCompleted(a, ra)]);
    j2 := RunDry(p, triggered, forced, m + [StageCompleted(b, rb)]);
    AmbiguityMatters(p, triggered, forced, m, a, ra, b, rb, o, j1, j2);
  }

  /** The iteration order cannot matter if and only if no pass comes to a race. */
  lemma OutcomeFixedExactly(p: seq<Event>, triggered: set<StageId>, forced: Forced)
    ensures OutcomeFixed(p, triggered, forced) <==> RaceFree(p, triggered, forced)
  {
    hide Reached, ReplayAll, Exhausted, SameOutcome, Race;
    if RaceFree(p, triggered, forced) {
      forall j1, j2 | Dry(p, triggered, forced, j1) && Dry(p, triggered, forced, j2) ensures SameOutcome(ReplayAll(j1), ReplayAll(j2)) {
        RaceFreeAgrees(p, triggered, forced, j1, j2);
      }
    } else {
      var m, a, ra, b, rb, o :| Reached(p, triggered, forced, m) && Race(m, triggered, a, ra, b, rb, o);
      var j1, j2 := RaceDisagrees(p, triggered, forced, m, a, ra, b, rb, o);
    }
  }

  /** One inner stage for each pending outer one rules races out. */
  lemma UnambiguousIsRaceFree(p: seq<Event>, triggered: set<StageId>, forced: Forced)
    requires Unambiguous(ReplayAll(p))
    ensures RaceFree(p, triggered, forced)
  {
    hide ReplayAll, Exhausted, SameOutcome, Race, RaceFree, Good, Cascade, Unambiguous;
    forall j1, j2 | Dry(p, triggered, forced, j1) && Dry(p, triggered, forced, j2) ensures SameOutcome(ReplayAll(j1), ReplayAll(j2)) {
      OrderIndependence(p, triggered, j1, forced, j2, forced);
    }
    OutcomeFixedExactly(p, triggered, forced);
  }

  // ----- Exactly which invocations depend on the order -----

  /** After `q`, all that `j` journals after `p`, but for invocations of `x`. */
  function Rerun(p: seq<Event>, q: seq<Event>, j: seq<Event>, x: StageId): seq<Event> {
    if |j| <= |p| then q
    else if Last(j) == InvocationStarted(x) then Rerun(p, q, Init(j), x)
    else Rerun(p, q, Init(j), x) + [Last(j)]
  }

  /** What may follow `m` may follow whatever rebuilds the same graph. */
  lemma NextAfter(p: seq<Event>, triggered: set<StageId>, forced: Forced, m: seq<Event>, e: Event, m': seq<Event>)
    requires p <= m && Reached(p, triggered, forced, m + [e]) && Reached(p, triggered, forced, m') && ReplayAll(m') == ReplayAll(m) && p <= m'
    requires e.InvocationStarted? ==> e !in m'[|p|..]
    ensures Reached(p, triggered, forced, m' + [e]) && ReplayAll(m' + [e]) == ReplayAll(m + [e])
  {
    hide IsReady, ExecOf, CompletedByTrigger, Apply, PendingIn, FailedAsLost, CompletedByReply, StartsOnce;
    InitLast(m, e);
    CascadeInit(p, triggered, m + [e]);
    Append(m, e, forced);
    Append(m', e, forced);
    CascadeSnoc(p, triggered, m', e);
  }

  /** The rerun is a run with the same graph, and invokes `x` exactly if `q` does. */
  lemma {:induction false} RerunIsRun(p: seq<Event>, triggered: set<StageId>, forced: Forced, q: seq<Event>, j: seq<Event>, x: StageId)
    requires Reached(p, triggered, forced, j) && p <= j && Reached(p, triggered, forced, q) && ReplayAll(q) == ReplayAll(p)
    requires p <= q && forall e :: e in q[|p|..] ==> e == InvocationStarted(x)
    ensures var r := Rerun(p, q, j, x);
            && q <= r && Reached(p, triggered, forced, r) && ReplayAll(r) == ReplayAll(j)
            && forall y: StageId :: InvocationStarted(y) in r[|p|..] <==> InvocationStarted(y) in (if y == x then q[|p|..] else j[|p|..])
    decreases |j|
  {
    hide Reached, ReplayAll;
    if |j| == |p| {
      assert j == p && j[|p|..] == [];
    } else {
      var m, e := Init(j), Last(j);
      var r := Rerun(p, q, m, x);
      assert m + [e] == j && j[|p|..] == m[|p|..] + [e];
      assert Reached(p, triggered, forced, m) by { ReachedShrinks(p, triggered, forced, m, j); }
      RerunIsRun(p, triggered, forced, q, m, x);
      if e == InvocationStarted(x) {
        StartIsQuiet(m, x);
      } else {
        StartedOnce(p, triggered, forced, m, e);
        NextAfter(p, triggered, forced, m, e, r);
        assert (r + [e])[|p|..] == r[|p|..] + [e];
      }
    }
  }

  lemma StartIsQuiet(m: seq<Event>, x: StageId)
    ensures ReplayAll(m + [InvocationStarted(x)]) == ReplayAll(m)
  {
    InitLast(m, InvocationStarted(x));
  }

  lemma StartedOnce(p: seq<Event>, triggered: set<StageId>, forced: Forced, m: seq<Event>, e: Event)
    requires p <= m && Reached(p, triggered, forced, m + [e])
    ensures e.InvocationStarted? ==> e !in m[|p|..]
  {
    hide Synchronous, Good;
    var j := m + [e];
    if e.InvocationStarted? {
      forall k | |p| <= k < |m| ensures m[k] != e { assert j[k] == m[k] && j[|m|] == e; }
    }
  }

  lemma OuterMayStart(p: seq<Event>, triggered: set<StageId>, forced: Forced, x: StageId, i: StageId)
    requires p != [] && Good(p, forced) && Pending(ReplayAll(p), x) && x !in triggered && ComposedInto(ReplayAll(p), i, x)
    ensures x in Unstarted(p, triggered, p)
  {
    hide Good, ReplayAll, Trigger, KeysOk, ChainOk, LifecycleOk, ComposeClosed;
    OuterWouldRun(p, forced, i, x);
    ReplayWellFormed(p, forced);
    StageOf(ReplayAll(p), x);
  }

  lemma StillExhausted(p: seq<Event>, triggered: set<StageId>, j: seq<Event>, j': seq<Event>, x: StageId)
    requires p <= j && p <= j' && Exhausted(p, triggered, j) && ReplayAll(j') == ReplayAll(j) && !Pending(ReplayAll(j), x)
    requires forall y: StageId :: y != x && InvocationStarted(y) in j[|p|..] ==> InvocationStarted(y) in j'[|p|..]
    ensures Exhausted(p, triggered, j')
  {
    hide ReplayAll, IsReady, ExecOf, PendingIn;
  }

  /** A stage that is resolved from inside by one dry run is invoked by some dry runs and not by others. */
  lemma InvokedOrNot(p: seq<Event>, triggered: set<StageId>, forced: Forced, j: seq<Event>, x: StageId)
    returns (with: seq<Event>, without: seq<Event>)
    requires Dry(p, triggered, forced, j) && x !in triggered && Pending(ReplayAll(p), x) && ResolvedFromInside(p, ReplayAll(j), x)
    ensures Dry(p, triggered, forced, with) && InvocationStarted(x) in with[|p|..]
    ensures Dry(p, triggered, forced, without) && InvocationStarted(x) !in without[|p|..]
  {
    hide Good, ReplayAll, Cascade, Left, IsReady, ExecOf, SameFrame, Extends, Exhausted;
    ReachedNonEmpty(p, triggered, forced, j);
    ReachedShrinks(p, triggered, forced, p, j);
    var i :| ComposedInto(ReplayAll(p), i, x);
    OuterMayStart(p, triggered, forced, x, i);
    StartNext(p, triggered, forced, p, x);
    var q := p + [InvocationStarted(x)];
    assert q[|p|..] == [InvocationStarted(x)] && p[|p|..] == [];
    RerunIsRun(p, triggered, forced, q, j, x);
    RerunIsRun(p, triggered, forced, p, j, x);
    with, without := Rerun(p, q, j, x), Rerun(p, p, j, x);
    StillExhausted(p, triggered, j, with, x);
    StillExhausted(p, triggered, j, without, x);
  }

  /** Either all dry runs invoke `x` or none does. */
  ghost predicate StartFixed(p: seq<Event>, triggered: set<StageId>, forced: Forced, x: StageId) {
    forall j1, j2 :: Dry(p, triggered, forced, j1) && Dry(p, triggered, forced, j2) && InvocationStarted(x) in j1[|p|..] ==>
      InvocationStarted(x) in j2[|p|..]
  }

  /** Whether `x` is invoked does not depend on the order, if and only if it was triggered or
      resolved before, or is not resolved along with a stage composed into it. */
  lemma StartFixedExactly(p: seq<Event>, triggered: set<StageId>, forced: Forced, j: seq<Event>, x: StageId)
    requires RaceFree(p, triggered, forced) && Dry(p, triggered, forced, j)
    ensures StartFixed(p, triggered, forced, x) <==>
              (x in triggered || !Pending(ReplayAll(p), x) || !ResolvedFromInside(p, ReplayAll(j), x))
  {
    hide Good, ReplayAll, Exhausted, RaceFree, ResolvedFromInside, Synchronous, StartsOnce;
    if x !in triggered && Pending(ReplayAll(p), x) && ResolvedFromInside(p, ReplayAll(j), x) {
      var with, without := InvokedOrNot(p, triggered, forced, j, x);
    } else {
      forall j1, j2 | Dry(p, triggered, forced, j1) && Dry(p, triggered, forced, j2) && InvocationStarted(x) in j1[|p|..]
        ensures InvocationStarted(x) in j2[|p|..]
      {
        AlsoInvoked(p, triggered, forced, j, j1, j2, x);
      }
    }
  }

  lemma AlsoInvoked(p: seq<Event>, triggered: set<StageId>, forced: Forced, j: seq<Event>, j1: seq<Event>, j2: seq<Event>, x: StageId)
    requires RaceFree(p, triggered, forced) && Dry(p, triggered, forced, j) && Dry(p, triggered, forced, j1) && Dry(p, triggered, forced, j2)
    requires p <= j1 && InvocationStarted(x) in j1[|p|..]
    requires x in triggered || !Pending(ReplayAll(p), x) || !ResolvedFromInside(p, ReplayAll(j), x)
    ensures p <= j2 && InvocationStarted(x) in j2[|p|..]
  {
    hide Good, ReplayAll, Cascade, Exhausted, RaceFree, SameOutcome, ResolvedFromInside, IsReady, ExecOf;
    ReachedNonEmpty(p, triggered, forced, j2);
    StartedUntriggered(p, triggered, j1, forced, x);
    RaceFreeAgrees(p, triggered, forced, j, j2);
    RaceFreeAgrees(p, triggered, forced, j1, j2);
    ResolvedAlike(p, ReplayAll(j), ReplayAll(j2), x);
    InvokedInBoth(p, triggered, j1, forced, j2, forced, x);
  }
}
