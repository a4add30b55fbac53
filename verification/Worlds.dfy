/** The state of a graph actor as a value, the invariants it keeps, and the effect of each of
    its elementary steps on them. */
module Worlds {
  import opened FlowModel
  import opened StageStrategy
  import opened Replay
  import opened Structure
  import opened Recovery
  import opened Cascades

  /** What the actor asks of others: the executor to run a closure or a function, and itself to be
      deactivated once the graph is completed. */
  datatype Request =
    | InvokeStage(stage: StageId, args: seq<Result>, closure: Option<Blob>)
    | InvokeFunctionFor(stage: StageId)
    | Deactivate

  /** A stage's future told its result. */
  datatype Notice = Notice(stage: StageId, result: Result)

  /** `triggered`, `told` and `requests` belong to the current generation only; its part of the
      journal starts at `base`. */
  datatype World = World(
    graph: Graph,
    journal: seq<Event>,
    triggered: set<StageId>,
    told: seq<Notice>,
    requests: seq<Request>,
    base: nat)

  // ----- Invariants -----

  /** Resolved stages are triggered, and a triggered pending stage (other than `x`) is ready and
      waits for somebody else's reply. */
  ghost predicate FlagsExcept(w: World, x: Option<StageId>) {
    && (forall y: StageId :: Resolved(w.graph, y) ==> y in w.triggered)
    && (forall y: StageId :: y in w.triggered ==>
          || Resolved(w.graph, y)
          || x == Some(y)
          || (IsReady(w.graph, y) && !CompletesAtOnce(ExecOf(w.graph, y))))
    && (forall y: StageId :: y in w.triggered ==> y in w.graph.stages)
  }

  /** Each resolved stage's future was told its result exactly once, nobody else's was. */
  ghost predicate ToldOk(w: World) {
    && (forall n :: 0 <= n < |w.told| ==>
          Resolved(w.graph, w.told[n].stage) && w.graph.stages[w.told[n].stage].result == Some(w.told[n].result))
    && (forall y: StageId :: Resolved(w.graph, y) ==> exists n :: 0 <= n < |w.told| && w.told[n].stage == y)
    && (forall m, n :: 0 <= m < n < |w.told| ==> w.told[m].stage != w.told[n].stage)
  }

  /** The request that journaling `e` in graph `g` obliges the actor to make: an invocation asks for
      exactly what the strategies of its stage select. */
  function OwedBy(g: Graph, e: Event): seq<Request> {
    match e
    case InvocationStarted(x) =>
      if IsReady(g, x) && Invokes(ExecOf(g, x)) && (NeedsSingleInput(ExecOf(g, x)) ==> |Trigger(g, x).inputs| == 1)
      then [InvokeStage(x, Arguments(ExecOf(g, x), Trigger(g, x).inputs), g.stages[x].closure)]
      else [InvokeFunctionFor(x)]
    case GraphCompleted => [Deactivate]
    case _ => []
  }

  /** The requests owed for a journal from `base` on, in order. */
  function Owed(j: seq<Event>, base: nat): seq<Request> {
    if |j| <= base then [] else Owed(Init(j), base) + OwedBy(ReplayAll(Init(j)), Last(j))
  }

  /** Exactly the requests owed were made, in order, for triggered stages only, and at most one
      for each stage. */
  ghost predicate RequestsOk(w: World) {
    && w.base <= |w.journal| && w.requests == Owed(w.journal, w.base)
    && (forall n :: 0 <= n < |w.requests| && !w.requests[n].Deactivate? ==> w.requests[n].stage in w.triggered)
    && (forall m, n :: 0 <= m < n < |w.requests| && !w.requests[m].Deactivate? && !w.requests[n].Deactivate? ==>
          w.requests[m].stage != w.requests[n].stage)
  }

  lemma OwedSnoc(j: seq<Event>, e: Event, base: nat)
    requires base <= |j|
    ensures Owed(j + [e], base) == Owed(j, base) + OwedBy(ReplayAll(j), e)
  {
    InitLast(j, e);
  }

  /** The request is one for stage `x`. */
  predicate IsFor(q: Request, x: StageId) { !q.Deactivate? && q.stage == x }

  predicate AnyFor(qs: seq<Request>, x: StageId) { exists n :: 0 <= n < |qs| && IsFor(qs[n], x) }

  /** The executor was asked for stage `x` in this generation. */
  predicate Requested(w: World, x: StageId) { AnyFor(w.requests, x) }

  lemma AnyForConcat(a: seq<Request>, b: seq<Request>, x: StageId)
    ensures AnyFor(a + b, x) <==> AnyFor(a, x) || AnyFor(b, x)
  {
    if n :| 0 <= n < |a| && IsFor(a[n], x) { assert IsFor((a + b)[n], x); }
    if n :| 0 <= n < |b| && IsFor(b[n], x) { assert IsFor((a + b)[|a| + n], x); }
    if n :| 0 <= n < |a + b| && IsFor((a + b)[n], x) { assert if n < |a| then IsFor(a[n], x) else IsFor(b[n - |a|], x); }
  }

  lemma OwedByIsFor(g: Graph, e: Event, x: StageId)
    ensures AnyFor(OwedBy(g, e), x) <==> e == InvocationStarted(x)
  {
    if e == InvocationStarted(x) { assert IsFor(OwedBy(g, e)[0], x); }
  }

  lemma {:induction false} OwedForStarts(j: seq<Event>, base: nat, x: StageId)
    requires base <= |j|
    ensures InvocationStarted(x) in j[base..] <==> AnyFor(Owed(j, base), x)
    decreases |j|
  {
    hide AnyFor, OwedBy;
    if |j| > base {
      OwedForStarts(Init(j), base, x);
      assert j[base..] == Init(j)[base..] + [Last(j)];
      AnyForConcat(Owed(Init(j), base), OwedBy(ReplayAll(Init(j)), Last(j)), x);
      OwedByIsFor(ReplayAll(Init(j)), Last(j), x);
    } else {
      assert !AnyFor([], x) by { NoneForNobody(x); }
    }
  }

  lemma NoneForNobody(x: StageId)
    ensures !AnyFor([], x)
  {
  }

  /** Exactly the stages journaled as started in this generation were requested. */
  lemma RequestedExactly(w: World, x: StageId)
    requires RequestsOk(w)
    ensures Requested(w, x) <==> InvocationStarted(x) in w.journal[w.base..]
  {
    OwedForStarts(w.journal, w.base, x);
  }

  /** Journaling anything but an invocation or the completion of the graph owes nothing. */
  lemma RequestsStay(w: World, e: Event, w': World)
    requires RequestsOk(w) && !e.InvocationStarted? && !e.GraphCompleted?
    requires w'.requests == w.requests && w'.base == w.base && w.triggered <= w'.triggered && w'.journal == w.journal + [e]
    ensures RequestsOk(w')
  {
    OwedSnoc(w.journal, e, w.base);
  }

  lemma RequestsKept(w: World, w': World)
    requires RequestsOk(w) && w'.requests == w.requests && w'.base == w.base && w.triggered <= w'.triggered && w'.journal == w.journal
    ensures RequestsOk(w')
  {
  }

  /** The graph is exactly what its journal rebuilds. */
  ghost predicate Consistent(w: World, forced: Forced) {
    && w.journal != [] && Good(w.journal, forced) && ReplayAll(w.journal) == w.graph
    && FlagsExcept(w, None) && ToldOk(w) && RequestsOk(w)
  }

  /** The completion of `x` with `r` has been journaled but not yet applied. */
  ghost predicate Awaiting(w: World, forced: Forced, x: StageId, r: Result) {
    && w.journal != [] && Good(w.journal, forced)
    && x in w.graph.stages && ReplayAll(w.journal) == Complete(w.graph, x, r)
    && ClosedExcept(w.graph, Some(x)) && RefsOk(w.graph)
    && FlagsExcept(w, Some(x)) && ToldOk(w) && RequestsOk(w)
  }

  /** Nobody who could be triggered is left. */
  ghost predicate Fixpoint(w: World) {
    forall y: StageId :: Pending(w.graph, y) && IsReady(w.graph, y) ==> y in w.triggered
  }

  /** No lifecycle step is due. */
  predicate LifecycleRest(g: Graph) {
    && (g.state.Committed? ==> PendingIn(g, MainPhase) != {})
    && (g.state.Terminating? ==> PendingIn(g, TerminationPhase) != {})
  }

  ghost predicate Rest(w: World, forced: Forced) {
    Consistent(w, forced) && Fixpoint(w) && LifecycleRest(w.graph)
  }

  /** Pending and ready with a strategy that runs its closure. */
  predicate Runs(g: Graph, x: StageId) { Pending(g, x) && IsReady(g, x) && Invokes(ExecOf(g, x)) }

  /** How a world evolves during a cascade. */
  ghost predicate Follows(w: World, w': World) {
    && Cascade(w.journal, w.triggered, w'.journal)
    && w.triggered <= w'.triggered && w.told <= w'.told && w.requests <= w'.requests
    && (forall y: StageId :: y in w'.triggered && y !in w.triggered && Runs(w'.graph, y) ==>
          InvocationStarted(y) in w'.journal[|w.journal|..])
    && StartsTriggered(w.journal, w')
  }

  /** Whoever was invoked after `p` is triggered. */
  ghost predicate StartsTriggered(p: seq<Event>, w: World)
    requires p <= w.journal
  {
    forall y: StageId :: InvocationStarted(y) in w.journal[|p|..] ==> y in w.triggered
  }

  lemma FollowsRefl(w: World)
    ensures Follows(w, w)
  {
    CascadeRefl(w.journal, w.triggered);
  }

  lemma SuffixOfSuffix<T>(a: seq<T>, b: seq<T>, c: seq<T>, e: T)
    requires a <= b && b <= c && (e in b[|a|..] || e in c[|b|..])
    ensures e in c[|a|..]
  {
    if e in b[|a|..] {
      var i :| 0 <= i < |b| - |a| && b[|a|..][i] == e;
      assert c[|a|..][i] == e;
    } else {
      var i :| 0 <= i < |c| - |b| && c[|b|..][i] == e;
      assert c[|a|..][i + |b| - |a|] == e;
    }
  }

  /** Who runs at the end and was triggered before ran before already. */
  lemma RanBefore(w1: World, w2: World, y: StageId)
    requires FlagsExcept(w1, None) && WellFormed(w1.graph) && Extends(w1.graph, w2.graph) && y in w1.triggered && Runs(w2.graph, y)
    ensures Runs(w1.graph, y)
  {
    hide WellFormed, Trigger;
    StageOf(w1.graph, y);
    if IsReady(w1.graph, y) { ReadyStays(w1.graph, w2.graph, y); }
  }

  lemma StartsStayTriggered(p: seq<Event>, w1: World, w2: World)
    requires p <= w1.journal <= w2.journal && StartsTriggered(p, w1) && StartsTriggered(w1.journal, w2) && w1.triggered <= w2.triggered
    ensures StartsTriggered(p, w2)
  {
    assert w2.journal[|p|..] == w1.journal[|p|..] + w2.journal[|w1.journal|..];
  }

  lemma FollowsTransitive(w: World, w1: World, w2: World, forced: Forced)
    requires Follows(w, w1) && Follows(w1, w2)
    requires Consistent(w1, forced) && Consistent(w2, forced)
    ensures Follows(w, w2)
  {
    hide Good, WellFormed, Cascade, RequestsOk, ToldOk, FlagsExcept, Runs, SameFrame, Extends, ReplayAll;
    CascadeExtends(w.journal, w.triggered, w1.journal);
    CascadeExtends(w1.journal, w1.triggered, w2.journal);
    CascadeTransitive(w.journal, w.triggered, w1.journal, w1.triggered, w2.journal);
    StartsStayTriggered(w.journal, w1, w2);
    CascadeKeepsFrame(w1.journal, w1.triggered, w2.journal, forced);
    ReplayWellFormed(w1.journal, forced);
    forall y: StageId | y in w2.triggered && y !in w.triggered && Runs(w2.graph, y)
      ensures InvocationStarted(y) in w2.journal[|w.journal|..]
    {
      if y in w1.triggered { RanBefore(w1, w2, y); }
      SuffixOfSuffix(w.journal, w1.journal, w2.journal, InvocationStarted(y));
    }
  }

  // ----- The measure that bounds a cascade -----

  function Untriggered(w: World): set<StageId> { w.graph.stages.Keys - w.triggered }

  /** Pending stages, untriggered stages, and lifecycle states still ahead. */
  function Measure(w: World): nat {
    |PendingSet(w.graph)| + |Untriggered(w)| + (3 - Rank(w.graph.state))
  }

  lemma SubsetCardinality<T>(a: set<T>, b: set<T>)
    requires a <= b
    ensures |a| <= |b|
  {
    assert b == a + (b - a);
  }

  lemma MeasureDrops(w: World, w': World)
    requires w'.graph.stages.Keys == w.graph.stages.Keys && w.triggered <= w'.triggered
    requires Rank(w.graph.state) <= Rank(w'.graph.state)
    requires forall x: StageId :: Resolved(w.graph, x) ==> Resolved(w'.graph, x)
    ensures Measure(w') <= Measure(w)
    ensures (exists x :: x in Untriggered(w) && x in w'.triggered) ==> Measure(w') < Measure(w)
    ensures (exists x :: Pending(w.graph, x) && Resolved(w'.graph, x)) ==> Measure(w') < Measure(w)
    ensures Rank(w.graph.state) < Rank(w'.graph.state) ==> Measure(w') < Measure(w)
  {
    forall x | x in PendingSet(w'.graph) ensures x in PendingSet(w.graph) { assert !Resolved(w.graph, x); }
    SubsetCardinality(PendingSet(w'.graph), PendingSet(w.graph));
    SubsetCardinality(Untriggered(w'), Untriggered(w));
    if x :| x in Untriggered(w) && x in w'.triggered { SubsetCardinality(Untriggered(w'), Untriggered(w) - {x}); }
    if x :| Pending(w.graph, x) && Resolved(w'.graph, x) { SubsetCardinality(PendingSet(w'.graph), PendingSet(w.graph) - {x}); }
  }

  // ----- Completing a stage -----

  function Persist(w: World, e: Event): World { w.(journal := w.journal + [e]) }

  /** graph/stage.go:128. */
  function CompleteIn(w: World, x: StageId, r: Result): World
    requires x in w.graph.stages
  {
    var w1 := w.(triggered := w.triggered + {x});
    if Pending(w.graph, x) then w1.(graph := SetResult(w.graph, x, r), told := w.told + [Notice(x, r)]) else w1
  }

  lemma CompleteTold(w: World, x: StageId, r: Result)
    requires x in w.graph.stages && ToldOk(w)
    ensures ToldOk(CompleteIn(w, x, r))
  {
    var w1 := CompleteIn(w, x, r);
    if Pending(w.graph, x) {
      forall y: StageId | Resolved(w1.graph, y) ensures exists n :: 0 <= n < |w1.told| && w1.told[n].stage == y {
        if y == x {
          assert w1.told[|w.told|].stage == y;
        } else {
          assert Resolved(w.graph, y);
          var n :| 0 <= n < |w.told| && w.told[n].stage == y;
          assert w1.told[n].stage == y;
        }
      }
    }
  }

  lemma CompleteFlags(w: World, x: StageId, r: Result)
    requires x in w.graph.stages && FlagsExcept(w, Some(x)) && StagesOk(w.graph)
    ensures FlagsExcept(CompleteIn(w, x, r), None)
  {
    var w1 := CompleteIn(w, x, r);
    forall y: StageId | y in w1.triggered && Pending(w1.graph, y)
      ensures IsReady(w1.graph, y) && !CompletesAtOnce(ExecOf(w1.graph, y))
    {
      assert y in w.triggered;
      assert StageOk(w.graph, y);
      assert Extends(w.graph, w1.graph);
      ReadyStays(w.graph, w1.graph, y);
    }
  }

  /** The graph of an awaiting world has the shape of the graph its journal rebuilds. */
  lemma AwaitingStages(w: World, forced: Forced, x: StageId, r: Result)
    requires Awaiting(w, forced, x, r)
    ensures StagesOk(w.graph) && OnlyResults(w.graph, ReplayAll(w.journal))
  {
    ReplayWellFormed(w.journal, forced);
    if Pending(w.graph, x) {
      SettleFacts(w.graph, x, r);
    } else {
      assert NextOuter(w.graph, x).Some? ==> ComposedInto(w.graph, x, NextOuter(w.graph, x).value);
    }
    var g' := ReplayAll(w.journal);
    forall y | y in w.graph.stages ensures StageOk(w.graph, y) { assert StageOk(g', y); }
  }

  /** After `complete` either the chain is settled and the graph is the journal's again... */
  lemma CompleteSettles(w: World, forced: Forced, x: StageId, r: Result)
    requires Awaiting(w, forced, x, r) && NextOuter(CompleteIn(w, x, r).graph, x).None?
    ensures Consistent(CompleteIn(w, x, r), forced) && Follows(w, CompleteIn(w, x, r))
  {
    hide RequestsOk, Good, RefsOk;
    var w1 := CompleteIn(w, x, r);
    AwaitingStages(w, forced, x, r);
    CompleteFlags(w, x, r);
    RequestsKept(w, w1);
    CompleteTold(w, x, r);
    CascadeRefl(w.journal, w.triggered);
  }

  /** ... or there is a next outer stage, pending here and already settled in what the journal
      rebuilds... */
  lemma NextOuterIsEcho(w: World, forced: Forced, x: StageId, r: Result)
    requires Awaiting(w, forced, x, r) && NextOuter(CompleteIn(w, x, r).graph, x).Some?
    ensures var g1 := CompleteIn(w, x, r).graph;
            var o := NextOuter(g1, x).value;
            && Pending(g1, o) && g1.stages[x].result == Some(r)
            && ReplayAll(w.journal) == Complete(g1, o, r) && Echo(ReplayAll(w.journal), StageCompleted(o, r))
            && ClosedExcept(g1, Some(o)) && RefsOk(g1)
  {
    hide FlagsExcept, ToldOk, RequestsOk, Good, ReplayAll;
    var g1 := CompleteIn(w, x, r).graph;
    var o := NextOuter(g1, x).value;
    assert ComposedInto(g1, x, o) && ComposedInto(w.graph, x, o);
    assert Pending(w.graph, x);
    assert ReplayAll(w.journal) == Settle(g1, o, r);
    assert forall i: StageId, o: StageId :: ComposedInto(g1, i, o) ==> ComposedInto(w.graph, i, o);
    SettleFacts(g1, o, r);
  }

  /** ... whose completion may be journaled and changes nothing in that... */
  lemma ChainGoesOn(w: World, forced: Forced, x: StageId, r: Result)
    requires Awaiting(w, forced, x, r) && NextOuter(CompleteIn(w, x, r).graph, x).Some?
    ensures var w1 := CompleteIn(w, x, r);
            var o := NextOuter(w1.graph, x).value;
            && Pending(w1.graph, o) && w1.graph.stages[x].result == Some(r)
            && Good(w.journal + [StageCompleted(o, r)], forced)
            && ReplayAll(w.journal + [StageCompleted(o, r)]) == Complete(w1.graph, o, r)
            && ClosedExcept(w1.graph, Some(o)) && RefsOk(w1.graph)
            && Cascade(w.journal, w.triggered, w1.journal + [StageCompleted(o, r)])
  {
    hide FlagsExcept, ToldOk, RequestsOk, Good, ReplayAll, Complete, ClosedExcept, RefsOk, CompletedByTrigger;
    var e := StageCompleted(NextOuter(CompleteIn(w, x, r).graph, x).value, r);
    NextOuterIsEcho(w, forced, x, r);
    AppendEcho(w.journal, e, forced);
    CascadeRefl(w.journal, w.triggered);
    CascadeSnoc(w.journal, w.triggered, w.journal, e);
  }

  /** ... and is then awaited in turn. */
  lemma CompleteContinues(w: World, forced: Forced, x: StageId, r: Result)
    requires Awaiting(w, forced, x, r) && NextOuter(CompleteIn(w, x, r).graph, x).Some?
    ensures var w1 := CompleteIn(w, x, r);
            var o := NextOuter(w1.graph, x).value;
            var r' := w1.graph.stages[x].result.value;
            && Pending(w1.graph, o)
            && Awaiting(Persist(w1, StageCompleted(o, r')), forced, o, r')
            && Cascade(w.journal, w.triggered, w1.journal + [StageCompleted(o, r')])
  {
    hide RequestsOk, Good, Complete, ReplayAll, ClosedExcept, RefsOk, Cascade;
    var w1 := CompleteIn(w, x, r);
    ChainGoesOn(w, forced, x, r);
    AwaitingStages(w, forced, x, r);
    CompleteFlags(w, x, r);
    CompleteTold(w, x, r);
    var e := StageCompleted(NextOuter(w1.graph, x).value, r);
    RequestsStay(w, e, Persist(w1, e));
  }

  // ----- Triggering a stage -----

  function Mark(w: World, x: StageId): World { w.(triggered := w.triggered + {x}) }

  /** `x` may be triggered: pending, untriggered, and its condition holds. */
  predicate Triggerable(w: World, x: StageId) {
    Pending(w.graph, x) && x !in w.triggered && IsReady(w.graph, x)
  }

  lemma TriggerSingleInput(w: World, forced: Forced, x: StageId)
    requires Consistent(w, forced) && Triggerable(w, x)
    ensures NeedsSingleInput(ExecOf(w.graph, x)) ==> |Trigger(w.graph, x).inputs| == 1
  {
    ReplayWellFormed(w.journal, forced);
    assert StageOk(w.graph, x);
    SingleInput(w.graph.stages[x].operation, w.graph.stages[x].strategy, DependencyResults(w.graph, w.graph.stages[x].dependencies));
  }

  /** Such a completion may be journaled. */
  lemma TriggerJustifies(w: World, forced: Forced, x: StageId)
    requires Consistent(w, forced) && Triggerable(w, x) && CompletesAtOnce(ExecOf(w.graph, x))
    ensures NeedsSingleInput(ExecOf(w.graph, x)) ==> |Trigger(w.graph, x).inputs| == 1
    ensures var r := Immediate(ExecOf(w.graph, x), Trigger(w.graph, x).inputs);
            && Good(w.journal + [StageCompleted(x, r)], forced)
            && ReplayAll(w.journal + [StageCompleted(x, r)]) == Complete(w.graph, x, r)
            && ClosedExcept(w.graph, Some(x)) && RefsOk(w.graph)
            && Cascade(w.journal, w.triggered, w.journal + [StageCompleted(x, r)])
  {
    hide RequestsOk, ToldOk, FlagsExcept;
    TriggerSingleInput(w, forced, x);
    ReplayWellFormed(w.journal, forced);
    assert StageOk(w.graph, x);
    var r := Immediate(ExecOf(w.graph, x), Trigger(w.graph, x).inputs);
    Append(w.journal, StageCompleted(x, r), forced);
    CascadeRefl(w.journal, w.triggered);
    CascadeSnoc(w.journal, w.triggered, w.journal, StageCompleted(x, r));
  }

  /** A strategy that completes at once journals a completion that its trigger justifies. */
  lemma TriggerCompletes(w: World, forced: Forced, x: StageId)
    requires Consistent(w, forced) && Triggerable(w, x) && CompletesAtOnce(ExecOf(w.graph, x))
    ensures NeedsSingleInput(ExecOf(w.graph, x)) ==> |Trigger(w.graph, x).inputs| == 1
    ensures var r := Immediate(ExecOf(w.graph, x), Trigger(w.graph, x).inputs);
            && Awaiting(Persist(Mark(w, x), StageCompleted(x, r)), forced, x, r)
            && Cascade(w.journal, w.triggered, w.journal + [StageCompleted(x, r)])
  {
    hide RequestsOk, Good, Complete, ReplayAll, ClosedExcept, RefsOk, Cascade;
    TriggerJustifies(w, forced, x);
    var e := StageCompleted(x, Immediate(ExecOf(w.graph, x), Trigger(w.graph, x).inputs));
    RequestsStay(w, e, Persist(Mark(w, x), e));
  }

  function Invoke(w: World, x: StageId, args: seq<Result>): World
    requires x in w.graph.stages
  {
    Persist(Mark(w, x), InvocationStarted(x)).(requests := w.requests + [InvokeStage(x, args, w.graph.stages[x].closure)])
  }

  lemma RequestMade(w: World, x: StageId, args: seq<Result>)
    requires RequestsOk(w) && ReplayAll(w.journal) == w.graph && Triggerable(w, x) && Invokes(ExecOf(w.graph, x))
    requires NeedsSingleInput(ExecOf(w.graph, x)) ==> |Trigger(w.graph, x).inputs| == 1
    requires args == Arguments(ExecOf(w.graph, x), Trigger(w.graph, x).inputs)
    ensures RequestsOk(Invoke(w, x, args))
  {
    hide ReplayAll, IsReady, ExecOf, Trigger, Arguments;
    OwedSnoc(w.journal, InvocationStarted(x), w.base);
  }

  /** The start of an invocation may be journaled. */
  lemma StartJustified(w: World, forced: Forced, x: StageId)
    requires Consistent(w, forced) && Triggerable(w, x) && Invokes(ExecOf(w.graph, x))
    ensures var j := w.journal + [InvocationStarted(x)];
            Good(j, forced) && ReplayAll(j) == w.graph && Cascade(w.journal, w.triggered, j)
  {
    hide RequestsOk, ToldOk, FlagsExcept, Trigger;
    Append(w.journal, InvocationStarted(x), forced);
    CascadeRefl(w.journal, w.triggered);
    CascadeSnoc(w.journal, w.triggered, w.journal, InvocationStarted(x));
  }

  /** A strategy that invokes journals the start and asks the executor once. */
  lemma TriggerInvokes(w: World, forced: Forced, x: StageId, args: seq<Result>)
    requires Consistent(w, forced) && Triggerable(w, x) && Invokes(ExecOf(w.graph, x))
    requires NeedsSingleInput(ExecOf(w.graph, x)) ==> |Trigger(w.graph, x).inputs| == 1
    requires args == Arguments(ExecOf(w.graph, x), Trigger(w.graph, x).inputs)
    ensures Consistent(Invoke(w, x, args), forced) && Follows(w, Invoke(w, x, args))
  {
    hide RequestsOk, Good, ReplayAll, Cascade, Trigger, Arguments;
    StartJustified(w, forced, x);
    RequestMade(w, x, args);
    assert Invoke(w, x, args).journal[|w.journal|..] == [InvocationStarted(x)];
  }

  lemma ToldKept(w: World, x: StageId)
    requires ToldOk(w)
    ensures ToldOk(Mark(w, x))
  {
  }

  /** A strategy that waits for the outside only marks the stage. */
  lemma TriggerWaits(w: World, forced: Forced, x: StageId)
    requires Consistent(w, forced) && Triggerable(w, x) && ExecOf(w.graph, x).CompleteExternally?
    ensures Consistent(Mark(w, x), forced) && Follows(w, Mark(w, x))
  {
    hide Good, ReplayAll, RequestsOk, ToldOk, Trigger, Cascade;
    CascadeRefl(w.journal, w.triggered);
    RequestsKept(w, Mark(w, x));
    ToldKept(w, x);
    assert Mark(w, x).journal[|w.journal|..] == [];
  }

  // ----- Lifecycle steps -----

  /** Journaling and applying an event that starts no cascade by itself. */
  function Move(w: World, e: Event): World {
    Persist(w, e).(graph := Apply(w.graph, e), requests := w.requests + (if e.GraphCompleted? then [Deactivate] else []))
  }

  lemma MoveRequests(w: World, e: Event)
    requires RequestsOk(w) && !e.InvocationStarted?
    ensures RequestsOk(Move(w, e))
  {
    OwedSnoc(w.journal, e, w.base);
    assert w.requests + [] == w.requests;
  }

  lemma MoveKeepsFlags(w: World, w': World)
    requires FlagsExcept(w, None) && ToldOk(w) && StagesOk(w.graph) && Extends(w.graph, w'.graph)
    requires w'.graph.stages == w.graph.stages && w'.triggered == w.triggered && w'.told == w.told
    ensures FlagsExcept(w', None) && ToldOk(w')
  {
    forall y: StageId | y in w'.triggered && Pending(w'.graph, y)
      ensures IsReady(w'.graph, y) && !CompletesAtOnce(ExecOf(w'.graph, y))
    {
      assert StageOk(w.graph, y);
      ReadyStays(w.graph, w'.graph, y);
    }
    forall y: StageId | Resolved(w'.graph, y) ensures exists n :: 0 <= n < |w'.told| && w'.told[n].stage == y {
      assert Resolved(w.graph, y);
    }
  }

  lemma LifecycleMove(w: World, forced: Forced, e: Event)
    requires Consistent(w, forced) && Admissible(w.journal, e) && (e.GraphTerminating? || e.GraphCompleted? || e.GraphCommitted?)
    ensures Consistent(Move(w, e), forced) && (!e.GraphCommitted? ==> Follows(w, Move(w, e)))
    ensures Measure(Move(w, e)) < Measure(w)
  {
    hide FlagsExcept, ToldOk, RequestsOk, Measure, ChainOk, RefsOk, KeysOk, ComposeClosed, Follows;
    var w' := Move(w, e);
    Append(w.journal, e, forced);
    ReplayWellFormed(w.journal, forced);
    ApplyKeeps(w.journal, e);
    MoveKeepsFlags(w, w');
    MoveRequests(w, e);
    MeasureDrops(w, w');
    if !e.GraphCommitted? { MoveFollows(w, e); }
  }

  lemma MoveFollows(w: World, e: Event)
    requires (e.GraphTerminating? || e.GraphCompleted?)
    ensures Follows(w, Move(w, e))
  {
    hide Apply, Runs;
    CascadeRefl(w.journal, w.triggered);
    CascadeSnoc(w.journal, w.triggered, w.journal, e);
    assert Move(w, e).journal[|w.journal|..] == [e];
  }

  // ----- What a whole cascade leaves in place -----

  /** Same stages, no result lost, lifecycle not set back. */
  ghost predicate Grown(g: Graph, g': Graph) {
    && g'.stages.Keys == g.stages.Keys && Rank(g.state) <= Rank(g'.state)
    && forall x: StageId :: Resolved(g, x) ==> Resolved(g', x) && g'.stages[x].result == g.stages[x].result
  }

  lemma GrownTransitive(a: Graph, b: Graph, c: Graph)
    requires Grown(a, b) && Grown(b, c)
    ensures Grown(a, c)
  {
  }

  lemma GrownRefl(g: Graph)
    ensures Grown(g, g)
  {
  }

  lemma GrownKeys(g: Graph, g': Graph)
    requires Grown(g, g')
    ensures g'.stages.Keys == g.stages.Keys
  {
  }

  lemma GrownKeepsResolved(g: Graph, g': Graph, x: StageId)
    requires Grown(g, g') && Resolved(g, x)
    ensures Resolved(g', x)
  {
  }

  lemma MeasureIgnoresJournal(w: World, j: seq<Event>)
    ensures Measure(w.(journal := j)) == Measure(w)
  {
  }

  lemma CascadeGrows(w: World, w': World, forced: Forced)
    requires ReplayAll(w.journal) == w.graph && Consistent(w', forced) && Cascade(w.journal, w.triggered, w'.journal)
    ensures Grown(w.graph, w'.graph)
  {
    CascadeKeepsFrame(w.journal, w.triggered, w'.journal, forced);
  }

  lemma AwaitingGrows(w: World, forced: Forced, x: StageId, r: Result, w': World)
    requires Awaiting(w, forced, x, r) && Consistent(w', forced) && Cascade(w.journal, w.triggered, w'.journal)
    ensures Grown(w.graph, w'.graph) && Resolved(w'.graph, x)
    ensures Pending(w.graph, x) ==> w'.graph.stages[x].result == Some(r)
  {
    AwaitingStages(w, forced, x, r);
    CascadeKeepsFrame(w.journal, w.triggered, w'.journal, forced);
    if Pending(w.graph, x) { SettleFacts(w.graph, x, r); }
  }

  /** Prefixing a cascade with steps whose newly triggered stages end up resolved. */
  lemma FollowsAfter(w: World, m: World, w': World)
    requires Cascade(w.journal, w.triggered, m.journal) && Follows(m, w')
    requires w.triggered <= m.triggered && w.told <= m.told && w.requests <= m.requests && StartsTriggered(w.journal, m)
    requires forall y: StageId :: y in m.triggered && y !in w.triggered ==> !Pending(w'.graph, y)
    ensures Follows(w, w')
  {
    StartsStayTriggered(w.journal, m, w');
    CascadeTransitive(w.journal, w.triggered, m.journal, m.triggered, w'.journal);
    forall y: StageId | y in w'.triggered && y !in w.triggered && Runs(w'.graph, y)
      ensures InvocationStarted(y) in w'.journal[|w.journal|..]
    {
      SuffixOfSuffix(w.journal, m.journal, w'.journal, InvocationStarted(y));
    }
  }

  lemma FollowsCompletion(w: World, x: StageId, r: Result, w': World)
    requires Cascade(w.journal, w.triggered, w.journal + [StageCompleted(x, r)])
    requires Follows(Persist(Mark(w, x), StageCompleted(x, r)), w') && !Pending(w'.graph, x)
    ensures Follows(w, w')
  {
    hide Cascade, Runs, Follows;
    FollowsAfter(w, Persist(Mark(w, x), StageCompleted(x, r)), w');
  }

  /** What completing `x` leaves of the measure. */
  function Budget(w: World, x: StageId): nat {
    |PendingSet(w.graph) - {x}| + |Untriggered(w) - {x}| + (3 - Rank(w.graph.state))
  }

  lemma BudgetIsMeasureAfter(w: World, x: StageId, r: Result)
    requires x in w.graph.stages
    ensures Measure(CompleteIn(w, x, r)) == Budget(w, x) <= Measure(w)
    ensures Pending(w.graph, x) ==> Budget(w, x) < Measure(w)
    ensures x in Untriggered(w) ==> Budget(w, x) < Measure(w)
  {
    var w1 := CompleteIn(w, x, r);
    assert PendingSet(w1.graph) == PendingSet(w.graph) - {x};
    assert w1.graph.stages.Keys == w.graph.stages.Keys;
    assert Untriggered(w1) == Untriggered(w) - {x};
    if Pending(w.graph, x) { assert x in PendingSet(w.graph); }
    SubsetCardinality(PendingSet(w.graph) - {x}, PendingSet(w.graph));
    SubsetCardinality(Untriggered(w) - {x}, Untriggered(w));
  }

  lemma BudgetIgnoresJournal(w: World, e: Event, x: StageId)
    ensures Budget(Persist(w, e), x) == Budget(w, x)
  {
  }

  lemma GrownMeasure(w: World, w': World)
    requires Grown(w.graph, w'.graph) && w.triggered <= w'.triggered
    ensures Measure(w') <= Measure(w)
  {
    MeasureDrops(w, w');
  }

  lemma MarkMeasure(w: World, x: StageId)
    requires x in Untriggered(w)
    ensures Measure(Mark(w, x)) < Measure(w)
  {
    MeasureDrops(w, Mark(w, x));
  }

  // ----- Recovery -----

  /** While a journal is replayed exactly the resolved stages are triggered and nobody is asked. */
  ghost predicate Replaying(w: World) {
    && ToldOk(w) && w.requests == []
    && (forall y: StageId :: y in w.triggered <==> Resolved(w.graph, y))
  }

  /** A stage pending and ready after replay was lost with the previous generation and may be failed. */
  lemma RecoverFails(w: World, forced: Forced, x: StageId)
    requires Consistent(w, forced) && Triggerable(w, x)
    ensures var e := StageCompleted(x, StageLostResult());
            Awaiting(Persist(Mark(w, x), e), AlsoLost(forced, x), x, StageLostResult())
  {
    hide RequestsOk, KeysOk, ChainOk, LifecycleOk, CompletedByReply, CompletedByTrigger, Cascade;
    RequestsStay(w, StageCompleted(x, StageLostResult()), Persist(Mark(w, x), StageCompleted(x, StageLostResult())));
    var r := StageLostResult();
    ReplayWellFormed(w.journal, forced);
    assert StageOk(w.graph, x);
    GoodMonotone(w.journal, forced, AlsoLost(forced, x));
    Append(w.journal, StageCompleted(x, r), AlsoLost(forced, x));
  }

  /** An outside completion of an existing pending stage. */
  lemma ForcedCompletion(w: World, forced: Forced, x: StageId, r: Result)
    requires Consistent(w, forced) && Pending(w.graph, x)
    ensures Awaiting(Persist(w, StageCompleted(x, r)), Outside(forced, {x}), x, r)
  {
    hide RequestsOk, KeysOk, StagesOk, ChainOk, LifecycleOk, CompletedByReply, CompletedByTrigger;
    RequestsStay(w, StageCompleted(x, r), Persist(w, StageCompleted(x, r)));
    ReplayWellFormed(w.journal, forced);
    GoodMonotone(w.journal, forced, Outside(forced, {x}));
    Append(w.journal, StageCompleted(x, r), Outside(forced, {x}));
  }

  // ----- Adding stages and recording facts -----

  lemma AddedResultsSame(g: Graph, e: Event, y: StageId)
    requires WellFormed(g) && e.StageAdded? && e.stage == |g.stages|
    ensures Resolved(Apply(g, e), y) <==> Resolved(g, y)
    ensures Resolved(g, y) ==> Apply(g, e).stages[y].result == g.stages[y].result
  {
    assert e.stage !in g.stages;
  }

  lemma AddedTold(w: World, e: Event)
    requires ToldOk(w) && WellFormed(w.graph) && e.StageAdded? && e.stage == |w.graph.stages|
    ensures ToldOk(Move(w, e))
  {
    var w' := Move(w, e);
    forall n | 0 <= n < |w'.told|
      ensures Resolved(w'.graph, w'.told[n].stage) && w'.graph.stages[w'.told[n].stage].result == Some(w'.told[n].result)
    {
      AddedResultsSame(w.graph, e, w'.told[n].stage);
    }
    forall y: StageId | Resolved(w'.graph, y) ensures exists n :: 0 <= n < |w'.told| && w'.told[n].stage == y {
      AddedResultsSame(w.graph, e, y);
    }
  }

  lemma AddedFlags(w: World, e: Event)
    requires FlagsExcept(w, None) && WellFormed(w.graph) && e.StageAdded? && e.stage == |w.graph.stages|
    requires Extends(w.graph, Move(w, e).graph)
    ensures FlagsExcept(Move(w, e), None)
  {
    var w' := Move(w, e);
    forall y: StageId ensures Resolved(w'.graph, y) <==> Resolved(w.graph, y) { AddedResultsSame(w.graph, e, y); }
    forall y: StageId | y in w'.triggered && Pending(w'.graph, y)
      ensures IsReady(w'.graph, y) && !CompletesAtOnce(ExecOf(w'.graph, y))
    {
      assert StageOk(w.graph, y);
      ReadyStays(w.graph, w'.graph, y);
    }
  }

  lemma AddedConsistent(w: World, forced: Forced, e: Event)
    requires Consistent(w, forced) && e.StageAdded? && Admissible(w.journal, e)
    ensures Consistent(Move(w, e), forced) && Extends(w.graph, Move(w, e).graph)
    ensures e.stage !in w.graph.stages && Pending(Move(w, e).graph, e.stage)
  {
    hide RequestsOk, FlagsExcept, ToldOk;
    Append(w.journal, e, forced);
    ReplayWellFormed(w.journal, forced);
    ApplyKeeps(w.journal, e);
    AddedTold(w, e);
    AddedFlags(w, e);
    MoveRequests(w, e);
  }

  /** Recording an event that does not touch the graph. */
  lemma NoteConsistent(w: World, forced: Forced, e: Event)
    requires Consistent(w, forced) && Admissible(w.journal, e) && (e.DelayScheduled? || e.InvocationCompleted?)
    ensures Consistent(Persist(w, e), forced)
  {
    hide RequestsOk, IsReady, ExecOf, CompletedByReply, CompletedByTrigger, FailedAsLost, StrategyOf;
    RequestsStay(w, e, Persist(w, e));
    Append(w.journal, e, forced);
  }

  // ----- Order independence of a whole message -----

  /** After `p`, everything was emitted synchronously and nothing is left to do. */
  ghost predicate RanDry(p: seq<Event>, triggered: set<StageId>, j: seq<Event>) {
    Cascade(p, triggered, j) && Exhausted(p, triggered, j)
  }

  lemma RestRanDry(w: World, w': World, forced: Forced)
    requires Follows(w, w') && Rest(w', forced)
    ensures RanDry(w.journal, w.triggered, w'.journal)
  {
    var g := w'.graph;
    forall x: StageId | Pending(g, x) && IsReady(g, x)
      ensures !CompletesAtOnce(ExecOf(g, x))
      ensures x !in w.triggered && Invokes(ExecOf(g, x)) ==> InvocationStarted(x) in w'.journal[|w.journal|..]
    {
      assert x in w'.triggered;
      if Invokes(ExecOf(g, x)) { assert Runs(g, x); }
    }
  }

  /** Within a generation every pending composed stage is already triggered when a message
      arrives that starts no invocation before its cascade. */
  lemma GenerationTriggersOuters(w: World, forced: Forced, p: seq<Event>, more: Forced)
    requires Rest(w, forced) && w.journal <= p && Good(p, more)
    requires forall k :: |w.journal| <= k < |p| ==> !p[k].InvocationStarted?
    ensures OutersTriggered(ReplayAll(p), w.triggered)
  {
    hide Good, ReplayAll, Trigger, RequestsOk, ToldOk, LifecycleRest;
    var g := ReplayAll(p);
    forall i: StageId, o: StageId | ComposedInto(g, i, o) && Pending(g, o) ensures o in w.triggered {
      OuterWasInvoked(p, more, i, o);
      var k :| 0 <= k < |p| && p[k] == InvocationStarted(o);
      assert w.journal[k] == p[k];
      InvokedStaysReady(w.journal, forced, o);
      ReplayExtends(p, |w.journal|, more);
      assert p[..|w.journal|] == w.journal;
    }
  }

  /** In a resting world the triggered stages are the resolved and the ready ones. */
  lemma TriggeredAtRest(w: World, forced: Forced, x: StageId)
    requires Rest(w, forced)
    ensures x in w.triggered <==> Resolved(w.graph, x) || (Pending(w.graph, x) && IsReady(w.graph, x))
  {
  }

  lemma SameRequests(w1: World, w2: World, p: seq<Event>, x: StageId)
    requires RequestsOk(w1) && RequestsOk(w2) && w1.base == w2.base <= |p| && p <= w1.journal && p <= w2.journal
    requires InvocationStarted(x) in w1.journal[|p|..] <==> InvocationStarted(x) in w2.journal[|p|..]
    ensures Requested(w1, x) <==> Requested(w2, x)
  {
    hide RequestsOk, Requested;
    RequestedExactly(w1, x);
    RequestedExactly(w2, x);
    var b := w1.base;
    assert w1.journal[b..] == p[b..] + w1.journal[|p|..] && w2.journal[b..] == p[b..] + w2.journal[|p|..];
  }

  /** Resting worlds of the same outcome have the same stages triggered. */
  lemma SameTriggered(w1: World, f1: Forced, w2: World, f2: Forced)
    requires Rest(w1, f1) && Rest(w2, f2) && SameOutcome(w1.graph, w2.graph)
    ensures w1.triggered == w2.triggered
  {
    hide Good, ReplayAll, IsReady, Rest;
    forall x: StageId ensures x in w1.triggered <==> x in w2.triggered {
      TriggeredAtRest(w1, f1, x);
      TriggeredAtRest(w2, f2, x);
      SamePending(w1.graph, w2.graph, x);
    }
  }

  /** Two executions of the same message on the same world, whatever order each iterates the
      stages map in, resolve the same stages with the same success flags, trigger the same
      stages, request the same stages and reach the same lifecycle state. */
  lemma MessageOrderIndependence(
    w: World, forced: Forced, p: seq<Event>, w1: World, f1: Forced, w2: World, f2: Forced)
    requires Rest(w, forced) && w.journal <= p && forall k :: |w.journal| <= k < |p| ==> !p[k].InvocationStarted?
    requires Rest(w1, f1) && RanDry(p, w.triggered, w1.journal) && w1.base == w.base
    requires Rest(w2, f2) && RanDry(p, w.triggered, w2.journal) && w2.base == w.base
    requires Unambiguous(ReplayAll(p))
    ensures SameOutcome(w1.graph, w2.graph) && w1.triggered == w2.triggered
    ensures forall x: StageId :: Requested(w1, x) <==> Requested(w2, x)
  {
    hide Good, ReplayAll, IsReady, Owed, Exhausted, Unambiguous, Cascade, ResolvedFromInside, OutersTriggered, SameOutcome;
    hide Requested, FlagsExcept, ToldOk, Fixpoint, LifecycleRest;
    CascadeExtends(p, w.triggered, w1.journal);
    CascadeExtends(p, w.triggered, w2.journal);
    GoodPrefix(w1.journal, |p|, f1);
    assert w1.journal[..|p|] == p;
    GenerationTriggersOuters(w, forced, p, f1);
    OrderIndependence(p, w.triggered, w1.journal, f1, w2.journal, f2);
    forall x: StageId ensures Requested(w1, x) <==> Requested(w2, x) {
      if ResolvedFromInside(p, w1.graph, x) {
        OuterNotStarted(p, w.triggered, w1.journal, f1, w1.graph, x);
        OuterNotStarted(p, w.triggered, w2.journal, f2, w1.graph, x);
      }
      SameRequests(w1, w2, p, x);
    }
    SameTriggered(w1, f1, w2, f2);
  }
}
