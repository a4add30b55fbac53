/** What the handlers of the graph actor owe each other: the states between their steps. */
module ActorSteps {
  import opened FlowModel
  import opened StageStrategy
  import opened Replay
  import opened Structure
  import opened Recovery
  import opened Cascades
  import opened Worlds
  import opened Commands

  // ----- Counting stages one by one -----

  lemma CountOne(counted: set<StageId>, remaining: set<StageId>, x: StageId)
    requires x in remaining
    ensures |counted - (remaining - {x})| == |counted - remaining| + (if x in counted then 1 else 0)
  {
    if x in counted {
      assert counted - (remaining - {x}) == (counted - remaining) + {x};
    } else {
      assert counted - (remaining - {x}) == counted - remaining;
    }
  }

  // ----- Glue between one handler's states -----

  /** Everything a live completion needs about its first step. */
  lemma LiveCompletes(w: World, forced: Forced, x: StageId, r: Result)
    requires Awaiting(w, forced, x, r)
    ensures var w1 := CompleteIn(w, x, r);
            && Grown(w.graph, w1.graph) && Resolved(w1.graph, x)
            && (forall o: StageId :: ComposedInto(w1.graph, x, o) ==> o in w1.graph.stages)
            && (NextOuter(w1.graph, x).Some? ==>
                  var o := NextOuter(w1.graph, x).value;
                  var r' := w1.graph.stages[x].result.value;
                  Awaiting(Persist(w1, StageCompleted(o, r')), forced, o, r'))
  {
    hide RequestsOk, ToldOk, FlagsExcept, Good, ReplayAll, Complete, Cascade, ClosedExcept;
    var w1 := CompleteIn(w, x, r);
    assert forall i: StageId, o: StageId :: ComposedInto(w1.graph, i, o) ==> ComposedInto(w.graph, i, o);
    if NextOuter(w1.graph, x).Some? { CompleteContinues(w, forced, x, r); }
  }

  /** The world after the compose chain of a live completion has been dealt with. */
  lemma LiveCompleted(w: World, forced: Forced, x: StageId, r: Result, w2: World)
    requires Awaiting(w, forced, x, r)
    requires var w1 := CompleteIn(w, x, r);
             var o := NextOuter(w1.graph, x);
             && Grown(w1.graph, w2.graph)
             && (o.None? ==> w2 == w1)
             && (o.Some? ==>
                   && Rest(w2, forced)
                   && Follows(Persist(w1, StageCompleted(o.value, w1.graph.stages[x].result.value)), w2))
    ensures Consistent(w2, forced) && Follows(w, w2) && Grown(w.graph, w2.graph)
  {
    hide RequestsOk, ToldOk, FlagsExcept, Good, ReplayAll, Complete, ClosedExcept, RefsOk, Measure, Fixpoint, LifecycleRest;
    var w1 := CompleteIn(w, x, r);
    var o := NextOuter(w1.graph, x);
    LiveCompletes(w, forced, x, r);
    if o.None? {
      CompleteSettles(w, forced, x, r);
    } else {
      CompleteContinues(w, forced, x, r);
      FollowsAfter(w, Persist(w1, StageCompleted(o.value, w1.graph.stages[x].result.value)), w2);
    }
  }

  /** The first step of a replayed completion. */
  lemma ReplayCompletes(w: World, x: StageId, r: Result)
    requires Replaying(w) && x in w.graph.stages && ClosedExcept(w.graph, Some(x)) && RefsOk(w.graph)
    ensures var w1 := CompleteIn(w, x, r);
            && Replaying(w1) && RefsOk(w1.graph) && Grown(w.graph, w1.graph) && Resolved(w1.graph, x)
            && (forall o: StageId :: ComposedInto(w1.graph, x, o) ==> o in w1.graph.stages && ClosedExcept(w1.graph, Some(o)))
  {
    var w1 := CompleteIn(w, x, r);
    CompleteTold(w, x, r);
    assert forall i: StageId, o: StageId :: ComposedInto(w1.graph, i, o) ==> ComposedInto(w.graph, i, o);
    forall o: StageId | ComposedInto(w1.graph, x, o) ensures ClosedExcept(w1.graph, Some(o)) {
    }
  }

  /** A replayed completion of a stage is its first step and then that of the next outer stage. */
  lemma ReplayUnfolds(g: Graph, x: StageId, r: Result)
    requires x in g.stages
    ensures var g1 := if Pending(g, x) then SetResult(g, x, r) else g;
            match NextOuter(g1, x)
            case None => Complete(g, x, r) == g1 && Reemit(g, StageCompleted(x, r)) == []
            case Some(o) =>
              var e := StageCompleted(o, g1.stages[x].result.value);
              && Complete(g, x, r) == Complete(g1, o, e.result)
              && Reemit(g, StageCompleted(x, r)) == [e] + Reemit(g1, e)
  {
  }

  /** The graph and the journal after the compose chain of a replayed completion has been dealt with. */
  lemma ReplayCompleted(w: World, x: StageId, r: Result, w2: World)
    requires x in w.graph.stages
    requires var w1 := CompleteIn(w, x, r);
             var o := NextOuter(w1.graph, x);
             && (o.None? ==> w2 == w1)
             && (o.Some? ==>
                   var e := StageCompleted(o.value, w1.graph.stages[x].result.value);
                   w2.graph == Complete(w1.graph, o.value, e.result) && w2.journal == w1.journal + [e] + Reemit(w1.graph, e))
    ensures w2.graph == Complete(w.graph, x, r)
    ensures w2.journal == w.journal + Reemit(w.graph, StageCompleted(x, r))
  {
    hide Complete, Reemit;
    ReplayUnfolds(w.graph, x, r);
  }

  /** Completing a graph whose hooks are all resolved leaves it at rest. */
  lemma CompletedRest(w: World, forced: Forced)
    requires Consistent(w, forced) && Fixpoint(w)
    requires w.graph.state.Terminating? && PendingIn(w.graph, TerminationPhase) == {}
    ensures var w' := Move(w, GraphCompleted); Rest(w', forced) && Follows(w, w') && Grown(w.graph, w'.graph)
  {
    hide Good, RequestsOk, ToldOk, FlagsExcept, Cascade, Measure, Owed;
    var w' := Move(w, GraphCompleted);
    LifecycleMove(w, forced, GraphCompleted);
    CascadeGrows(w, w', forced);
    forall y: StageId | Pending(w'.graph, y) && IsReady(w'.graph, y) ensures y in w'.triggered {
      assert DependencyResults(w'.graph, w'.graph.stages[y].dependencies) == DependencyResults(w.graph, w.graph.stages[y].dependencies);
      assert IsReady(w.graph, y);
    }
  }

  /** A committed graph without pending main stages starts terminating. */
  lemma TerminatingMove(w: World, forced: Forced)
    requires Consistent(w, forced) && w.graph.state.Committed? && PendingIn(w.graph, MainPhase) == {}
    ensures var w' := Move(w, GraphTerminating(StatusSucceeded));
            Consistent(w', forced) && Follows(w, w') && Grown(w.graph, w'.graph) && Measure(w') < Measure(w)
  {
    LifecycleMove(w, forced, GraphTerminating(StatusSucceeded));
    CascadeGrows(w, Move(w, GraphTerminating(StatusSucceeded)), forced);
  }

  // ----- Adding stages -----

  /** Nothing that could be triggered does more than wait for the outside. */
  ghost predicate Idle(w: World) {
    forall y: StageId :: Triggerable(w, y) ==> ExecOf(w.graph, y).CompleteExternally?
  }

  lemma IdleStays(w: World, w': World)
    requires Idle(w) && w' == w.(triggered := w'.triggered) && w.triggered <= w'.triggered
    ensures Idle(w')
  {
    forall y: StageId | Triggerable(w', y) ensures ExecOf(w'.graph, y).CompleteExternally? { assert Triggerable(w, y); }
  }

  /** Adding a stage makes no other stage ready. */
  lemma AddedReadiesNobody(g: Graph, e: Event, y: StageId)
    requires WellFormed(g) && e.StageAdded? && e.stage == |g.stages| && y in g.stages
    requires StrategyOf(e.op).Some? && IsReady(Apply(g, e), y)
    ensures IsReady(g, y)
  {
    hide RefsOk, ComposeClosed;
    var g' := Apply(g, e);
    assert e.stage !in g.stages;
    assert StageOk(g, y);
    assert y in g'.stages && g'.stages[y].strategy == g.stages[y].strategy;
    if g'.stages[y].dependencies != g.stages[y].dependencies {
      assert false;
    } else {
      if IsHook(g, y) { assert HookOk(g, y); }
      var a, b := DependencyResults(g, g.stages[y].dependencies), DependencyResults(g', g'.stages[y].dependencies);
      forall i | 0 <= i < |a| ensures a[i] == b[i] {
        var d := g.stages[y].dependencies[i];
        if d.On? { AddedResultsSame(g, e, d.stage); }
      }
      assert a == b;
    }
  }

  lemma AddedLifecycle(w: World, forced: Forced, e: Event)
    requires Rest(w, forced) && e.StageAdded? && Admissible(w.journal, e)
    ensures LifecycleRest(Move(w, e).graph)
  {
    hide Good, RequestsOk, ToldOk, FlagsExcept, Fixpoint, Shape, ComposeClosed;
    var g' := Move(w, e).graph;
    ReplayWellFormed(w.journal, forced);
    ApplyKeeps(w.journal, e);
    if w.graph.state.Committed? {
      var y :| y in PendingIn(w.graph, MainPhase);
      AddedResultsSame(w.graph, e, y);
      assert y in PendingIn(g', MainPhase);
    }
  }

  /** After an addition at rest only the new stage can be triggered. */
  lemma OnlyNewTriggerable(w: World, forced: Forced, e: Event, y: StageId)
    requires Rest(w, forced) && e.StageAdded? && Admissible(w.journal, e) && Triggerable(Move(w, e), y)
    ensures y == e.stage
  {
    if y != e.stage {
      var g' := Move(w, e).graph;
      ReplayWellFormed(w.journal, forced);
      assert y in w.graph.stages by { AddedKeys(w.graph, e); }
      AddedReadiesNobody(w.graph, e, y);
      AddedResultsSame(w.graph, e, y);
    }
  }

  lemma AddedKeys(g: Graph, e: Event)
    requires g.terminationChainHead.Some? ==> g.terminationChainHead.value in g.stages
    requires e.StageAdded? && StrategyOf(e.op).Some?
    ensures Apply(g, e).stages.Keys == g.stages.Keys + {e.stage}
  {
  }

  /** The new stage as it was added. */
  lemma AddedStage(g: Graph, e: Event)
    requires e.StageAdded? && StrategyOf(e.op).Some?
    ensures var g' := Apply(g, e);
            && e.stage in g'.stages && g'.stages[e.stage].operation == e.op && g'.stages[e.stage].closure == e.closure
            && Some(g'.stages[e.stage].strategy) == StrategyOf(e.op)
            && g'.stages[e.stage].result.None?
            && g'.stages[e.stage].dependencies == (if e.op.TerminationHook? then [Root] else OnAll(e.deps))
  {
  }

  /** The new stage as it is when all that follows from its addition has been done. */
  lemma AddedStays(m: World, forced: Forced, x: StageId, w': World)
    requires Consistent(m, forced) && Consistent(w', forced) && Follows(m, w') && x in m.graph.stages && !m.graph.stages[x].operation.TerminationHook?
    ensures x in w'.graph.stages && w'.graph.stages[x].operation == m.graph.stages[x].operation
    ensures w'.graph.stages[x].closure == m.graph.stages[x].closure && w'.graph.stages[x].dependencies == m.graph.stages[x].dependencies
  {
    hide Good, ReplayAll, FlagsExcept, ToldOk, RequestsOk, Cascade, SameFrame;
    CascadeKeepsFrame(m.journal, m.triggered, w'.journal, forced);
  }

  lemma HookMove(w: World, e: Event)
    requires e.StageAdded? && e.op.TerminationHook?
    ensures Move(w, e) == Persist(w, e).(graph := AddHook(w.graph, e.stage, e.closure))
  {
    assert w.requests + [] == w.requests;
  }

  lemma HookNotReady(g: Graph, e: Event)
    requires LifecycleOk(g) && Open(g) && e.StageAdded? && e.op.TerminationHook?
    ensures !IsReady(Apply(g, e), e.stage)
  {
    var g' := Apply(g, e);
    assert DependencyResults(g', [Root])[0].None?;
  }

  /** A hook waits for the root, which is unresolved while hooks can be added. */
  lemma HookAddedRest(w: World, forced: Forced, e: Event)
    requires Rest(w, forced) && e.StageAdded? && e.op.TerminationHook? && Admissible(w.journal, e)
    ensures Rest(Move(w, e), forced) && Move(w, e) == Persist(w, e).(graph := AddHook(w.graph, e.stage, e.closure))
    ensures RanDry(w.journal + [e], w.triggered, w.journal + [e])
  {
    hide Good, RequestsOk, ToldOk, FlagsExcept, KeysOk, StagesOk, ChainOk, RefsOk, ComposeClosed, Apply, IsReady, Follows, RanDry;
    var w' := Move(w, e);
    AddedConsistent(w, forced, e);
    AddedLifecycle(w, forced, e);
    ReplayWellFormed(w.journal, forced);
    HookNotReady(w.graph, e);
    HookMove(w, e);
    forall y: StageId | Pending(w'.graph, y) && IsReady(w'.graph, y) ensures y in w'.triggered {
      if y !in w'.triggered {
        OnlyNewTriggerable(w, forced, e, y);
        assert false;
      }
    }
    FollowsRefl(w');
    RestRanDry(w', w', forced);
  }

  /** The rows of the operations that wait for the outside. */
  lemma PassiveRows(op: Operation)
    requires op.InvokeFunction? || op.CompletedValue? || op.Delay?
    ensures StrategyOf(op).Some? && Passive(StrategyOf(op).value)
  {
  }

  lemma NeverRow(op: Operation)
    requires op.CompletedValue? || op.Delay? || op.InvokeFunction?
    ensures StrategyOf(op).Some? && (!op.InvokeFunction? ==> StrategyOf(op).value.trigger.TriggerNever?)
  {
  }

  lemma PassiveExec(g: Graph, y: StageId)
    requires IsReady(g, y) && Passive(g.stages[y].strategy)
    ensures ExecOf(g, y).CompleteExternally?
  {
  }

  /** Adding a stage that waits for the outside sets nothing off. */
  lemma PassiveAddedIdle(w: World, forced: Forced, e: Event)
    requires Rest(w, forced) && e.StageAdded? && Admissible(w.journal, e)
    requires e.op.InvokeFunction? || e.op.CompletedValue? || e.op.Delay?
    ensures Idle(Move(w, e)) && Passive(Move(w, e).graph.stages[e.stage].strategy)
  {
    hide Rest, Admissible, Apply, StrategyOf, Passive, IsReady, ExecOf;
    PassiveRows(e.op);
    AddedStage(w.graph, e);
    forall y: StageId | Triggerable(Move(w, e), y) ensures ExecOf(Move(w, e).graph, y).CompleteExternally? {
      OnlyNewTriggerable(w, forced, e, y);
      PassiveExec(Move(w, e).graph, y);
    }
  }

  // ----- Replies -----

  /** Facts about whoever was ever invoked. */
  lemma Invoked(w: World, forced: Forced, x: StageId)
    requires Consistent(w, forced) && InvocationStarted(x) in w.journal
    ensures x in w.graph.stages && IsReady(w.graph, x) && StageOk(w.graph, x)
    ensures !w.graph.stages[x].strategy.resultHandling.NoResultStrategy? && !w.graph.stages[x].strategy.trigger.TriggerNever?
    ensures w.graph.stages[x].strategy.resultHandling.ParentStageResult? ==>
              |w.graph.stages[x].dependencies| == 1 && DependencyResult(w.graph, w.graph.stages[x].dependencies[0]).Some?
  {
    InvokedStaysReady(w.journal, forced, x);
    ReplayWellFormed(w.journal, forced);
    assert StageOk(w.graph, x);
    var rs := DependencyResults(w.graph, w.graph.stages[x].dependencies);
    if w.graph.stages[x].strategy.resultHandling.ParentStageResult? {
      assert |rs| == 1;
      SingleReady(w.graph.stages[x].strategy.trigger, rs);
    }
  }

  lemma SingleReady(kind: TriggerKind, rs: seq<Option<Result>>)
    requires |rs| == 1 && Evaluate(kind, rs).Ready?
    ensures rs[0].Some?
  {
  }

  /** The completion that a reply leads to is admissible and justified. */
  lemma ReplyCompletes(w: World, forced: Forced, x: StageId, reply: Result, r: Result)
    requires Consistent(w, forced) && InvocationStarted(x) in w.journal
    requires x in w.graph.stages && Handled(w.graph, x, reply) == Some(r)
    ensures var w1 := Persist(w, InvocationCompleted(x, reply));
            Consistent(w1, forced) && Awaiting(Persist(w1, StageCompleted(x, r)), forced, x, r)
  {
    hide RequestsOk, KeysOk, StagesOk, ChainOk, LifecycleOk, IsReady, CompletedByTrigger, Owed;
    var e := InvocationCompleted(x, reply);
    var w1 := Persist(w, e);
    Invoked(w, forced, x);
    NoteConsistent(w, forced, e);
    InitLast(w.journal, e);
    ReplayWellFormed(w.journal, forced);
    RequestsStay(w1, StageCompleted(x, r), Persist(w1, StageCompleted(x, r)));
    Append(w1.journal, StageCompleted(x, r), forced);
  }

  /** Setting a compose reference. */
  function Refer(w: World, outer: StageId, inner: StageId): World
    requires inner in w.graph.stages
  {
    Persist(w, StageComposed(outer, inner)).(graph := SetReference(w.graph, outer, inner))
  }

  lemma ReferTriggers(g: Graph, outer: StageId, inner: StageId, y: StageId)
    requires inner in g.stages
    ensures var g1 := SetReference(g, outer, inner);
            && (Resolved(g1, y) <==> Resolved(g, y)) && (Pending(g1, y) <==> Pending(g, y))
            && (IsReady(g1, y) <==> IsReady(g, y)) && (IsReady(g, y) ==> ExecOf(g1, y) == ExecOf(g, y))
            && (Resolved(g, y) ==> g1.stages[y].result == g.stages[y].result)
  {
    hide Evaluate;
    var g1 := SetReference(g, outer, inner);
    if y in g.stages {
      assert DependencyResults(g1, g1.stages[y].dependencies) == DependencyResults(g, g.stages[y].dependencies);
    }
  }

  lemma ReferFlags(w: World, outer: StageId, inner: StageId)
    requires FlagsExcept(w, None) && ToldOk(w) && RequestsOk(w) && StagesOk(w.graph) && inner in w.graph.stages
    ensures var w1 := Refer(w, outer, inner); FlagsExcept(w1, None) && ToldOk(w1) && RequestsOk(w1)
    ensures var w1 := Refer(w, outer, inner); Fixpoint(w) ==> Fixpoint(w1)
  {
    hide RequestsOk, IsReady, ExecOf, Pending;
    RequestsStay(w, StageComposed(outer, inner), Refer(w, outer, inner));
    var w1 := Refer(w, outer, inner);
    forall y: StageId
      ensures (Resolved(w1.graph, y) <==> Resolved(w.graph, y)) && (Pending(w1.graph, y) <==> Pending(w.graph, y))
      ensures (IsReady(w1.graph, y) <==> IsReady(w.graph, y)) && (IsReady(w.graph, y) ==> ExecOf(w1.graph, y) == ExecOf(w.graph, y))
      ensures Resolved(w.graph, y) ==> w1.graph.stages[y].result == w.graph.stages[y].result
    {
      ReferTriggers(w.graph, outer, inner, y);
    }
  }

  /** The compose event of a reply that names another stage. */
  lemma ReplyRefers(w: World, forced: Forced, outer: StageId, inner: StageId)
    requires Rest(w, forced)
    requires outer in w.graph.stages && inner in w.graph.stages
    requires w.graph.stages[outer].strategy.resultHandling.ReferencedStageResult?
    requires Last(w.journal) == InvocationCompleted(outer, Result(true, StageRefDatum(inner)))
    ensures var w1 := Refer(w, outer, inner);
            && Good(w1.journal, forced) && ReplayAll(w1.journal) == Apply(w.graph, StageComposed(outer, inner))
            && RefsOk(w1.graph) && ClosedExcept(w1.graph, Some(outer))
            && FlagsExcept(w1, None) && ToldOk(w1) && RequestsOk(w1) && Fixpoint(w1)
  {
    ReplayWellFormed(w.journal, forced);
    SetReferenceRest(w.graph, outer, inner);
    ReferFlags(w, outer, inner);
    Append(w.journal, StageComposed(outer, inner), forced);
  }

  /** With the inner stage resolved, the completion of the outer one may be journaled... */
  lemma ReplyJustifies(w: World, forced: Forced, outer: StageId, inner: StageId)
    requires Rest(w, forced)
    requires Pending(w.graph, outer) && Resolved(w.graph, inner)
    requires w.graph.stages[outer].strategy.resultHandling.ReferencedStageResult?
    requires Last(w.journal) == InvocationCompleted(outer, Result(true, StageRefDatum(inner)))
    ensures var w1 := Refer(w, outer, inner);
            var e := StageCompleted(outer, w.graph.stages[inner].result.value);
            Good(w1.journal + [e], forced) && ReplayAll(w1.journal + [e]) == Complete(w1.graph, outer, e.result)
  {
    hide Rest, RequestsOk, ToldOk, FlagsExcept, Fixpoint, Good, ReplayAll, ResolvedUpChain, ClosedExcept, RefsOk, Settle;
    var w1 := Refer(w, outer, inner);
    var r := w.graph.stages[inner].result.value;
    ReplyRefers(w, forced, outer, inner);
    SettleFacts(w1.graph, outer, r);
    AppendEcho(w1.journal, StageCompleted(outer, r), forced);
  }

  lemma NowAwaited(w: World, forced: Forced, x: StageId, r: Result)
    requires x in w.graph.stages && ClosedExcept(w.graph, Some(x)) && RefsOk(w.graph)
    requires FlagsExcept(w, None) && ToldOk(w) && RequestsOk(w)
    requires var j := w.journal + [StageCompleted(x, r)]; Good(j, forced) && ReplayAll(j) == Complete(w.graph, x, r)
    ensures Awaiting(Persist(w, StageCompleted(x, r)), forced, x, r)
  {
    hide RequestsOk, Good, ReplayAll, Complete, ClosedExcept, RefsOk, IsReady, ExecOf;
    RequestsStay(w, StageCompleted(x, r), Persist(w, StageCompleted(x, r)));
  }

  /** ... and is then awaited; ... */
  lemma ReplySettles(w: World, forced: Forced, outer: StageId, inner: StageId)
    requires Rest(w, forced)
    requires Pending(w.graph, outer) && Resolved(w.graph, inner)
    requires w.graph.stages[outer].strategy.resultHandling.ReferencedStageResult?
    requires Last(w.journal) == InvocationCompleted(outer, Result(true, StageRefDatum(inner)))
    ensures var w1 := Refer(w, outer, inner);
            var r := w.graph.stages[inner].result.value;
            Awaiting(Persist(w1, StageCompleted(outer, r)), forced, outer, r)
  {
    hide Rest, RequestsOk, ToldOk, FlagsExcept, Awaiting, Good, ReplayAll, Complete, ClosedExcept, RefsOk, Apply;
    ReplyRefers(w, forced, outer, inner);
    ReplyJustifies(w, forced, outer, inner);
    NowAwaited(Refer(w, outer, inner), forced, outer, w.graph.stages[inner].result.value);
  }

  /** ... otherwise only the reference is set. */
  lemma ReplyOnlyRefers(w: World, forced: Forced, outer: StageId, inner: StageId)
    requires Rest(w, forced)
    requires outer in w.graph.stages && inner in w.graph.stages && !(Pending(w.graph, outer) && Resolved(w.graph, inner))
    requires w.graph.stages[outer].strategy.resultHandling.ReferencedStageResult?
    requires Last(w.journal) == InvocationCompleted(outer, Result(true, StageRefDatum(inner)))
    ensures Rest(Refer(w, outer, inner), forced)
  {
    hide RequestsOk, ToldOk, FlagsExcept, Fixpoint, Good, ReplayAll, RefsOk, ClosedExcept;
    var w1 := Refer(w, outer, inner);
    ReplyRefers(w, forced, outer, inner);
    assert PendingIn(w1.graph, MainPhase) == PendingIn(w.graph, MainPhase);
    assert PendingIn(w1.graph, TerminationPhase) == PendingIn(w.graph, TerminationPhase);
  }

  /** Recording a fact at rest leaves the world at rest. */
  lemma NoteRest(w: World, forced: Forced, e: Event)
    requires Rest(w, forced) && Admissible(w.journal, e) && (e.DelayScheduled? || e.InvocationCompleted?)
    ensures Rest(Persist(w, e), forced)
  {
    NoteConsistent(w, forced, e);
  }

  /** Recording the schedule of a delay. */
  lemma DelayNoted(w: World, forced: Forced, x: StageId, due: int)
    requires Rest(w, forced) && x in w.graph.stages && w.graph.stages[x].operation.Delay?
    ensures Rest(Persist(w, DelayScheduled(x, due)), forced)
  {
    NoteRest(w, forced, DelayScheduled(x, due));
  }

  /** Committing. */
  lemma CommitMove(w: World, forced: Forced)
    requires Rest(w, forced) && w.graph.state.Initial?
    ensures Consistent(Move(w, GraphCommitted), forced) && Fixpoint(Move(w, GraphCommitted))
    ensures Move(w, GraphCommitted) == Persist(w, GraphCommitted).(graph := w.graph.(state := Committed))
  {
    hide Good, RequestsOk, ToldOk, FlagsExcept, Measure, Cascade, Evaluate;
    assert w.requests + [] == w.requests;
    var w' := Move(w, GraphCommitted);
    LifecycleMove(w, forced, GraphCommitted);
    forall y: StageId | Pending(w'.graph, y) && IsReady(w'.graph, y) ensures y in w'.triggered {
      assert DependencyResults(w'.graph, w'.graph.stages[y].dependencies) == DependencyResults(w.graph, w.graph.stages[y].dependencies);
      assert IsReady(w.graph, y);
    }
  }

  /** What the guards of an addition check holds of every admissible one. */
  lemma AdditionGuards(p: seq<Event>, forced: Forced, x: StageId, op: Operation, closure: Option<Blob>, deps: seq<StageId>)
    requires Good(p, forced) && Admissible(p, StageAdded(x, op, closure, deps))
    ensures StrategyOf(op).Some? && ArityOk(StrategyOf(op).value, |deps|) && x !in ReplayAll(p).stages
    ensures forall i :: 0 <= i < |deps| ==> deps[i] in ReplayAll(p).stages
  {
    ReplayWellFormed(p, forced);
  }

  /** A main stage added at rest: consistent, lifecycle at rest, not yet triggered. */
  lemma MainAdded(w: World, forced: Forced, e: Event)
    requires Rest(w, forced) && e.StageAdded? && Admissible(w.journal, e)
    ensures Consistent(Move(w, e), forced) && LifecycleRest(Move(w, e).graph)
  {
    AddedConsistent(w, forced, e);
    AddedLifecycle(w, forced, e);
  }

  /** The event that follows a reply: the completion it leads to, or the composition it asks for. */
  function AfterReply(g: Graph, x: StageId, reply: Result): Event {
    if x in g.stages && Handled(g, x, reply).Some? then StageCompleted(x, Handled(g, x, reply).value)
    else StageComposed(x, if reply.datum.StageRefDatum? then reply.datum.stage else x)
  }

  lemma RepliesScheduleNothing(g: Graph, x: StageId, reply: Result)
    ensures !AfterReply(g, x, reply).DelayScheduled?
  {
  }

  /** A cascade after an awaited completion has run dry when the actor rests. */
  lemma RepliedRanDry(w: World, x: StageId, r: Result, w': World, forced: Forced)
    requires Follows(Persist(w, StageCompleted(x, r)), w') && Rest(w', forced)
    ensures RanDry(w.journal + [StageCompleted(x, r)], w.triggered, w'.journal)
  {
    RestRanDry(Persist(w, StageCompleted(x, r)), w', forced);
  }

  lemma ComposedRanDry(w: World, forced: Forced, outer: StageId, inner: StageId, w': World)
    requires Rest(w, forced) && Pending(w.graph, outer) && Resolved(w.graph, inner)
    requires w.graph.stages[outer].strategy.resultHandling.ReferencedStageResult?
    requires Last(w.journal) == InvocationCompleted(outer, Result(true, StageRefDatum(inner)))
    requires Rest(w', forced)
    requires Follows(Persist(Refer(w, outer, inner), StageCompleted(outer, w.graph.stages[inner].result.value)), w')
    ensures RanDry(w.journal + [StageComposed(outer, inner)], w.triggered, w'.journal)
  {
    hide RequestsOk, ToldOk, FlagsExcept, Fixpoint, LifecycleRest, Good, Measure;
    var w1 := Refer(w, outer, inner);
    var r := w.graph.stages[inner].result.value;
    var m := Persist(w1, StageCompleted(outer, r));
    ReplyRefers(w, forced, outer, inner);
    SettleFacts(w1.graph, outer, r);
    CascadeRefl(w1.journal, w.triggered);
    CascadeSnoc(w1.journal, w.triggered, w1.journal, StageCompleted(outer, r));
    FollowsAfter(w1, m, w');
    RestRanDry(w1, w', forced);
  }

  lemma ReferReplaying(w: World, outer: StageId, inner: StageId)
    requires Replaying(w) && inner in w.graph.stages
    ensures Replaying(w.(graph := SetReference(w.graph, outer, inner)))
  {
    var w1 := w.(graph := SetReference(w.graph, outer, inner));
    forall y: StageId ensures Resolved(w1.graph, y) <==> Resolved(w.graph, y) {}
    forall y: StageId | Resolved(w1.graph, y) ensures exists n :: 0 <= n < |w1.told| && w1.told[n].stage == y {
      assert Resolved(w.graph, y);
    }
  }

  // ----- Recovery -----

  /** What follows a completion that was awaited. */
  lemma AwaitingFollowed(w: World, forced: Forced, x: StageId, r: Result, w': World)
    requires Awaiting(w, forced, x, r) && Consistent(w', forced) && Follows(w, w')
    ensures Grown(w.graph, w'.graph) && Resolved(w'.graph, x) && w.journal <= w'.journal
    ensures Pending(w.graph, x) ==> w'.graph.stages[x].result == Some(r)
  {
    AwaitingGrows(w, forced, x, r, w');
  }

  /** The completion of a lost stage. */
  function LostEvent(x: StageId): Event { StageCompleted(x, StageLostResult()) }

  /** All that a recovery does: if some stage could be triggered, one of them is failed as lost and
      what follows from that runs dry; otherwise what is due runs dry. */
  ghost predicate Recovered(w: World, f: Forced, lost: Option<StageId>, w': World, f': Forced) {
    match lost
    case None =>
      && (forall x: StageId :: !Triggerable(w, x)) && f' == f
      && RanDry(w.journal, w.triggered, w'.journal) && (LifecycleRest(w.graph) ==> w' == w)
    case Some(x) =>
      && Triggerable(w, x) && f' == AlsoLost(f, x)
      && RanDry(w.journal + [LostEvent(x)], w.triggered + {x}, w'.journal)
  }

  /** While recovery goes through the stages, with `remaining` still to visit: nothing has happened
      yet, or one stage was failed and the actor is at rest again. */
  ghost predicate Recovering(w0: World, f0: Forced, remaining: set<StageId>, lost: Option<StageId>, w: World, f: Forced) {
    if lost.None? then w == w0 && f == f0 && forall x: StageId :: Triggerable(w0, x) ==> x in remaining
    else Rest(w, f) && Recovered(w0, f0, lost, w, f)
  }

  lemma RecoveryStarts(w0: World, f0: Forced)
    ensures Recovering(w0, f0, w0.graph.stages.Keys, None, w0, f0)
  {
  }

  lemma RecoveryStep(
    w0: World, f0: Forced, remaining: set<StageId>, lost: Option<StageId>, x: StageId, w: World, f: Forced, w': World, f': Forced)
    requires Recovering(w0, f0, remaining, lost, w, f)
    requires if Triggerable(w, x) then Rest(w', f') && Recovered(w, f, Some(x), w', f') else w' == w && f' == f
    ensures Recovering(w0, f0, remaining - {x}, if Triggerable(w, x) then Some(x) else lost, w', f')
  {
    hide RanDry, Consistent, LifecycleRest;
  }

  /** A pass over the stages of an actor that leaves nobody to be triggered does nothing. */
  lemma QuietAtFixpoint(w1: World, f: Forced, w2: World)
    requires Consistent(w1, f) && Fixpoint(w1) && Consistent(w2, f) && w1.triggered <= w2.triggered
    requires Idle(w1) ==> w2 == w1.(triggered := w2.triggered)
    ensures w2 == w1
  {
    hide Good, ToldOk, RequestsOk, ReplayAll, IsReady;
    assert Idle(w1);
    forall y: StageId | y in w2.triggered ensures y in w1.triggered {
      assert !Triggerable(w1, y);
    }
    assert w2.triggered == w1.triggered;
  }

  lemma NobodyLost(w0: World, f0: Forced, w1: World, f1: Forced)
    requires Recovering(w0, f0, {}, None, w1, f1)
    ensures Fixpoint(w0) && w1 == w0 && f1 == f0 && forall x: StageId :: !Triggerable(w0, x)
  {
    forall x: StageId | Pending(w0.graph, x) && IsReady(w0.graph, x) ensures x in w0.triggered {
      assert !Triggerable(w0, x);
    }
  }

  lemma LostAtRest(w0: World, f0: Forced, lost: Option<StageId>, w1: World, f1: Forced)
    requires Recovering(w0, f0, {}, lost, w1, f1) && lost.Some?
    ensures Fixpoint(w1) && LifecycleRest(w1.graph) && Recovered(w0, f0, lost, w1, f1)
  {
  }

  lemma NobodyRecovered(w0: World, f0: Forced, w': World)
    requires (forall x: StageId :: !Triggerable(w0, x)) && Follows(w0, w') && Rest(w', f0)
    requires LifecycleRest(w0.graph) ==> w' == w0
    ensures Recovered(w0, f0, None, w', f0)
  {
    RestRanDry(w0, w', f0);
  }

  lemma LostFailed(w: World, f: Forced, x: StageId, w': World)
    requires Triggerable(w, x) && Follows(Persist(Mark(w, x), LostEvent(x)), w') && Rest(w', AlsoLost(f, x))
    ensures Recovered(w, f, Some(x), w', AlsoLost(f, x))
  {
    RestRanDry(Persist(Mark(w, x), LostEvent(x)), w', AlsoLost(f, x));
  }

  /** Whatever recovery does, it undoes nothing. */
  lemma RecoveredExtends(w: World, f: Forced, lost: Option<StageId>, w': World, f': Forced)
    requires Consistent(w, f) && Recovered(w, f, lost, w', f') && Rest(w', f')
    ensures w.journal <= w'.journal && Extends(w.graph, w'.graph) && Delays(w'.journal) == Delays(w.journal)
  {
    hide Fixpoint, LifecycleRest, FlagsExcept, ToldOk, RequestsOk, Exhausted, Good, ReplayAll, Extends;
    if lost.None? {
      DelaysOfCascade(w.journal, w.triggered, w'.journal);
    } else {
      var p := w.journal + [LostEvent(lost.value)];
      DelaysOfCascade(p, w.triggered + {lost.value}, w'.journal);
      DelaysSnoc(w.journal, LostEvent(lost.value));
    }
    ReplayExtends(w'.journal, |w.journal|, f');
    assert w'.journal[..|w.journal|] == w.journal;
  }

  /** What the next event of a good journal may rely on. */
  lemma ReplayOne(p: seq<Event>, e: Event, forced: Forced)
    requires Good(p + [e], forced)
    ensures Good(p, forced) && Admissible(p, e) && ReplayAll(p + [e]) == Apply(ReplayAll(p), e)
    ensures Delays([e]) == (if e.DelayScheduled? then [Timer(e.stage, e.dueMs, EmptyResult())] else [])
    ensures var g := ReplayAll(p); g.terminationChainHead.Some? ==> g.terminationChainHead.value in g.stages
    ensures if e.GraphCreated? then p == [] && ReplayAll(p) == NewGraph() else p != []
    ensures e.GraphTerminating? ==> ReplayAll(p).state.Committed?
    ensures e.StageCompleted? ==>
              e.stage in ReplayAll(p).stages && RefsOk(ReplayAll(p)) && ClosedExcept(ReplayAll(p), Some(e.stage))
    ensures e.StageComposed? ==> e.stage in ReplayAll(p).stages && e.inner in ReplayAll(p).stages
    ensures e.StageComposed? ==>
              var g1 := SetReference(ReplayAll(p), e.stage, e.inner);
              RefsOk(g1) && ClosedExcept(g1, Some(e.stage))
  {
    Append(p, e, forced);
    ReplayWellFormed(p, forced);
    assert Init([e]) == [] && Last([e]) == e;
    if e.StageComposed? { SetReferenceRest(ReplayAll(p), e.stage, e.inner); }
  }

  /** What replaying an event does, case by case. */
  lemma ReplayCases(g: Graph, e: Event)
    ensures e.GraphCommitted? ==> Apply(g, e) == g.(state := Committed) && Reemit(g, e) == []
    ensures e.GraphCompleted? ==> Apply(g, e) == g.(state := Completed) && Reemit(g, e) == []
    ensures e.InvocationStarted? || e.InvocationCompleted? || e.DelayScheduled? ==> Apply(g, e) == g && Reemit(g, e) == []
    ensures e.StageAdded? && e.op.TerminationHook? ==> Apply(g, e) == AddHook(g, e.stage, e.closure)
    ensures e.StageCompleted? && e.stage in g.stages ==> Apply(g, e) == Complete(g, e.stage, e.result)
  {
  }

  /** Events that resolve nobody leave a replaying world replaying. */
  lemma ReplayingAfter(w: World, p: seq<Event>, e: Event, forced: Forced)
    requires Replaying(w) && w.graph == ReplayAll(p) && Good(p, forced) && Admissible(p, e)
    requires e.StageAdded? || e.GraphCommitted? || e.GraphTerminating? || e.GraphCompleted?
    ensures Replaying(w.(graph := Apply(w.graph, e))) && Reemit(w.graph, e) == []
  {
    hide Good, KeysOk, StagesOk, ChainOk, RefsOk, ComposeClosed, StrategyOf;
    var w1 := w.(graph := Apply(w.graph, e));
    ReplayWellFormed(p, forced);
    forall y: StageId
      ensures Resolved(w1.graph, y) <==> Resolved(w.graph, y)
      ensures Resolved(w.graph, y) ==> w1.graph.stages[y].result == w.graph.stages[y].result
    {
      if e.StageAdded? { AddedResultsSame(w.graph, e, y); }
    }
    forall y: StageId | Resolved(w1.graph, y) ensures exists n :: 0 <= n < |w1.told| && w1.told[n].stage == y {
      assert Resolved(w.graph, y);
    }
  }

  // ----- Starting a generation -----

  lemma ReplayStart(stored: seq<Event>)
    ensures stored[..0] == [] && ReplayAll([]) == NewGraph() && Reemitted([]) == [] && Delays([]) == []
    ensures Replaying(World(NewGraph(), stored, {}, [], [], |stored|))
  {
  }

  lemma NextStored(stored: seq<Event>, k: nat, forced: Forced)
    requires Good(stored, forced) && k < |stored|
    ensures stored[..k + 1] == stored[..k] + [stored[k]] && Good(stored[..k] + [stored[k]], forced)
    ensures Reemitted(stored[..k + 1]) == Reemitted(stored[..k]) + Reemit(ReplayAll(stored[..k]), stored[k])
    ensures Delays(stored[..k + 1]) == Delays(stored[..k]) + Delays([stored[k]])
  {
    GoodPrefix(stored, k + 1, forced);
    assert stored[..k + 1] == stored[..k] + [stored[k]];
    InitLast(stored[..k], stored[k]);
    assert Init([stored[k]]) == [] && Last([stored[k]]) == stored[k];
  }

  /** What a replay writes again obliges to nothing. */
  lemma {:induction false} EchoesOweNothing(j: seq<Event>, es: seq<Event>)
    requires forall i :: 0 <= i < |es| ==> es[i].StageCompleted?
    ensures Owed(j + es, |j|) == [] && Delays(j + es) == Delays(j)
    decreases |es|
  {
    hide ReplayAll, IsReady;
    if es == [] {
      assert j + es == j;
    } else {
      EchoesOweNothing(j, Init(es));
      assert j + es == (j + Init(es)) + [Last(es)];
      OwedSnoc(j + Init(es), Last(es), |j|);
      DelaysSnoc(j + Init(es), Last(es));
    }
  }

  /** When the whole journal has been replayed the world is consistent with what was read plus
      what was written again. */
  lemma ReplayedConsistent(w: World, stored: seq<Event>, forced: Forced)
    requires stored != [] && Good(stored, forced) && Replaying(w) && w.base == |stored|
    requires w.graph == ReplayAll(stored) && w.journal == stored + Reemitted(stored)
    ensures Consistent(w, forced) && Delays(w.journal) == Delays(stored)
  {
    hide ReplayAll, Good, Reemitted, ToldOk;
    ReplayIsIdempotent(stored, forced);
    ReplayOnlyEchoes(stored, forced);
    EchoesOweNothing(stored, Reemitted(stored));
  }

  /** Pending and ready with nobody left to answer: lost with the previous generation. */
  predicate Lost(g: Graph, x: StageId) { Pending(g, x) && IsReady(g, x) }

  function ResolvedSet(g: Graph): set<StageId> {
    set x | x in g.stages && g.stages[x].result.Some?
  }

  /** All that a start from a stored journal does, beyond rebuilding its graph: if some stage was
      lost, one of the lost is failed and what follows from that runs dry; otherwise what is due
      runs dry. */
  ghost predicate Restarted(stored: seq<Event>, known: Forced, lost: Option<StageId>, j: seq<Event>, g: Graph, forced: Forced) {
    var g0, p := ReplayAll(stored), stored + Reemitted(stored);
    match lost
    case None =>
      && (forall x: StageId :: !Lost(g0, x)) && forced == known
      && RanDry(p, ResolvedSet(g0), j) && (LifecycleRest(g0) ==> g == g0 && j == p)
    case Some(x) =>
      && Lost(g0, x) && forced == AlsoLost(known, x)
      && RanDry(p + [LostEvent(x)], ResolvedSet(g0) + {x}, j)
  }

  lemma RecoveredIsRestarted(w: World, stored: seq<Event>, known: Forced, lost: Option<StageId>, w': World, f': Forced)
    requires Replaying(w) && w.graph == ReplayAll(stored) && w.journal == stored + Reemitted(stored)
    requires Recovered(w, known, lost, w', f')
    ensures Restarted(stored, known, lost, w'.journal, w'.graph, f')
  {
    hide ReplayAll, Reemitted, RanDry, ToldOk, IsReady;
    assert w.triggered == ResolvedSet(w.graph);
    assert forall x: StageId :: Triggerable(w, x) <==> Lost(w.graph, x);
  }

  lemma NothingStored(known: Forced)
    ensures Restarted([], known, None, [], NewGraph(), known) && Extends(ReplayAll([]), NewGraph())
  {
  }

  lemma NewRest(w: World, forced: Forced)
    requires w == World(NewGraph(), [GraphCreated], {}, [], [], 0)
    ensures Rest(w, forced) && Delays(w.journal) == [] && Delays([]) == []
  {
    assert Init(w.journal) == [] && Last(w.journal) == GraphCreated;
    assert Good([], forced);
  }

  lemma HeadPresent(w: World, forced: Forced)
    requires Rest(w, forced)
    ensures w.graph.terminationChainHead.Some? ==> w.graph.terminationChainHead.value in w.graph.stages
  {
    ReplayWellFormed(w.journal, forced);
  }

  // ----- Stages that wait for the outside -----

  lemma PassiveAdmissible(w: World, forced: Forced, op: Operation)
    requires Rest(w, forced) && ValidateAdd(w.graph, op, 0, false).None?
    requires op.CompletedValue? || op.Delay? || op.InvokeFunction?
    ensures Good(w.journal, forced) && ReplayAll(w.journal) == w.graph
    ensures Admissible(w.journal, StageAdded(|w.graph.stages|, op, None, []))
    ensures |w.graph.stages| !in w.graph.stages
  {
    ReplayWellFormed(w.journal, forced);
  }

  /** Whoever is triggered by the addition of such a stage is the new stage, and calls a function. */
  lemma PassiveTriggersNobody(w: World, forced: Forced, e: Event, w': World, y: StageId)
    requires Rest(w, forced) && e.StageAdded? && Admissible(w.journal, e)
    requires e.op.CompletedValue? || e.op.Delay? || e.op.InvokeFunction?
    requires w' == Move(w, e).(triggered := w'.triggered) && FlagsExcept(w', None)
    requires y in w'.triggered && y !in w.triggered
    ensures y == e.stage && e.op.InvokeFunction?
  {
    hide Good, RequestsOk, ToldOk, Fixpoint, Apply, Trigger, Shape, StrategyOf, LifecycleRest;
    ReplayWellFormed(w.journal, forced);
    AddedResultsSame(w.graph, e, y);
    PassiveRows(e.op);
    NeverRow(e.op);
    AddedStage(w.graph, e);
    assert Triggerable(Move(w, e), y);
    OnlyNewTriggerable(w, forced, e, y);
    if !e.op.InvokeFunction? { NeverReady(w'.graph, y); }
  }

  lemma NeverReady(g: Graph, y: StageId)
    requires y in g.stages && g.stages[y].strategy.trigger.TriggerNever?
    ensures !IsReady(g, y)
  {
  }

  /** A stage without dependencies that waits for all of them is ready. */
  lemma ReadyAtOnce(g: Graph, y: StageId)
    requires y in g.stages && g.stages[y].strategy.trigger.WaitForAll? && g.stages[y].dependencies == []
    ensures IsReady(g, y)
  {
    assert AllResolved(DependencyResults(g, []));
  }

  /** Adding such a stage triggers nobody, except that a function stage is marked. */
  lemma PassiveTriggered(w: World, forced: Forced, e: Event, w': World)
    requires Rest(w, forced) && e.StageAdded? && Admissible(w.journal, e) && e.deps == []
    requires e.op.CompletedValue? || e.op.Delay? || e.op.InvokeFunction?
    requires w' == Move(w, e).(triggered := w'.triggered) && Rest(w', forced) && w.triggered <= w'.triggered
    ensures w'.triggered == w.triggered + (if e.op.InvokeFunction? then {e.stage} else {})
    ensures Pending(w'.graph, e.stage) && w'.graph.stages[e.stage].operation == e.op
  {
    hide Good, ReplayAll, RequestsOk, ToldOk, FlagsExcept, IsReady, Apply, Admissible;
    AddedStage(w.graph, e);
    forall y: StageId | y in w'.triggered && y !in w.triggered ensures y == e.stage && e.op.InvokeFunction? {
      PassiveTriggersNobody(w, forced, e, w', y);
    }
    if e.op.InvokeFunction? { ReadyAtOnce(w'.graph, e.stage); }
  }

  lemma PassiveAdded(w: World, w1: World, x: StageId, op: Operation)
    requires w1 == Move(w, StageAdded(x, op, None, [])).(triggered := w1.triggered)
    ensures w1.graph == Apply(w.graph, StageAdded(x, op, None, [])) && w1.requests == w.requests
    ensures w1.journal == w.journal + [StageAdded(x, op, None, [])]
  {
    assert w.requests + [] == w.requests;
  }

  /** The start of a function call is admissible and its request the only one for the stage. */
  lemma FunctionStarts(w: World, w1: World, forced: Forced, x: StageId)
    requires Rest(w, forced) && x !in w.graph.stages && Rest(w1, forced) && Pending(w1.graph, x)
    requires w1.requests == w.requests && x in w1.triggered && w1.graph.stages[x].operation.InvokeFunction?
    ensures Rest(Persist(w1, InvocationStarted(x)).(requests := w1.requests + [InvokeFunctionFor(x)]), forced)
  {
    hide Good, ReplayAll, IsReady, ExecOf, Owed, OwedBy;
    FunctionStartIsGood(w1, forced, x);
    OwedSnoc(w1.journal, InvocationStarted(x), w1.base);
  }

  lemma FunctionStartIsGood(w1: World, forced: Forced, x: StageId)
    requires Rest(w1, forced) && Pending(w1.graph, x) && x in w1.triggered && w1.graph.stages[x].operation.InvokeFunction?
    ensures Good(w1.journal + [InvocationStarted(x)], forced) && ReplayAll(w1.journal + [InvocationStarted(x)]) == w1.graph
    ensures OwedBy(w1.graph, InvocationStarted(x)) == [InvokeFunctionFor(x)]
  {
    hide ToldOk, RequestsOk, KeysOk, ChainOk, RefsOk, LifecycleOk, ComposeClosed, Trigger;
    ReplayWellFormed(w1.journal, forced);
    StageOf(w1.graph, x);
    Append(w1.journal, InvocationStarted(x), forced);
  }

  /** An accepted addition is admissible. */
  lemma AddAdmissible(w: World, forced: Forced, op: Operation, closure: Option<Blob>, deps: seq<StageId>)
    requires Rest(w, forced) && Validate(w.graph, AddStage(op, closure, deps)).None?
    ensures Good(w.journal, forced) && ReplayAll(w.journal) == w.graph
    ensures Admissible(w.journal, StageAdded(|w.graph.stages|, op, closure, deps))
  {
    ValidationIsExact(w.journal, forced, AddStage(op, closure, deps));
  }

  lemma DelaysSnoc(j: seq<Event>, e: Event)
    ensures Delays(j + [e]) == Delays(j) + (if e.DelayScheduled? then [Timer(e.stage, e.dueMs, EmptyResult())] else [])
  {
    InitLast(j, e);
  }

  /** A cascade schedules no delay. */
  lemma {:induction false} DelaysOfCascade(p: seq<Event>, triggered: set<StageId>, j: seq<Event>)
    requires Cascade(p, triggered, j)
    ensures Delays(j) == Delays(p)
    decreases |j|
  {
    if |j| == |p| {
      assert j == p;
    } else {
      CascadeInit(p, triggered, j);
      DelaysOfCascade(p, triggered, Init(j));
    }
  }

  /** Nor does a message whose own event schedules none. */
  lemma DelaysAfter(j: seq<Event>, e: Event, triggered: set<StageId>, j': seq<Event>)
    requires !e.DelayScheduled? && RanDry(j + [e], triggered, j')
    ensures Delays(j') == Delays(j) && j' != []
  {
    hide Exhausted, Synchronous, Delays;
    DelaysOfCascade(j + [e], triggered, j');
    DelaysSnoc(j, e);
    assert Delays(j) + [] == Delays(j);
  }

  // ----- Commands -----

  /** Why a command is refused (actor/graph.go:85). */
  function Refusal(created: bool, g: Graph, cmd: Command): Option<Error> {
    if cmd.CreateGraph? then if created then Some(GraphAlreadyExists) else None
    else if !created then Some(GraphNotFound)
    else Validate(g, cmd)
  }

  /** The events an accepted command journals itself, before what follows from them. */
  function Head(w: World, cmd: Command): seq<Event> {
    var x := |w.graph.stages|;
    match cmd
    case CreateGraph => [GraphCreated]
    case AddStage(op, closure, deps) => [StageAdded(x, op, closure, deps)]
    case AddCompletedValue(v) => [StageAdded(x, Operation.CompletedValue, None, []), StageCompleted(x, v)]
    case AddDelay(ms, now) => [StageAdded(x, Operation.Delay, None, []), DelayScheduled(x, now + ms)]
    case AddInvokeFunction => [StageAdded(x, Operation.InvokeFunction, None, []), InvocationStarted(x)]
    case CompleteStageExternally(y, v) => if Pending(w.graph, y) then [StageCompleted(y, v)] else []
    case Commit => if w.graph.state.Initial? then [GraphCommitted] else []
    case AwaitStageResult(_) => []
    case CompleteDelay(y, r) => if Pending(w.graph, y) then [StageCompleted(y, r)] else []
    case InvocationResponse(y, r) => [InvocationCompleted(y, r), AfterReply(w.graph, y, r)]
  }

  /** Whom an accepted command completes from outside. */
  function Forces(w: World, cmd: Command): set<StageId> {
    match cmd
    case AddCompletedValue(_) => {|w.graph.stages|}
    case CompleteStageExternally(y, _) => if Pending(w.graph, y) then {y} else {}
    case CompleteDelay(y, _) => if Pending(w.graph, y) then {y} else {}
    case _ => {}
  }

  /** The answer to an accepted command. */
  function Answer(w: World, cmd: Command): Response {
    match cmd
    case CreateGraph => GraphResponse
    case CompleteStageExternally(y, _) => CompletionResponse(Pending(w.graph, y))
    case Commit => Processed
    case AwaitStageResult(y) => AwaitFuture(y)
    case CompleteDelay(_, _) => NoResponse
    case InvocationResponse(_, _) => NoResponse
    case _ => StageResponse(|w.graph.stages|)
  }

  /** The command was answered, its own events journaled, and what follows from them has run dry.
      Commands that only record something, or repeat what was already done, set nothing off. */
  ghost predicate Obeyed(w: World, cmd: Command, w': World, resp: Response) {
    && resp == Answer(w, cmd) && w'.base == w.base
    && if Head(w, cmd) == [] then w' == w
       else if cmd.CreateGraph? || cmd.AddDelay? || cmd.AddInvokeFunction? then w'.journal == w.journal + Head(w, cmd)
       else RanDry(w.journal + Head(w, cmd), w.triggered, w'.journal)
  }

  lemma CreatedObeys(w: World, w': World, cmd: Command, forced: Forced)
    requires cmd.CreateGraph? && w.journal == [] && w'.journal == [GraphCreated] && w'.base == w.base
    ensures Obeyed(w, cmd, w', GraphResponse) && w.journal <= w'.journal && Outside(forced, Forces(w, cmd)) == forced
  {
    assert forced.outside + {} == forced.outside;
  }

  lemma RanDryExtends(j: seq<Event>, es: seq<Event>, triggered: set<StageId>, j': seq<Event>)
    requires RanDry(j + es, triggered, j')
    ensures j <= j'
  {
  }

  lemma ExternalTarget(g: Graph, x: StageId, value: Result)
    requires Validate(g, CompleteStageExternally(x, value)).None?
    ensures x in g.stages
  {
  }

  /** A delay of the stage was scheduled. */
  predicate ScheduledIn(j: seq<Event>, x: StageId) { exists k :: 0 <= k < |j| && j[k].DelayScheduled? && j[k].stage == x }

  /** A timer's target exists. */
  lemma {:induction false} DelayTargetExists(j: seq<Event>, forced: Forced, x: StageId)
    requires Good(j, forced) && ScheduledIn(j, x)
    ensures x in ReplayAll(j).stages
  {
    if !(Last(j).DelayScheduled? && Last(j).stage == x) {
      DelayTargetExists(Init(j), forced, x);
    }
    ReplayWellFormed(Init(j), forced);
    ApplyKeeps(Init(j), Last(j));
  }

  lemma DelayTarget(w: World, forced: Forced, x: StageId)
    requires Rest(w, forced) && ScheduledIn(w.journal, x)
    ensures x in w.graph.stages
  {
    DelayTargetExists(w.journal, forced, x);
  }

  /** Resting worlds with the same journal are the same but for the order of notices. */
  lemma SameJournal(w1: World, f1: Forced, w2: World, f2: Forced)
    requires Rest(w1, f1) && Rest(w2, f2) && w1.journal == w2.journal && w1.base == w2.base
    ensures SameOutcome(w1.graph, w2.graph) && w1.triggered == w2.triggered && w1.requests == w2.requests
  {
    hide Good, ToldOk, IsReady, LifecycleRest, Owed;
    forall x: StageId ensures x in w1.triggered <==> x in w2.triggered {
      TriggeredAtRest(w1, f1, x);
      TriggeredAtRest(w2, f2, x);
    }
  }

  lemma RanDryPrefix(p: seq<Event>, triggered: set<StageId>, j: seq<Event>)
    requires RanDry(p, triggered, j)
    ensures p <= j && j == p + j[|p|..]
  {
  }

  /** The same command on the same resting world, executed twice in whatever iteration orders:
      the same stages are resolved with the same success flags, the same ones triggered, the same
      ones requested, and the same lifecycle state reached. */
  lemma CommandOrderIndependence(
    w: World, forced: Forced, cmd: Command,
    w1: World, f1: Forced, r1: Response, w2: World, f2: Forced, r2: Response)
    requires Rest(w, forced) && !cmd.CreateGraph?
    requires Rest(w1, f1) && Obeyed(w, cmd, w1, r1) && Rest(w2, f2) && Obeyed(w, cmd, w2, r2)
    requires Unambiguous(ReplayAll(w.journal + Head(w, cmd)))
    ensures r1 == r2 && SameOutcome(w1.graph, w2.graph) && w1.triggered == w2.triggered
    ensures forall x: StageId :: Requested(w1, x) <==> Requested(w2, x)
  {
    hide Rest, RanDry, SameOutcome, Unambiguous, ReplayAll, Handled;
    var p := w.journal + Head(w, cmd);
    if Head(w, cmd) == [] || cmd.AddDelay? || cmd.AddInvokeFunction? {
      SameJournal(w1, f1, w2, f2);
    } else {
      RanDryPrefix(p, w.triggered, w1.journal);
      RanDryPrefix(p, w.triggered, w2.journal);
      MessageOrderIndependence(w, forced, p, w1, f1, w2, f2);
    }
  }

  lemma HeadIsGood(w: World, cmd: Command, w': World, forced: Forced, resp: Response)
    requires Rest(w', forced) && Obeyed(w, cmd, w', resp)
    ensures Good(w.journal + Head(w, cmd), forced)
  {
    hide Fixpoint, LifecycleRest, FlagsExcept, ToldOk, RequestsOk, Good, ReplayAll, Head, Answer, Exhausted;
    var p := w.journal + Head(w, cmd);
    assert p <= w'.journal by { if Head(w, cmd) == [] { assert p == w.journal; } }
    GoodPrefix(w'.journal, |p|, forced);
    assert w'.journal[..|p|] == p;
  }

  /** The same under a condition on replies alone: no stage was ever given two different stages to
      compose with, however often it was run and answered. */
  lemma OneInnerOrderIndependence(
    w: World, forced: Forced, cmd: Command,
    w1: World, f1: Forced, r1: Response, w2: World, f2: Forced, r2: Response)
    requires Rest(w, forced) && !cmd.CreateGraph?
    requires Rest(w1, f1) && Obeyed(w, cmd, w1, r1) && Rest(w2, f2) && Obeyed(w, cmd, w2, r2)
    requires OneInner(w.journal + Head(w, cmd))
    ensures r1 == r2 && SameOutcome(w1.graph, w2.graph) && w1.triggered == w2.triggered
    ensures forall x: StageId :: Requested(w1, x) <==> Requested(w2, x)
  {
    hide Rest, Obeyed, Good, ReplayAll, Unambiguous, OneInner, SameOutcome;
    HeadIsGood(w, cmd, w1, f1, r1);
    OneInnerIsUnambiguous(w.journal + Head(w, cmd), f1);
    CommandOrderIndependence(w, forced, cmd, w1, f1, r1, w2, f2, r2);
  }
}
