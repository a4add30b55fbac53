/** The graph actor and its completion graph (actor/graph.go, graph/graph.go, graph/stage.go).
    The listener callbacks re-enter the graph, so the two are one object here. Stages refer to
    each other by identifier. */
module GraphActor {
  import opened FlowModel
  import opened StageStrategy
  import opened Replay
  import opened Structure
  import opened Recovery
  import opened Cascades
  import opened Worlds
  import opened ActorSteps
  import opened Commands
  import opened Requests
  import opened Effects

  class GraphActor {
    // CompletionGraph
    var stages: map<StageId, Stage>
    var state: State
    var terminationRoot: Option<Result>
    var terminationChainHead: Option<StageId>
    // volatile parts of CompletionStage: the triggered flag and the future
    var triggered: set<StageId>
    var told: seq<Notice>
    // graphActor: executor mailbox, delay timers, journal and persistence mixin
    var requests: seq<Request>
    var timers: seq<Timer>
    var journal: seq<Event>
    var eventIndex: nat
    var recovering: bool
    var created: bool
    // where this generation's part of the journal starts
    const base: nat
    // stages completed otherwise than by their strategies
    ghost var forced: Forced

    function Current(): Graph
      reads this
    {
      Graph(stages, state, terminationRoot, terminationChainHead)
    }

    ghost function View(): World
      reads this
    {
      World(Current(), journal, triggered, told, requests, base)
    }

    // ----- Persistence mixin -----

    /** persistence/plugin.go:44. */
    method PersistReceive(e: Event)
      modifies `journal, `eventIndex
      ensures journal == old(journal) + [e] && eventIndex == old(eventIndex) + 1
    {
      journal := journal + [e];
      eventIndex := eventIndex + 1;
    }

    // ----- Stages -----

    /** graph/stage.go:128. */
    method CompleteStage(x: StageId, r: Result) returns (first: bool)
      requires x in stages
      modifies `stages, `triggered, `told
      ensures View() == CompleteIn(old(View()), x, r)
      ensures first == old(Pending(Current(), x))
    {
      triggered := triggered + {x};
      if stages[x].result.None? {
        stages := stages[x := stages[x].(result := Some(r))];
        told := told + [Notice(x, r)];
        return true;
      }
      return false;
    }

    /** graph/stage.go:144. */
    method RequestTrigger(x: StageId) returns (out: Readiness)
      requires x in stages
      modifies `triggered
      ensures out == (if x in old(triggered) then NotReady else Trigger(Current(), x))
      ensures View() == (if out.Ready? then Mark(old(View()), x) else old(View()))
    {
      if x in triggered {
        return NotReady;
      }
      var rs := DependencyResults(Current(), stages[x].dependencies);
      match stages[x].strategy.trigger {
        case WaitForAll => out := WaitForAllLoop(rs);
        case TriggerAny => out := TriggerAnyLoop(rs);
        case TriggerNever => out := NotReady;
      }
      if out.Ready? {
        triggered := triggered + {x};
      }
    }

    // ----- Listener callbacks -----

    /** actor/graph.go:412. */
    method OnExecuteStage(x: StageId, args: seq<Result>)
      requires x in stages
      modifies `journal, `eventIndex, `requests
      ensures journal == old(journal) + [InvocationStarted(x)] && eventIndex == old(eventIndex) + 1
      ensures requests == old(requests) + [InvokeStage(x, args, stages[x].closure)]
    {
      PersistReceive(InvocationStarted(x));
      requests := requests + [InvokeStage(x, args, stages[x].closure)];
    }

    /** actor/graph.go:431. */
    method OnCompleteStage(x: StageId, r: Result)
      requires x in stages
      requires !recovering ==> Awaiting(Persist(View(), StageCompleted(x, r)), forced, x, r)
      requires recovering ==> Replaying(View()) && ClosedExcept(Current(), Some(x)) && RefsOk(Current())
      modifies `stages, `state, `terminationRoot, `triggered, `told, `requests, `journal, `eventIndex
      ensures !recovering ==> Rest(View(), forced) && Follows(Persist(old(View()), StageCompleted(x, r)), View())
      ensures recovering ==> Replaying(View()) && Current() == Complete(old(Current()), x, r)
      ensures recovering ==> journal == old(journal) + [StageCompleted(x, r)] + Reemit(old(Current()), StageCompleted(x, r))
      ensures Grown(old(Current()), Current()) && Resolved(Current(), x) && old(triggered) <= triggered
      ensures eventIndex + |old(journal)| == old(eventIndex) + |journal|
      decreases Budget(View(), x), 6
    {
      hide Rest, Awaiting, Follows, Grown, Reemit, ClosedExcept, RefsOk, Complete, RequestsOk, Budget;
      ghost var w := View();
      BudgetIgnoresJournal(w, StageCompleted(x, r), x);
      PersistReceive(StageCompleted(x, r));
      assert View() == Persist(w, StageCompleted(x, r));
      HandleStageCompleted(x, r);
    }

    /** actor/graph.go:452. */
    method OnGraphExecutionFinished()
      requires !recovering ==> Consistent(View(), forced) && Fixpoint(View())
      requires state.Committed? && PendingIn(Current(), MainPhase) == {}
      modifies `stages, `state, `terminationRoot, `triggered, `told, `requests, `journal, `eventIndex
      ensures !recovering ==> Rest(View(), forced) && Follows(old(View()), View())
      ensures recovering ==> View() == old(View())
      ensures Grown(old(Current()), Current()) && old(triggered) <= triggered
      ensures eventIndex + |old(journal)| == old(eventIndex) + |journal|
      decreases Measure(View()), 1
    {
      if recovering {
        return;
      }
      PersistReceive(GraphTerminating(StatusSucceeded));
      HandleTerminating(StatusSucceeded);
    }

    /** actor/graph.go:466. */
    method OnGraphComplete()
      requires !recovering ==> Consistent(View(), forced) && Fixpoint(View())
      requires state.Terminating? && PendingIn(Current(), TerminationPhase) == {}
      modifies `state, `journal, `eventIndex, `requests
      ensures !recovering ==> Rest(View(), forced) && Follows(old(View()), View())
      ensures !recovering ==> View() == Move(old(View()), GraphCompleted)
      ensures recovering ==> View() == old(View())
      ensures Grown(old(Current()), Current())
      ensures eventIndex + |old(journal)| == old(eventIndex) + |journal|
    {
      hide Consistent, Follows, Fixpoint, LifecycleRest, Grown, PendingIn;
      GrownRefl(Current());
      if recovering {
        return;
      }
      CompletedRest(View(), forced);
      ghost var w := View();
      PersistReceive(GraphCompleted);
      state := Completed;
      requests := requests + [Deactivate];
      assert View() == Move(w, GraphCompleted);
    }

    // ----- Event handlers -----

    /** graph/graph.go:234. */
    method HandleStageCompleted(x: StageId, r: Result)
      requires x in stages
      requires !recovering ==> Awaiting(View(), forced, x, r)
      requires recovering ==> Replaying(View()) && ClosedExcept(Current(), Some(x)) && RefsOk(Current())
      modifies `stages, `state, `terminationRoot, `triggered, `told, `requests, `journal, `eventIndex
      ensures !recovering ==> Rest(View(), forced) && Follows(old(View()), View())
      ensures recovering ==> Replaying(View()) && Current() == Complete(old(Current()), x, r)
      ensures recovering ==> journal == old(journal) + Reemit(old(Current()), StageCompleted(x, r))
      ensures Grown(old(Current()), Current()) && Resolved(Current(), x) && old(triggered) <= triggered
      ensures eventIndex + |old(journal)| == old(eventIndex) + |journal|
      decreases Budget(View(), x), 5, 1
    {
      hide Consistent, Follows, Awaiting, Measure, Budget, Fixpoint, LifecycleRest, Replaying, Grown, Complete, Reemit, ClosedExcept, RefsOk;
      ghost var w := View();
      CompleteWithChain(x, r);
      ghost var w1 := View();
      if !recovering {
        TriggerReadyStages();
        FollowsTransitive(w, w1, View(), forced);
        GrownMeasure(w1, View());
        GrownTransitive(w.graph, w1.graph, Current());
        GrownKeepsResolved(w1.graph, Current(), x);
      }
      ghost var w2 := View();
      CheckForExecutionFinished();
      if !recovering {
        FollowsTransitive(w, w2, View(), forced);
      }
      GrownTransitive(w.graph, w2.graph, Current());
      GrownKeepsResolved(w2.graph, Current(), x);
    }

    /** graph/graph.go:237-242: the completion and the compose chain above it. */
    method CompleteWithChain(x: StageId, r: Result)
      requires x in stages
      requires !recovering ==> Awaiting(View(), forced, x, r)
      requires recovering ==> Replaying(View()) && ClosedExcept(Current(), Some(x)) && RefsOk(Current())
      modifies `stages, `state, `terminationRoot, `triggered, `told, `requests, `journal, `eventIndex
      ensures !recovering ==> Consistent(View(), forced) && Follows(old(View()), View())
      ensures recovering ==> Replaying(View()) && Current() == Complete(old(Current()), x, r)
      ensures recovering ==> journal == old(journal) + Reemit(old(Current()), StageCompleted(x, r))
      ensures Grown(old(Current()), Current()) && Resolved(Current(), x) && old(triggered) <= triggered
      ensures Measure(View()) <= old(Budget(View(), x))
      ensures eventIndex + |old(journal)| == old(eventIndex) + |journal|
      decreases Budget(View(), x), 5, 0
    {
      hide Consistent, Follows, Awaiting, Measure, Budget, Fixpoint, LifecycleRest, Replaying, Grown, ClosedExcept, RefsOk, Complete, Reemit, Rest;
      ghost var w := View();
      BudgetIsMeasureAfter(w, x, r);
      if recovering { ReplayCompletes(w, x, r); } else { LiveCompletes(w, forced, x, r); }
      var _ := CompleteStage(x, r);
      ghost var w1 := View();
      if stages[x].composeReference.Some? {
        assert ComposedInto(w1.graph, x, stages[x].composeReference.value);
        TryCompleteComposedStage(stages[x].composeReference.value, x);
        GrownMeasure(w1, View());
        GrownTransitive(w.graph, w1.graph, Current());
        GrownKeepsResolved(w1.graph, Current(), x);
      }
      if recovering {
        ReplayCompleted(w, x, r, View());
      } else {
        GrownRefl(w1.graph);
        LiveCompleted(w, forced, x, r, View());
      }
    }

    /** graph/graph.go:297. */
    method TryCompleteComposedStage(outer: StageId, inner: StageId)
      requires inner in stages && outer in stages && stages[inner].composeReference == Some(outer)
      requires Resolved(Current(), inner) && Pending(Current(), outer) && !recovering ==>
                 Awaiting(Persist(View(), StageCompleted(outer, stages[inner].result.value)), forced, outer, stages[inner].result.value)
      requires recovering ==> Replaying(View()) && ClosedExcept(Current(), Some(outer)) && RefsOk(Current())
      modifies `stages, `state, `terminationRoot, `triggered, `told, `requests, `journal, `eventIndex
      ensures !old(Resolved(Current(), inner) && Pending(Current(), outer)) ==> View() == old(View())
      ensures old(Resolved(Current(), inner) && Pending(Current(), outer)) && !recovering ==>
                Rest(View(), forced) && Follows(Persist(old(View()), StageCompleted(outer, old(stages[inner].result.value))), View())
      ensures old(Resolved(Current(), inner) && Pending(Current(), outer)) && recovering ==>
                var r := old(stages[inner].result.value);
                && Replaying(View()) && Current() == Complete(old(Current()), outer, r)
                && journal == old(journal) + [StageCompleted(outer, r)] + Reemit(old(Current()), StageCompleted(outer, r))
      ensures Grown(old(Current()), Current()) && old(triggered) <= triggered
      ensures eventIndex + |old(journal)| == old(eventIndex) + |journal|
      decreases Measure(View()), 4
    {
      if stages[inner].result.Some? && stages[outer].result.None? {
        BudgetIsMeasureAfter(View(), outer, stages[inner].result.value);
        OnCompleteStage(outer, stages[inner].result.value);
      }
    }

    /** graph/graph.go:304: one pass over the stages in any order. */
    method TriggerReadyStages()
      requires !recovering && Consistent(View(), forced)
      modifies `stages, `state, `terminationRoot, `triggered, `told, `requests, `journal, `eventIndex
      ensures Consistent(View(), forced) && Fixpoint(View()) && Follows(old(View()), View())
      ensures LifecycleRest(old(Current())) ==> LifecycleRest(Current())
      ensures old(Idle(View())) ==> View() == old(View()).(triggered := triggered)
      ensures Grown(old(Current()), Current()) && old(triggered) <= triggered
      ensures eventIndex + |old(journal)| == old(eventIndex) + |journal|
      decreases Measure(View()), 3, 1
    {
      hide Consistent, Follows, Measure, Idle, Grown;
      ghost var w0 := View();
      FollowsRefl(w0);
      GrownRefl(w0.graph);
      var remaining := stages.Keys;
      while remaining != {}
        invariant remaining <= stages.Keys
        invariant Consistent(View(), forced) && Follows(w0, View())
        invariant Grown(w0.graph, Current()) && w0.triggered <= triggered
        invariant forall y: StageId :: y !in remaining && Pending(Current(), y) && IsReady(Current(), y) ==> y in triggered
        invariant LifecycleRest(w0.graph) ==> LifecycleRest(Current())
        invariant Idle(w0) ==> View() == w0.(triggered := triggered)
        invariant eventIndex + |w0.journal| == old(eventIndex) + |journal|
        decreases |remaining|
      {
        var x :| x in remaining;
        remaining := remaining - {x};
        ghost var w := View();
        GrownMeasure(w0, w);
        VisitStage(x);
        FollowsTransitive(w0, w, View(), forced);
        GrownTransitive(w0.graph, w.graph, Current());
        GrownKeys(w.graph, Current());
        if Idle(w0) { IdleStays(w0, w); }
      }
    }

    /** graph/graph.go:306-314: one stage of the pass. */
    method VisitStage(x: StageId)
      requires !recovering && Consistent(View(), forced) && x in stages
      modifies `stages, `state, `terminationRoot, `triggered, `told, `requests, `journal, `eventIndex
      ensures Consistent(View(), forced) && Follows(old(View()), View())
      ensures (Current() == old(Current()) && (Pending(Current(), x) && IsReady(Current(), x) ==> x in triggered))
              || (Fixpoint(View()) && LifecycleRest(Current()))
      ensures old(Idle(View())) ==> View() == old(View()).(triggered := triggered)
      ensures Grown(old(Current()), Current()) && old(triggered) <= triggered
      ensures eventIndex + |old(journal)| == old(eventIndex) + |journal|
      decreases Measure(View()), 3, 0
    {
      hide Consistent, Follows, Measure, Grown;
      ghost var w := View();
      FollowsRefl(w);
      GrownRefl(w.graph);
      if stages[x].result.None? {
        var out := RequestTrigger(x);
        if out.Ready? {
          MarkMeasure(w, x);
          TriggerStage(x, out, w);
        }
      }
    }

    /** graph/stage.go:166 with the execution strategies of graph/stage_strategy.go:66. */
    method TriggerStage(x: StageId, out: Readiness, ghost w: World)
      requires !recovering && Consistent(w, forced) && Triggerable(w, x)
      requires View() == Mark(w, x) && out == Trigger(w.graph, x)
      modifies `stages, `state, `terminationRoot, `triggered, `told, `requests, `journal, `eventIndex
      ensures Consistent(View(), forced) && Follows(w, View())
      ensures (Current() == w.graph && x in triggered) || (Fixpoint(View()) && LifecycleRest(Current()))
      ensures ExecOf(w.graph, x).CompleteExternally? ==> View() == Mark(w, x)
      ensures NeedsSingleInput(ExecOf(w.graph, x)) ==> |out.inputs| == 1
      ensures Invokes(ExecOf(w.graph, x)) ==> View() == Invoke(w, x, Arguments(ExecOf(w.graph, x), out.inputs))
      ensures Grown(old(Current()), Current()) && old(triggered) <= triggered
      ensures eventIndex + |old(journal)| == old(eventIndex) + |journal|
      decreases Measure(View()), 7
    {
      hide Consistent, Follows, Awaiting, Measure, Budget, Fixpoint, LifecycleRest, Grown, Trigger;
      GrownRefl(w.graph);
      TriggerSingleInput(w, forced, x);
      var kind := Exec(stages[x].strategy, out.status);
      match kind
      case SucceedWithEmpty =>
        TriggerCompletes(w, forced, x);
        BudgetIsMeasureAfter(View(), x, EmptyResult());
        OnCompleteStage(x, EmptyResult());
        FollowsCompletion(w, x, EmptyResult(), View());
      case PropagateResult =>
        assert |out.inputs| == 1;
        TriggerCompletes(w, forced, x);
        BudgetIsMeasureAfter(View(), x, out.inputs[0]);
        OnCompleteStage(x, out.inputs[0]);
        FollowsCompletion(w, x, out.inputs[0], View());
      case CompleteExternally =>
        TriggerWaits(w, forced, x);
      case _ =>
        var args := Arguments(kind, out.inputs);
        TriggerInvokes(w, forced, x, args);
        OnExecuteStage(x, args);
        assert View() == Invoke(w, x, args);
    }

    /** graph/graph.go:318. */
    method GetPendingCount(phase: Phase) returns (count: nat)
      ensures count == |PendingIn(Current(), phase)|
    {
      count := 0;
      var remaining := stages.Keys;
      while remaining != {}
        invariant remaining <= stages.Keys
        invariant count == |PendingIn(Current(), phase) - remaining|
        decreases |remaining|
      {
        var x :| x in remaining;
        CountOne(PendingIn(Current(), phase), remaining, x);
        remaining := remaining - {x};
        if stages[x].phase == phase && stages[x].result.None? {
          count := count + 1;
        }
      }
      assert PendingIn(Current(), phase) - remaining == PendingIn(Current(), phase);
    }

    /** graph/graph.go:337. */
    method CheckForExecutionFinished()
      requires !recovering ==> Consistent(View(), forced) && Fixpoint(View())
      modifies `stages, `state, `terminationRoot, `triggered, `told, `requests, `journal, `eventIndex
      ensures !recovering ==> Rest(View(), forced) && Follows(old(View()), View())
      ensures recovering ==> View() == old(View())
      ensures Grown(old(Current()), Current()) && old(triggered) <= triggered
      ensures eventIndex + |old(journal)| == old(eventIndex) + |journal|
      ensures old(LifecycleRest(Current())) ==> View() == old(View())
      decreases Measure(View()), 2
    {
      FollowsRefl(View());
      match state
      case Committed =>
        var pending := GetPendingCount(MainPhase);
        if pending == 0 {
          OnGraphExecutionFinished();
        }
      case Terminating =>
        var pending := GetPendingCount(TerminationPhase);
        if pending == 0 {
          OnGraphComplete();
        }
      case _ =>
    }

    /** graph/graph.go:128. */
    method HandleTerminating(status: Status)
      requires state.Committed?
      requires !recovering ==>
                 && status == StatusSucceeded && journal != [] && Last(journal) == GraphTerminating(status)
                 && PendingIn(Current(), MainPhase) == {}
                 && Consistent(View().(journal := Init(journal)), forced)
      modifies `stages, `state, `terminationRoot, `triggered, `told, `requests, `journal, `eventIndex
      ensures !recovering ==>
                && Rest(View(), forced) && Follows(old(View()).(journal := Init(old(journal))), View())
                && Grown(old(Current()), Current()) && old(triggered) <= triggered
      ensures recovering ==> View() == old(View()).(graph := Apply(old(Current()), GraphTerminating(status)))
      ensures eventIndex + |old(journal)| == old(eventIndex) + |journal|
      decreases Measure(View()), 0
    {
      hide Consistent, Follows, Measure, Grown, Fixpoint, LifecycleRest, Idle, PendingIn;
      ghost var w := View();
      if !recovering {
        w := w.(journal := Init(journal));
        TerminatingMove(w, forced);
        MeasureIgnoresJournal(w, journal);
        assert journal == Init(journal) + [Last(journal)];
      } else {
        MeasureDrops(w, w.(graph := Apply(w.graph, GraphTerminating(status))));
      }
      state := Terminating;
      terminationRoot := Some(TerminationResult(status));
      if !recovering {
        assert View() == Move(w, GraphTerminating(status));
        ghost var w1 := View();
        TriggerReadyStages();
        FollowsTransitive(w, w1, View(), forced);
        GrownMeasure(w1, View());
        GrownTransitive(w.graph, w1.graph, Current());
      }
      ghost var w2 := View();
      CheckForExecutionFinished();
      if !recovering {
        FollowsTransitive(w, w2, View(), forced);
        GrownTransitive(w.graph, w2.graph, Current());
      }
    }

    // ----- Additions, compositions and commits -----

    /** graph/graph.go:153. None of its panics can happen on an admissible event. */
    method HandleStageAdded(x: StageId, op: Operation, closure: Option<Blob>, deps: seq<StageId>, ghost p: seq<Event>)
      requires !op.TerminationHook? && Good(p, forced) && Current() == ReplayAll(p)
      requires Admissible(p, StageAdded(x, op, closure, deps))
      requires !recovering ==> journal == p + [StageAdded(x, op, closure, deps)] && Rest(View().(journal := p), forced)
      modifies `stages, `state, `terminationRoot, `triggered, `told, `requests, `journal, `eventIndex
      ensures !recovering ==>
                var m := Move(old(View()).(journal := p), StageAdded(x, op, closure, deps));
                && Rest(View(), forced) && Follows(m, View())
                && (Idle(m) ==> View() == m.(triggered := triggered)) && old(triggered) <= triggered
      ensures recovering ==> View() == old(View()).(graph := Apply(old(Current()), StageAdded(x, op, closure, deps)))
      ensures x in stages && stages[x].operation == op && stages[x].closure == closure
      ensures |stages[x].dependencies| == |deps| && forall i :: 0 <= i < |deps| ==> stages[x].dependencies[i] == On(deps[i])
      ensures eventIndex + |old(journal)| == old(eventIndex) + |journal|
    {
      hide Good, ReplayAll, Admissible, Consistent, Follows, Fixpoint, LifecycleRest, Idle, Measure, Grown, ArityOk, StrategyOf;
      ghost var e := StageAdded(x, op, closure, deps);
      ghost var w := View().(journal := p);
      AdditionGuards(p, forced, x, op, closure, deps);
      var strategy := StrategyOf(op);
      assert strategy.Some?;
      assert ArityOk(strategy.value, |deps|);
      assert x !in stages;
      var dependencies: seq<Dependency> := [];
      for i := 0 to |deps|
        invariant |dependencies| == i && forall k :: 0 <= k < i ==> dependencies[k] == On(deps[k])
      {
        assert deps[i] in stages;
        dependencies := dependencies + [On(deps[i])];
      }
      assert dependencies == OnAll(deps);
      stages := stages[x := Stage(op, strategy.value, closure, dependencies, MainPhase, None, None)];
      assert Current() == Apply(w.graph, e);
      if !recovering {
        MainAdded(w, forced, e);
        assert View() == Move(w, e);
        TriggerReadyStages();
        AddedStays(Move(w, e), forced, x, View());
      }
    }

    /** graph/graph.go:204. */
    method HandleAddTerminationHook(x: StageId, closure: Option<Blob>)
      requires terminationChainHead.Some? ==> terminationChainHead.value in stages
      modifies `stages, `terminationChainHead
      ensures Current() == AddHook(old(Current()), x, closure)
    {
      var hook := Stage(TerminationHook, StrategyOf(TerminationHook).value, closure, [Root], TerminationPhase, None, None);
      if terminationChainHead.Some? {
        var oldHead := terminationChainHead.value;
        stages := stages[oldHead := stages[oldHead].(dependencies := [On(x)])];
      }
      terminationChainHead := Some(x);
      stages := stages[x := hook];
    }

    /** graph/graph.go:263. */
    method HandleStageComposed(outer: StageId, inner: StageId)
      requires outer in stages && inner in stages
      requires !recovering && Resolved(Current(), inner) && Pending(Current(), outer) ==>
                 var r := stages[inner].result.value;
                 Awaiting(Persist(View().(graph := SetReference(Current(), outer, inner)), StageCompleted(outer, r)), forced, outer, r)
      requires recovering ==>
                 && Replaying(View()) && RefsOk(SetReference(Current(), outer, inner))
                 && ClosedExcept(SetReference(Current(), outer, inner), Some(outer))
      modifies `stages, `state, `terminationRoot, `triggered, `told, `requests, `journal, `eventIndex
      ensures !old(Resolved(Current(), inner) && Pending(Current(), outer)) ==>
                View() == old(View()).(graph := SetReference(old(Current()), outer, inner))
      ensures !old(Resolved(Current(), inner) && Pending(Current(), outer)) ==> inner in stages && stages[inner].composeReference == Some(outer)
      ensures !recovering && old(Resolved(Current(), inner) && Pending(Current(), outer)) ==>
                var w1 := old(View()).(graph := SetReference(old(Current()), outer, inner));
                Rest(View(), forced) && Follows(Persist(w1, StageCompleted(outer, old(stages[inner].result.value))), View())
      ensures recovering ==> Replaying(View()) && Current() == Apply(old(Current()), StageComposed(outer, inner))
      ensures recovering ==> journal == old(journal) + Reemit(old(Current()), StageComposed(outer, inner))
      ensures eventIndex + |old(journal)| == old(eventIndex) + |journal|
    {
      hide Rest, Awaiting, Follows, Replaying, Grown, ClosedExcept, RefsOk, ReemitChain, Settle;
      ghost var w := View();
      ghost var w1 := w.(graph := SetReference(w.graph, outer, inner));
      if recovering { ReferReplaying(w, outer, inner); }
      stages := stages[inner := stages[inner].(composeReference := Some(outer))];
      assert View() == w1;
      TryCompleteComposedStage(outer, inner);
    }

    /** actor/graph.go:442. */
    method OnComposeStage(outer: StageId, inner: StageId)
      requires !recovering && Rest(View(), forced)
      requires outer in stages && inner in stages && stages[outer].strategy.resultHandling.ReferencedStageResult?
      requires Last(journal) == InvocationCompleted(outer, Result(true, StageRefDatum(inner)))
      modifies `stages, `state, `terminationRoot, `triggered, `told, `requests, `journal, `eventIndex
      ensures Rest(View(), forced)
      ensures RanDry(old(journal) + [StageComposed(outer, inner)], old(triggered), journal)
      ensures inner in stages && stages[inner].composeReference == Some(outer)
      ensures eventIndex + |old(journal)| == old(eventIndex) + |journal|
    {
      hide Follows, RanDry, Awaiting, Good;
      ghost var w := View();
      ghost var w1 := Refer(w, outer, inner);
      PersistReceive(StageComposed(outer, inner));
      if Resolved(w.graph, inner) && Pending(w.graph, outer) {
        ReplySettles(w, forced, outer, inner);
      } else {
        ReplyOnlyRefers(w, forced, outer, inner);
      }
      HandleStageComposed(outer, inner);
      if Resolved(w.graph, inner) && Pending(w.graph, outer) {
        ComposedRanDry(w, forced, outer, inner, View());
      } else {
        assert View() == w1;
        FollowsRefl(w1);
        RestRanDry(w1, View(), forced);
      }
      ReferenceAtRest(w.journal, w.triggered, View(), forced, outer, inner);
    }

    /** graph/graph.go:255 with the result handling strategies of graph/stage_strategy.go:126. */
    method HandleInvokeComplete(x: StageId, reply: Result)
      requires !recovering && journal != [] && Last(journal) == InvocationCompleted(x, reply)
      requires InvocationStarted(x) in Init(journal) && Rest(View().(journal := Init(journal)), forced)
      modifies `stages, `state, `terminationRoot, `triggered, `told, `requests, `journal, `eventIndex
      ensures Rest(View(), forced)
      ensures RanDry(old(journal) + [AfterReply(old(Current()), x, reply)], old(triggered), journal)
      ensures eventIndex + |old(journal)| == old(eventIndex) + |journal|
    {
      hide Consistent, Fixpoint, LifecycleRest, Awaiting, Follows, RanDry, Grown, Good, ReplayAll;
      ghost var w := View().(journal := Init(journal));
      ghost var w1 := View();
      assert w1 == Persist(w, InvocationCompleted(x, reply)) by { assert journal == Init(journal) + [Last(journal)]; }
      Invoked(w, forced, x);
      match stages[x].strategy.resultHandling
      case InvocationResult =>
        ReplyCompletes(w, forced, x, reply, reply);
        OnCompleteStage(x, reply);
        RepliedRanDry(w1, x, reply, View(), forced);
      case ReferencedStageResult =>
        if !reply.successful {
          ReplyCompletes(w, forced, x, reply, reply);
          OnCompleteStage(x, reply);
          RepliedRanDry(w1, x, reply, View(), forced);
        } else if !reply.datum.StageRefDatum? {
          var r := InternalError(InvalidStageResponse, "stage returned a non-stageref response");
          ReplyCompletes(w, forced, x, reply, r);
          OnCompleteStage(x, r);
          RepliedRanDry(w1, x, r, View(), forced);
        } else if reply.datum.stage !in stages {
          var r := InternalError(InvalidStageResponse, "referenced stage not found ");
          ReplyCompletes(w, forced, x, reply, r);
          OnCompleteStage(x, r);
          RepliedRanDry(w1, x, r, View(), forced);
        } else {
          NoteRest(w, forced, InvocationCompleted(x, reply));
          OnComposeStage(x, reply.datum.stage);
        }
      case ParentStageResult =>
        assert |stages[x].dependencies| == 1;
        var r := DependencyResult(Current(), stages[x].dependencies[0]);
        assert r.Some?;
        ReplyCompletes(w, forced, x, reply, r.value);
        OnCompleteStage(x, r.value);
        RepliedRanDry(w1, x, r.value, View(), forced);
    }

    /** graph/graph.go:106. */
    method HandleCommitted()
      requires !recovering ==> Consistent(View().(graph := Current().(state := Committed)), forced)
      requires !recovering ==> Fixpoint(View().(graph := Current().(state := Committed)))
      modifies `stages, `state, `terminationRoot, `triggered, `told, `requests, `journal, `eventIndex
      ensures !recovering ==> Rest(View(), forced) && Follows(old(View().(graph := Current().(state := Committed))), View())
      ensures recovering ==> View() == old(View()).(graph := old(Current()).(state := Committed))
      ensures eventIndex + |old(journal)| == old(eventIndex) + |journal|
    {
      ghost var w := View();
      state := Committed;
      assert View() == w.(graph := w.graph.(state := Committed));
      CheckForExecutionFinished();
    }

    // ----- Recovery -----

    /** graph/graph.go:276. Of the stages that were waiting for a reply when the previous
        generation ended exactly one is failed, whichever the map yields first: failing it
        triggers all the others anew. */
    method Recover() returns (ghost lost: Option<StageId>)
      requires !recovering && Consistent(View(), forced)
      modifies `stages, `state, `terminationRoot, `triggered, `told, `requests, `journal, `eventIndex, `forced
      ensures Rest(View(), forced) && Recovered(old(View()), old(forced), lost, View(), forced)
      ensures eventIndex + |old(journal)| == old(eventIndex) + |journal|
    {
      hide Consistent, Follows, Awaiting, Grown, Recovering, Recovered, Fixpoint, LifecycleRest, Idle;
      ghost var w0, f0 := View(), forced;
      lost := None;
      RecoveryStarts(w0, f0);
      GrownRefl(w0.graph);
      var remaining := stages.Keys;
      while remaining != {}
        invariant remaining <= stages.Keys && Consistent(View(), forced)
        invariant Recovering(w0, f0, remaining, lost, View(), forced)
        invariant eventIndex + |w0.journal| == old(eventIndex) + |journal|
        decreases |remaining|
      {
        var x :| x in remaining;
        ghost var w, f := View(), forced;
        if stages[x].result.None? {
          FailLostStage(x);
        }
        RecoveryStep(w0, f0, remaining, lost, x, w, f, View(), forced);
        if Triggerable(w, x) { lost := Some(x); }
        GrownKeys(w.graph, Current());
        remaining := remaining - {x};
      }
      ghost var w1 := View();
      if lost.None? { NobodyLost(w0, f0, w1, forced); } else { LostAtRest(w0, f0, lost, w1, forced); }
      TriggerReadyStages();
      QuietAtFixpoint(w1, forced, View());
      CheckForExecutionFinished();
      if lost.None? { NobodyRecovered(w0, f0, View()); }
    }

    /** graph/graph.go:279-283: a pending stage that is ready but not triggered is failed. */
    method FailLostStage(x: StageId)
      requires !recovering && Consistent(View(), forced) && Pending(Current(), x)
      modifies `stages, `state, `terminationRoot, `triggered, `told, `requests, `journal, `eventIndex, `forced
      ensures Consistent(View(), forced) && Grown(old(Current()), Current())
      ensures if Triggerable(old(View()), x) then Rest(View(), forced) && Recovered(old(View()), old(forced), Some(x), View(), forced)
              else View() == old(View()) && forced == old(forced)
      ensures eventIndex + |old(journal)| == old(eventIndex) + |journal|
    {
      hide Follows, Awaiting, LifecycleRest, Recovered, Consistent;
      ghost var w := View();
      GrownRefl(w.graph);
      var out := RequestTrigger(x);
      if out.Ready? {
        RecoverFails(w, forced, x);
        forced := AlsoLost(forced, x);
        OnCompleteStage(x, StageLostResult());
        LostFailed(w, old(forced), x, View());
      }
    }

    /** actor/graph.go:353: every replay schedules every delay again. */
    method ScheduleDelay(x: StageId, dueMs: int)
      modifies `timers
      ensures timers == old(timers) + [Timer(x, dueMs, EmptyResult())]
    {
      timers := timers + [Timer(x, dueMs, EmptyResult())];
    }

    /** actor/graph.go:67: applying a journaled event without triggering. */
    method ReceiveEvent(e: Event, ghost p: seq<Event>)
      requires recovering && Current() == ReplayAll(p) && Good(p + [e], forced) && Replaying(View())
      requires created <==> p != []
      modifies `stages, `state, `terminationRoot, `terminationChainHead, `triggered, `told, `requests, `journal, `eventIndex, `timers, `created
      ensures Current() == ReplayAll(p + [e]) && Replaying(View()) && created
      ensures journal == old(journal) + Reemit(ReplayAll(p), e)
      ensures timers == old(timers) + Delays([e])
    {
      hide Good, ReplayAll, Replaying, ClosedExcept, RefsOk, Complete, Settle, ReemitChain, StrategyOf;
      ReplayOne(p, e, forced);
      match e
      case GraphCreated =>
        stages, state, terminationRoot, terminationChainHead := map[], Initial, None, None;
        created := true;
      case DelayScheduled(x, dueMs) =>
        ScheduleDelay(x, dueMs);
      case _ =>
        assert created;
        UpdateWithEvent(e, p);
    }

    /** graph/graph.go:362 with `mayTrigger` false, as replay calls it. */
    method UpdateWithEvent(e: Event, ghost p: seq<Event>)
      requires recovering && Current() == ReplayAll(p) && Good(p + [e], forced) && Replaying(View())
      requires created && !e.GraphCreated? && !e.DelayScheduled?
      modifies `stages, `state, `terminationRoot, `terminationChainHead, `triggered, `told, `requests, `journal, `eventIndex
      ensures Current() == ReplayAll(p + [e]) && Replaying(View())
      ensures journal == old(journal) + Reemit(ReplayAll(p), e)
    {
      hide Good, ReplayAll, Replaying, ClosedExcept, RefsOk, Admissible, Complete, Apply, Reemit, StrategyOf;
      hide Delays, AddHook, Awaiting, Rest, Consistent, Follows, Idle, Move, Grown, Fixpoint, SetReference;
      ReplayOne(p, e, forced);
      ReplayCases(ReplayAll(p), e);
      if e.StageCompleted? {
        HandleStageCompleted(e.stage, e.result);
      } else if e.StageComposed? {
        HandleStageComposed(e.stage, e.inner);
      } else if !e.InvocationStarted? && !e.InvocationCompleted? {
        UpdateStructure(e, p);
      }
    }

    /** graph/graph.go:368-384: the events that resolve nobody. */
    method UpdateStructure(e: Event, ghost p: seq<Event>)
      requires recovering && Current() == ReplayAll(p) && Good(p + [e], forced) && Replaying(View())
      requires e.StageAdded? || e.GraphCommitted? || e.GraphTerminating? || e.GraphCompleted?
      modifies `stages, `state, `terminationRoot, `terminationChainHead, `triggered, `told, `requests, `journal, `eventIndex
      ensures Current() == ReplayAll(p + [e]) && Replaying(View())
      ensures journal == old(journal) + Reemit(ReplayAll(p), e)
    {
      hide Good, ReplayAll, Replaying, ClosedExcept, RefsOk, Admissible, Complete, Apply, Reemit, StrategyOf;
      hide Delays, AddHook, Awaiting, Rest, Consistent, Follows, Idle, Move, Grown, Fixpoint, SetReference;
      ReplayOne(p, e, forced);
      ReplayCases(ReplayAll(p), e);
      ghost var w := View();
      ReplayingAfter(w, p, e, forced);
      match e
      case StageAdded(x, op, closure, deps) =>
        if op.TerminationHook? {
          HandleAddTerminationHook(x, closure);
        } else {
          HandleStageAdded(x, op, closure, deps, p);
        }
      case GraphCommitted => HandleCommitted();
      case GraphTerminating(status) => HandleTerminating(status);
      case GraphCompleted => state := Completed;
    }

    // ----- Actor life -----

    ghost predicate Valid()
      reads this
    {
      && !recovering
      && (created <==> journal != [])
      && (created ==> Rest(View(), forced))
      && (!created ==> Current() == NewGraph() && triggered == {} && told == [] && requests == [] && base == 0)
      && timers == Delays(journal)
    }

    /** persistence/plugin.go:61 with actor/graph.go:334: a new generation starts from whatever
        part of a good journal the previous one left behind. */
    constructor (stored: seq<Event>, ghost known: Forced)
      requires Good(stored, known)
      ensures Valid() && (created <==> stored != []) && base == |stored|
      ensures stored + Reemitted(stored) <= journal && Extends(ReplayAll(stored), Current())
      ensures exists lost :: Restarted(stored, known, lost, journal, Current(), forced)
      ensures AllRequested(View())
      ensures timers == Delays(stored)
      ensures eventIndex + |Reemitted(stored)| == |journal|
    {
      stages, state, terminationRoot, terminationChainHead := map[], Initial, None, None;
      triggered, told, requests, timers := {}, [], [], [];
      journal, eventIndex, recovering, created := stored, 0, true, false;
      base := |stored|;
      forced := known;
      new;
      ReplayJournal(stored);
      ghost var lost := Begin(stored);
      if stored == [] { EmptyRequested(View()); } else { StartRequested(stored, known, lost, View(), forced); }
    }

    /** actor/graph.go:334: what follows the replay. */
    method Begin(ghost stored: seq<Event>) returns (ghost lost: Option<StageId>)
      requires recovering && Good(stored, forced) && Replaying(View()) && (created <==> stored != []) && base == |stored|
      requires Current() == ReplayAll(stored) && journal == stored + Reemitted(stored) && timers == Delays(stored)
      requires !created ==> View() == World(NewGraph(), [], {}, [], [], 0)
      modifies this
      ensures Valid() && created == old(created) && timers == old(timers)
      ensures stored + Reemitted(stored) <= journal && Extends(ReplayAll(stored), Current())
      ensures Restarted(stored, old(forced), lost, journal, Current(), forced)
      ensures eventIndex + |stored + Reemitted(stored)| == old(eventIndex) + |journal|
    {
      hide Good, Consistent, Fixpoint, LifecycleRest, Extends, Delays, Reemitted, ReplayAll, Recovered, Restarted;
      recovering := false;
      if created {
        ghost var w := View();
        ReplayedConsistent(w, stored, forced);
        lost := Recover();
        RecoveredExtends(w, old(forced), lost, View(), forced);
        RecoveredIsRestarted(w, stored, old(forced), lost, View(), forced);
      } else {
        lost := None;
        NothingStored(forced);
      }
    }

    /** persistence/plugin.go:79-82: the event index follows the events read, not those written. */
    method ReplayJournal(stored: seq<Event>)
      requires recovering && Good(stored, forced) && journal == stored && eventIndex == 0 && !created
      requires View() == World(NewGraph(), stored, {}, [], [], |stored|) && timers == []
      modifies `stages, `state, `terminationRoot, `terminationChainHead, `triggered, `told, `requests, `journal, `eventIndex, `timers, `created
      ensures Current() == ReplayAll(stored) && Replaying(View()) && (created <==> stored != [])
      ensures journal == stored + Reemitted(stored) && timers == Delays(stored) && eventIndex == |stored|
      ensures !created ==> View() == old(View())
    {
      hide Good, Replaying, Reemitted, Delays, ReplayAll, Reemit, ToldOk;
      ReplayStart(stored);
      for k := 0 to |stored|
        invariant eventIndex == k && (created <==> k > 0)
        invariant journal == stored + Reemitted(stored[..k]) && timers == Delays(stored[..k])
        invariant Current() == ReplayAll(stored[..k]) && Replaying(View())
        invariant k == 0 ==> View() == old(View())
      {
        NextStored(stored, k, forced);
        ReceiveEvent(stored[k], stored[..k]);
        eventIndex := k + 1;
      }
      assert stored[..|stored|] == stored;
    }

    /** actor/graph.go:127. */
    method CreateGraph()
      requires Valid() && !created
      modifies this
      ensures Valid() && created && journal == [GraphCreated] && Current() == NewGraph() && forced == old(forced)
      ensures timers == old(timers) && requests == old(requests) && told == old(told)
    {
      hide Consistent, Fixpoint, LifecycleRest, Delays, Rest;
      PersistReceive(GraphCreated);
      stages, state, terminationRoot, terminationChainHead := map[], Initial, None, None;
      created := true;
      assert View() == World(NewGraph(), [GraphCreated], {}, [], [], 0);
      NewRest(View(), forced);
    }

    /** actor/graph.go:141: the event is journaled, applied, and its cascade run. */
    method AddStageCommand(op: Operation, closure: Option<Blob>, deps: seq<StageId>) returns (x: StageId)
      requires Valid() && created && Validate(Current(), AddStage(op, closure, deps)).None?
      modifies this
      ensures Valid() && created && forced == old(forced) && timers == old(timers)
      ensures x == old(|stages|)
      ensures RanDry(old(journal) + [StageAdded(x, op, closure, deps)], old(triggered), journal)
    {
      hide Rest, Follows, RanDry, Validate, Admissible, Good, ReplayAll, StrategyOf, Idle, Apply, AddHook, Delays, Consistent;
      ghost var w := View();
      AddAdmissible(w, forced, op, closure, deps);
      x := |stages|;
      PersistReceive(StageAdded(x, op, closure, deps));
      if op.TerminationHook? {
        HeadPresent(w, forced);
        HandleAddTerminationHook(x, closure);
        HookAddedRest(w, forced, StageAdded(x, op, closure, deps));
        assert View() == Move(w, StageAdded(x, op, closure, deps));
      } else {
        HandleStageAdded(x, op, closure, deps, w.journal);
        RestRanDry(Move(w, StageAdded(x, op, closure, deps)), View(), forced);
      }
      ghost var e := StageAdded(x, op, closure, deps);
      assert !e.DelayScheduled?;
      DelaysAfter(w.journal, e, w.triggered, journal);
    }

    /** The additions of actor/graph.go:163, :184 and :208: a stage that waits for the outside. */
    method AddPassiveStage(op: Operation) returns (x: StageId)
      requires Valid() && created && ValidateAdd(Current(), op, 0, false).None?
      requires op.CompletedValue? || op.Delay? || op.InvokeFunction?
      modifies this
      ensures Valid() && created && forced == old(forced) && timers == old(timers)
      ensures x == old(|stages|) && Pending(Current(), x) && Current().stages[x].operation == op && x !in old(stages)
      ensures Admissible(old(journal), StageAdded(x, op, None, []))
      ensures View() == Move(old(View()), StageAdded(x, op, None, [])).(
                triggered := old(triggered) + (if op.InvokeFunction? then {x} else {}))
    {
      hide Consistent, Follows, Fixpoint, LifecycleRest, ValidateAdd, Admissible, Idle, Apply, StrategyOf, IsReady, Good, ReplayAll, Passive, Delays, Rest, Move;
      ghost var w := View();
      x := |stages|;
      var e := StageAdded(x, op, None, []);
      PassiveAdmissible(w, forced, op);
      PassiveAddedIdle(w, forced, e);
      PersistReceive(e);
      HandleStageAdded(x, op, None, [], w.journal);
      PassiveTriggered(w, forced, e, View());
      PassiveAdded(w, View(), x, op);
      DelaysSnoc(w.journal, e);
    }

    /** actor/graph.go:159. */
    method AddCompletedValueCommand(value: Result) returns (x: StageId)
      requires Valid() && created && Validate(Current(), AddCompletedValue(value)).None?
      modifies this
      ensures Valid() && created && forced == Outside(old(forced), {x}) && timers == old(timers)
      ensures x == old(|stages|) && Resolved(Current(), x) && Current().stages[x].result == Some(value)
      ensures RanDry(old(journal) + [StageAdded(x, Operation.CompletedValue, None, []), StageCompleted(x, value)], old(triggered), journal)
    {
      hide Rest, RanDry, StrategyOf, ValidateAdd, Admissible, Delays, Apply;
      ghost var before := journal;
      x := AddPassiveStage(Operation.CompletedValue);
      assert before + [StageAdded(x, Operation.CompletedValue, None, []), StageCompleted(x, value)]
          == journal + [StageCompleted(x, value)];
      CompleteFromOutside(x, value);
    }

    /** Journaling and applying a completion that comes from outside. */
    method CompleteFromOutside(x: StageId, value: Result)
      requires Valid() && created && Pending(Current(), x)
      modifies this
      ensures Valid() && created && forced == Outside(old(forced), {x}) && timers == old(timers)
      ensures Resolved(Current(), x) && Current().stages[x].result == Some(value)
      ensures RanDry(old(journal) + [StageCompleted(x, value)], old(triggered), journal)
    {
      hide Consistent, Follows, Fixpoint, LifecycleRest, Awaiting, RanDry, Grown;
      ghost var w := View();
      ForcedCompletion(w, forced, x, value);
      forced := Outside(forced, {x});
      PersistReceive(StageCompleted(x, value));
      assert View() == Persist(w, StageCompleted(x, value));
      HandleStageCompleted(x, value);
      AwaitingFollowed(Persist(w, StageCompleted(x, value)), forced, x, value, View());
      RepliedRanDry(w, x, value, View(), forced);
      DelaysAfter(w.journal, StageCompleted(x, value), w.triggered, journal);
    }

    /** actor/graph.go:180. */
    method AddDelayCommand(delayMs: int, nowMs: int) returns (x: StageId)
      requires Valid() && created && Validate(Current(), AddDelay(delayMs, nowMs)).None?
      modifies this
      ensures Valid() && created && forced == old(forced) && timers == old(timers) + [Timer(x, nowMs + delayMs, EmptyResult())]
      ensures x == old(|stages|)
      ensures journal == old(journal) + [StageAdded(x, Operation.Delay, None, []), DelayScheduled(x, nowMs + delayMs)]
      ensures Current() == Apply(old(Current()), StageAdded(x, Operation.Delay, None, [])) && triggered == old(triggered)
    {
      hide Consistent, Fixpoint, LifecycleRest, Apply, StrategyOf, ValidateAdd, Admissible, Delays, Move, Rest, Good, NewGraph;
      ghost var before := View();
      x := AddPassiveStage(Operation.Delay);
      PassiveAdded(before, View(), x, Operation.Delay);
      DelayNoted(View(), forced, x, nowMs + delayMs);
      DelaysSnoc(journal, DelayScheduled(x, nowMs + delayMs));
      PersistReceive(DelayScheduled(x, nowMs + delayMs));
      ScheduleDelay(x, nowMs + delayMs);
    }

    /** actor/graph.go:202. */
    method AddInvokeFunctionCommand() returns (x: StageId)
      requires Valid() && created && Validate(Current(), AddInvokeFunction).None?
      modifies this
      ensures Valid() && created && forced == old(forced) && timers == old(timers)
      ensures x == old(|stages|)
      ensures journal == old(journal) + [StageAdded(x, Operation.InvokeFunction, None, []), InvocationStarted(x)]
      ensures requests == old(requests) + [InvokeFunctionFor(x)]
      ensures Current() == Apply(old(Current()), StageAdded(x, Operation.InvokeFunction, None, []))
    {
      hide Consistent, Fixpoint, LifecycleRest, Apply, StrategyOf, ValidateAdd, Admissible, Delays, Move;
      ghost var before := View();
      x := AddPassiveStage(Operation.InvokeFunction);
      PassiveAdded(before, View(), x, Operation.InvokeFunction);
      FunctionStarts(before, View(), forced, x);
      DelaysSnoc(journal, InvocationStarted(x));
      PersistReceive(InvocationStarted(x));
      requests := requests + [InvokeFunctionFor(x)];
    }

    /** actor/graph.go:247: idempotent. */
    method CommitCommand()
      requires Valid() && created
      modifies this
      ensures Valid() && created && forced == old(forced) && timers == old(timers)
      ensures old(state).Initial? ==> RanDry(old(journal) + [GraphCommitted], old(triggered), journal)
      ensures !old(state).Initial? ==> View() == old(View())
    {
      hide Follows, RanDry, Consistent, Fixpoint, LifecycleRest, Delays;
      if !state.Initial? {
        return;
      }
      ghost var w := View();
      CommitMove(w, forced);
      PersistReceive(GraphCommitted);
      HandleCommitted();
      RestRanDry(Move(w, GraphCommitted), View(), forced);
      DelaysAfter(w.journal, GraphCommitted, w.triggered, journal);
    }

    /** actor/graph.go:292: a reply of the executor, possibly late or repeated. */
    method InvocationResponseCommand(x: StageId, reply: Result)
      requires Valid() && created && InvocationStarted(x) in journal
      modifies this
      ensures Valid() && created && forced == old(forced) && timers == old(timers)
      ensures RanDry(old(journal) + [InvocationCompleted(x, reply), AfterReply(old(Current()), x, reply)], old(triggered), journal)
    {
      hide Consistent, Follows, Fixpoint, LifecycleRest, RanDry, AfterReply;
      ghost var before := journal;
      PersistReceive(InvocationCompleted(x, reply));
      InitLast(before, InvocationCompleted(x, reply));
      assert before + [InvocationCompleted(x, reply), AfterReply(Current(), x, reply)] == journal + [AfterReply(Current(), x, reply)];
      ghost var replied, after := journal, AfterReply(Current(), x, reply);
      DelaysSnoc(before, InvocationCompleted(x, reply));
      RepliesScheduleNothing(Current(), x, reply);
      HandleInvokeComplete(x, reply);
      DelaysAfter(replied, after, old(triggered), journal);
    }

    // ----- Commands -----

    /** graph/graph.go:437-441. */
    method CountHooks() returns (count: nat)
      ensures count == |Hooks(Current())|
    {
      count := 0;
      var remaining := stages.Keys;
      while remaining != {}
        invariant remaining <= stages.Keys
        invariant count == |Hooks(Current()) - remaining|
        decreases |remaining|
      {
        var x :| x in remaining;
        CountOne(Hooks(Current()), remaining, x);
        remaining := remaining - {x};
        if stages[x].operation.TerminationHook? {
          count := count + 1;
        }
      }
      assert Hooks(Current()) - remaining == Hooks(Current());
    }

    /** graph/graph.go:489. */
    method ValidateStages(ids: seq<StageId>) returns (valid: bool)
      ensures valid == AllPresent(Current(), ids)
    {
      for i := 0 to |ids|
        invariant forall k :: 0 <= k < i ==> ids[k] in stages
      {
        if ids[i] !in stages {
          return false;
        }
      }
      return true;
    }

    /** graph/graph.go:409-445: the checks on commands that add a stage. */
    method ValidateAddition(op: Operation, count: nat, hasClosure: bool) returns (err: Option<Error>)
      ensures err == ValidateAdd(Current(), op, count, hasClosure)
    {
      if !(state.Initial? || state.Committed?) { return Some(GraphAlreadyCompleted); }
      var strategy := StrategyOf(op);
      if strategy.None? { return Some(InvalidOperation); }
      var s := strategy.value;
      if count < s.minDependencies || (s.maxDependencies >= 0 && count > s.maxDependencies) {
        return Some(InvalidStageDependencies);
      }
      if s.takesClosure && !hasClosure { return Some(NeedsClosure); }
      if !s.takesClosure && hasClosure { return Some(ShouldNotHaveClosure); }
      if |stages| >= MAX_STAGES { return Some(TooManyStages); }
      if op.TerminationHook? {
        var hooks := CountHooks();
        if hooks >= MAX_TERMINATION_HOOKS { return Some(TooManyTerminationHooks); }
      }
      return None;
    }

    /** graph/graph.go:407. */
    method ValidateCommand(cmd: Command) returns (err: Option<Error>)
      ensures err == Validate(Current(), cmd)
    {
      err := None;
      match cmd
      case AddStage(op, closure, deps) =>
        err := ValidateAddition(op, |deps|, closure.Some?);
        if err.None? {
          var valid := ValidateStages(deps);
          err := if valid then None else Some(InvalidStageDependencies);
        }
      case AddCompletedValue(value) =>
        err := ValidateAddition(Operation.CompletedValue, 0, false);
        if err.None? && value.datum.NoDatum? { err := Some(InvalidDatum); }
      case AddDelay(delayMs, _) =>
        err := ValidateAddition(Operation.Delay, 0, false);
        if err.None? && (delayMs <= 0 || delayMs > MAX_DELAY_SECONDS * 1000) { err := Some(InvalidDelay); }
      case AddInvokeFunction =>
        err := ValidateAddition(Operation.InvokeFunction, 0, false);
      case CompleteStageExternally(x, value) =>
        if value.datum.NoDatum? { err := Some(InvalidDatum); }
        else if x !in stages { err := Some(StageNotFound); }
      case AwaitStageResult(x) =>
        var valid := ValidateStages([x]);
        assert [x][0] == x;
        if !valid { err := Some(StageNotFound); }
      case _ =>
    }

    /** actor/graph.go:120: every message leaves the actor at rest; a refused command changes
        nothing, an accepted one journals its own events and then only what follows from them. */
    method ReceiveCommand(cmd: Command) returns (resp: Response)
      requires Valid()
      requires cmd.CompleteDelay? ==> ScheduledIn(journal, cmd.stage)
      requires cmd.InvocationResponse? ==> InvocationStarted(cmd.stage) in journal
      modifies this
      ensures Valid() && old(journal) <= journal
      ensures forced == if resp.Failure? then old(forced) else Outside(old(forced), Forces(old(View()), cmd))
      ensures resp.Failure? <==> Refusal(old(created), old(Current()), cmd).Some?
      ensures resp.Failure? ==> resp.error == Refusal(old(created), old(Current()), cmd).value && View() == old(View())
      ensures cmd.CreateGraph? ==> if old(created) then resp == Failure(GraphAlreadyExists) else resp == GraphResponse
      ensures !cmd.CreateGraph? && !old(created) ==> resp == Failure(GraphNotFound)
      ensures !cmd.CreateGraph? && old(created) ==> Validate(old(Current()), cmd) == (if resp.Failure? then Some(resp.error) else None)
      ensures !resp.Failure? ==> Obeyed(old(View()), cmd, View(), resp) && Leaves(old(View()), cmd, View(), resp)
      ensures !resp.Failure? && cmd.AddDelay? ==> timers == old(timers) + [Timer(old(|stages|), cmd.nowMs + cmd.delayMs, EmptyResult())]
      ensures resp.Failure? || !cmd.AddDelay? ==> timers == old(timers)
      ensures !resp.Failure? && cmd.AddInvokeFunction? ==> requests == old(requests) + [InvokeFunctionFor(old(|stages|))]
      ensures old(AllRequested(View())) ==> AllRequested(View())
    {
      hide Rest, Obeyed, Validate, NewGraph, Delays, Forces, Head, AllRequested, Leaves;
      ghost var w, f := View(), forced;
      if cmd.CreateGraph? {
        if created { return Failure(GraphAlreadyExists); }
        CreateGraph();
        CreatedObeys(w, View(), cmd, forced);
        CreatedLeaves(w, View(), cmd);
        return GraphResponse;
      }
      if !created { return Failure(GraphNotFound); }
      var err := ValidateCommand(cmd);
      if err.Some? { return Failure(err.value); }
      resp := Obey(cmd);
      CommandLeaves(w, f, cmd, View(), forced, resp);
    }

    /** actor/graph.go:141-231: an accepted addition. */
    method ObeyAddition(cmd: Command) returns (resp: Response)
      requires Valid() && created && AddedOperation(cmd).Some? && Validate(Current(), cmd).None?
      modifies this
      ensures Valid() && old(journal) <= journal
      ensures forced == Outside(old(forced), Forces(old(View()), cmd))
      ensures !resp.Failure? && Obeyed(old(View()), cmd, View(), resp)
      ensures timers == old(timers) + (if cmd.AddDelay? then [Timer(old(|stages|), cmd.nowMs + cmd.delayMs, EmptyResult())] else [])
      ensures created && (cmd.AddInvokeFunction? ==> requests == old(requests) + [InvokeFunctionFor(old(|stages|))])
    {
      hide Rest, RanDry, Validate, Move, Apply, NewGraph, Delays, Owed, Good, StrategyOf;
      ghost var w := View();
      var x: StageId;
      match cmd {
        case AddStage(op, closure, deps) =>
          x := AddStageCommand(op, closure, deps);
          RanDryExtends(w.journal, Head(w, cmd), w.triggered, journal);
        case AddCompletedValue(value) =>
          x := AddCompletedValueCommand(value);
          RanDryExtends(w.journal, Head(w, cmd), w.triggered, journal);
        case AddDelay(delayMs, nowMs) =>
          x := AddDelayCommand(delayMs, nowMs);
        case AddInvokeFunction =>
          x := AddInvokeFunctionCommand();
      }
      resp := StageResponse(x);
    }

    /** actor/graph.go:126-310: an accepted command. */
    method Obey(cmd: Command) returns (resp: Response)
      requires Valid() && created && !cmd.CreateGraph? && Validate(Current(), cmd).None?
      requires cmd.CompleteDelay? ==> ScheduledIn(journal, cmd.stage)
      requires cmd.InvocationResponse? ==> InvocationStarted(cmd.stage) in journal
      modifies this
      ensures Valid() && old(journal) <= journal
      ensures forced == Outside(old(forced), Forces(old(View()), cmd))
      ensures !resp.Failure? && Obeyed(old(View()), cmd, View(), resp)
      ensures timers == old(timers) + (if cmd.AddDelay? then [Timer(old(|stages|), cmd.nowMs + cmd.delayMs, EmptyResult())] else [])
      ensures created && (cmd.AddInvokeFunction? ==> requests == old(requests) + [InvokeFunctionFor(old(|stages|))])
    {
      hide Rest, RanDry, Validate, Move, Apply, NewGraph, Delays, Owed, Good, AfterReply, StrategyOf, ScheduledIn;
      if AddedOperation(cmd).Some? {
        resp := ObeyAddition(cmd);
        return;
      }
      ghost var w := View();
      match cmd
      case CompleteStageExternally(x, value) =>
        ExternalTarget(w.graph, x, value);
        var completable := stages[x].result.None?;
        if completable {
          CompleteFromOutside(x, value);
          RanDryExtends(w.journal, Head(w, cmd), w.triggered, journal);
        }
        resp := CompletionResponse(completable);
      case Commit =>
        CommitCommand();
        if w.graph.state.Initial? { RanDryExtends(w.journal, Head(w, cmd), w.triggered, journal); }
        resp := Processed;
      case AwaitStageResult(x) =>
        resp := AwaitFuture(x);
      case CompleteDelay(x, r) =>
        DelayTarget(w, forced, x);
        if stages[x].result.None? {
          CompleteFromOutside(x, r);
          RanDryExtends(w.journal, Head(w, cmd), w.triggered, journal);
        }
        resp := NoResponse;
      case InvocationResponse(x, r) =>
        InvocationResponseCommand(x, r);
        RanDryExtends(w.journal, Head(w, cmd), w.triggered, journal);
        resp := NoResponse;
    }
  }
}
