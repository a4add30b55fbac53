/** What the executor is asked, told from the events of the journal: for whom, with which closure, and
    with which arguments; and that at rest nobody is forgotten. */
module Requests {
  import opened FlowModel
  import opened StageStrategy
  import opened Replay
  import opened Structure
  import opened Semantics
  import opened Worlds
  import opened Journaled
  import opened Operations

  /** Every request is owed to an event of this generation. */
  lemma {:induction false} OwedOrigin(j: seq<Event>, base: nat, n: nat) returns (m: nat)
    requires n < |Owed(j, base)|
    ensures base <= m < |j| && OwedBy(ReplayAll(j[..m]), j[m]) == [Owed(j, base)[n]]
    decreases |j|
  {
    hide ReplayAll, IsReady, Arguments;
    var before := Owed(Init(j), base);
    if n < |before| {
      m := OwedOrigin(Init(j), base, n);
      assert Init(j)[..m] == j[..m];
    } else {
      m := |j| - 1;
    }
  }

  /** What a start owes in a good journal: a function call if the stage calls a function, otherwise
      its closure run. */
  lemma StartOwes(j: seq<Event>, forced: Forced, m: nat)
    requires Good(j, forced) && m < |j| && j[m].InvocationStarted?
    ensures var g, x := ReplayAll(j[..m]), j[m].stage;
            && x in g.stages && IsReady(g, x)
            && (g.stages[x].operation.InvokeFunction? ==> OwedBy(g, j[m]) == [InvokeFunctionFor(x)])
            && (!g.stages[x].operation.InvokeFunction? ==>
                  && Invokes(ExecOf(g, x)) && (NeedsSingleInput(ExecOf(g, x)) ==> |Trigger(g, x).inputs| == 1)
                  && OwedBy(g, j[m]) == [InvokeStage(x, Arguments(ExecOf(g, x), Trigger(g, x).inputs), g.stages[x].closure)])
  {
    hide Good, ReplayAll, Trigger, Justified, KeysOk, ChainOk, RefsOk, LifecycleOk, ComposeClosed, Arguments;
    GoodAt(j, m, forced);
    var g, x := ReplayAll(j[..m]), j[m].stage;
    ReplayWellFormed(j[..m], forced);
    StageOf(g, x);
    SingleInputAt(g, x);
  }

  lemma SingleInputAt(g: Graph, x: StageId)
    requires x in g.stages && StageOk(g, x) && IsReady(g, x)
    ensures NeedsSingleInput(ExecOf(g, x)) ==> |Trigger(g, x).inputs| == 1
  {
    SingleInput(g.stages[x].operation, g.stages[x].strategy, DependencyResults(g, g.stages[x].dependencies));
  }

  /** A closure run was asked for right after its start was journaled, with the closure of the event
      that added the stage; function calls only for stages that call a function. */
  lemma RequestFor(w: World, forced: Forced, n: nat) returns (k: nat, m: nat)
    requires Consistent(w, forced) && n < |w.requests| && !w.requests[n].Deactivate?
    ensures var q, j := w.requests[n], w.journal;
            && k < m < |j| && w.base <= m && j[m] == InvocationStarted(q.stage) && j[k].StageAdded? && j[k].stage == q.stage
            && (q.InvokeFunctionFor? <==> j[k].op.InvokeFunction?)
            && (q.InvokeStage? ==> q.closure == j[k].closure)
            && OwedBy(ReplayAll(j[..m]), j[m]) == [q]
  {
    hide Good, ReplayAll, Trigger, Arguments, ExecOf, FlagsExcept, ToldOk;
    var j := w.journal;
    m := OwedOrigin(j, w.base, n);
    assert j[m] == InvocationStarted(w.requests[n].stage);
    StartOwes(j, forced, m);
    GoodPrefix(j, m, forced);
    k := StagesWereAdded(j[..m], forced, j[m].stage);
    AddedAsJournaled(j[..m], forced, k);
  }

  // ----- The arguments, by operation and the results at the time -----

  /** supply's closure gets no argument. */
  lemma SupplyArguments(j: seq<Event>, forced: Forced, k: nat, m: nat, q: Request)
    requires Good(j, forced) && k < m < |j| && j[k].StageAdded? && j[m] == InvocationStarted(j[k].stage)
    requires OwedBy(ReplayAll(j[..m]), j[m]) == [q]
    requires j[k].op.Supply?
    ensures q.InvokeStage? && q.args == []
  {
    hide Good, ReplayAll, StrategyOf;
    StartOwes(j, forced, m);
    GoodPrefix(j, m, forced);
    JournaledStage(j[..m], forced, k);
    RunningRow(j[k].op);
    NoInputs(ReplayAll(j[..m]), j[k].stage);
  }

  /** A parent that has succeeded: its result, or nothing for thenRun. */
  lemma ThenArguments(j: seq<Event>, forced: Forced, k: nat, m: nat, q: Request)
    requires Good(j, forced) && k < m < |j| && j[k].StageAdded? && j[m] == InvocationStarted(j[k].stage)
    requires OwedBy(ReplayAll(j[..m]), j[m]) == [q]
    requires j[k].op.ThenApply? || j[k].op.ThenAccept? || j[k].op.ThenRun? || j[k].op.ThenCompose?
    ensures var s := ReplayAll(j[..m]).stages;
            && |j[k].deps| == 1 && j[k].deps[0] in s && s[j[k].deps[0]].result.Some? && s[j[k].deps[0]].result.value.successful
            && q.InvokeStage? && q.args == (if j[k].op.ThenRun? then [] else [s[j[k].deps[0]].result.value])
  {
    hide Good, ReplayAll, StrategyOf;
    StartOwes(j, forced, m);
    GoodPrefix(j, m, forced);
    JournaledStage(j[..m], forced, k);
    ThenRow(j[k].op);
    OneInput(ReplayAll(j[..m]), j[k].stage, j[k].deps[0]);
  }

  /** A parent that has failed: its failure. */
  lemma RecoveringArguments(j: seq<Event>, forced: Forced, k: nat, m: nat, q: Request)
    requires Good(j, forced) && k < m < |j| && j[k].StageAdded? && j[m] == InvocationStarted(j[k].stage)
    requires OwedBy(ReplayAll(j[..m]), j[m]) == [q]
    requires j[k].op.Exceptionally? || j[k].op.ExceptionallyCompose?
    ensures var s := ReplayAll(j[..m]).stages;
            && |j[k].deps| == 1 && j[k].deps[0] in s && s[j[k].deps[0]].result.Some? && !s[j[k].deps[0]].result.value.successful
            && q.InvokeStage? && q.args == [s[j[k].deps[0]].result.value]
  {
    hide Good, ReplayAll, StrategyOf;
    StartOwes(j, forced, m);
    GoodPrefix(j, m, forced);
    JournaledStage(j[..m], forced, k);
    OtherRow(j[k].op);
    OneInput(ReplayAll(j[..m]), j[k].stage, j[k].deps[0]);
  }

  /** handle and whenComplete get a pair: the parent's success first, or its failure second, and an
      empty result in the other place. */
  lemma PairArguments(j: seq<Event>, forced: Forced, k: nat, m: nat, q: Request)
    requires Good(j, forced) && k < m < |j| && j[k].StageAdded? && j[m] == InvocationStarted(j[k].stage)
    requires OwedBy(ReplayAll(j[..m]), j[m]) == [q]
    requires j[k].op.Handle? || j[k].op.WhenComplete?
    ensures var s := ReplayAll(j[..m]).stages;
            && |j[k].deps| == 1 && j[k].deps[0] in s && s[j[k].deps[0]].result.Some?
            && var r := s[j[k].deps[0]].result.value;
               q.InvokeStage? && q.args == (if r.successful then [r, Result(true, EmptyDatum)] else [Result(true, EmptyDatum), r])
  {
    hide Good, ReplayAll, StrategyOf;
    StartOwes(j, forced, m);
    GoodPrefix(j, m, forced);
    JournaledStage(j[..m], forced, k);
    if j[k].op.Handle? { RunningRow(j[k].op); } else { OtherRow(j[k].op); }
    OneInput(ReplayAll(j[..m]), j[k].stage, j[k].deps[0]);
    PairOf(ExecOf(ReplayAll(j[..m]), j[k].stage), Trigger(ReplayAll(j[..m]), j[k].stage).inputs);
  }

  /** acceptEither and applyToEither get the first of the two that has succeeded, in list order. */
  lemma EitherArguments(j: seq<Event>, forced: Forced, k: nat, m: nat, q: Request)
    requires Good(j, forced) && k < m < |j| && j[k].StageAdded? && j[m] == InvocationStarted(j[k].stage)
    requires OwedBy(ReplayAll(j[..m]), j[m]) == [q]
    requires j[k].op.AcceptEither? || j[k].op.ApplyToEither?
    ensures var s := ReplayAll(j[..m]).stages;
            && |j[k].deps| == 2 && j[k].deps[0] in s && j[k].deps[1] in s
            && var a, b := s[j[k].deps[0]].result, s[j[k].deps[1]].result;
               var first := if a.Some? && a.value.successful then a else b;
               first.Some? && first.value.successful && q.InvokeStage? && q.args == [first.value]
  {
    hide Good, ReplayAll, StrategyOf;
    StartOwes(j, forced, m);
    GoodPrefix(j, m, forced);
    JournaledStage(j[..m], forced, k);
    PairRow(j[k].op);
    EitherInput(ReplayAll(j[..m]), j[k].stage, j[k].deps[0], j[k].deps[1]);
  }

  /** thenCombine and thenAcceptBoth get both results, in list order, and both are successes. */
  lemma BothArguments(j: seq<Event>, forced: Forced, k: nat, m: nat, q: Request)
    requires Good(j, forced) && k < m < |j| && j[k].StageAdded? && j[m] == InvocationStarted(j[k].stage)
    requires OwedBy(ReplayAll(j[..m]), j[m]) == [q]
    requires j[k].op.ThenCombine? || j[k].op.ThenAcceptBoth?
    ensures var s := ReplayAll(j[..m]).stages;
            && |j[k].deps| == 2 && j[k].deps[0] in s && j[k].deps[1] in s
            && var a, b := s[j[k].deps[0]].result, s[j[k].deps[1]].result;
               && a.Some? && a.value.successful && b.Some? && b.value.successful
               && q.InvokeStage? && q.args == [a.value, b.value]
  {
    hide Good, ReplayAll, StrategyOf;
    StartOwes(j, forced, m);
    GoodPrefix(j, m, forced);
    JournaledStage(j[..m], forced, k);
    PairRow(j[k].op);
    BothInputs(ReplayAll(j[..m]), j[k].stage, j[k].deps[0], j[k].deps[1]);
  }

  lemma PairOf(kind: ExecKind, inputs: seq<Result>)
    requires kind.InvokeWithResultOrError? && |inputs| == 1
    ensures Arguments(kind, inputs) == (if inputs[0].successful then [inputs[0], EmptyResult()] else [EmptyResult(), inputs[0]])
  {
  }

  lemma HookRow()
    ensures StrategyOf(TerminationHook).Some?
    ensures var s := StrategyOf(TerminationHook).value;
            s.trigger.WaitForAll? && s.success.InvokeWithResult? && s.failure.InvokeWithResult? && s.resultHandling.ParentStageResult?
  {
  }

  lemma HookInputs(g: Graph, h: StageId)
    requires h in g.stages && |g.stages[h].dependencies| == 1 && g.stages[h].strategy.trigger.WaitForAll? && IsReady(g, h)
    ensures var r := DependencyResult(g, g.stages[h].dependencies[0]); r.Some? && Trigger(g, h).inputs == [r.value]
  {
    var rs := DependencyResults(g, g.stages[h].dependencies);
    assert rs == [DependencyResult(g, g.stages[h].dependencies[0])];
  }

  /** The hook added last gets the termination status, every other one the result of the hook added
      right after it. */
  lemma HookArguments(j: seq<Event>, forced: Forced, k: nat, m: nat, q: Request)
    requires Good(j, forced) && k < m < |j| && j[k].StageAdded? && j[m] == InvocationStarted(j[k].stage)
    requires OwedBy(ReplayAll(j[..m]), j[m]) == [q]
    requires j[k].op.TerminationHook?
    ensures var g, h := ReplayAll(j[..m]), j[k].stage;
            && q.InvokeStage? && |q.args| == 1
            && ((forall n: StageId :: IsHook(g, n) ==> n <= h) ==> q.args == [Result(true, StatusDatum(StatusSucceeded))])
            && (forall n: StageId :: IsHook(g, n) && h < n && (forall l: StageId :: IsHook(g, l) && h < l ==> n <= l) ==>
                  g.stages[n].result == Some(q.args[0]))
  {
    hide Good, ReplayAll, StrategyOf, Trigger, WellFormed;
    var g, h := ReplayAll(j[..m]), j[k].stage;
    StartOwes(j, forced, m);
    GoodPrefix(j, m, forced);
    JournaledStage(j[..m], forced, k);
    HookRow();
    ReplayWellFormed(j[..m], forced);
    HookInputsAt(g, h);
  }

  lemma HookInputsAt(g: Graph, h: StageId)
    requires WellFormed(g) && IsHook(g, h) && IsReady(g, h) && g.stages[h].strategy.trigger.WaitForAll?
    ensures |Trigger(g, h).inputs| == 1
    ensures (forall n: StageId :: IsHook(g, n) ==> n <= h) ==> Trigger(g, h).inputs == [TerminationResult(StatusSucceeded)]
    ensures forall n: StageId :: IsHook(g, n) && h < n && (forall l: StageId :: IsHook(g, l) && h < l ==> n <= l) ==>
              g.stages[n].result == Some(Trigger(g, h).inputs[0])
  {
    hide WellFormed, Trigger, DependencyResult;
    ReadyHook(g, h);
    HookInputs(g, h);
    HookSees(g, h);
  }

  lemma HookSees(g: Graph, h: StageId)
    requires h in g.stages && |g.stages[h].dependencies| == 1
    ensures var d := g.stages[h].dependencies[0];
            DependencyResult(g, d) == (if d.Root? then g.terminationRoot else if d.stage in g.stages then g.stages[d.stage].result else None)
  {
  }

  // ----- Deactivation -----

  lemma {:induction false} OwedDeactivation(j: seq<Event>, base: nat)
    requires base <= |j|
    ensures Deactivate in Owed(j, base) <==> GraphCompleted in j[base..]
    decreases |j|
  {
    hide ReplayAll, IsReady, Arguments, ExecOf, Trigger;
    if |j| > base {
      OwedDeactivation(Init(j), base);
      assert j[base..] == Init(j)[base..] + [Last(j)];
    }
  }

  /** The actor asks to be deactivated in exactly the generation that completes the graph. */
  lemma DeactivatedExactly(w: World, forced: Forced)
    requires Consistent(w, forced)
    ensures Deactivate in w.requests <==> GraphCompleted in w.journal[w.base..]
  {
    OwedDeactivation(w.journal, w.base);
  }

  // ----- At rest nobody is forgotten -----

  /** Everybody whose closure is to run has been asked for in this generation. */
  ghost predicate AllRequested(w: World) {
    forall y: StageId :: Runs(w.graph, y) ==> Requested(w, y)
  }

  lemma ReadyAtRest(w: World, forced: Forced, x: StageId)
    requires Rest(w, forced) && AllRequested(w) && Pending(w.graph, x) && IsReady(w.graph, x)
    ensures !CompletesAtOnce(ExecOf(w.graph, x))
    ensures Invokes(ExecOf(w.graph, x)) ==> InvocationStarted(x) in w.journal[w.base..]
  {
    hide Good, ReplayAll, Trigger, Requested, ToldOk, LifecycleRest, RequestsOk;
    if Invokes(ExecOf(w.graph, x)) {
      assert Runs(w.graph, x);
      RequestedExactly(w, x);
    }
  }

  /** What a pending stage at rest is known by. */
  lemma PendingAtRest(w: World, forced: Forced, k: nat)
    requires Rest(w, forced) && AllRequested(w) && k < |w.journal| && w.journal[k].StageAdded? && Pending(w.graph, w.journal[k].stage)
    ensures var e, g := w.journal[k], w.graph;
            && e.stage in g.stages && StrategyOf(e.op) == Some(g.stages[e.stage].strategy)
            && (!e.op.TerminationHook? ==>
                  && ArityOk(g.stages[e.stage].strategy, |e.deps|) && g.stages[e.stage].dependencies == OnAll(e.deps)
                  && forall i :: 0 <= i < |e.deps| ==> e.deps[i] in g.stages)
            && (IsReady(g, e.stage) ==>
                  && !CompletesAtOnce(ExecOf(g, e.stage))
                  && (Invokes(ExecOf(g, e.stage)) ==> InvocationStarted(e.stage) in w.journal[w.base..]))
  {
    hide Good, ReplayAll, Trigger, StrategyOf, Fixpoint, FlagsExcept, ToldOk, LifecycleRest, RequestsOk, AllRequested;
    JournaledStage(w.journal, forced, k);
    if IsReady(w.graph, w.journal[k].stage) { ReadyAtRest(w, forced, w.journal[k].stage); }
  }

  /** A pending supply has been asked for. */
  lemma SupplyAtRest(w: World, forced: Forced, k: nat)
    requires Rest(w, forced) && AllRequested(w) && k < |w.journal| && w.journal[k].StageAdded? && Pending(w.graph, w.journal[k].stage)
    requires w.journal[k].op.Supply?
    ensures InvocationStarted(w.journal[k].stage) in w.journal[w.base..]
  {
    hide Good, ReplayAll, StrategyOf, Rest, AllRequested;
    var e := w.journal[k];
    PendingAtRest(w, forced, k);
    RunningRow(e.op);
    NoInputs(w.graph, e.stage);
  }

  /** A stage with one parent that is still pending has a pending parent, or has been asked for: after a
      success (then...), a failure (exceptionally...), or either (handle, whenComplete). */
  lemma SingleAtRest(w: World, forced: Forced, k: nat)
    requires Rest(w, forced) && AllRequested(w) && k < |w.journal| && w.journal[k].StageAdded? && Pending(w.graph, w.journal[k].stage)
    requires w.journal[k].op.ThenApply? || w.journal[k].op.ThenAccept? || w.journal[k].op.ThenRun? || w.journal[k].op.ThenCompose?
             || w.journal[k].op.Exceptionally? || w.journal[k].op.ExceptionallyCompose? || w.journal[k].op.Handle? || w.journal[k].op.WhenComplete?
    ensures var e, s := w.journal[k], w.graph.stages;
            && |e.deps| == 1 && e.deps[0] in s
            && (s[e.deps[0]].result.Some? ==>
                  && InvocationStarted(e.stage) in w.journal[w.base..]
                  && (e.op.ThenApply? || e.op.ThenAccept? || e.op.ThenRun? || e.op.ThenCompose? ==> s[e.deps[0]].result.value.successful)
                  && (e.op.Exceptionally? || e.op.ExceptionallyCompose? ==> !s[e.deps[0]].result.value.successful))
  {
    hide Good, ReplayAll, StrategyOf, Rest, AllRequested;
    var e := w.journal[k];
    PendingAtRest(w, forced, k);
    SingleRow(e.op);
    OneInput(w.graph, e.stage, e.deps[0]);
  }

  /** One of either that is still pending waits for a success, and not both have failed, or has been asked
      for after one. */
  lemma EitherAtRest(w: World, forced: Forced, k: nat)
    requires Rest(w, forced) && AllRequested(w) && k < |w.journal| && w.journal[k].StageAdded? && Pending(w.graph, w.journal[k].stage)
    requires w.journal[k].op.AcceptEither? || w.journal[k].op.ApplyToEither?
    ensures var e, s := w.journal[k], w.graph.stages;
            && |e.deps| == 2 && e.deps[0] in s && e.deps[1] in s
            && var a, b := s[e.deps[0]].result, s[e.deps[1]].result;
               if (a.Some? && a.value.successful) || (b.Some? && b.value.successful)
               then InvocationStarted(e.stage) in w.journal[w.base..]
               else a.None? || b.None?
  {
    hide Good, ReplayAll, StrategyOf, Rest, AllRequested;
    var e := w.journal[k];
    PendingAtRest(w, forced, k);
    PairRow(e.op);
    EitherInput(w.graph, e.stage, e.deps[0], e.deps[1]);
  }

  /** One of both that is still pending waits for one of them, or has been asked for after two successes. */
  lemma BothAtRest(w: World, forced: Forced, k: nat)
    requires Rest(w, forced) && AllRequested(w) && k < |w.journal| && w.journal[k].StageAdded? && Pending(w.graph, w.journal[k].stage)
    requires w.journal[k].op.ThenCombine? || w.journal[k].op.ThenAcceptBoth?
    ensures var e, s := w.journal[k], w.graph.stages;
            && |e.deps| == 2 && e.deps[0] in s && e.deps[1] in s
            && var a, b := s[e.deps[0]].result, s[e.deps[1]].result;
               a.Some? && b.Some? ==> a.value.successful && b.value.successful && InvocationStarted(e.stage) in w.journal[w.base..]
  {
    hide Good, ReplayAll, StrategyOf, Rest, AllRequested;
    var e := w.journal[k];
    PendingAtRest(w, forced, k);
    PairRow(e.op);
    BothInputs(w.graph, e.stage, e.deps[0], e.deps[1]);
  }

  /** A pending allOf has a pending dependency; a pending anyOf has one too, and none that succeeded. */
  lemma JoinAtRest(w: World, forced: Forced, k: nat)
    requires Rest(w, forced) && AllRequested(w) && k < |w.journal| && w.journal[k].StageAdded? && Pending(w.graph, w.journal[k].stage)
    requires w.journal[k].op.AllOf? || w.journal[k].op.AnyOf?
    ensures var e, s := w.journal[k], w.graph.stages;
            && (forall i :: 0 <= i < |e.deps| ==> e.deps[i] in s)
            && (exists i :: 0 <= i < |e.deps| && s[e.deps[i]].result.None?)
            && (e.op.AnyOf? ==> forall i :: 0 <= i < |e.deps| && s[e.deps[i]].result.Some? ==> !s[e.deps[i]].result.value.successful)
  {
    hide Good, ReplayAll, StrategyOf, Rest, AllRequested;
    var e := w.journal[k];
    PendingAtRest(w, forced, k);
    JoiningRows();
    JoinInputs(w.graph, e.stage, e.deps);
  }

  lemma SingleRow(op: Operation)
    requires op.ThenApply? || op.ThenAccept? || op.ThenRun? || op.ThenCompose?
             || op.Exceptionally? || op.ExceptionallyCompose? || op.Handle? || op.WhenComplete?
    ensures StrategyOf(op).Some?
    ensures var s := StrategyOf(op).value;
            && s.trigger.TriggerAny? && s.minDependencies == 1 && s.maxDependencies == 1
            && (Invokes(s.success) || s.success.PropagateResult?) && (Invokes(s.failure) || s.failure.PropagateResult?)
            && (op.ThenApply? || op.ThenAccept? || op.ThenRun? || op.ThenCompose? ==> s.failure.PropagateResult?)
            && (op.Exceptionally? || op.ExceptionallyCompose? ==> s.success.PropagateResult?)
  {
  }

  /** When neither waiting for all nor for any of the dependencies is over. */
  lemma JoinInputs(g: Graph, x: StageId, deps: seq<StageId>)
    requires x in g.stages && g.stages[x].dependencies == OnAll(deps) && forall i :: 0 <= i < |deps| ==> deps[i] in g.stages
    ensures g.stages[x].strategy.trigger.WaitForAll? && !IsReady(g, x) ==> exists i :: 0 <= i < |deps| && g.stages[deps[i]].result.None?
    ensures g.stages[x].strategy.trigger.TriggerAny? && |deps| > 0 && !IsReady(g, x) ==>
              && (exists i :: 0 <= i < |deps| && g.stages[deps[i]].result.None?)
              && (forall i :: 0 <= i < |deps| && g.stages[deps[i]].result.Some? ==> !g.stages[deps[i]].result.value.successful)
  {
    var rs := DependencyResults(g, OnAll(deps));
    assert forall i :: 0 <= i < |deps| ==> rs[i] == g.stages[deps[i]].result;
    if forall i :: 0 <= i < |deps| ==> g.stages[deps[i]].result.Some? {
      assert AllResolved(rs);
      assert !SomeSucceeded(rs) ==> AllFailed(rs);
    }
    if i :| 0 <= i < |deps| && g.stages[deps[i]].result.Some? && g.stages[deps[i]].result.value.successful { assert Succeeded(rs[i]); }
  }

  /** While the graph terminates, the last hook that is still pending has been asked for. */
  lemma HookAtRest(w: World, forced: Forced, h: StageId)
    requires Rest(w, forced) && AllRequested(w) && IsHook(w.graph, h) && Pending(w.graph, h) && w.graph.state.Terminating?
    requires forall n: StageId :: IsHook(w.graph, n) && h < n ==> Resolved(w.graph, n)
    ensures InvocationStarted(h) in w.journal[w.base..]
  {
    hide Good, ReplayAll, StrategyOf, KeysOk, RefsOk, ComposeClosed, FlagsExcept, ToldOk, Fixpoint, RequestsOk, AllRequested;
    var g := w.graph;
    ReplayWellFormed(w.journal, forced);
    StageOf(g, h);
    assert HookOk(g, h);
    LastPendingReady(g, h);
    ReadyAtRest(w, forced, h);
  }

  lemma LastPendingReady(g: Graph, h: StageId)
    requires h in g.stages && |g.stages[h].dependencies| == 1 && g.stages[h].strategy.trigger.WaitForAll?
    requires DependencyResult(g, g.stages[h].dependencies[0]).Some?
    ensures IsReady(g, h)
  {
    var rs := DependencyResults(g, g.stages[h].dependencies);
    assert AllResolved(rs);
  }

  /** A committed graph at rest has a pending main stage, a terminating one a pending hook: otherwise
      it would have gone on. */
  lemma UnfinishedAtRest(w: World, forced: Forced)
    requires Rest(w, forced)
    ensures w.graph.state.Committed? ==>
              exists x :: x in w.graph.stages && !w.graph.stages[x].operation.TerminationHook? && w.graph.stages[x].result.None?
    ensures w.graph.state.Terminating? ==>
              exists x :: x in w.graph.stages && w.graph.stages[x].operation.TerminationHook? && w.graph.stages[x].result.None?
  {
    hide Good, ReplayAll, KeysOk, ChainOk, RefsOk, LifecycleOk, ComposeClosed, FlagsExcept, ToldOk, RequestsOk, Fixpoint;
    ReplayWellFormed(w.journal, forced);
    if w.graph.state.Committed? {
      var x :| x in PendingIn(w.graph, MainPhase);
      StageOf(w.graph, x);
    } else if w.graph.state.Terminating? {
      var x :| x in PendingIn(w.graph, TerminationPhase);
      StageOf(w.graph, x);
    }
  }
}
