/** What every graph rebuilt from a good journal looks like, and what no later event undoes. */
module Structure {
  import opened FlowModel
  import opened StageStrategy
  import opened Replay

  // ----- Later graphs keep what earlier ones decided -----

  /** `later` has every stage of `earlier` with the same identity and the same result if it had
      one. The only dependency list that may change is that of the chain head while the
      termination root is unresolved. */
  ghost predicate Extends(earlier: Graph, later: Graph) {
    && (forall x :: x in earlier.stages ==>
         && x in later.stages
         && later.stages[x].operation == earlier.stages[x].operation
         && later.stages[x].strategy == earlier.stages[x].strategy
         && later.stages[x].closure == earlier.stages[x].closure
         && later.stages[x].phase == earlier.stages[x].phase
         && (earlier.stages[x].result.Some? ==> later.stages[x].result == earlier.stages[x].result)
         && (later.stages[x].dependencies == earlier.stages[x].dependencies
             || (earlier.terminationRoot.None? && earlier.stages[x].operation.TerminationHook?
                 && earlier.stages[x].dependencies == [Root])))
    && Rank(earlier.state) <= Rank(later.state)
    && (earlier.terminationRoot.Some? ==> later.terminationRoot == earlier.terminationRoot)
  }

  lemma ExtendsTransitive(a: Graph, b: Graph, c: Graph)
    requires Extends(a, b) && Extends(b, c)
    ensures Extends(a, c)
  {
  }

  /** A ready stage stays ready with the same status. */
  lemma ReadyStays(a: Graph, b: Graph, x: StageId)
    requires Extends(a, b) && IsReady(a, x)
    requires a.stages[x].operation.TerminationHook? ==> a.stages[x].strategy.trigger.WaitForAll?
    ensures IsReady(b, x) && Trigger(b, x).status == Trigger(a, x).status
    ensures ExecOf(b, x) == ExecOf(a, x)
    ensures b.stages[x].dependencies == a.stages[x].dependencies
  {
    var ra := DependencyResults(a, a.stages[x].dependencies);
    if b.stages[x].dependencies != a.stages[x].dependencies {
      assert false;
    } else {
      var rb := DependencyResults(b, b.stages[x].dependencies);
      assert Keeps(ra, rb);
      StatusIsFixed(a.stages[x].strategy.trigger, ra, rb);
    }
  }

  // ----- The compose chain -----

  /** `outer` is completed with the result of `inner`. */
  predicate ComposedInto(g: Graph, inner: StageId, outer: StageId) {
    inner in g.stages && g.stages[inner].composeReference == Some(outer)
  }

  /** Whenever an inner stage is resolved, so is the stage composed with it, except `x`. */
  ghost predicate ClosedExcept(g: Graph, x: Option<StageId>) {
    forall i: StageId, o: StageId :: ComposedInto(g, i, o) && Resolved(g, i) ==> !Pending(g, o) || x == Some(o)
  }

  ghost predicate ComposeClosed(g: Graph) { ClosedExcept(g, None) }

  /** `later` differs from `earlier` only in results of stages that had none. */
  ghost predicate OnlyResults(earlier: Graph, later: Graph) {
    && later.stages.Keys == earlier.stages.Keys
    && later.state == earlier.state
    && later.terminationRoot == earlier.terminationRoot
    && later.terminationChainHead == earlier.terminationChainHead
    && (forall x :: x in earlier.stages ==>
         && later.stages[x] == earlier.stages[x].(result := later.stages[x].result)
         && (earlier.stages[x].result.Some? ==> later.stages[x].result == earlier.stages[x].result))
  }

  /** Every stage resolved on the way from `earlier` to `later` carries `r`; it is `x` itself or
      the outer stage of another one resolved on the way. */
  ghost predicate ResolvedUpChain(earlier: Graph, later: Graph, x: StageId, r: Result) {
    forall y :: y in earlier.stages && Pending(earlier, y) && Resolved(later, y) ==>
      && later.stages[y].result == Some(r)
      && (y == x || exists i :: ComposedInto(earlier, i, y) && Pending(earlier, i) && Resolved(later, i))
  }

  lemma SetResultFacts(g: Graph, x: StageId, r: Result)
    requires Pending(g, x) && ClosedExcept(g, Some(x))
    ensures var g1 := SetResult(g, x, r);
            && OnlyResults(g, g1) && ResolvedUpChain(g, g1, x, r)
            && match NextOuter(g1, x)
               case None => ComposeClosed(g1)
               case Some(o) => ComposedInto(g, x, o) && Pending(g1, o) && ClosedExcept(g1, Some(o))
  {
    var g1 := SetResult(g, x, r);
    assert forall i: StageId, o: StageId :: ComposedInto(g1, i, o) ==> ComposedInto(g, i, o);
  }

  /** A chain settled from the next outer stage on is settled from the stage itself. */
  lemma SettleUp(g: Graph, x: StageId, r: Result, o: StageId, g': Graph)
    requires Pending(g, x) && ComposedInto(g, x, o) && OnlyResults(SetResult(g, x, r), g')
    requires ResolvedUpChain(SetResult(g, x, r), g', o, r)
    ensures OnlyResults(g, g') && Resolved(g', x) && g'.stages[x].result == Some(r) && ResolvedUpChain(g, g', x, r)
  {
    var g1 := SetResult(g, x, r);
    forall y | y in g.stages && Pending(g, y) && Resolved(g', y) && y != x
      ensures g'.stages[y].result == Some(r)
      ensures exists i :: ComposedInto(g, i, y) && Pending(g, i) && Resolved(g', i)
    {
      assert Pending(g1, y);
      if y != o {
        var i :| ComposedInto(g1, i, y) && Pending(g1, i) && Resolved(g', i);
        assert ComposedInto(g, i, y) && Pending(g, i);
      }
    }
  }

  lemma {:induction false} SettleFacts(g: Graph, x: StageId, r: Result)
    requires Pending(g, x) && ClosedExcept(g, Some(x))
    ensures var g' := Settle(g, x, r);
            && OnlyResults(g, g') && Resolved(g', x) && g'.stages[x].result == Some(r)
            && ResolvedUpChain(g, g', x, r) && ComposeClosed(g')
    decreases PendingSet(g)
  {
    hide OnlyResults, ResolvedUpChain, ClosedExcept;
    var g1 := SetResult(g, x, r);
    assert PendingSet(g1) == PendingSet(g) - {x};
    assert x in PendingSet(g);
    SetResultFacts(g, x, r);
    var o := NextOuter(g1, x);
    if o.Some? {
      SettleFacts(g1, o.value, r);
      SettleUp(g, x, r, o.value, Settle(g1, o.value, r));
    }
  }

  lemma SecondCompletion(g: Graph, x: StageId, r: Result)
    requires Resolved(g, x) && ComposeClosed(g)
    ensures Complete(g, x, r) == g
  {
    var o := NextOuter(g, x);
    if o.Some? { assert ComposedInto(g, x, o.value); }
  }

  lemma ClosedEvenExcept(g: Graph, x: StageId)
    requires ComposeClosed(g)
    ensures ClosedExcept(g, Some(x))
  {
  }

  /** In a closed graph a completion only settles a pending target. */
  lemma CompleteFacts(g: Graph, x: StageId, r: Result)
    requires x in g.stages && ComposeClosed(g)
    ensures var g' := Complete(g, x, r);
            && OnlyResults(g, g') && ResolvedUpChain(g, g', x, r) && ComposeClosed(g') && Resolved(g', x)
            && (Resolved(g, x) ==> g' == g)
            && (Pending(g, x) ==> g' == Settle(g, x, r) && g'.stages[x].result == Some(r))
  {
    hide ClosedExcept, Settle;
    if Pending(g, x) {
      ClosedEvenExcept(g, x);
      SettleFacts(g, x, r);
    } else {
      SecondCompletion(g, x, r);
    }
  }

  // ----- Well-formed graphs -----

  predicate IsHook(g: Graph, x: StageId) { x in g.stages && g.stages[x].operation.TerminationHook? }

  /** Identifiers are handed out in order, so the next one is always fresh. */
  ghost predicate KeysOk(g: Graph) {
    forall x: StageId :: x in g.stages <==> x < |g.stages|
  }

  ghost predicate StageOk(g: Graph, x: StageId)
    requires x in g.stages
  {
    var s := g.stages[x];
    && RowOk(s.operation, s.strategy)
    && (s.phase.TerminationPhase? <==> s.operation.TerminationHook?)
    && (s.operation.TerminationHook? ==> |s.dependencies| == 1)
    && (!s.operation.TerminationHook? ==>
          && ArityOk(s.strategy, |s.dependencies|)
          && forall i :: 0 <= i < |s.dependencies| ==>
               s.dependencies[i].On? && s.dependencies[i].stage in g.stages && s.dependencies[i].stage < x)
  }

  ghost predicate StagesOk(g: Graph) { forall x :: x in g.stages ==> StageOk(g, x) }

  /** The termination chain: the head depends on the root, every other hook on the hook added
      right after it. */
  ghost predicate HookOk(g: Graph, h: StageId)
    requires IsHook(g, h) && |g.stages[h].dependencies| == 1
  {
    match g.stages[h].dependencies[0]
    case Root => g.terminationChainHead == Some(h)
    case On(n) => IsHook(g, n) && h < n && forall m: StageId :: IsHook(g, m) && h < m ==> n <= m
  }

  ghost predicate ChainOk(g: Graph) {
    && (forall h: StageId :: IsHook(g, h) ==> |g.stages[h].dependencies| == 1 && HookOk(g, h))
    && (forall h: StageId :: IsHook(g, h) ==> g.terminationChainHead.Some? && h <= g.terminationChainHead.value)
    && (g.terminationChainHead.Some? ==>
          IsHook(g, g.terminationChainHead.value) && g.stages[g.terminationChainHead.value].dependencies == [Root])
  }

  ghost predicate RefsOk(g: Graph) {
    forall i: StageId, o: StageId :: ComposedInto(g, i, o) ==>
      o in g.stages && g.stages[o].strategy.resultHandling.ReferencedStageResult?
  }

  ghost predicate LifecycleOk(g: Graph) {
    && (g.terminationRoot.Some? <==> Rank(g.state) >= 2)
    && (g.terminationRoot.Some? ==> g.terminationRoot == Some(TerminationResult(StatusSucceeded)))
    && (Rank(g.state) >= 2 ==> PendingIn(g, MainPhase) == {})
    && (g.state.Completed? ==> PendingIn(g, TerminationPhase) == {})
  }

  /** Everything well-formed about a graph except that compose chains are settled. */
  ghost predicate Shape(g: Graph) {
    KeysOk(g) && StagesOk(g) && ChainOk(g) && RefsOk(g) && LifecycleOk(g)
  }

  ghost predicate WellFormed(g: Graph) { Shape(g) && ComposeClosed(g) }

  lemma StageOf(g: Graph, x: StageId)
    requires WellFormed(g) && x in g.stages
    ensures StageOk(g, x)
  {
  }

  /** Same stages, operations, dependencies and chain; only results, references and lifecycle may differ. */
  ghost predicate SameSkeleton(g: Graph, g': Graph) {
    && g'.stages.Keys == g.stages.Keys && g'.terminationChainHead == g.terminationChainHead
    && forall x :: x in g.stages ==>
         && g'.stages[x].operation == g.stages[x].operation && g'.stages[x].strategy == g.stages[x].strategy
         && g'.stages[x].phase == g.stages[x].phase && g'.stages[x].dependencies == g.stages[x].dependencies
  }

  lemma SkeletonKeepsStages(g: Graph, g': Graph)
    requires KeysOk(g) && StagesOk(g) && SameSkeleton(g, g')
    ensures KeysOk(g') && StagesOk(g')
  {
    assert |g'.stages| == |g.stages| by { assert |g'.stages.Keys| == |g.stages.Keys|; }
    forall x | x in g'.stages ensures StageOk(g', x) { assert StageOk(g, x); }
  }

  lemma SkeletonKeepsChain(g: Graph, g': Graph)
    requires ChainOk(g) && SameSkeleton(g, g')
    ensures ChainOk(g')
  {
    assert forall m :: IsHook(g', m) <==> IsHook(g, m);
    forall h | IsHook(g', h) ensures |g'.stages[h].dependencies| == 1 && HookOk(g', h) { assert HookOk(g, h); }
  }

  lemma OnlyResultsSkeleton(g: Graph, g': Graph)
    requires OnlyResults(g, g')
    ensures SameSkeleton(g, g') && Extends(g, g')
  {
  }

  lemma OnlyResultsRest(g: Graph, g': Graph)
    requires OnlyResults(g, g') && RefsOk(g) && LifecycleOk(g)
    ensures RefsOk(g') && LifecycleOk(g')
  {
    assert forall i: StageId, o: StageId :: ComposedInto(g', i, o) ==> ComposedInto(g, i, o);
    assert PendingIn(g', MainPhase) <= PendingIn(g, MainPhase);
    assert PendingIn(g', TerminationPhase) <= PendingIn(g, TerminationPhase);
  }

  lemma OnlyResultsKeeps(g: Graph, g': Graph)
    requires Shape(g) && OnlyResults(g, g')
    ensures Shape(g') && Extends(g, g')
  {
    hide KeysOk, StagesOk, ChainOk, RefsOk, LifecycleOk, OnlyResults, SameSkeleton, Extends;
    OnlyResultsSkeleton(g, g');
    SkeletonKeepsStages(g, g');
    SkeletonKeepsChain(g, g');
    OnlyResultsRest(g, g');
  }

  /** A fresh main stage over existing ones. */
  ghost predicate FreshMain(g: Graph, x: StageId, s: Stage) {
    && x == |g.stages| && s.result.None? && s.composeReference.None? && s.phase.MainPhase?
    && !s.operation.TerminationHook? && RowOk(s.operation, s.strategy)
    && ArityOk(s.strategy, |s.dependencies|)
    && forall i :: 0 <= i < |s.dependencies| ==> s.dependencies[i].On? && s.dependencies[i].stage in g.stages
  }

  lemma PutKeysOk(g: Graph, x: StageId, stages: map<StageId, Stage>)
    requires KeysOk(g) && x == |g.stages| && stages.Keys == g.stages.Keys + {x}
    ensures x !in g.stages && KeysOk(g.(stages := stages)) && |stages| == |g.stages| + 1
  {
    assert x !in g.stages;
    assert |stages.Keys| == |g.stages.Keys| + 1;
  }

  lemma PutMainStages(g: Graph, x: StageId, s: Stage)
    requires KeysOk(g) && StagesOk(g) && FreshMain(g, x, s)
    ensures var g' := g.(stages := g.stages[x := s]); KeysOk(g') && StagesOk(g') && x !in g.stages
  {
    var g' := g.(stages := g.stages[x := s]);
    PutKeysOk(g, x, g'.stages);
    forall y | y in g'.stages ensures StageOk(g', y) { if y != x { assert StageOk(g, y); } }
  }

  lemma PutMainChain(g: Graph, x: StageId, s: Stage)
    requires ChainOk(g) && x !in g.stages && !s.operation.TerminationHook?
    ensures ChainOk(g.(stages := g.stages[x := s]))
  {
    var g' := g.(stages := g.stages[x := s]);
    assert forall m :: IsHook(g', m) <==> IsHook(g, m);
    forall h | IsHook(g', h) ensures |g'.stages[h].dependencies| == 1 && HookOk(g', h) { assert HookOk(g, h); }
  }

  /** A new pending stage disturbs no reference, no result and no decided dependency. */
  lemma PutRest(g: Graph, x: StageId, s: Stage)
    requires RefsOk(g) && LifecycleOk(g) && ComposeClosed(g) && Open(g)
    requires x !in g.stages && s.result.None? && s.composeReference.None?
    ensures var g' := g.(stages := g.stages[x := s]); RefsOk(g') && LifecycleOk(g') && ComposeClosed(g') && Extends(g, g')
  {
    var g' := g.(stages := g.stages[x := s]);
    assert forall i: StageId, o: StageId :: ComposedInto(g', i, o) ==> ComposedInto(g, i, o);
  }

  lemma PutMainKeeps(g: Graph, x: StageId, s: Stage)
    requires WellFormed(g) && Open(g) && FreshMain(g, x, s)
    ensures var g' := g.(stages := g.stages[x := s]); WellFormed(g') && Extends(g, g')
  {
    PutMainStages(g, x, s);
    PutMainChain(g, x, s);
    PutRest(g, x, s);
  }

  lemma AddMainKeeps(g: Graph, x: StageId, op: Operation, closure: Option<Blob>, deps: seq<StageId>)
    requires WellFormed(g) && Open(g) && x == |g.stages| && !op.TerminationHook?
    requires StrategyOf(op).Some? && ArityOk(StrategyOf(op).value, |deps|)
    requires forall i :: 0 <= i < |deps| ==> deps[i] in g.stages
    ensures var g' := AddMain(g, x, op, closure, deps); WellFormed(g') && Extends(g, g')
  {
    TableRowsOk(op);
    PutMainKeeps(g, x, Stage(op, StrategyOf(op).value, closure, OnAll(deps), MainPhase, None, None));
  }

  /** Putting a hook at the head of the chain and rewiring the old head. */
  function PutHook(g: Graph, x: StageId, s: Stage): Graph
    requires g.terminationChainHead.Some? ==> g.terminationChainHead.value in g.stages
  {
    var rewired :=
      if g.terminationChainHead.Some? then
        var h := g.terminationChainHead.value;
        g.stages[h := g.stages[h].(dependencies := [On(x)])]
      else g.stages;
    g.(stages := rewired[x := s], terminationChainHead := Some(x))
  }

  lemma PutHookStages(g: Graph, x: StageId, s: Stage)
    requires KeysOk(g) && StagesOk(g) && ChainOk(g) && x == |g.stages|
    requires s.phase.TerminationPhase? && s.operation.TerminationHook? && s.dependencies == [Root]
    requires RowOk(s.operation, s.strategy)
    ensures KeysOk(PutHook(g, x, s)) && StagesOk(PutHook(g, x, s)) && x !in g.stages
  {
    var g' := PutHook(g, x, s);
    PutKeysOk(g, x, g'.stages);
    forall y | y in g'.stages ensures StageOk(g', y) { if y != x { assert StageOk(g, y); } }
  }

  /** Rewiring the unresolved chain head is the one change of dependencies. */
  lemma RewireKeeps(g: Graph, h: StageId, deps: seq<Dependency>)
    requires RefsOk(g) && LifecycleOk(g) && ComposeClosed(g) && Open(g)
    requires h in g.stages && g.stages[h].operation.TerminationHook? && g.stages[h].dependencies == [Root]
    ensures var g' := g.(stages := g.stages[h := g.stages[h].(dependencies := deps)]);
            RefsOk(g') && LifecycleOk(g') && ComposeClosed(g') && Extends(g, g')
  {
    var g' := g.(stages := g.stages[h := g.stages[h].(dependencies := deps)]);
    assert forall i: StageId, o: StageId :: ComposedInto(g', i, o) ==> ComposedInto(g, i, o);
  }

  lemma PutHookRest(g: Graph, x: StageId, s: Stage)
    requires RefsOk(g) && LifecycleOk(g) && ComposeClosed(g) && Open(g) && ChainOk(g)
    requires x !in g.stages && s.result.None? && s.composeReference.None?
    ensures var g' := PutHook(g, x, s); RefsOk(g') && LifecycleOk(g') && ComposeClosed(g') && Extends(g, g')
  {
    var g1 := g;
    if g.terminationChainHead.Some? {
      var h := g.terminationChainHead.value;
      RewireKeeps(g, h, [On(x)]);
      g1 := g.(stages := g.stages[h := g.stages[h].(dependencies := [On(x)])]);
    }
    PutRest(g1, x, s);
    var g2 := g1.(stages := g1.stages[x := s]);
    ExtendsTransitive(g, g1, g2);
    assert PutHook(g, x, s) == g2.(terminationChainHead := Some(x));
    assert forall i: StageId, o: StageId :: ComposedInto(PutHook(g, x, s), i, o) ==> ComposedInto(g2, i, o);
    assert PendingIn(PutHook(g, x, s), MainPhase) == PendingIn(g2, MainPhase);
  }

  lemma PutHookChain(g: Graph, x: StageId, s: Stage)
    requires KeysOk(g) && ChainOk(g) && x == |g.stages| && s.operation.TerminationHook? && s.dependencies == [Root]
    ensures ChainOk(PutHook(g, x, s))
  {
    var g' := PutHook(g, x, s);
    assert forall m :: IsHook(g', m) <==> IsHook(g, m) || m == x;
    forall h | IsHook(g', h) ensures |g'.stages[h].dependencies| == 1 && HookOk(g', h) {
      if h != x { assert IsHook(g, h) && HookOk(g, h); }
    }
  }

  lemma AddHookKeeps(g: Graph, x: StageId, closure: Option<Blob>)
    requires WellFormed(g) && Open(g) && x == |g.stages|
    ensures var g' := AddHook(g, x, closure); WellFormed(g') && Extends(g, g')
  {
    var s := Stage(TerminationHook, StrategyOf(TerminationHook).value, closure, [Root], TerminationPhase, None, None);
    TableRowsOk(TerminationHook);
    PutHookStages(g, x, s);
    PutHookRest(g, x, s);
    PutHookChain(g, x, s);
    assert AddHook(g, x, closure) == PutHook(g, x, s);
  }

  lemma SetReferenceRest(g: Graph, outer: StageId, inner: StageId)
    requires RefsOk(g) && LifecycleOk(g) && ComposeClosed(g) && outer in g.stages && inner in g.stages
    requires g.stages[outer].strategy.resultHandling.ReferencedStageResult?
    ensures var g1 := SetReference(g, outer, inner); RefsOk(g1) && LifecycleOk(g1) && ClosedExcept(g1, Some(outer))
  {
    var g1 := SetReference(g, outer, inner);
    assert forall i: StageId, o: StageId :: ComposedInto(g1, i, o) ==> ComposedInto(g, i, o) || (i == inner && o == outer);
    assert PendingIn(g1, MainPhase) == PendingIn(g, MainPhase);
    assert PendingIn(g1, TerminationPhase) == PendingIn(g, TerminationPhase);
  }

  lemma SetReferenceSkeleton(g: Graph, outer: StageId, inner: StageId)
    requires inner in g.stages
    ensures SameSkeleton(g, SetReference(g, outer, inner)) && Extends(g, SetReference(g, outer, inner))
  {
  }

  lemma SetReferenceKeeps(g: Graph, outer: StageId, inner: StageId)
    requires WellFormed(g) && outer in g.stages && inner in g.stages
    requires g.stages[outer].strategy.resultHandling.ReferencedStageResult?
    ensures var g1 := SetReference(g, outer, inner); Shape(g1) && Extends(g, g1) && ClosedExcept(g1, Some(outer))
  {
    hide KeysOk, StagesOk, ChainOk, RefsOk, LifecycleOk, SameSkeleton, Extends, SetReference, ClosedExcept;
    var g1 := SetReference(g, outer, inner);
    SetReferenceSkeleton(g, outer, inner);
    SkeletonKeepsStages(g, g1);
    SkeletonKeepsChain(g, g1);
    SetReferenceRest(g, outer, inner);
  }

  lemma NothingResolved(g: Graph, x: StageId, r: Result)
    ensures OnlyResults(g, g) && ResolvedUpChain(g, g, x, r)
  {
  }

  /** A compose event sets the reference and, if the inner stage is resolved, settles the outer
      one with the inner's result. */
  lemma ComposeFacts(g: Graph, outer: StageId, inner: StageId)
    requires outer in g.stages && inner in g.stages && ComposeClosed(g)
    ensures var g1 := SetReference(g, outer, inner);
            var g' := Apply(g, StageComposed(outer, inner));
            && OnlyResults(g1, g') && ComposeClosed(g')
            && (Resolved(g, inner) ==> ResolvedUpChain(g1, g', outer, g.stages[inner].result.value))
            && (Pending(g, inner) ==> g' == g1)
  {
    hide OnlyResults, ResolvedUpChain;
    var g1 := SetReference(g, outer, inner);
    assert forall i: StageId, o: StageId :: ComposedInto(g1, i, o) ==> ComposedInto(g, i, o) || (i == inner && o == outer);
    if Resolved(g1, inner) && Pending(g1, outer) {
      SettleFacts(g1, outer, g1.stages[inner].result.value);
    } else if Resolved(g1, inner) {
      NothingResolved(g1, outer, g1.stages[inner].result.value);
    } else {
      NothingResolved(g1, outer, EmptyResult());
    }
  }

  lemma ComposeKeeps(g: Graph, outer: StageId, inner: StageId)
    requires WellFormed(g) && outer in g.stages && inner in g.stages
    requires g.stages[outer].strategy.resultHandling.ReferencedStageResult?
    ensures var g' := Apply(g, StageComposed(outer, inner)); WellFormed(g') && Extends(g, g')
  {
    var g1 := SetReference(g, outer, inner);
    var g' := Apply(g, StageComposed(outer, inner));
    SetReferenceKeeps(g, outer, inner);
    ComposeFacts(g, outer, inner);
    OnlyResultsKeeps(g1, g');
    ExtendsTransitive(g, g1, g');
  }

  lemma LifecycleKeeps(g: Graph, state: State, root: Option<Result>)
    requires WellFormed(g)
    requires var g' := g.(state := state, terminationRoot := root);
             LifecycleOk(g') && Rank(g.state) <= Rank(state) && (g.terminationRoot.Some? ==> root == g.terminationRoot)
    ensures var g' := g.(state := state, terminationRoot := root); WellFormed(g') && Extends(g, g')
  {
    var g' := g.(state := state, terminationRoot := root);
    SkeletonKeepsStages(g, g');
    SkeletonKeepsChain(g, g');
    assert forall i: StageId, o: StageId :: ComposedInto(g', i, o) ==> ComposedInto(g, i, o);
  }

  lemma CompleteKeeps(g: Graph, x: StageId, r: Result)
    requires WellFormed(g) && x in g.stages
    ensures WellFormed(Complete(g, x, r)) && Extends(g, Complete(g, x, r))
  {
    CompleteFacts(g, x, r);
    OnlyResultsKeeps(g, Complete(g, x, r));
  }

  /** One admissible event keeps the graph well-formed and everything already decided. */
  lemma ApplyKeeps(j: seq<Event>, e: Event)
    requires WellFormed(ReplayAll(j)) && Admissible(j, e)
    ensures var g := ReplayAll(j); WellFormed(Apply(g, e)) && Extends(g, Apply(g, e))
  {
    var g := ReplayAll(j);
    match e
    case GraphCreated =>
    case GraphCommitted => LifecycleKeeps(g, Committed, g.terminationRoot);
    case GraphTerminating(status) =>
      assert PendingIn(g.(state := Terminating, terminationRoot := Some(TerminationResult(status))), MainPhase) == PendingIn(g, MainPhase);
      LifecycleKeeps(g, Terminating, Some(TerminationResult(status)));
    case GraphCompleted =>
      assert PendingIn(g.(state := Completed), MainPhase) == PendingIn(g, MainPhase);
      assert PendingIn(g.(state := Completed), TerminationPhase) == PendingIn(g, TerminationPhase);
      LifecycleKeeps(g, Completed, g.terminationRoot);
    case StageAdded(x, op, closure, deps) =>
      if op.TerminationHook? { AddHookKeeps(g, x, closure); } else { AddMainKeeps(g, x, op, closure, deps); }
    case StageCompleted(x, r) => CompleteKeeps(g, x, r);
    case StageComposed(outer, inner) => ComposeKeeps(g, outer, inner);
    case InvocationStarted(_) =>
    case InvocationCompleted(_, _) =>
    case DelayScheduled(_, _) =>
  }

  /** Every graph rebuilt from a good journal is well-formed. */
  lemma {:induction false} ReplayWellFormed(j: seq<Event>, forced: Forced)
    requires Good(j, forced)
    ensures WellFormed(ReplayAll(j))
  {
    if j != [] {
      ReplayWellFormed(Init(j), forced);
      ApplyKeeps(Init(j), Last(j));
    }
  }

  /** Results are write-once: whatever a prefix of the journal decided, the whole keeps. */
  lemma {:induction false} ReplayExtends(j: seq<Event>, k: nat, forced: Forced)
    requires Good(j, forced) && k <= |j|
    ensures Extends(ReplayAll(j[..k]), ReplayAll(j))
    decreases |j|
  {
    if k == |j| {
      assert j[..k] == j;
    } else {
      ReplayExtends(Init(j), k, forced);
      assert Init(j)[..k] == j[..k];
      ReplayWellFormed(Init(j), forced);
      ApplyKeeps(Init(j), Last(j));
      ExtendsTransitive(ReplayAll(j[..k]), ReplayAll(Init(j)), ReplayAll(j));
    }
  }

  // ----- Dependencies are well-founded -----

  /** Hooks below main stages, later hooks below earlier ones. */
  function Depth(g: Graph, x: StageId): int {
    if IsHook(g, x) then |g.stages| - x else |g.stages| + 1 + x
  }

  /** Along every dependency edge of every reachable graph the depth strictly decreases, so no
      stage waits for itself. */
  lemma DependenciesWellFounded(j: seq<Event>, forced: Forced, x: StageId, i: nat)
    requires Good(j, forced)
    requires x in ReplayAll(j).stages && i < |ReplayAll(j).stages[x].dependencies|
    ensures var g := ReplayAll(j); var d := g.stages[x].dependencies[i];
            d.On? ==> d.stage in g.stages && 0 <= Depth(g, d.stage) < Depth(g, x)
  {
    ReplayWellFormed(j, forced);
    var g := ReplayAll(j);
    assert StageOk(g, x);
    if IsHook(g, x) { assert HookOk(g, x); }
    var d := g.stages[x].dependencies[i];
    if d.On? { assert StageOk(g, d.stage); }
  }

  // ----- Invocations -----

  /** Whoever was ever invoked is, and stays, ready with a status that invokes it. */
  lemma {:induction false} InvokedStaysReady(j: seq<Event>, forced: Forced, x: StageId)
    requires Good(j, forced) && InvocationStarted(x) in j
    ensures var g := ReplayAll(j);
            IsReady(g, x) && (Invokes(ExecOf(g, x)) || g.stages[x].operation.InvokeFunction?)
  {
    var before := ReplayAll(Init(j));
    ReplayWellFormed(Init(j), forced);
    if Last(j) != InvocationStarted(x) {
      assert InvocationStarted(x) in Init(j);
      InvokedStaysReady(Init(j), forced, x);
    }
    ApplyKeeps(Init(j), Last(j));
    assert StageOk(before, x);
    ReadyStays(before, ReplayAll(j), x);
  }

  /** Only a compose event sets a compose reference. */
  lemma ReferenceOrigin(g: Graph, e: Event, inner: StageId, outer: StageId)
    requires WellFormed(g) && !ComposedInto(g, inner, outer) && ComposedInto(Apply(g, e), inner, outer)
    requires e.StageComposed? ==> e.stage in g.stages
    ensures e == StageComposed(outer, inner)
  {
    hide Shape, Settle, ResolvedUpChain, ClosedExcept;
    match e
    case StageCompleted(x, r) => if x in g.stages { CompleteFacts(g, x, r); }
    case StageComposed(o, i) =>
      if i in g.stages { ComposeFacts(g, o, i); }
    case StageAdded(_, op, _, _) => var _ := StrategyOf(op);
    case _ =>
  }

  /** Whoever waits for an inner stage was invoked before. */
  lemma {:induction false} OuterWasInvoked(j: seq<Event>, forced: Forced, inner: StageId, outer: StageId)
    requires Good(j, forced) && ComposedInto(ReplayAll(j), inner, outer)
    ensures InvocationStarted(outer) in j
  {
    var g := ReplayAll(Init(j));
    var e := Last(j);
    if ComposedInto(g, inner, outer) {
      OuterWasInvoked(Init(j), forced, inner, outer);
    } else {
      ReplayWellFormed(Init(j), forced);
      ReferenceOrigin(g, e, inner, outer);
      assert InvocationStarted(outer) in Init(Init(j));
    }
  }

  /** Every compose reference was asked for by the reply right before its compose event. */
  lemma {:induction false} ReferenceWasReplied(j: seq<Event>, forced: Forced, inner: StageId, outer: StageId) returns (k: nat)
    requires Good(j, forced) && ComposedInto(ReplayAll(j), inner, outer)
    ensures k < |j| && j[k] == InvocationCompleted(outer, Result(true, StageRefDatum(inner)))
    ensures inner in ReplayAll(j[..k]).stages
  {
    hide Shape, Justified;
    var g := ReplayAll(Init(j));
    if ComposedInto(g, inner, outer) {
      k := ReferenceWasReplied(Init(j), forced, inner, outer);
      assert Init(j)[..k] == j[..k];
    } else {
      ReplayWellFormed(Init(j), forced);
      ReferenceOrigin(g, Last(j), inner, outer);
      k := |j| - 2;
      assert Init(Init(j)) == j[..k] && Last(Init(j)) == j[k];
    }
  }
}
