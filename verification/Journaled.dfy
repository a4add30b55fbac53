/** What the events of a journal leave in the graph it rebuilds, event by event. */
module Journaled {
  import opened FlowModel
  import opened StageStrategy
  import opened Replay
  import opened Structure
  import opened Lifecycle

  // ----- Additions -----

  /** The stage an addition puts into the graph. */
  lemma AdditionPuts(g: Graph, x: StageId, op: Operation, closure: Option<Blob>, deps: seq<StageId>)
    requires StrategyOf(op).Some?
    ensures var s := Apply(g, StageAdded(x, op, closure, deps)).stages;
            && x in s && s[x].operation == op && s[x].closure == closure && s[x].result.None? && s[x].composeReference.None?
            && s[x].phase == (if op.TerminationHook? then TerminationPhase else MainPhase)
            && (!op.TerminationHook? ==> |s[x].dependencies| == |deps| && forall i :: 0 <= i < |deps| ==> s[x].dependencies[i] == On(deps[i]))
  {
  }

  /** A stage is for good what the event that added it says: its operation, its closure, its phase
      and, for a main stage, its dependencies in order. */
  lemma AddedAsJournaled(j: seq<Event>, forced: Forced, k: nat)
    requires Good(j, forced) && k < |j| && j[k].StageAdded?
    ensures var e := j[k]; var s := ReplayAll(j).stages;
            && e.stage in s && s[e.stage].operation == e.op && s[e.stage].closure == e.closure
            && (s[e.stage].phase.TerminationPhase? <==> e.op.TerminationHook?)
            && (!e.op.TerminationHook? ==>
                  && |s[e.stage].dependencies| == |e.deps|
                  && forall i :: 0 <= i < |e.deps| ==> s[e.stage].dependencies[i] == On(e.deps[i]) && e.deps[i] in s && e.deps[i] < e.stage)
  {
    hide Good, ReplayAll, StrategyOf, Justified, KeysOk, ChainOk, RefsOk, LifecycleOk, ComposeClosed, Apply;
    var e := j[k];
    GoodAt(j, k, forced);
    AdditionPuts(ReplayAll(j[..k]), e.stage, e.op, e.closure, e.deps);
    StatesGrow(j, k + 1, |j|, forced);
    assert j[..|j|] == j;
    ReplayWellFormed(j, forced);
    StageOf(ReplayAll(j), e.stage);
  }

  /** Only additions bring stages into a graph. */
  lemma OnlyAdditions(g: Graph, e: Event, x: StageId)
    requires WellFormed(g) && x !in g.stages && x in Apply(g, e).stages
    ensures e.StageAdded? && e.stage == x
  {
    hide Shape, Settle;
    match e
    case StageCompleted(y, r) => if y in g.stages { CompleteFacts(g, y, r); }
    case StageComposed(o, i) => if o in g.stages && i in g.stages { ComposeFacts(g, o, i); }
    case StageAdded(_, op, _, _) => var _ := StrategyOf(op);
    case _ =>
  }

  /** Every stage was added by exactly one event, which the rest of its life can be read from. */
  lemma {:induction false} StagesWereAdded(j: seq<Event>, forced: Forced, x: StageId) returns (k: nat)
    requires Good(j, forced) && x in ReplayAll(j).stages
    ensures k < |j| && j[k].StageAdded? && j[k].stage == x
  {
    hide WellFormed, Justified, Apply;
    if x in ReplayAll(Init(j)).stages {
      k := StagesWereAdded(Init(j), forced, x);
    } else {
      ReplayWellFormed(Init(j), forced);
      OnlyAdditions(ReplayAll(Init(j)), Last(j), x);
      k := |j| - 1;
    }
  }

  // ----- Compositions -----

  lemma ComposePuts(g: Graph, outer: StageId, inner: StageId)
    requires outer in g.stages && inner in g.stages && ComposeClosed(g)
    ensures ComposedInto(Apply(g, StageComposed(outer, inner)), inner, outer)
  {
    ComposeFacts(g, outer, inner);
  }

  /** A journaled composition sets the reference. */
  lemma ComposedIsReferred(j: seq<Event>, forced: Forced, k: nat)
    requires Good(j, forced) && k < |j| && j[k].StageComposed?
    ensures var s := ReplayAll(j[..k + 1]).stages; j[k].inner in s && s[j[k].inner].composeReference == Some(j[k].stage)
  {
    hide Good, ReplayAll, Apply, Justified, Shape;
    GoodAt(j, k, forced);
    ReplayWellFormed(j[..k], forced);
    ComposePuts(ReplayAll(j[..k]), j[k].stage, j[k].inner);
  }

  /** Nothing but another composition of the same inner stage changes a reference. */
  lemma ReferenceKept(g: Graph, e: Event, inner: StageId, outer: StageId)
    requires WellFormed(g) && ComposedInto(g, inner, outer) && !e.GraphCreated?
    requires !(e.StageComposed? && e.inner == inner) && (e.StageAdded? ==> e.stage == |g.stages|)
    ensures ComposedInto(Apply(g, e), inner, outer)
  {
    hide Settle, ChainOk, StagesOk, RefsOk, LifecycleOk;
    match e
    case StageCompleted(y, r) => if y in g.stages { CompleteFacts(g, y, r); }
    case StageComposed(o, i) => if o in g.stages && i in g.stages { ComposeFacts(g, o, i); }
    case StageAdded(_, op, _, _) => var _ := StrategyOf(op);
    case _ =>
  }

  /** The reference stays until the same inner stage is composed again. */
  lemma {:induction false} ReferenceLasts(j: seq<Event>, forced: Forced, k: nat, n: nat)
    requires Good(j, forced) && k < n <= |j| && j[k].StageComposed?
    requires forall m :: k < m < n && j[m].StageComposed? ==> j[m].inner != j[k].inner
    ensures ComposedInto(ReplayAll(j[..n]), j[k].inner, j[k].stage)
    decreases n
  {
    hide Good, ReplayAll, Apply, Justified, WellFormed;
    if n == k + 1 {
      ComposedIsReferred(j, forced, k);
    } else {
      ReferenceLasts(j, forced, k, n - 1);
      GoodAt(j, n - 1, forced);
      ReplayWellFormed(j[..n - 1], forced);
      ReferenceKept(ReplayAll(j[..n - 1]), j[n - 1], j[k].inner, j[k].stage);
    }
  }

  /** A completion that resolves the inner stage resolves the outer one with the same result. */
  lemma CompletionTogether(g: Graph, y: StageId, r: Result, inner: StageId, outer: StageId)
    requires ComposeClosed(g) && y in g.stages && ComposedInto(g, inner, outer) && Pending(g, inner) && Pending(g, outer)
    requires Resolved(Complete(g, y, r), inner)
    ensures Resolved(Complete(g, y, r), outer) && Complete(g, y, r).stages[outer].result == Complete(g, y, r).stages[inner].result
  {
    hide Complete, Settle;
    CompleteFacts(g, y, r);
    assert ComposedInto(Complete(g, y, r), inner, outer);
  }

  /** So does a composition that settles the chain through it. */
  lemma CompositionTogether(g: Graph, o: StageId, i: StageId, inner: StageId, outer: StageId)
    requires ComposeClosed(g) && o in g.stages && i in g.stages && outer in g.stages && inner in g.stages
    requires (inner == i && outer == o) || (inner != i && ComposedInto(g, inner, outer) && Pending(g, inner))
    requires Resolved(Apply(g, StageComposed(o, i)), inner)
    ensures var g' := Apply(g, StageComposed(o, i));
            Resolved(g', outer) && (Pending(g, outer) ==> g'.stages[outer].result == g'.stages[inner].result)
  {
    hide Apply, Settle;
    ComposeFacts(g, o, i);
    assert ComposedInto(Apply(g, StageComposed(o, i)), inner, outer);
  }

  lemma ResolvingEvents(g: Graph, e: Event, x: StageId)
    requires Pending(g, x) && !e.GraphCreated? && Resolved(Apply(g, e), x)
    ensures (e.StageCompleted? && e.stage in g.stages) || (e.StageComposed? && e.stage in g.stages && e.inner in g.stages)
  {
    hide Complete, Settle;
  }

  lemma ResolvedTogether(g: Graph, e: Event, inner: StageId, outer: StageId)
    requires ComposeClosed(g) && ComposedInto(g, inner, outer) && Pending(g, inner) && Pending(g, outer)
    requires Resolved(Apply(g, e), inner) && !(e.StageComposed? && e.inner == inner) && !e.GraphCreated?
    ensures Resolved(Apply(g, e), outer) && Apply(g, e).stages[outer].result == Apply(g, e).stages[inner].result
  {
    hide ClosedExcept;
    ResolvingEvents(g, e, inner);
    assert e.StageCompleted? ==> Apply(g, e) == Complete(g, e.stage, e.result);
    hide Apply, Complete;
    match e
    case StageCompleted(y, r) => CompletionTogether(g, y, r, inner, outer);
    case StageComposed(o, i) => CompositionTogether(g, o, i, inner, outer);
  }

  /** A journaled composition is kept: unless its inner stage is composed again, whenever the inner
      stage is resolved so is the outer one, and if the outer one was pending when that came about it
      has the inner's result for good. */
  lemma InnerDecidesOuter(j: seq<Event>, forced: Forced, k: nat, m: nat)
    requires Good(j, forced) && k <= m < |j| && j[k].StageComposed?
    requires forall n :: k < n < |j| && j[n].StageComposed? ==> j[n].inner != j[k].inner
    requires m == k || !Resolved(ReplayAll(j[..m]), j[k].inner)
    requires Resolved(ReplayAll(j[..m + 1]), j[k].inner)
    ensures var s := ReplayAll(j).stages; var o, i := j[k].stage, j[k].inner;
            && o in s && i in s && s[i].result.Some? && s[o].result.Some?
            && (Pending(ReplayAll(j[..m]), o) ==> s[o].result == s[i].result)
  {
    hide Good, ReplayAll, Apply, Justified, WellFormed, Extends, ClosedExcept;
    var o, i := j[k].stage, j[k].inner;
    var g := ReplayAll(j[..m]);
    GoodAt(j, m, forced);
    ReplayWellFormed(j[..m], forced);
    ReferenceLasts(j, forced, k, m + 1);
    GoodPrefix(j, m + 1, forced);
    OuterResolved(j[..m + 1], forced, i, o);
    ClosedNow(g);
    if m == k {
      CompositionTogether(g, o, i, i, o);
    } else if Pending(g, o) {
      ReferenceLasts(j, forced, k, m);
      ResolvedTogether(g, j[m], i, o);
    }
    ResultsAreWriteOnce(j, forced, m + 1, |j|, o);
    ResultsAreWriteOnce(j, forced, m + 1, |j|, i);
    assert j[..|j|] == j;
  }

  lemma ClosedNow(g: Graph)
    requires WellFormed(g)
    ensures ComposeClosed(g)
  {
  }

  lemma OuterResolved(j: seq<Event>, forced: Forced, inner: StageId, outer: StageId)
    requires Good(j, forced) && ComposedInto(ReplayAll(j), inner, outer) && Resolved(ReplayAll(j), inner)
    ensures Resolved(ReplayAll(j), outer)
  {
    hide KeysOk, StagesOk, ChainOk, LifecycleOk;
    ReplayWellFormed(j, forced);
  }
}
