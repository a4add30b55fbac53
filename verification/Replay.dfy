/** The persisted graph as a fold over its journal. `Apply` is `UpdateWithEvent(_, false)`
    (graph/graph.go:362), the update a recovering actor performs; `Good` says which events a
    journal may hold at each point, which is what the live actor is proved to respect. */
module Replay {
  import opened FlowModel
  import opened StageStrategy

  // ----- Completing a stage and the compose chain above it -----

  function SetResult(g: Graph, x: StageId, r: Result): Graph
    requires x in g.stages
  {
    g.(stages := g.stages[x := g.stages[x].(result := Some(r))])
  }

  function PendingSet(g: Graph): set<StageId> {
    set x | x in g.stages && g.stages[x].result.None?
  }

  /** The composed outer stage that a resolved `x` still has to complete. */
  function NextOuter(g: Graph, x: StageId): Option<StageId> {
    if Resolved(g, x) && g.stages[x].composeReference.Some? && Pending(g, g.stages[x].composeReference.value)
    then g.stages[x].composeReference
    else None
  }

  /** Completes `x` and then every pending outer stage up its compose chain, all with `r`. */
  function Settle(g: Graph, x: StageId, r: Result): Graph
    requires Pending(g, x)
    decreases PendingSet(g)
  {
    var g1 := SetResult(g, x, r);
    assert PendingSet(g1) == PendingSet(g) - {x};
    assert x in PendingSet(g);
    var o := NextOuter(g1, x);
    if o.None? then g1 else Settle(g1, o.value, r)
  }

  /** graph/graph.go:234 without triggering: a second completion keeps the first result. */
  function Complete(g: Graph, x: StageId, r: Result): Graph
    requires x in g.stages
  {
    if Pending(g, x) then Settle(g, x, r)
    else
      var o := NextOuter(g, x);
      if o.None? then g else Settle(g, o.value, g.stages[x].result.value)
  }

  // ----- Adding stages -----

  function OnAll(ids: seq<StageId>): (deps: seq<Dependency>)
    ensures |deps| == |ids|
    ensures forall i :: 0 <= i < |ids| ==> deps[i] == On(ids[i])
  {
    seq(|ids|, i requires 0 <= i < |ids| => On(ids[i]))
  }

  /** graph/graph.go:153. */
  function AddMain(g: Graph, x: StageId, op: Operation, closure: Option<Blob>, deps: seq<StageId>): Graph {
    match StrategyOf(op)
    case None => g
    case Some(s) => g.(stages := g.stages[x := Stage(op, s, closure, OnAll(deps), MainPhase, None, None)])
  }

  /** graph/graph.go:204: the new hook becomes the head of the termination chain and the old
      head is made to depend on it. */
  function AddHook(g: Graph, x: StageId, closure: Option<Blob>): Graph {
    var hook := Stage(TerminationHook, StrategyOf(TerminationHook).value, closure, [Root], TerminationPhase, None, None);
    var rewired :=
      if g.terminationChainHead.Some? && g.terminationChainHead.value in g.stages then
        var h := g.terminationChainHead.value;
        g.stages[h := g.stages[h].(dependencies := [On(x)])]
      else g.stages;
    g.(stages := rewired[x := hook], terminationChainHead := Some(x))
  }

  function SetReference(g: Graph, outer: StageId, inner: StageId): Graph
    requires inner in g.stages
  {
    g.(stages := g.stages[inner := g.stages[inner].(composeReference := Some(outer))])
  }

  // ----- One event, and the whole journal -----

  function Apply(g: Graph, e: Event): Graph {
    match e
    case GraphCreated => NewGraph()
    case GraphCommitted => g.(state := Committed)
    case GraphTerminating(status) => g.(state := Terminating, terminationRoot := Some(TerminationResult(status)))
    case GraphCompleted => g.(state := Completed)
    case StageAdded(x, op, closure, deps) =>
      if op.TerminationHook? then AddHook(g, x, closure) else AddMain(g, x, op, closure, deps)
    case StageCompleted(x, r) => if x in g.stages then Complete(g, x, r) else g
    case StageComposed(outer, inner) =>
      if inner in g.stages && outer in g.stages then
        var g1 := SetReference(g, outer, inner);
        if Resolved(g1, inner) && Pending(g1, outer) then Settle(g1, outer, g1.stages[inner].result.value) else g1
      else g
    case InvocationStarted(_) => g
    case InvocationCompleted(_, _) => g
    case DelayScheduled(_, _) => g
  }

  function Init<T>(j: seq<T>): seq<T> requires j != [] { j[..|j| - 1] }

  function Last<T>(j: seq<T>): T requires j != [] { j[|j| - 1] }

  function ReplayAll(j: seq<Event>): Graph {
    if j == [] then NewGraph() else Apply(ReplayAll(Init(j)), Last(j))
  }

  // ----- Which events may follow a journal -----

  /** The trigger condition of a stage in a graph. */
  function Trigger(g: Graph, x: StageId): Readiness
    requires x in g.stages
  {
    Evaluate(g.stages[x].strategy.trigger, DependencyResults(g, g.stages[x].dependencies))
  }

  predicate IsReady(g: Graph, x: StageId) { x in g.stages && Trigger(g, x).Ready? }

  /** What triggering a ready stage does. */
  function ExecOf(g: Graph, x: StageId): ExecKind
    requires IsReady(g, x)
  {
    Exec(g.stages[x].strategy, Trigger(g, x).status)
  }

  predicate Open(g: Graph) { g.state.Initial? || g.state.Committed? }

  /** The guards of the handlers, of command validation, and of the callers that persist. */
  predicate Admissible(j: seq<Event>, e: Event) {
    var g := ReplayAll(j);
    if e.GraphCreated? then j == [] else
      && j != []
      && match e
         case GraphCreated => true
         case GraphCommitted => g.state.Initial?
         case GraphTerminating(status) =>
           g.state.Committed? && PendingIn(g, MainPhase) == {} && status == StatusSucceeded
         case GraphCompleted => g.state.Terminating? && PendingIn(g, TerminationPhase) == {}
         case StageAdded(x, op, closure, deps) =>
           && Open(g) && x == |g.stages|
           && StrategyOf(op).Some? && ArityOk(StrategyOf(op).value, |deps|)
           && forall i :: 0 <= i < |deps| ==> deps[i] in g.stages
         case StageCompleted(x, r) =>
           x in g.stages && (g.stages[x].strategy.trigger.TriggerNever? ==> Pending(g, x))
         case StageComposed(outer, inner) =>
           && outer in g.stages && inner in g.stages
           && g.stages[outer].strategy.resultHandling.ReferencedStageResult?
           && Last(j) == InvocationCompleted(outer, Result(true, StageRefDatum(inner)))
         case InvocationStarted(x) =>
           Pending(g, x) && IsReady(g, x) && (Invokes(ExecOf(g, x)) || g.stages[x].operation.InvokeFunction?)
         case InvocationCompleted(x, r) => InvocationStarted(x) in j
         case DelayScheduled(x, _) => x in g.stages && g.stages[x].operation.Delay?
  }

  /** `r` is what the strategy of a ready, pending stage completes it with at once. */
  predicate CompletedByTrigger(g: Graph, x: StageId, r: Result) {
    && IsReady(g, x)
    && CompletesAtOnce(ExecOf(g, x))
    && (NeedsSingleInput(ExecOf(g, x)) ==> |Trigger(g, x).inputs| == 1)
    && r == Immediate(ExecOf(g, x), Trigger(g, x).inputs)
  }

  /** What the result handling strategy of `x` makes of the reply `reply`: a result, or None
      when the stage is composed with another one or left alone (graph/stage_strategy.go:126). */
  function Handled(g: Graph, x: StageId, reply: Result): Option<Result>
    requires x in g.stages
  {
    match g.stages[x].strategy.resultHandling
    case InvocationResult => Some(reply)
    case ReferencedStageResult =>
      if !reply.successful then Some(reply)
      else if !reply.datum.StageRefDatum? then
        Some(InternalError(InvalidStageResponse, "stage returned a non-stageref response"))
      else if reply.datum.stage !in g.stages then
        Some(InternalError(InvalidStageResponse, "referenced stage not found "))
      else None
    case ParentStageResult =>
      if |g.stages[x].dependencies| == 1 then DependencyResult(g, g.stages[x].dependencies[0]) else None
    case NoResultStrategy => None
  }

  predicate CompletedByReply(j: seq<Event>, g: Graph, x: StageId, r: Result) {
    && j != [] && x in g.stages
    && Last(j).InvocationCompleted? && Last(j).stage == x
    && Handled(g, x, Last(j).result) == Some(r)
  }

  /** The stages completed otherwise than by their own strategies: from outside, by an external
      completion, a delay or a given value; or as lost, by a recovery. */
  datatype Forced = Forced(outside: set<StageId>, lost: set<StageId>)

  function Outside(f: Forced, xs: set<StageId>): Forced { f.(outside := f.outside + xs) }

  function AlsoLost(f: Forced, x: StageId): Forced { f.(lost := f.lost + {x}) }

  predicate Within(f: Forced, more: Forced) { f.outside <= more.outside && f.lost <= more.lost }

  /** Completed by its own strategies alone. */
  predicate Unforced(f: Forced, x: StageId) { x !in f.outside && x !in f.lost }

  /** What a recovery does to a stage that would run again. */
  predicate FailedAsLost(g: Graph, x: StageId, r: Result) { IsReady(g, x) && r == StageLostResult() }

  /** A completion of a pending stage comes from outside, from the stage's own strategies, or from
      a recovery that finds it ready. */
  predicate Justified(j: seq<Event>, e: Event, forced: Forced) {
    e.StageCompleted? && Pending(ReplayAll(j), e.stage) && e.stage !in forced.outside ==>
      || CompletedByTrigger(ReplayAll(j), e.stage, e.result)
      || CompletedByReply(j, ReplayAll(j), e.stage, e.result)
      || (e.stage in forced.lost && FailedAsLost(ReplayAll(j), e.stage, e.result))
  }

  /** Every event of the journal was admissible and justified where it was written. */
  predicate Good(j: seq<Event>, forced: Forced) {
    j != [] ==> Good(Init(j), forced) && Admissible(Init(j), Last(j)) && Justified(Init(j), Last(j), forced)
  }

  // ----- Appending and cutting -----

  lemma InitLast<T>(j: seq<T>, e: T)
    ensures Init(j + [e]) == j && Last(j + [e]) == e
  {
  }

  lemma Append(j: seq<Event>, e: Event, forced: Forced)
    ensures ReplayAll(j + [e]) == Apply(ReplayAll(j), e)
    ensures Good(j + [e], forced) <==> Good(j, forced) && Admissible(j, e) && Justified(j, e, forced)
  {
    InitLast(j, e);
  }

  /** A journal cut anywhere, as a crash leaves it, is still good. */
  lemma {:induction false} GoodPrefix(j: seq<Event>, k: nat, forced: Forced)
    requires Good(j, forced) && k <= |j|
    ensures Good(j[..k], forced)
    decreases |j|
  {
    if k == |j| {
      assert j[..k] == j;
    } else {
      GoodPrefix(Init(j), k, forced);
      assert Init(j)[..k] == j[..k];
    }
  }

  /** Every event of a good journal is admissible and justified after the events before it. */
  lemma GoodAt(j: seq<Event>, k: nat, forced: Forced)
    requires Good(j, forced) && k < |j|
    ensures Good(j[..k], forced) && Admissible(j[..k], j[k]) && Justified(j[..k], j[k], forced)
    ensures ReplayAll(j[..k + 1]) == Apply(ReplayAll(j[..k]), j[k])
  {
    GoodPrefix(j, k, forced);
    GoodPrefix(j, k + 1, forced);
    assert j[..k + 1] == j[..k] + [j[k]];
    Append(j[..k], j[k], forced);
  }

  lemma {:induction false} GoodMonotone(j: seq<Event>, forced: Forced, more: Forced)
    requires Good(j, forced) && Within(forced, more)
    ensures Good(j, more)
  {
    if j != [] { GoodMonotone(Init(j), forced, more); }
  }
}
