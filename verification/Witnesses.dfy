/** Concrete journals on which promises of the source's comments fail. */
module Witnesses {
  import opened FlowModel
  import opened StageStrategy
  import opened Replay
  import opened Structure
  import opened Semantics
  import opened Recovery
  import opened Cascades
  import opened Ambiguity
  import opened Confluence
  import opened Worlds
  import opened ActorSteps
  import opened Restarts

  const OK := Result(true, EmptyDatum)
  const KO := Result(false, EmptyDatum)
  const CODE := Some(Blob("closure", "application/octet-stream", 1))

  function MainStage(op: Operation, closure: Option<Blob>, deps: seq<StageId>, result: Option<Result>, ref: Option<StageId>): Stage
    requires StrategyOf(op).Some?
  {
    Stage(op, StrategyOf(op).value, closure, OnAll(deps), MainPhase, result, ref)
  }

  // ----- Building good journals step by step -----

  /** A good journal, the graph it rebuilds, and nothing that its replay writes again. */
  predicate At(j: seq<Event>, f: Forced, g: Graph) { j != [] && Good(j, f) && ReplayAll(j) == g && Reemitted(j) == [] }

  lemma NextAt(j: seq<Event>, f: Forced, e: Event, g: Graph, g': Graph)
    requires At(j, f, g) && Admissible(j, e) && Justified(j, e, f) && Reemit(g, e) == [] && g' == Apply(g, e)
    ensures At(j + [e], f, g')
  {
    hide Admissible, Justified, Apply;
    Append(j, e, f);
    InitLast(j, e);
  }

  lemma CreatedAt(f: Forced)
    ensures At([GraphCreated], f, NewGraph())
  {
    Append([], GraphCreated, f);
    InitLast([], GraphCreated);
    assert [] + [GraphCreated] == [GraphCreated];
  }

  lemma AddStep(j: seq<Event>, f: Forced, g: Graph, x: StageId, op: Operation, closure: Option<Blob>, deps: seq<StageId>)
    requires At(j, f, g) && g.state.Initial? && x == |g.stages|
    requires !op.TerminationHook? && StrategyOf(op).Some? && ArityOk(StrategyOf(op).value, |deps|)
    requires forall i :: 0 <= i < |deps| ==> deps[i] in g.stages
    ensures At(j + [StageAdded(x, op, closure, deps)], f, g.(stages := g.stages[x := MainStage(op, closure, deps, None, None)]))
  {
    hide Good, ReplayAll, Reemitted;
    NextAt(j, f, StageAdded(x, op, closure, deps), g, g.(stages := g.stages[x := MainStage(op, closure, deps, None, None)]));
  }

  lemma GivenStep(j: seq<Event>, f: Forced, g: Graph, x: StageId, r: Result)
    requires At(j, f, g) && Pending(g, x) && x in f.outside && g.stages[x].composeReference.None?
    ensures At(j + [StageCompleted(x, r)], f, SetResult(g, x, r))
  {
    hide Good, ReplayAll, Reemitted;
    NextAt(j, f, StageCompleted(x, r), g, SetResult(g, x, r));
  }

  lemma LostStep(j: seq<Event>, f: Forced, g: Graph, x: StageId)
    requires At(j, f, g) && Lost(g, x) && x in f.lost && g.stages[x].composeReference.None?
    ensures At(j + [LostEvent(x)], f, SetResult(g, x, StageLostResult()))
  {
    hide Good, ReplayAll, Reemitted, Trigger;
    if g.stages[x].strategy.trigger.TriggerNever? { NeverReady(g, x); }
    NextAt(j, f, LostEvent(x), g, SetResult(g, x, StageLostResult()));
  }

  lemma StartStep(j: seq<Event>, f: Forced, g: Graph, x: StageId)
    requires At(j, f, g) && Lost(g, x) && (Invokes(ExecOf(g, x)) || g.stages[x].operation.InvokeFunction?)
    ensures At(j + [InvocationStarted(x)], f, g)
  {
    hide Good, ReplayAll, Reemitted, Trigger;
    NextAt(j, f, InvocationStarted(x), g, g);
  }

  lemma ReplyStep(j: seq<Event>, f: Forced, g: Graph, o: StageId, i: StageId)
    requires At(j, f, g) && InvocationStarted(o) in j && o in g.stages && Pending(g, i)
    requires g.stages[o].strategy.resultHandling.ReferencedStageResult?
    ensures At(j + [InvocationCompleted(o, Result(true, StageRefDatum(i)))] + [StageComposed(o, i)], f, SetReference(g, o, i))
  {
    hide Good, ReplayAll, Reemitted;
    var e := InvocationCompleted(o, Result(true, StageRefDatum(i)));
    NextAt(j, f, e, g, g);
    InitLast(j, e);
    NextAt(j + [e], f, StageComposed(o, i), g, SetReference(g, o, i));
  }

  // ----- Recovery does not fail every lost stage -----

  /** Two stages of the same kind, both waiting for a reply. */
  function BothRunning(op: Operation, closure: Option<Blob>): seq<Event> {
    [GraphCreated] + [StageAdded(0, op, closure, [])] + [InvocationStarted(0)]
    + [StageAdded(1, op, closure, [])] + [InvocationStarted(1)]
  }

  function BothGraph(op: Operation, closure: Option<Blob>): Graph
    requires StrategyOf(op).Some?
  {
    Graph(map[0 := MainStage(op, closure, [], None, None), 1 := MainStage(op, closure, [], None, None)], Initial, None, None)
  }

  predicate RunsAlone(op: Operation) { op.Supply? || op.InvokeFunction? }

  lemma ReadyAlone(g: Graph, x: StageId)
    requires Pending(g, x) && RunsAlone(g.stages[x].operation) && StrategyOf(g.stages[x].operation) == Some(g.stages[x].strategy)
    requires g.stages[x].dependencies == []
    ensures Lost(g, x) && ExecOf(g, x) == (if g.stages[x].operation.Supply? then InvokeWithoutArgs else CompleteExternally)
  {
    ReadyAtOnce(g, x);
    assert WaitAll([]).status;
  }

  lemma BothAreRunning(op: Operation, closure: Option<Blob>)
    requires RunsAlone(op)
    ensures At(BothRunning(op, closure), Forced({}, {}), BothGraph(op, closure))
  {
    hide At, Lost, ExecOf, IsReady;
    var f := Forced({}, {});
    var g1 := NewGraph().(stages := map[0 := MainStage(op, closure, [], None, None)]);
    var j1 := [GraphCreated] + [StageAdded(0, op, closure, [])];
    var j2 := j1 + [InvocationStarted(0)];
    var j3 := j2 + [StageAdded(1, op, closure, [])];
    CreatedAt(f);
    AddStep([GraphCreated], f, NewGraph(), 0, op, closure, []);
    assert At(j1, f, g1);
    ReadyAlone(g1, 0);
    StartStep(j1, f, g1, 0);
    assert g1.stages.Keys == {0};
    AddStep(j2, f, g1, 1, op, closure, []);
    assert g1.(stages := g1.stages[1 := MainStage(op, closure, [], None, None)]) == BothGraph(op, closure);
    ReadyAlone(BothGraph(op, closure), 1);
    StartStep(j3, f, BothGraph(op, closure), 1);
  }

  /** The fate of a spared stage that no other is composed into. */
  lemma SparedAlone(g0: Graph, c: StageId, y: StageId, w: World)
    requires IsReady(g0, y) && y in w.graph.stages && Fate(g0, c, y, w) && y != c && forall i, o :: !ComposedInto(g0, i, o)
    requires ExecOf(g0, y).InvokeWithoutArgs? || ExecOf(g0, y).CompleteExternally?
    ensures Pending(w.graph, y) && (Requested(w, y) <==> ExecOf(g0, y).InvokeWithoutArgs?)
  {
    hide IsReady, ExecOf, Requested, OnChain;
    if OnChain(g0, c, y) { ChainEndsComposed(g0, c, y); }
  }

  lemma ChosenFate(g0: Graph, c: StageId, w: World)
    requires Lost(g0, c) && c in w.graph.stages && Fate(g0, c, c, w)
    ensures w.graph.stages[c].result == Some(StageLostResult())
  {
    hide IsReady, OnChain;
    ChainOfOne(g0, c);
  }

  /** However the actor comes back from this journal, exactly one of the two lost stages is failed:
      the other stays pending, run again if it has a closure, and never asked for again if it
      calls a function. */
  lemma OtherLostStageIsNotFailed(op: Operation, closure: Option<Blob>, c: StageId, w: World, forced: Forced)
    requires RunsAlone(op) && FailedAtStart(BothRunning(op, closure), Forced({}, {}), c, w.journal, forced)
    requires Rest(w, forced) && w.base == |BothRunning(op, closure)|
    ensures Good(BothRunning(op, closure), Forced({}, {}))
    ensures c < 2 && Lost(ReplayAll(BothRunning(op, closure)), 0) && Lost(ReplayAll(BothRunning(op, closure)), 1)
    ensures c in w.graph.stages && w.graph.stages[c].result == Some(StageLostResult())
    ensures Pending(w.graph, 1 - c) && (Requested(w, 1 - c) <==> op.Supply?)
  {
    hide Good, ReplayAll, Rest, FailedAtStart, Requested, OnChain, ExecOf, IsReady, BothRunning, Fate, Reemitted, WellFormed, Complete;
    hide UpToFailure, Exhausted, Cascade;
    var stored, f, g0 := BothRunning(op, closure), Forced({}, {}), BothGraph(op, closure);
    BothAreRunning(op, closure);
    ReadyAlone(g0, 0);
    ReadyAlone(g0, 1);
    FailureGraph(stored, f, c, w.journal, forced);
    LostStageFate(stored, f, c, w, forced, c);
    ChosenFate(g0, c, w);
    LostStageFate(stored, f, c, w, forced, 1 - c);
    SparedAlone(g0, c, 1 - c, w);
  }

  // ----- The iteration order can matter -----

  /** Stage 0 is a given failure and stage 1 asks its closure for another stage to recover with; ... */
  function Asked(): seq<Event> {
    [GraphCreated] + [StageAdded(0, Operation.CompletedValue, None, [])] + [StageCompleted(0, KO)]
    + [StageAdded(1, ExceptionallyCompose, CODE, [0])] + [InvocationStarted(1)]
  }

  function AskedGraph(): Graph {
    Graph(map[0 := MainStage(Operation.CompletedValue, None, [], Some(KO), None),
              1 := MainStage(ExceptionallyCompose, CODE, [0], None, None)], Initial, None, None)
  }

  /** ... stage 2 waits for the outside, 3 follows it, 4 needs both 2 and 0; stage 5 runs a closure. */
  function Setting(): seq<Event> {
    Asked() + [StageAdded(2, ExternalCompletion, None, [])] + [StageAdded(3, AllOf, None, [2])] + [StageAdded(4, AllOf, None, [2, 0])]
    + [StageAdded(5, Supply, CODE, [])] + [InvocationStarted(5)]
  }

  function SceneGraph(r2: Option<Result>, r5: Option<Result>, c3: Option<StageId>, c4: Option<StageId>): Graph {
    Graph(map[0 := MainStage(Operation.CompletedValue, None, [], Some(KO), None),
              1 := MainStage(ExceptionallyCompose, CODE, [0], None, None),
              2 := MainStage(ExternalCompletion, None, [], r2, None),
              3 := MainStage(AllOf, None, [2], None, c3),
              4 := MainStage(AllOf, None, [2, 0], None, c4),
              5 := MainStage(Supply, CODE, [], r5, None)], Initial, None, None)
  }

  /** Stage 1 runs whenever stage 0 is the given failure. */
  lemma FirstRuns(g: Graph)
    requires 0 in g.stages && g.stages[0].result == Some(KO) && 1 in g.stages
    requires g.stages[1] == MainStage(ExceptionallyCompose, CODE, [0], None, g.stages[1].composeReference)
    ensures Lost(g, 1) && Invokes(ExecOf(g, 1)) && g.stages[1].strategy.resultHandling.ReferencedStageResult?
  {
    assert DependencyResults(g, OnAll([0])) == [Some(KO)];
  }

  lemma AskedAt(f: Forced)
    requires 0 in f.outside
    ensures At(Asked(), f, AskedGraph())
  {
    hide At, Lost, ExecOf;
    var j2 := [GraphCreated] + [StageAdded(0, Operation.CompletedValue, None, [])];
    var j3 := j2 + [StageCompleted(0, KO)];
    var j4 := j3 + [StageAdded(1, ExceptionallyCompose, CODE, [0])];
    var g2 := NewGraph().(stages := map[0 := MainStage(Operation.CompletedValue, None, [], None, None)]);
    var g3 := SetResult(g2, 0, KO);
    CreatedAt(f);
    AddStep([GraphCreated], f, NewGraph(), 0, Operation.CompletedValue, None, []);
    assert At(j2, f, g2);
    GivenStep(j2, f, g2, 0, KO);
    assert g3.stages.Keys == {0};
    AddStep(j3, f, g3, 1, ExceptionallyCompose, CODE, [0]);
    assert g3.(stages := g3.stages[1 := MainStage(ExceptionallyCompose, CODE, [0], None, None)]) == AskedGraph();
    FirstRuns(AskedGraph());
    StartStep(j4, f, AskedGraph(), 1);
  }

  function FollowersGraph(): Graph {
    Graph(map[0 := MainStage(Operation.CompletedValue, None, [], Some(KO), None),
              1 := MainStage(ExceptionallyCompose, CODE, [0], None, None),
              2 := MainStage(ExternalCompletion, None, [], None, None),
              3 := MainStage(AllOf, None, [2], None, None),
              4 := MainStage(AllOf, None, [2, 0], None, None)], Initial, None, None)
  }

  lemma FollowersAt(j: seq<Event>, f: Forced)
    requires At(j, f, AskedGraph())
    ensures At(j + [StageAdded(2, ExternalCompletion, None, [])] + [StageAdded(3, AllOf, None, [2])] + [StageAdded(4, AllOf, None, [2, 0])],
               f, FollowersGraph())
  {
    hide At;
    var g := AskedGraph();
    var g2 := g.(stages := g.stages[2 := MainStage(ExternalCompletion, None, [], None, None)]);
    var g3 := g2.(stages := g2.stages[3 := MainStage(AllOf, None, [2], None, None)]);
    var j2 := j + [StageAdded(2, ExternalCompletion, None, [])];
    assert g.stages.Keys == {0, 1} && g2.stages.Keys == {0, 1, 2} && g3.stages.Keys == {0, 1, 2, 3};
    AddStep(j, f, g, 2, ExternalCompletion, None, []);
    AddStep(j2, f, g2, 3, AllOf, None, [2]);
    AddStep(j2 + [StageAdded(3, AllOf, None, [2])], f, g3, 4, AllOf, None, [2, 0]);
    assert g3.(stages := g3.stages[4 := MainStage(AllOf, None, [2, 0], None, None)]) == FollowersGraph();
  }

  lemma SettingAt(f: Forced)
    requires 0 in f.outside
    ensures At(Setting(), f, SceneGraph(None, None, None, None))
  {
    hide At, Lost, ExecOf, IsReady;
    var g4, g := FollowersGraph(), SceneGraph(None, None, None, None);
    var j4 := Asked() + [StageAdded(2, ExternalCompletion, None, [])] + [StageAdded(3, AllOf, None, [2])] + [StageAdded(4, AllOf, None, [2, 0])];
    AskedAt(f);
    FollowersAt(Asked(), f);
    assert g4.stages.Keys == {0, 1, 2, 3, 4};
    AddStep(j4, f, g4, 5, Supply, CODE, []);
    assert g4.(stages := g4.stages[5 := MainStage(Supply, CODE, [], None, None)]) == g;
    ReadyAlone(g, 5);
    StartStep(j4 + [StageAdded(5, Supply, CODE, [])], f, g, 5);
  }

  /** The closure of 1 is answered with 3, which is pending: then the actor dies. */
  function BeforeCrash(): seq<Event> {
    Setting() + [InvocationCompleted(1, Result(true, StageRefDatum(3)))] + [StageComposed(1, 3)]
  }

  /** It comes back: stages 1 and 5 are lost, 5 is failed, and 1 runs again. */
  function AfterCrash(): seq<Event> { BeforeCrash() + [LostEvent(5)] + [InvocationStarted(1)] }

  /** The second request is answered too, with 4; then 2 succeeds. */
  function Scene(): seq<Event> {
    AfterCrash() + [InvocationCompleted(1, Result(true, StageRefDatum(4)))] + [StageComposed(1, 4)] + [StageCompleted(2, OK)]
  }

  lemma BeforeCrashAt(f: Forced)
    requires 0 in f.outside
    ensures At(BeforeCrash(), f, SceneGraph(None, None, Some(1), None))
  {
    hide At, Lost, ExecOf;
    SettingAt(f);
    FirstRuns(SceneGraph(None, None, None, None));
    assert Setting()[4] == InvocationStarted(1);
    ReplyStep(Setting(), f, SceneGraph(None, None, None, None), 1, 3);
    assert SetReference(SceneGraph(None, None, None, None), 1, 3) == SceneGraph(None, None, Some(1), None);
  }

  lemma AfterCrashAt(f: Forced)
    requires 0 in f.outside && 5 in f.lost
    ensures At(AfterCrash(), f, SceneGraph(None, Some(StageLostResult()), Some(1), None))
  {
    hide At, Lost, ExecOf;
    var g, g' := SceneGraph(None, None, Some(1), None), SceneGraph(None, Some(StageLostResult()), Some(1), None);
    BeforeCrashAt(f);
    ReadyAlone(g, 5);
    LostStep(BeforeCrash(), f, g, 5);
    assert SetResult(g, 5, StageLostResult()) == g';
    FirstRuns(g');
    StartStep(BeforeCrash() + [LostEvent(5)], f, g', 1);
  }

  lemma SceneAt()
    ensures At(Scene(), Forced({0, 2}, {5}), SceneGraph(Some(OK), Some(StageLostResult()), Some(1), Some(1)))
  {
    hide At, Lost, ExecOf;
    var f := Forced({0, 2}, {5});
    var lost := Some(StageLostResult());
    AfterCrashAt(f);
    FirstRuns(SceneGraph(None, lost, Some(1), None));
    assert AfterCrash()[|AfterCrash()| - 1] == InvocationStarted(1);
    ReplyStep(AfterCrash(), f, SceneGraph(None, lost, Some(1), None), 1, 4);
    assert SetReference(SceneGraph(None, lost, Some(1), None), 1, 4) == SceneGraph(None, lost, Some(1), Some(1));
    var j := AfterCrash() + [InvocationCompleted(1, Result(true, StageRefDatum(4)))] + [StageComposed(1, 4)];
    GivenStep(j, f, SceneGraph(None, lost, Some(1), Some(1)), 2, OK);
    assert SetResult(SceneGraph(None, lost, Some(1), Some(1)), 2, OK) == SceneGraph(Some(OK), lost, Some(1), Some(1));
  }

  lemma OneStartCascade(p: seq<Event>, triggered: set<StageId>, x: StageId)
    requires Synchronous(p, triggered, InvocationStarted(x))
    ensures Cascade(p, triggered, p + [InvocationStarted(x)])
  {
    hide Synchronous;
    CascadeRefl(p, triggered);
    CascadeSnoc(p, triggered, p, InvocationStarted(x));
  }

  /** Whatever depends on the pending stage 2 by `waitForAll` is not ready. */
  lemma NotYetReady(g: Graph)
    requires g == SceneGraph(None, Some(StageLostResult()), Some(1), None)
    ensures !IsReady(g, 2) && !IsReady(g, 3) && !IsReady(g, 4)
  {
    assert DependencyResults(g, OnAll([2]))[0].None?;
    assert DependencyResults(g, OnAll([2, 0]))[0].None?;
  }

  lemma AfterCrashIsExhausted(p: seq<Event>, triggered: set<StageId>)
    requires ReplayAll(p + [InvocationStarted(1)]) == SceneGraph(None, Some(StageLostResult()), Some(1), None)
    ensures Exhausted(p, triggered, p + [InvocationStarted(1)])
  {
    hide ReplayAll, IsReady, ExecOf;
    var g := SceneGraph(None, Some(StageLostResult()), Some(1), None);
    NotYetReady(g);
    FirstRuns(g);
    assert (p + [InvocationStarted(1)])[|p|..] == [InvocationStarted(1)];
  }

  /** The journal after the crash is what a start from the journal before it writes. */
  lemma CrashIsARestart()
    ensures Restarted(BeforeCrash(), Forced({0, 2}, {}), Some(5), AfterCrash(), ReplayAll(AfterCrash()), Forced({0, 2}, {5}))
  {
    hide Good, ReplayAll, Reemitted, Exhausted, Cascade, ExecOf, IsReady, BeforeCrash, Synchronous;
    var g0, g := SceneGraph(None, None, Some(1), None), SceneGraph(None, Some(StageLostResult()), Some(1), None);
    var f := Forced({0, 2}, {5});
    BeforeCrashAt(Forced({0, 2}, {}));
    AfterCrashAt(f);
    ReadyAlone(g0, 5);
    var p := BeforeCrash() + [] + [LostEvent(5)];
    assert p == BeforeCrash() + [LostEvent(5)] && AfterCrash() == p + [InvocationStarted(1)];
    var triggered := ResolvedSet(g0) + {5};
    assert Synchronous(p, triggered, InvocationStarted(1)) by { RunAgain(p, triggered); }
    OneStartCascade(p, triggered, 1);
    AfterCrashIsExhausted(p, triggered);
  }

  lemma RunAgain(p: seq<Event>, triggered: set<StageId>)
    requires ReplayAll(p + [InvocationStarted(1)]) == SceneGraph(None, Some(StageLostResult()), Some(1), None) && 1 !in triggered
    ensures Synchronous(p, triggered, InvocationStarted(1))
  {
    hide ExecOf, IsReady;
    InitLast(p, InvocationStarted(1));
    FirstRuns(ReplayAll(p));
  }

  lemma SceneIsReady(c4: Option<StageId>)
    ensures var g := SceneGraph(Some(OK), Some(StageLostResult()), Some(1), c4);
            CompletedByTrigger(g, 3, EmptyResult()) && CompletedByTrigger(g, 4, KO)
  {
    var g := SceneGraph(Some(OK), Some(StageLostResult()), Some(1), c4);
    assert DependencyResults(g, OnAll([2])) == [Some(OK)];
    assert DependencyResults(g, OnAll([2, 0])) == [Some(OK), Some(KO)];
    assert Trigger(g, 3).status;
    assert FirstFailureAt([Some(OK), Some(KO)], 1);
  }

  /** So order independence fails without its condition, with one reply for each request: after
      this journal, visiting stage 3 first and visiting stage 4 first are both possible, and
      whatever follows, the outcomes differ. */
  lemma OrderCanMatter(j1: seq<Event>, j2: seq<Event>)
    requires Scene() + [StageCompleted(3, EmptyResult())] <= j1 && Good(j1, Forced({0, 2}, {5}))
    requires Scene() + [StageCompleted(4, KO)] <= j2 && Good(j2, Forced({0, 2}, {5}))
    ensures var f := Forced({0, 2}, {5});
            && Good(Scene(), f) && !Unambiguous(ReplayAll(Scene())) && AfterCrash() <= Scene()
            && Good(Scene() + [StageCompleted(3, EmptyResult())], f) && Good(Scene() + [StageCompleted(4, KO)], f)
    ensures Cascade(Scene(), {0, 1, 2, 5}, Scene() + [StageCompleted(3, EmptyResult())])
    ensures Cascade(Scene(), {0, 1, 2, 5}, Scene() + [StageCompleted(4, KO)])
    ensures !SameOutcome(ReplayAll(j1), ReplayAll(j2))
  {
    hide Good, ReplayAll, CompletedByTrigger, Cascade, SameOutcome, Reemitted, AfterCrash;
    var g := SceneGraph(Some(OK), Some(StageLostResult()), Some(1), Some(1));
    SceneAt();
    SceneIsReady(Some(1));
    assert ComposedInto(g, 3, 1) && ComposedInto(g, 4, 1) && Pending(g, 1);
    assert ChainPath(g, 3, 1, [3, 1]) && ChainPath(g, 4, 1, [4, 1]);
    CascadeRefl(Scene(), {0, 1, 2, 5});
    AmbiguityMatters(Scene(), {0, 1, 2, 5}, Forced({0, 2}, {5}), Scene(), 3, EmptyResult(), 4, KO, 1, j1, j2);
  }

  // ----- A start may or may not run a composed stage again -----

  /** The same, but 2 succeeds just before the actor dies. */
  function LateCrash(): seq<Event> { BeforeCrash() + [StageCompleted(2, OK)] }

  lemma LateCrashAt(f: Forced)
    requires 0 in f.outside && 2 in f.outside
    ensures At(LateCrash(), f, SceneGraph(Some(OK), None, Some(1), None))
  {
    hide At;
    var g := SceneGraph(None, None, Some(1), None);
    BeforeCrashAt(f);
    GivenStep(BeforeCrash(), f, g, 2, OK);
    assert SetResult(g, 2, OK) == SceneGraph(Some(OK), None, Some(1), None);
  }

  lemma LateFailureAt(f: Forced)
    requires 0 in f.outside && 2 in f.outside && 5 in f.lost
    ensures At(UpToFailure(LateCrash(), 5), f, SceneGraph(Some(OK), Some(StageLostResult()), Some(1), None))
    ensures At(LateCrash(), f, SceneGraph(Some(OK), None, Some(1), None)) && Lost(SceneGraph(Some(OK), None, Some(1), None), 5)
  {
    hide LateCrash, Good, ReplayAll, Lost;
    var g := SceneGraph(Some(OK), None, Some(1), None);
    LateCrashAt(f);
    ReadyAlone(g, 5);
    LostStep(LateCrash(), f, g, 5);
    assert SetResult(g, 5, StageLostResult()) == SceneGraph(Some(OK), Some(StageLostResult()), Some(1), None);
    assert LateCrash() + [] == LateCrash();
  }

  /** After the failure of 5 both are possible: to invoke 1, and to complete 3 and 1 with it. */
  lemma LateChoices(p: seq<Event>, triggered: set<StageId>, forced: Forced)
    requires At(p, forced, SceneGraph(Some(OK), Some(StageLostResult()), Some(1), None)) && triggered == {0, 2, 5}
    ensures Reached(p, triggered, forced, p + [InvocationStarted(1)])
    ensures Reached(p, triggered, forced, p + [StageCompleted(3, EmptyResult())])
    ensures Resolved(ReplayAll(p + [StageCompleted(3, EmptyResult())]), 1)
  {
    hide Good, ReplayAll, CompletedByTrigger, Cascade, Reemitted, IsReady, ExecOf, StrategyOf, Settled, OnChain;
    var g := SceneGraph(Some(OK), Some(StageLostResult()), Some(1), None);
    CascadeRefl(p, triggered);
    FirstRuns(g);
    assert InvocationStarted(1) !in p[|p|..];
    StartNext(p, triggered, forced, p, 1);
    SceneIsReady(None);
    FireNext(p, triggered, forced, p, 3, EmptyResult());
    TwoLinks(g, 3, 1);
    SettledChain(g, 3, true, ReplayAll(p + [StageCompleted(3, EmptyResult())]), 1);
  }

  lemma TwoLinks(g: Graph, i: StageId, o: StageId)
    requires Pending(g, i) && Pending(g, o) && ComposedInto(g, i, o)
    ensures OnChain(g, i, o)
  {
    assert ChainPath(g, i, o, [i, o]);
  }

  lemma SettledChain(g: Graph, x: StageId, ok: bool, g': Graph, y: StageId)
    requires Settled(g, x, ok, g') && OnChain(g, x, y)
    ensures Flag(g', y, ok)
  {
  }

  lemma NotStartedAgain(j: seq<Event>, k: nat, forced: Forced, x: StageId)
    requires Good(j, forced) && k <= |j| && Resolved(ReplayAll(j[..k]), x)
    ensures InvocationStarted(x) !in j[k..]
  {
    hide Good, ReplayAll;
    forall n | k <= n < |j| ensures j[n] != InvocationStarted(x) {
      GoodAt(j, n, forced);
      assert j[..n][..k] == j[..k];
      ReplayExtends(j[..n], k, forced);
    }
  }

  /** Two starts from the same journal that fail the same stage: one runs the closure of 1 again,
      the other never does. */
  lemma StartOrderDecidesRuns() returns (runs: seq<Event>, skips: seq<Event>)
    ensures FailedAtStart(LateCrash(), Forced({0, 2}, {}), 5, runs, Forced({0, 2}, {5}))
    ensures FailedAtStart(LateCrash(), Forced({0, 2}, {}), 5, skips, Forced({0, 2}, {5}))
    ensures UpToFailure(LateCrash(), 5) + [InvocationStarted(1)] <= runs
    ensures UpToFailure(LateCrash(), 5) + [StageCompleted(3, EmptyResult())] <= skips
    ensures InvocationStarted(1) !in skips[|UpToFailure(LateCrash(), 5)|..]
  {
    hide Good, ReplayAll, LateCrash, Reemitted, UpToFailure, Lost, Reached, FailedAtStart, Exhausted;
    var stored, f0, f := LateCrash(), Forced({0, 2}, {}), Forced({0, 2}, {5});
    var p := UpToFailure(stored, 5);
    LateCrashAt(f0);
    LateFailureAt(f);
    var t := StartTriggered(stored, Some(5));
    assert t == {0, 2, 5};
    LateChoices(p, t, f);
    runs := RunDry(p, t, f, p + [InvocationStarted(1)]);
    skips := RunDry(p, t, f, p + [StageCompleted(3, EmptyResult())]);
    assert AlsoLost(f0, 5) == f;
    DryIsFailedStart(stored, f0, 5, runs);
    DryIsFailedStart(stored, f0, 5, skips);
    var k := |p| + 1;
    assert skips[..k] == p + [StageCompleted(3, EmptyResult())] && skips[|p|] == StageCompleted(3, EmptyResult());
    GoodOf(stored, f0, 5, skips, f);
    NotStartedAgain(skips, k, f, 1);
    assert skips[|p|..] == [skips[|p|]] + skips[k..];
  }

  // ----- A second composition with the same stage -----

  /** Stages 1 and 2 both ask for a stage to recover with, and are both told to take 3. */
  function BothComposed(): seq<Event> {
    BothAsked() + [InvocationCompleted(1, Result(true, StageRefDatum(3)))] + [StageComposed(1, 3)]
    + [InvocationCompleted(2, Result(true, StageRefDatum(3)))] + [StageComposed(2, 3)]
  }

  function SharedGraph(c3: Option<StageId>): Graph {
    Graph(map[0 := MainStage(Operation.CompletedValue, None, [], Some(KO), None),
              1 := MainStage(ExceptionallyCompose, CODE, [0], None, None),
              2 := MainStage(ExceptionallyCompose, CODE, [0], None, None),
              3 := MainStage(ExternalCompletion, None, [], None, c3)], Initial, None, None)
  }

  lemma SecondRuns(g: Graph)
    requires 0 in g.stages && g.stages[0].result == Some(KO) && 2 in g.stages
    requires g.stages[2] == MainStage(ExceptionallyCompose, CODE, [0], None, None)
    ensures Lost(g, 2) && Invokes(ExecOf(g, 2))
  {
    assert DependencyResults(g, OnAll([0])) == [Some(KO)];
  }

  /** Up to the two replies. */
  function BothAsked(): seq<Event> {
    Asked() + [StageAdded(2, ExceptionallyCompose, CODE, [0])] + [InvocationStarted(2)] + [StageAdded(3, ExternalCompletion, None, [])]
  }

  lemma BothAskedAt(f: Forced)
    requires 0 in f.outside
    ensures At(BothAsked(), f, SharedGraph(None))
  {
    hide At, Lost, ExecOf, IsReady;
    var g := AskedGraph();
    var g2 := g.(stages := g.stages[2 := MainStage(ExceptionallyCompose, CODE, [0], None, None)]);
    var j2 := Asked() + [StageAdded(2, ExceptionallyCompose, CODE, [0])];
    assert g.stages.Keys == {0, 1} && g2.stages.Keys == {0, 1, 2};
    AskedAt(f);
    AddStep(Asked(), f, g, 2, ExceptionallyCompose, CODE, [0]);
    SecondRuns(g2);
    StartStep(j2, f, g2, 2);
    AddStep(j2 + [InvocationStarted(2)], f, g2, 3, ExternalCompletion, None, []);
    assert g2.(stages := g2.stages[3 := MainStage(ExternalCompletion, None, [], None, None)]) == SharedGraph(None);
  }

  lemma BothComposedAt()
    ensures At(BothComposed(), Forced({0, 3}, {}), SharedGraph(Some(2)))
  {
    hide At;
    var f := Forced({0, 3}, {});
    var j5 := BothAsked() + [InvocationCompleted(1, Result(true, StageRefDatum(3)))] + [StageComposed(1, 3)];
    BothAskedAt(f);
    assert BothAsked()[4] == InvocationStarted(1) && j5[6] == InvocationStarted(2);
    ReplyStep(BothAsked(), f, SharedGraph(None), 1, 3);
    assert SetReference(SharedGraph(None), 1, 3) == SharedGraph(Some(1));
    ReplyStep(j5, f, SharedGraph(Some(1)), 2, 3);
    assert SetReference(SharedGraph(Some(1)), 2, 3) == SharedGraph(Some(2));
  }

  lemma SharedCompletes()
    ensures var g := Complete(SharedGraph(Some(2)), 3, OK);
            Resolved(g, 3) && Resolved(g, 2) && g.stages[2].result == Some(OK) && Pending(g, 1)
  {
    hide StrategyOf;
    var g1 := SetResult(SharedGraph(Some(2)), 3, OK);
    assert NextOuter(g1, 3) == Some(2);
    assert NextOuter(SetResult(g1, 2, OK), 2).None?;
  }

  /** When stage 3 completes, stage 2 takes its result and stage 1, which was composed with it
      first, is passed by. */
  lemma FirstOuterIsPassedBy()
    ensures var j := BothComposed() + [StageCompleted(3, OK)];
            var g := ReplayAll(j);
            && Good(j, Forced({0, 3}, {})) && StageComposed(1, 3) in j
            && Resolved(g, 3) && Resolved(g, 2) && g.stages[2].result == Some(OK) && Pending(g, 1)
  {
    hide Good, Reemitted, ReplayAll, Complete, IsReady;
    BothComposedAt();
    assert BothComposed()[9] == StageComposed(1, 3);
    Append(BothComposed(), StageCompleted(3, OK), Forced({0, 3}, {}));
    SharedCompletes();
  }

  /** Replaying that journal writes the completion of stage 2 once more. */
  lemma ReplayWritesAgain()
    ensures var j := BothComposed() + [StageCompleted(3, OK)];
            Good(j, Forced({0, 3}, {})) && Reemitted(j) == [StageCompleted(2, OK)]
  {
    hide Good, ReplayAll, Complete, IsReady, StrategyOf, BothComposed;
    var g := SharedGraph(Some(2));
    BothComposedAt();
    FirstOuterIsPassedBy();
    InitLast(BothComposed(), StageCompleted(3, OK));
    var g1 := SetResult(g, 3, OK);
    assert NextOuter(g1, 3) == Some(2);
    assert NextOuter(SetResult(g1, 2, OK), 2).None?;
  }

  // ----- A main stage that waits for a hook -----

  function HookFirst(): seq<Event> {
    [GraphCreated] + [StageAdded(0, TerminationHook, CODE, [])] + [StageAdded(1, ThenApply, CODE, [0])]
  }

  function HookStage(): Stage {
    Stage(TerminationHook, StrategyOf(TerminationHook).value, CODE, [Root], TerminationPhase, None, None)
  }

  function HookGraph(): Graph { Graph(map[0 := HookStage()], Initial, None, Some(0)) }

  lemma HookAt(f: Forced)
    ensures At([GraphCreated] + [StageAdded(0, TerminationHook, CODE, [])], f, HookGraph())
  {
    hide At;
    CreatedAt(f);
    assert AddHook(NewGraph(), 0, CODE) == HookGraph();
    assert At([GraphCreated], f, NewGraph());
    HookStep([GraphCreated], f, NewGraph(), HookGraph());
  }

  lemma HookStep(j: seq<Event>, f: Forced, g: Graph, g': Graph)
    requires At(j, f, g) && g.state.Initial? && |g.stages| == 0 && g' == AddHook(g, 0, CODE)
    ensures At(j + [StageAdded(0, TerminationHook, CODE, [])], f, g')
  {
    hide Good, ReplayAll, Reemitted, AddHook;
    NextAt(j, f, StageAdded(0, TerminationHook, CODE, []), g, g');
  }

  /** Nothing keeps a main stage from being added on top of a hook. */
  lemma MainStageWaitsForHook()
    ensures Good(HookFirst(), Forced({}, {})) && WaitsForHooks(ReplayAll(HookFirst()), 1)
  {
    hide Good, ReplayAll, Reemitted;
    var f := Forced({}, {});
    HookAt(f);
    assert HookGraph().stages.Keys == {0};
    AddStep([GraphCreated] + [StageAdded(0, TerminationHook, CODE, [])], f, HookGraph(), 1, ThenApply, CODE, [0]);
    var g := HookGraph().(stages := HookGraph().stages[1 := MainStage(ThenApply, CODE, [0], None, None)]);
    assert g.stages[1].dependencies[0] == On(0) && IsHook(g, 0);
  }
}
