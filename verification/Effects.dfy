/** What each accepted command leaves behind, in the journal and in the graph. */
module Effects {
  import opened FlowModel
  import opened StageStrategy
  import opened Replay
  import opened Structure
  import opened Lifecycle
  import opened Recovery
  import opened Cascades
  import opened Semantics
  import opened Worlds
  import opened Commands
  import opened ActorSteps
  import opened Journaled
  import opened Requests

  // ----- Facts of the journal of a resting world -----

  /** A journaled completion of a pending stage is what the stage ends with. */
  lemma CompletionKept(j: seq<Event>, forced: Forced, p: seq<Event>, x: StageId, r: Result)
    requires Good(j, forced) && p + [StageCompleted(x, r)] <= j && Pending(ReplayAll(p), x)
    ensures x in ReplayAll(j).stages && ReplayAll(j).stages[x].result == Some(r)
  {
    hide Good, ReplayAll;
    var k := |p|;
    assert j[k] == StageCompleted(x, r) && j[..k] == p;
    CompletionResolves(j, forced, k);
    ResultsAreWriteOnce(j, forced, k + 1, |j|, x);
    assert j[..|j|] == j;
  }

  /** A journaled addition as the stage it left. */
  lemma AdditionKept(w: World, forced: Forced, p: seq<Event>, e: Event)
    requires Rest(w, forced) && p + [e] <= w.journal && e.StageAdded?
    ensures var s := w.graph.stages;
            && e.stage in s && s[e.stage].operation == e.op && s[e.stage].closure == e.closure
            && (!e.op.TerminationHook? ==>
                  && |s[e.stage].dependencies| == |e.deps|
                  && forall i :: 0 <= i < |e.deps| ==> s[e.stage].dependencies[i] == On(e.deps[i]))
  {
    hide Good, ReplayAll, FlagsExcept, ToldOk, RequestsOk, Fixpoint, LifecycleRest;
    assert w.journal[|p|] == e;
    AddedAsJournaled(w.journal, forced, |p|);
  }

  lemma NoteKeepsGraph(j: seq<Event>, e: Event)
    requires e.InvocationCompleted? || e.InvocationStarted? || e.DelayScheduled?
    ensures ReplayAll(j + [e]) == ReplayAll(j)
  {
    InitLast(j, e);
  }

  lemma AtRest(w: World, forced: Forced)
    requires Rest(w, forced)
    ensures Good(w.journal, forced) && ReplayAll(w.journal) == w.graph && w.journal != []
  {
  }

  /** A stage resolved before the command keeps its result. */
  lemma ResultKept(w: World, forced: Forced, w': World, forced': Forced, x: StageId)
    requires Rest(w, forced) && Rest(w', forced') && w.journal <= w'.journal && Resolved(w.graph, x)
    ensures x in w'.graph.stages && w'.graph.stages[x].result == w.graph.stages[x].result
  {
    hide Good, ReplayAll, Rest;
    AtRest(w, forced);
    AtRest(w', forced');
    assert w'.journal[..|w.journal|] == w.journal && w'.journal[..|w'.journal|] == w'.journal;
    ResultsAreWriteOnce(w'.journal, forced', |w.journal|, |w'.journal|, x);
  }

  // ----- Replies -----

  /** What a reply to a stage of each operation leads to. */
  lemma RepliesHandled(j: seq<Event>, forced: Forced, x: StageId, r: Result)
    requires Good(j, forced) && InvocationStarted(x) in j
    ensures x in ReplayAll(j).stages
    ensures var g := ReplayAll(j); var op, deps := g.stages[x].operation, g.stages[x].dependencies;
            && (op.ThenCompose? || op.ExceptionallyCompose? ==>
                  AfterReply(g, x, r) ==
                    if !r.successful then StageCompleted(x, r)
                    else if !r.datum.StageRefDatum? then StageCompleted(x, InternalError(InvalidStageResponse, "stage returned a non-stageref response"))
                    else if r.datum.stage !in g.stages then StageCompleted(x, InternalError(InvalidStageResponse, "referenced stage not found "))
                    else StageComposed(x, r.datum.stage))
            && (op.WhenComplete? || op.TerminationHook? ==>
                  && |deps| == 1 && DependencyResult(g, deps[0]).Some?
                  && AfterReply(g, x, r) == StageCompleted(x, DependencyResult(g, deps[0]).value))
            && (!op.ThenCompose? && !op.ExceptionallyCompose? && !op.WhenComplete? && !op.TerminationHook? ==>
                  AfterReply(g, x, r) == StageCompleted(x, r))
  {
    hide Good, ReplayAll, KeysOk, ChainOk, RefsOk, LifecycleOk, ComposeClosed, DependencyResult, StrategyOf, Evaluate;
    var g := ReplayAll(j);
    InvokedStaysReady(j, forced, x);
    ReplayWellFormed(j, forced);
    StageOf(g, x);
    HandlingByOperation(j, forced, x);
    if g.stages[x].strategy.resultHandling.ParentStageResult? {
      SingleReady(g.stages[x].strategy.trigger, DependencyResults(g, g.stages[x].dependencies));
    }
  }

  lemma HandlingRows(op: Operation)
    requires StrategyOf(op).Some?
    ensures var h := StrategyOf(op).value.resultHandling;
            && (op.ThenCompose? || op.ExceptionallyCompose? <==> h.ReferencedStageResult?)
            && (op.WhenComplete? || op.TerminationHook? <==> h.ParentStageResult?)
            && (op.CompletedValue? || op.Delay? || op.AllOf? || op.AnyOf? || op.ExternalCompletion? <==> h.NoResultStrategy?)
  {
  }

  lemma HandlingByOperation(j: seq<Event>, forced: Forced, x: StageId)
    requires Good(j, forced) && InvocationStarted(x) in j && x in ReplayAll(j).stages
    ensures var s := ReplayAll(j).stages[x]; var h := s.strategy.resultHandling;
            && (s.operation.ThenCompose? || s.operation.ExceptionallyCompose? <==> h.ReferencedStageResult?)
            && (s.operation.WhenComplete? || s.operation.TerminationHook? <==> h.ParentStageResult?)
            && !h.NoResultStrategy?
            && (h.ParentStageResult? ==> |s.dependencies| == 1)
  {
    hide Good, ReplayAll, KeysOk, ChainOk, RefsOk, LifecycleOk, ComposeClosed, StrategyOf, Trigger;
    InvokedStaysReady(j, forced, x);
    ReplayWellFormed(j, forced);
    StageOf(ReplayAll(j), x);
    StrategyFromTable(j, forced, x);
    HandlingRows(ReplayAll(j).stages[x].operation);
  }

  lemma ReplyJournaled(w: World, forced: Forced, x: StageId, r: Result, w': World, forced': Forced, resp: Response)
    requires Rest(w, forced) && InvocationStarted(x) in w.journal && Rest(w', forced')
    requires Obeyed(w, InvocationResponse(x, r), w', resp)
    ensures x in w.graph.stages
    ensures var p := w.journal + [InvocationCompleted(x, r)];
            var m := p + [AfterReply(w.graph, x, r)];
            && p <= m <= w'.journal && ReplayAll(p) == w.graph && Good(m, forced')
            && RanDry(m, w.triggered, w'.journal)
  {
    hide Good, ReplayAll, Rest, AfterReply, RanDry;
    AtRest(w, forced);
    AtRest(w', forced');
    RepliesHandled(w.journal, forced, x, r);
    var p := w.journal + [InvocationCompleted(x, r)];
    var m := p + [AfterReply(w.graph, x, r)];
    NoteKeepsGraph(w.journal, InvocationCompleted(x, r));
    assert w.journal + Head(w, InvocationResponse(x, r)) == m;
    RanDryExtends(m, [], w.triggered, w'.journal) by { assert m + [] == m; }
    GoodPrefix(w'.journal, |m|, forced');
    assert w'.journal[..|m|] == m;
  }

  /** A reply is journaled first. A pending stage that takes its reply ends with it. */
  lemma ReplyTaken(w: World, forced: Forced, x: StageId, r: Result, w': World, forced': Forced, resp: Response)
    requires Rest(w, forced) && InvocationStarted(x) in w.journal && Rest(w', forced')
    requires Obeyed(w, InvocationResponse(x, r), w', resp)
    ensures w.journal + [InvocationCompleted(x, r)] <= w'.journal
    ensures x in w.graph.stages && x in w'.graph.stages
    ensures var op := w.graph.stages[x].operation;
            Pending(w.graph, x) && !op.ThenCompose? && !op.ExceptionallyCompose? && !op.WhenComplete? && !op.TerminationHook? ==>
              w'.graph.stages[x].result == Some(r)
  {
    hide Good, ReplayAll, Rest, AfterReply, RanDry, Obeyed, DependencyResult;
    AtRest(w, forced);
    AtRest(w', forced');
    RepliesHandled(w.journal, forced, x, r);
    ReplyJournaled(w, forced, x, r, w', forced', resp);
    StillThere(w, w', forced', x);
    var op := w.graph.stages[x].operation;
    if Pending(w.graph, x) && !op.ThenCompose? && !op.ExceptionallyCompose? && !op.WhenComplete? && !op.TerminationHook? {
      CompletionKept(w'.journal, forced', w.journal + [InvocationCompleted(x, r)], x, r);
    }
  }

  lemma StillThere(w: World, w': World, forced': Forced, x: StageId)
    requires Good(w'.journal, forced') && w.journal <= w'.journal && ReplayAll(w.journal) == w.graph && ReplayAll(w'.journal) == w'.graph
    requires x in w.graph.stages
    ensures x in w'.graph.stages
  {
    hide Good, ReplayAll;
    ReplayExtends(w'.journal, |w.journal|, forced');
    assert w'.journal[..|w.journal|] == w.journal;
  }

  /** whenComplete and the hooks end with what they depend on. */
  lemma ReplyIgnored(w: World, forced: Forced, x: StageId, r: Result, w': World, forced': Forced, resp: Response)
    requires Rest(w, forced) && InvocationStarted(x) in w.journal && Rest(w', forced')
    requires Obeyed(w, InvocationResponse(x, r), w', resp)
    requires Pending(w.graph, x) && (w.graph.stages[x].operation.WhenComplete? || w.graph.stages[x].operation.TerminationHook?)
    ensures var s := w.graph.stages;
            && |s[x].dependencies| == 1 && x in w'.graph.stages && w'.graph.stages[x].result.Some?
            && match s[x].dependencies[0]
               case Root => w'.graph.stages[x].result == w.graph.terminationRoot
               case On(d) => d in s && w'.graph.stages[x].result == s[d].result
  {
    hide Good, ReplayAll, Rest, AfterReply, RanDry, Obeyed;
    AtRest(w, forced);
    AtRest(w', forced');
    RepliesHandled(w.journal, forced, x, r);
    ReplyJournaled(w, forced, x, r, w', forced', resp);
    CompletionKept(w'.journal, forced', w.journal + [InvocationCompleted(x, r)], x, DependencyResult(w.graph, w.graph.stages[x].dependencies[0]).value);
  }

  /** The composing operations end with a failed reply, fail for one that names no stage or none that
      exists, and otherwise the stage named refers to them, and if it is resolved they end with its
      result at once. */
  lemma ReplyComposes(w: World, forced: Forced, x: StageId, r: Result, w': World, forced': Forced, resp: Response)
    requires Rest(w, forced) && InvocationStarted(x) in w.journal && Rest(w', forced')
    requires Obeyed(w, InvocationResponse(x, r), w', resp)
    requires x in w.graph.stages && (w.graph.stages[x].operation.ThenCompose? || w.graph.stages[x].operation.ExceptionallyCompose?)
    ensures x in w'.graph.stages
    ensures var s, s' := w.graph.stages, w'.graph.stages;
            if !r.successful then s[x].result.None? ==> s'[x].result == Some(r)
            else if !r.datum.StageRefDatum? then
              s[x].result.None? ==> s'[x].result == Some(InternalError(InvalidStageResponse, "stage returned a non-stageref response"))
            else if r.datum.stage !in s then
              s[x].result.None? ==> s'[x].result == Some(InternalError(InvalidStageResponse, "referenced stage not found "))
            else
              && r.datum.stage in s' && s'[r.datum.stage].composeReference == Some(x)
              && (s[x].result.None? && s[r.datum.stage].result.Some? ==> s'[x].result == s[r.datum.stage].result)
  {
    hide Good, ReplayAll, Rest, AfterReply, RanDry, Obeyed, DependencyResult;
    AtRest(w, forced);
    AtRest(w', forced');
    RepliesHandled(w.journal, forced, x, r);
    ReplyJournaled(w, forced, x, r, w', forced', resp);
    StillThere(w, w', forced', x);
    var e := AfterReply(w.graph, x, r);
    var p := w.journal + [InvocationCompleted(x, r)];
    if e.StageCompleted? {
      if Pending(w.graph, x) { CompletionKept(w'.journal, forced', p, x, e.result); }
    } else {
      ReferenceAfter(p, w.triggered, w'.journal, forced', x, r.datum.stage);
      if Pending(w.graph, x) && Resolved(w.graph, r.datum.stage) { ComposedAtOnce(w'.journal, forced', p, x, r.datum.stage); }
    }
  }

  /** A composition journaled before a cascade is there after it. */
  lemma ReferenceAfter(p: seq<Event>, triggered: set<StageId>, j: seq<Event>, forced: Forced, outer: StageId, inner: StageId)
    requires Good(j, forced) && RanDry(p + [StageComposed(outer, inner)], triggered, j) && Good(p + [StageComposed(outer, inner)], forced)
    ensures inner in ReplayAll(j).stages && ReplayAll(j).stages[inner].composeReference == Some(outer)
  {
    hide Good, ReplayAll, Exhausted, Cascade, Extends;
    var m := p + [StageComposed(outer, inner)];
    ComposedIsReferred(m, forced, |p|);
    assert m[..|p| + 1] == m;
    CascadeKeepsFrame(m, triggered, j, forced);
  }

  lemma ReferenceAtRest(p: seq<Event>, triggered: set<StageId>, w: World, forced: Forced, outer: StageId, inner: StageId)
    requires Rest(w, forced) && RanDry(p + [StageComposed(outer, inner)], triggered, w.journal)
    ensures inner in w.graph.stages && w.graph.stages[inner].composeReference == Some(outer)
  {
    hide Good, ReplayAll, Exhausted, Cascade, Rest;
    var m := p + [StageComposed(outer, inner)];
    AtRest(w, forced);
    CascadeExtends(m, triggered, w.journal);
    GoodPrefix(w.journal, |m|, forced);
    assert w.journal[..|m|] == m;
    ReferenceAfter(p, triggered, w.journal, forced, outer, inner);
  }

  /** Composed with a resolved stage a pending one takes its result. */
  lemma ComposedAtOnce(j: seq<Event>, forced: Forced, p: seq<Event>, outer: StageId, inner: StageId)
    requires Good(j, forced) && p + [StageComposed(outer, inner)] <= j
    requires Pending(ReplayAll(p), outer) && Resolved(ReplayAll(p), inner)
    ensures outer in ReplayAll(j).stages && ReplayAll(j).stages[outer].result == ReplayAll(p).stages[inner].result
  {
    hide Good, ReplayAll, Shape, Apply;
    var g := ReplayAll(p);
    assert j[..|p|] == p && j[|p|] == StageComposed(outer, inner) && j[..|j|] == j;
    GoodAt(j, |p|, forced);
    ReplayWellFormed(p, forced);
    ResolvedThere(g, outer, inner);
    CompositionTogether(g, outer, inner, inner, outer);
    ResultsAreWriteOnce(j, forced, |p| + 1, |j|, outer);
  }

  lemma ResolvedThere(g: Graph, outer: StageId, inner: StageId)
    requires ComposeClosed(g) && outer in g.stages && Resolved(g, inner)
    ensures var g' := Apply(g, StageComposed(outer, inner)); Resolved(g', inner) && g'.stages[inner].result == g.stages[inner].result
  {
    hide Apply, Settle;
    ComposeFacts(g, outer, inner);
  }

  // ----- The other commands -----

  lemma JournalsHead(w: World, cmd: Command, w': World, resp: Response)
    requires Obeyed(w, cmd, w', resp) && !cmd.CreateGraph?
    ensures w.journal + Head(w, cmd) <= w'.journal
  {
    hide Exhausted, Cascade, Head, Answer;
    if Head(w, cmd) == [] {
      assert w.journal + Head(w, cmd) == w.journal;
    } else if !cmd.AddDelay? && !cmd.AddInvokeFunction? {
      CascadeExtends(w.journal + Head(w, cmd), w.triggered, w'.journal);
    }
  }

  /** A pending stage completed from outside ends with the value, a resolved one is left alone. */
  lemma CompletionLeaves(w: World, forced: Forced, cmd: Command, x: StageId, r: Result, w': World, forced': Forced, resp: Response)
    requires Rest(w, forced) && Rest(w', forced') && Obeyed(w, cmd, w', resp)
    requires cmd == CompleteStageExternally(x, r) || cmd == CompleteDelay(x, r)
    ensures Pending(w.graph, x) ==> w.journal + [StageCompleted(x, r)] <= w'.journal
    ensures Pending(w.graph, x) ==> x in w'.graph.stages && w'.graph.stages[x].result == Some(r)
    ensures !Pending(w.graph, x) ==> w' == w
    ensures resp == (if cmd.CompleteDelay? then NoResponse else CompletionResponse(Pending(w.graph, x)))
  {
    hide Good, ReplayAll, Rest, RanDry, StrategyOf, AfterReply;
    AtRest(w, forced);
    AtRest(w', forced');
    JournalsHead(w, cmd, w', resp);
    if Pending(w.graph, x) { CompletionKept(w'.journal, forced', w.journal, x, r); }
  }

  /** An addition is answered with the next identifier and leaves a stage of its operation, with its
      closure and its dependencies in order. */
  lemma AdditionLeaves(w: World, forced: Forced, cmd: Command, w': World, forced': Forced, resp: Response)
    requires Rest(w, forced) && Rest(w', forced') && Obeyed(w, cmd, w', resp)
    requires cmd.AddStage? || cmd.AddCompletedValue? || cmd.AddDelay? || cmd.AddInvokeFunction?
    ensures var x, s := |w.graph.stages|, w'.graph.stages;
            && resp == StageResponse(x) && x in s
            && (cmd.AddStage? ==>
                  && w.journal + [StageAdded(x, cmd.op, cmd.closure, cmd.deps)] <= w'.journal
                  && s[x].operation == cmd.op && s[x].closure == cmd.closure
                  && (!cmd.op.TerminationHook? ==>
                        && |s[x].dependencies| == |cmd.deps|
                        && forall i :: 0 <= i < |cmd.deps| ==> s[x].dependencies[i] == On(cmd.deps[i])))
            && (cmd.AddCompletedValue? ==>
                  w.journal + [StageAdded(x, Operation.CompletedValue, None, []), StageCompleted(x, cmd.value)] <= w'.journal)
            && (cmd.AddDelay? ==>
                  w'.journal == w.journal + [StageAdded(x, Operation.Delay, None, []), DelayScheduled(x, cmd.nowMs + cmd.delayMs)])
            && (cmd.AddInvokeFunction? ==>
                  w'.journal == w.journal + [StageAdded(x, Operation.InvokeFunction, None, []), InvocationStarted(x)])
            && (!cmd.AddStage? ==> s[x].closure.None? && s[x].dependencies == [])
            && (cmd.AddCompletedValue? ==> s[x].operation == Operation.CompletedValue)
            && (cmd.AddDelay? ==> s[x].operation == Operation.Delay)
            && (cmd.AddInvokeFunction? ==> s[x].operation == Operation.InvokeFunction)
  {
    hide Good, ReplayAll, Rest, RanDry;
    JournalsHead(w, cmd, w', resp);
    var e := Head(w, cmd)[0];
    assert w.journal + [e] <= w.journal + Head(w, cmd);
    AdditionKept(w', forced', w.journal, e);
  }

  /** A given value is what its stage ends with. */
  lemma ValueLeaves(w: World, forced: Forced, v: Result, w': World, forced': Forced, resp: Response)
    requires Rest(w, forced) && Rest(w', forced') && Obeyed(w, AddCompletedValue(v), w', resp)
    ensures var x := |w.graph.stages|; x in w'.graph.stages && w'.graph.stages[x].result == Some(v)
  {
    hide Good, ReplayAll, Rest, RanDry, StrategyOf, Justified, Apply, Obeyed;
    var x := |w.graph.stages|;
    AtRest(w', forced');
    JournalsHead(w, AddCompletedValue(v), w', resp);
    var p := w.journal + [StageAdded(x, Operation.CompletedValue, None, [])];
    assert w.journal + Head(w, AddCompletedValue(v)) == p + [StageCompleted(x, v)];
    assert w'.journal[..|p|] == p && w'.journal[..|w.journal|] == w.journal && w'.journal[|w.journal|] == Last(p);
    GoodAt(w'.journal, |w.journal|, forced');
    AdditionPuts(ReplayAll(w.journal), x, Operation.CompletedValue, None, []);
    CompletionKept(w'.journal, forced', p, x, v);
  }

  /** A delay or a function call is pending when its command has been answered. */
  lemma WaitingLeaves(w: World, forced: Forced, cmd: Command, w': World, forced': Forced, resp: Response)
    requires Rest(w, forced) && Rest(w', forced') && Obeyed(w, cmd, w', resp) && (cmd.AddDelay? || cmd.AddInvokeFunction?)
    ensures Pending(w'.graph, |w.graph.stages|)
  {
    hide Good, Rest, RanDry, StrategyOf, Apply, Admissible;
    AtRest(w', forced');
    var x, op := |w.graph.stages|, if cmd.AddDelay? then Operation.Delay else Operation.InvokeFunction;
    var p := w.journal + [StageAdded(x, op, None, [])];
    var e := Head(w, cmd)[1];
    assert w'.journal == p + [e];
    GoodPrefix(w'.journal, |p|, forced');
    assert w'.journal[..|p|] == p;
    Append(w.journal, Last(p), forced');
    NoteKeepsGraph(p, e);
    PassiveRows(op);
    AdditionPuts(ReplayAll(w.journal), x, op, None, []);
  }

  /** Committing leaves a committed graph, and a second commit changes nothing. */
  lemma CommitLeaves(w: World, forced: Forced, w': World, forced': Forced, resp: Response)
    requires Rest(w, forced) && Rest(w', forced') && Obeyed(w, Commit, w', resp)
    ensures resp == Processed && !w'.graph.state.Initial?
    ensures if w.graph.state.Initial? then w.journal + [GraphCommitted] <= w'.journal else w' == w
  {
    hide Good, Rest, RanDry, Apply, Justified, Admissible;
    AtRest(w, forced);
    AtRest(w', forced');
    JournalsHead(w, Commit, w', resp);
    if w.graph.state.Initial? {
      var k := |w.journal|;
      assert w'.journal[..k] == w.journal && w'.journal[k] == GraphCommitted;
      GoodAt(w'.journal, k, forced');
      CommittedNow(ReplayAll(w.journal));
      ReplayExtends(w'.journal, k + 1, forced');
    }
  }

  lemma CommittedNow(g: Graph)
    ensures Apply(g, GraphCommitted).state.Committed?
  {
  }

  // ----- Nobody is forgotten from one message to the next -----

  lemma SuffixFrom(a: seq<Event>, p: seq<Event>, j: seq<Event>, base: nat, e: Event)
    requires base <= |a| && a <= p <= j && (e in a[base..] || e in j[|p|..])
    ensures e in j[base..]
  {
    if e in a[base..] {
      var i :| 0 <= i < |a| - base && a[base..][i] == e;
      assert j[base..][i] == e;
    } else {
      var i :| 0 <= i < |j| - |p| && j[|p|..][i] == e;
      assert j[base..][i + |p| - base] == e;
    }
  }

  /** Who runs after a message that ran dry ran before it, or was invoked on the way. */
  lemma DryKeepsRequested(w: World, forced: Forced, p: seq<Event>, w': World, forced': Forced)
    requires Rest(w, forced) && Rest(w', forced') && w.base == w'.base && w.journal <= p && RanDry(p, w.triggered, w'.journal)
    requires AllRequested(w)
    ensures AllRequested(w')
  {
    hide Good, ReplayAll, Trigger, Requested, Cascade, Extends, Owed, ToldOk, LifecycleRest;
    CascadeExtends(p, w.triggered, w'.journal);
    ReplayExtends(w'.journal, |w.journal|, forced');
    assert w'.journal[..|w.journal|] == w.journal;
    forall y: StageId | Runs(w'.graph, y) ensures Requested(w', y) {
      RequestedExactly(w', y);
      if y in w.triggered {
        RanAlready(w, forced, w', y);
        RequestedExactly(w, y);
      }
      SuffixFrom(w.journal, p, w'.journal, w.base, InvocationStarted(y));
    }
  }

  lemma RanAlready(w: World, forced: Forced, w': World, y: StageId)
    requires Rest(w, forced) && Extends(w.graph, w'.graph) && y in w.triggered && Runs(w'.graph, y)
    ensures Runs(w.graph, y)
  {
    hide Good, ReplayAll, Trigger, WellFormed, ToldOk, RequestsOk, LifecycleRest;
    ReplayWellFormed(w.journal, forced);
    StageOf(w.graph, y);
    if IsReady(w.graph, y) { ReadyStays(w.graph, w'.graph, y); }
  }

  /** A stage that runs right after an addition that set nothing off ran before. */
  lemma PassiveKeepsRequested(w: World, forced: Forced, cmd: Command, w': World, forced': Forced, resp: Response)
    requires Rest(w, forced) && Rest(w', forced') && Obeyed(w, cmd, w', resp) && (cmd.AddDelay? || cmd.AddInvokeFunction?)
    requires AllRequested(w)
    ensures AllRequested(w')
  {
    hide Good, ReplayAll, Requested, Extends, Owed, ToldOk, LifecycleRest, RanDry, Apply, Trigger, StrategyOf, Admissible, FlagsExcept;
    var x, op := |w.graph.stages|, if cmd.AddDelay? then Operation.Delay else Operation.InvokeFunction;
    var e := StageAdded(x, op, None, []);
    var p := w.journal + [e];
    assert w'.journal == p + [Head(w, cmd)[1]];
    GoodPrefix(w'.journal, |p|, forced');
    assert w'.journal[..|p|] == p && w'.journal[..|w.journal|] == w.journal;
    Append(w.journal, e, forced');
    NoteKeepsGraph(p, Head(w, cmd)[1]);
    ReplayExtends(w'.journal, |w.journal|, forced');
    forall y: StageId | Runs(w'.graph, y) ensures Requested(w', y) {
      OldRunner(w, forced, e, y);
      RequestedExactly(w, y);
      RequestedExactly(w', y);
      SuffixFrom(w.journal, w.journal, w'.journal, w.base, InvocationStarted(y));
    }
  }

  lemma OldRunner(w: World, forced: Forced, e: Event, y: StageId)
    requires Rest(w, forced) && Admissible(w.journal, e) && e.StageAdded? && (e.op.Delay? || e.op.InvokeFunction?)
    requires Runs(Apply(w.graph, e), y)
    ensures Runs(w.graph, y)
  {
    hide Good, ReplayAll, Trigger, ToldOk, RequestsOk, LifecycleRest, StrategyOf, KeysOk, ChainOk, RefsOk, LifecycleOk, ComposeClosed;
    PassiveRows(e.op);
    AddedStage(w.graph, e);
    ReplayWellFormed(w.journal, forced);
    AddedKeys(w.graph, e) by { HeadPresent(w, forced); }
    if y == e.stage {
      PassiveExec(Apply(w.graph, e), y);
    } else {
      AddedReadiesNobody(w.graph, e, y);
      AddedResultsSame(w.graph, e, y);
      ApplyKeeps(w.journal, e);
      StageOf(w.graph, y);
      ReadyStays(w.graph, Apply(w.graph, e), y);
    }
  }

  /** However a command is obeyed, everybody whose closure is to run has been asked for. */
  lemma ObeyedKeepsRequested(w: World, forced: Forced, cmd: Command, w': World, forced': Forced, resp: Response)
    requires Rest(w, forced) && Rest(w', forced') && Obeyed(w, cmd, w', resp) && !cmd.CreateGraph? && AllRequested(w)
    ensures AllRequested(w')
  {
    hide Good, ReplayAll, Rest, RanDry, AllRequested, Answer;
    if Head(w, cmd) == [] {
    } else if cmd.AddDelay? || cmd.AddInvokeFunction? {
      PassiveKeepsRequested(w, forced, cmd, w', forced', resp);
    } else {
      DryKeepsRequested(w, forced, w.journal + Head(w, cmd), w', forced');
    }
  }

  /** After a start whoever is to run has been asked for anew. */
  lemma StartRequested(stored: seq<Event>, known: Forced, lost: Option<StageId>, w: World, forced: Forced)
    requires stored != [] && Good(stored, known) && Rest(w, forced) && w.base == |stored|
    requires Restarted(stored, known, lost, w.journal, w.graph, forced)
    ensures AllRequested(w)
  {
    hide Good, ReplayAll, Requested, Cascade, Extends, Owed, ToldOk, LifecycleRest, Reemitted, IsReady, ExecOf, FlagsExcept, Fixpoint;
    var p := stored + Reemitted(stored) + (if lost.Some? then [LostEvent(lost.value)] else []);
    var t := ResolvedSet(ReplayAll(stored)) + (if lost.Some? then {lost.value} else {});
    assert RanDry(p, t, w.journal) by {
      assert t == if lost.Some? then ResolvedSet(ReplayAll(stored)) + {lost.value} else ResolvedSet(ReplayAll(stored));
      assert p == if lost.Some? then stored + Reemitted(stored) + [LostEvent(lost.value)] else stored + Reemitted(stored);
    }
    CascadeExtends(p, t, w.journal);
    GoodPrefix(w.journal, |p|, forced);
    assert w.journal[..|p|] == p && w.journal[..|stored|] == stored;
    ReplayExtends(w.journal, |stored|, forced);
    forall y: StageId | Runs(w.graph, y) ensures Requested(w, y) {
      if y in t { TriggeredResolved(stored, lost, p, w.journal, forced, y); }
      RequestedExactly(w, y);
      SuffixFrom(stored, p, w.journal, |stored|, InvocationStarted(y));
    }
  }

  /** Whoever was triggered when the cascade of a start begins is resolved. */
  lemma TriggeredResolved(stored: seq<Event>, lost: Option<StageId>, p: seq<Event>, j: seq<Event>, forced: Forced, y: StageId)
    requires Good(j, forced) && stored <= p <= j && (lost.Some? ==> p != [] && |stored| < |p| && Last(p) == LostEvent(lost.value))
    requires Resolved(ReplayAll(stored), y) || lost == Some(y)
    ensures Resolved(ReplayAll(j), y)
  {
    hide Good, ReplayAll;
    assert j[..|j|] == j && j[..|stored|] == stored;
    if Resolved(ReplayAll(stored), y) {
      ResultsAreWriteOnce(j, forced, |stored|, |j|, y);
    } else {
      CompletionResolves(j, forced, |p| - 1);
      ResultsAreWriteOnce(j, forced, |p|, |j|, y);
    }
  }

  lemma EmptyRequested(w: World)
    requires w.graph.stages == map[]
    ensures AllRequested(w)
  {
  }

  /** A command completes nobody from outside but the stage it is about. */
  lemma ForcesOnlyItsOwn(w: World, cmd: Command)
    ensures forall x: StageId :: x in Forces(w, cmd) ==>
              (cmd.AddCompletedValue? && x == |w.graph.stages|) || ((cmd.CompleteStageExternally? || cmd.CompleteDelay?) && x == cmd.stage)
  {
  }

  lemma CreatedLeaves(w: World, w': World, cmd: Command)
    requires cmd.CreateGraph? && w'.journal == [GraphCreated] && w'.graph == NewGraph()
    ensures Leaves(w, cmd, w', GraphResponse) && AllRequested(w')
  {
  }

  /** What an accepted command leaves behind: the answer, its own events first in the journal, and
      what becomes of the stage it is about. */
  ghost predicate Leaves(w: World, cmd: Command, w': World, resp: Response) {
    var x, s, s' := |w.graph.stages|, w.graph.stages, w'.graph.stages;
    match cmd
    case CreateGraph => resp == GraphResponse && w'.journal == [GraphCreated] && s' == map[] && w'.graph.state.Initial?
    case AddStage(op, closure, deps) =>
      && resp == StageResponse(x) && w.journal + [StageAdded(x, op, closure, deps)] <= w'.journal
      && x in s' && s'[x].operation == op && s'[x].closure == closure
      && (!op.TerminationHook? ==>
            && |s'[x].dependencies| == |deps|
            && forall i :: 0 <= i < |deps| ==> s'[x].dependencies[i] == On(deps[i]))
    case AddCompletedValue(v) =>
      && resp == StageResponse(x)
      && w.journal + [StageAdded(x, Operation.CompletedValue, None, []), StageCompleted(x, v)] <= w'.journal
      && x in s' && s'[x].operation == Operation.CompletedValue && s'[x].result == Some(v)
    case AddDelay(ms, now) =>
      && resp == StageResponse(x)
      && w'.journal == w.journal + [StageAdded(x, Operation.Delay, None, []), DelayScheduled(x, now + ms)]
      && x in s' && s'[x].operation == Operation.Delay && s'[x].result.None?
    case AddInvokeFunction =>
      && resp == StageResponse(x)
      && w'.journal == w.journal + [StageAdded(x, Operation.InvokeFunction, None, []), InvocationStarted(x)]
      && x in s' && s'[x].operation == Operation.InvokeFunction && s'[x].result.None?
    case CompleteStageExternally(y, v) => CompletedFromOutside(w, y, v, w') && resp == CompletionResponse(s[y].result.None?)
    case Commit =>
      && resp == Processed && !w'.graph.state.Initial?
      && if w.graph.state.Initial? then w.journal + [GraphCommitted] <= w'.journal else w' == w
    case AwaitStageResult(y) => resp == AwaitFuture(y) && w' == w
    case CompleteDelay(y, r) => CompletedFromOutside(w, y, r, w') && resp == NoResponse
    case InvocationResponse(y, r) =>
      && resp == NoResponse && w.journal + [InvocationCompleted(y, r)] <= w'.journal
      && y in s && y in s' && if s[y].result.Some? then s'[y].result == s[y].result else ReplyTakenBy(w, y, r, w')
  }

  /** A pending stage got the value, for a resolved one nothing happened. */
  ghost predicate CompletedFromOutside(w: World, y: StageId, r: Result, w': World) {
    && y in w.graph.stages
    && if w.graph.stages[y].result.None?
       then w.journal + [StageCompleted(y, r)] <= w'.journal && y in w'.graph.stages && w'.graph.stages[y].result == Some(r)
       else w' == w
  }

  /** What a reply made of a pending stage, by operation. */
  ghost predicate ReplyTakenBy(w: World, y: StageId, r: Result, w': World)
    requires y in w.graph.stages && y in w'.graph.stages
  {
    var s, s' := w.graph.stages, w'.graph.stages;
    match s[y].operation
    case ThenCompose => Composes(w, y, r, w')
    case ExceptionallyCompose => Composes(w, y, r, w')
    case WhenComplete => |s[y].dependencies| == 1 && HandedOn(w, s[y].dependencies[0], s'[y].result)
    case TerminationHook => |s[y].dependencies| == 1 && HandedOn(w, s[y].dependencies[0], s'[y].result)
    case _ => s'[y].result == Some(r)
  }

  /** The result of the parent. */
  ghost predicate HandedOn(w: World, d: Dependency, result: Option<Result>) {
    && result.Some?
    && match d
       case Root => result == w.graph.terminationRoot
       case On(n) => n in w.graph.stages && result == w.graph.stages[n].result
  }

  /** A failure, or an error, or a reference to wait for, or the result of the stage named. */
  ghost predicate Composes(w: World, y: StageId, r: Result, w': World)
    requires y in w.graph.stages && y in w'.graph.stages
  {
    var s, s' := w.graph.stages, w'.graph.stages;
    if !r.successful then s'[y].result == Some(r)
    else if !r.datum.StageRefDatum? then s'[y].result == Some(InternalError(InvalidStageResponse, "stage returned a non-stageref response"))
    else if r.datum.stage !in s then s'[y].result == Some(InternalError(InvalidStageResponse, "referenced stage not found "))
    else
      && r.datum.stage in s' && s'[r.datum.stage].composeReference == Some(y)
      && (s[r.datum.stage].result.Some? ==> s'[y].result == s[r.datum.stage].result)
  }

  /** So it is for whatever command was accepted, and nobody is forgotten. */
  lemma CommandLeaves(w: World, forced: Forced, cmd: Command, w': World, forced': Forced, resp: Response)
    requires Rest(w, forced) && Rest(w', forced') && Obeyed(w, cmd, w', resp) && !cmd.CreateGraph? && Validate(w.graph, cmd).None?
    requires cmd.CompleteDelay? ==> ScheduledIn(w.journal, cmd.stage)
    requires cmd.InvocationResponse? ==> InvocationStarted(cmd.stage) in w.journal
    ensures AllRequested(w) ==> AllRequested(w')
    ensures Leaves(w, cmd, w', resp)
  {
    hide Good, ReplayAll, Rest, Obeyed, Validate, AllRequested, ScheduledIn;
    if AllRequested(w) { ObeyedKeepsRequested(w, forced, cmd, w', forced', resp); }
    match cmd
    case AddStage(_, _, _) => AdditionLeaves(w, forced, cmd, w', forced', resp);
    case AddCompletedValue(v) =>
      AdditionLeaves(w, forced, cmd, w', forced', resp);
      ValueLeaves(w, forced, v, w', forced', resp);
    case AddDelay(_, _) =>
      AdditionLeaves(w, forced, cmd, w', forced', resp);
      WaitingLeaves(w, forced, cmd, w', forced', resp);
    case AddInvokeFunction =>
      AdditionLeaves(w, forced, cmd, w', forced', resp);
      WaitingLeaves(w, forced, cmd, w', forced', resp);
    case CompleteStageExternally(x, v) =>
      ExternalTarget(w.graph, x, v);
      CompletionLeaves(w, forced, cmd, x, v, w', forced', resp);
    case CompleteDelay(x, r) =>
      DelayTarget(w, forced, x);
      CompletionLeaves(w, forced, cmd, x, r, w', forced', resp);
    case Commit => CommitLeaves(w, forced, w', forced', resp);
    case AwaitStageResult(x) => AwaitLeaves(w, cmd, w', resp);
    case InvocationResponse(x, r) => ReplyLeaves(w, forced, x, r, w', forced', resp);
  }

  lemma AwaitLeaves(w: World, cmd: Command, w': World, resp: Response)
    requires cmd.AwaitStageResult? && Obeyed(w, cmd, w', resp)
    ensures resp == AwaitFuture(cmd.stage) && w' == w
  {
  }

  /** All about a reply. */
  lemma ReplyLeaves(w: World, forced: Forced, x: StageId, r: Result, w': World, forced': Forced, resp: Response)
    requires Rest(w, forced) && Rest(w', forced') && Obeyed(w, InvocationResponse(x, r), w', resp) && InvocationStarted(x) in w.journal
    ensures Leaves(w, InvocationResponse(x, r), w', resp)
  {
    hide Good, ReplayAll, Rest, Obeyed;
    ReplyTaken(w, forced, x, r, w', forced', resp);
    NoAnswer(w, x, r, w', resp);
    if Resolved(w.graph, x) {
      ResultKept(w, forced, w', forced', x);
    } else {
      match w.graph.stages[x].operation
      case ThenCompose => ReplyComposes(w, forced, x, r, w', forced', resp);
      case ExceptionallyCompose => ReplyComposes(w, forced, x, r, w', forced', resp);
      case WhenComplete => ReplyIgnored(w, forced, x, r, w', forced', resp);
      case TerminationHook => ReplyIgnored(w, forced, x, r, w', forced', resp);
      case _ =>
    }
  }

  lemma NoAnswer(w: World, x: StageId, r: Result, w': World, resp: Response)
    requires Obeyed(w, InvocationResponse(x, r), w', resp)
    ensures resp == NoResponse
  {
  }
}
