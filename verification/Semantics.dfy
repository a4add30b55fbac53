/** What the result of each kind of stage means in every graph a good journal rebuilds, for
    stages that were not completed from outside their own strategies. */
module Semantics {
  import opened FlowModel
  import opened StageStrategy
  import opened Replay
  import opened Structure
  import opened Lifecycle

  function Inputs(g: Graph, x: StageId): seq<Option<Result>>
    requires x in g.stages
  {
    DependencyResults(g, g.stages[x].dependencies)
  }

  /** `r` is the result of dependency `i`, and the one the trigger hands on. */
  predicate HandsOn(kind: TriggerKind, rs: seq<Option<Result>>, status: bool, r: Result, i: nat) {
    && i < |rs| && rs[i] == Some(r) && r.successful == status
    && (kind.WaitForAll? ==> FirstFailureAt(rs, i))
    && (kind.TriggerAny? && !status ==> AllFailed(rs) && i == |rs| - 1)
  }

  /** `r` is what the reply journaled at `n` makes of stage `x`: itself, or for a stage that composes,
      a failed reply itself, an error for one that names no stage or none that existed, and
      otherwise the result of the stage it names. */
  predicate Answers(j: seq<Event>, g: Graph, x: StageId, r: Result, n: nat) {
    && n < |j| && j[n].InvocationCompleted? && j[n].stage == x && x in g.stages
    && var reply := j[n].result;
       match g.stages[x].strategy.resultHandling
       case InvocationResult => r == reply
       case ReferencedStageResult =>
         if !reply.successful then r == reply
         else if !reply.datum.StageRefDatum? then r == InternalError(InvalidStageResponse, "stage returned a non-stageref response")
         else if reply.datum.stage !in ReplayAll(j[..n]).stages then r == InternalError(InvalidStageResponse, "referenced stage not found ")
         else Resolved(g, reply.datum.stage) && g.stages[reply.datum.stage].result == Some(r)
       case _ => true
  }

  /** The result of a resolved stage is the one its strategies give. */
  ghost predicate ByStrategy(j: seq<Event>, g: Graph, x: StageId)
    requires Resolved(g, x)
  {
    && IsReady(g, x)
    && var k := ExecOf(g, x);
       var s := g.stages[x];
       var r := s.result.value;
       && (k.SucceedWithEmpty? ==> r == EmptyResult())
       && (k.PropagateResult? ==> exists i: nat :: HandsOn(s.strategy.trigger, Inputs(g, x), Trigger(g, x).status, r, i))
       && (Invokes(k) || k.CompleteExternally? ==>
             InvocationStarted(x) in j && exists n: nat :: Answers(j, g, x, r, n))
       && (s.strategy.resultHandling.ParentStageResult? ==>
             |s.dependencies| == 1 && DependencyResult(g, s.dependencies[0]) == s.result)
  }

  /** The stage has the result its strategies give, or was ready when a recovery failed it. */
  ghost predicate Explained(j: seq<Event>, g: Graph, x: StageId, forced: Forced)
    requires Resolved(g, x)
  {
    ByStrategy(j, g, x) || (x in forced.lost && FailedAsLost(g, x, g.stages[x].result.value))
  }

  lemma AnswersStay(j: seq<Event>, e: Event, g: Graph, g': Graph, x: StageId, r: Result)
    requires Extends(g, g') && x in g.stages && exists n: nat :: Answers(j, g, x, r, n)
    ensures exists n: nat :: Answers(j + [e], g', x, r, n)
  {
    hide ReplayAll;
    var n: nat :| Answers(j, g, x, r, n);
    assert (j + [e])[..n] == j[..n] && (j + [e])[n] == j[n];
    assert Answers(j + [e], g', x, r, n);
  }

  lemma HandsOnStays(g: Graph, g': Graph, x: StageId, status: bool, r: Result)
    requires Extends(g, g') && x in g.stages && g'.stages[x].dependencies == g.stages[x].dependencies
    requires exists i: nat :: HandsOn(g.stages[x].strategy.trigger, Inputs(g, x), status, r, i)
    ensures exists i: nat :: HandsOn(g'.stages[x].strategy.trigger, Inputs(g', x), status, r, i)
  {
    var i: nat :| HandsOn(g.stages[x].strategy.trigger, Inputs(g, x), status, r, i);
    assert Keeps(Inputs(g, x), Inputs(g', x));
    assert HandsOn(g'.stages[x].strategy.trigger, Inputs(g', x), status, r, i);
  }

  lemma ByStrategyStays(j: seq<Event>, e: Event, g: Graph, g': Graph, x: StageId)
    requires WellFormed(g) && Extends(g, g') && Resolved(g, x) && ByStrategy(j, g, x)
    ensures Resolved(g', x) && ByStrategy(j + [e], g', x)
  {
    hide WellFormed, Inputs, HandsOn, Trigger, Answers;
    StageOf(g, x);
    ReadyStays(g, g', x);
    if ExecOf(g, x).PropagateResult? {
      HandsOnStays(g, g', x, Trigger(g, x).status, g.stages[x].result.value);
    }
    if Invokes(ExecOf(g, x)) || ExecOf(g, x).CompleteExternally? {
      AnswersStay(j, e, g, g', x, g.stages[x].result.value);
    }
  }

  /** A completion by trigger hands on what the trigger strategy selects. */
  lemma TriggerHandsOn(g: Graph, x: StageId, r: Result)
    requires WellFormed(g) && CompletedByTrigger(g, x, r) && ExecOf(g, x).PropagateResult?
    ensures exists i: nat :: HandsOn(g.stages[x].strategy.trigger, Inputs(g, x), Trigger(g, x).status, r, i)
  {
    assert StageOk(g, x);
    var kind := g.stages[x].strategy.trigger;
    var rs := Inputs(g, x);
    var out := Trigger(g, x);
    ImmediateFollowsStatus(g.stages[x].operation, g.stages[x].strategy, rs);
    if kind.WaitForAll? {
      var i: nat :| FirstFailureAt(rs, i) && out.inputs == [rs[i].value];
      assert HandsOn(kind, rs, out.status, r, i);
    } else if out.status {
      var i: nat :| FirstSuccessAt(rs, i) && out.inputs == [rs[i].value];
      assert HandsOn(kind, rs, out.status, r, i);
    } else {
      assert Failed(rs[|rs| - 1]);
      assert HandsOn(kind, rs, out.status, r, |rs| - 1);
    }
  }

  /** The target of a justified completion has the result its strategies give. */
  lemma TargetByTrigger(j: seq<Event>, forced: Forced, x: StageId, r: Result, g': Graph)
    requires Good(j, forced) && Pending(ReplayAll(j), x) && CompletedByTrigger(ReplayAll(j), x, r)
    requires Extends(ReplayAll(j), g') && g'.stages[x].result == Some(r)
    ensures Resolved(g', x) && ByStrategy(j + [StageCompleted(x, r)], g', x)
  {
    hide Good, ReplayAll, WellFormed, Inputs, HandsOn, Trigger, Answers, CompletedByReply;
    var g := ReplayAll(j);
    ReplayWellFormed(j, forced);
    StageOf(g, x);
    ReadyStays(g, g', x);
    if ExecOf(g, x).PropagateResult? {
      TriggerHandsOn(g, x, r);
      HandsOnStays(g, g', x, Trigger(g, x).status, r);
    }
  }

  lemma TargetByReply(j: seq<Event>, forced: Forced, x: StageId, r: Result, g': Graph)
    requires Good(j, forced) && Pending(ReplayAll(j), x) && CompletedByReply(j, ReplayAll(j), x, r)
    requires Extends(ReplayAll(j), g') && g'.stages[x].result == Some(r)
    ensures Resolved(g', x) && ByStrategy(j + [StageCompleted(x, r)], g', x)
  {
    hide WellFormed, Good, ReplayAll, Answers, Trigger;
    var g := ReplayAll(j);
    ReplayWellFormed(j, forced);
    RepliedWasStarted(j, forced);
    InvokedStaysReady(j, forced, x);
    StageOf(g, x);
    ReadyStays(g, g', x);
    ReplyAnswers(j, x, r, g');
    ReplyToRunning(g, x);
  }

  lemma RepliedWasStarted(j: seq<Event>, forced: Forced)
    requires Good(j, forced) && j != [] && Last(j).InvocationCompleted?
    ensures InvocationStarted(Last(j).stage) in j
  {
    hide ReplayAll, Justified, IsReady, ExecOf, StrategyOf, PendingIn;
    assert Init(j) <= j;
  }

  /** What a stage that waits for a reply does when it is triggered, and what it takes from it. */
  lemma ReplyToRunning(g: Graph, x: StageId)
    requires IsReady(g, x) && (Invokes(ExecOf(g, x)) || g.stages[x].operation.InvokeFunction?) && StageOk(g, x)
    ensures !ExecOf(g, x).SucceedWithEmpty? && !ExecOf(g, x).PropagateResult?
    ensures g.stages[x].strategy.resultHandling.ParentStageResult? ==> |g.stages[x].dependencies| == 1
  {
    hide Trigger;
  }

  lemma RepliesChangeNothing(j: seq<Event>)
    requires j != [] && Last(j).InvocationCompleted?
    ensures ReplayAll(j) == ReplayAll(Init(j))
  {
  }

  lemma ReplyAnswers(j: seq<Event>, x: StageId, r: Result, g': Graph)
    requires CompletedByReply(j, ReplayAll(j), x, r)
    requires x in g'.stages && g'.stages[x].strategy == ReplayAll(j).stages[x].strategy
    ensures Answers(j + [StageCompleted(x, r)], g', x, r, |j| - 1)
  {
    hide ReplayAll;
    var j' := j + [StageCompleted(x, r)];
    RepliesChangeNothing(j);
    assert j'[..|j| - 1] == Init(j) && j'[|j| - 1] == Last(j);
  }

  /** A stage that composes has the result of the stage its reply named. */
  lemma InnerAnswers(j: seq<Event>, forced: Forced, inner: StageId, x: StageId)
    requires Good(j, forced) && ComposedInto(ReplayAll(j), inner, x) && Resolved(ReplayAll(j), x) && Resolved(ReplayAll(j), inner)
    requires ReplayAll(j).stages[inner].result == ReplayAll(j).stages[x].result
    ensures exists n: nat :: Answers(j, ReplayAll(j), x, ReplayAll(j).stages[x].result.value, n)
  {
    hide KeysOk, StagesOk, ChainOk, LifecycleOk, ComposeClosed, Good;
    ReplayWellFormed(j, forced);
    var n := ReferenceWasReplied(j, forced, inner, x);
    assert Answers(j, ReplayAll(j), x, ReplayAll(j).stages[x].result.value, n);
  }

  /** A composed stage was invoked, so its result counts as the reply to that. */
  lemma OuterByChain(j: seq<Event>, forced: Forced, inner: StageId, x: StageId)
    requires Good(j, forced) && ComposedInto(ReplayAll(j), inner, x) && Resolved(ReplayAll(j), x) && Resolved(ReplayAll(j), inner)
    requires ReplayAll(j).stages[inner].result == ReplayAll(j).stages[x].result
    ensures ByStrategy(j, ReplayAll(j), x)
  {
    hide Good, KeysOk, ChainOk, LifecycleOk, ComposeClosed, Answers, Trigger, HandsOn;
    ReplayWellFormed(j, forced);
    OuterWasInvoked(j, forced, inner, x);
    InvokedStaysReady(j, forced, x);
    InnerAnswers(j, forced, inner, x);
    StageOf(ReplayAll(j), x);
  }

  lemma AddedResolvesNobody(g: Graph, e: Event, y: StageId)
    requires e.StageAdded? && Resolved(Apply(g, e), y)
    ensures Resolved(g, y)
  {
  }

  /** Resolved with the result of a stage composed into it. */
  ghost predicate TakesInner(g: Graph, x: StageId) {
    Resolved(g, x) && exists i :: ComposedInto(g, i, x) && Resolved(g, i) && g.stages[i].result == g.stages[x].result
  }

  lemma ResolvedByCompletion(g: Graph, y: StageId, r: Result, x: StageId)
    requires ComposeClosed(g) && y in g.stages
    requires !Resolved(g, x) && Resolved(Complete(g, y, r), x)
    ensures TakesInner(Complete(g, y, r), x) || (y == x && Pending(g, x) && Complete(g, y, r).stages[x].result == Some(r))
  {
    hide ClosedExcept, Complete;
    CompleteFacts(g, y, r);
    if x != y {
      var i :| ComposedInto(g, i, x) && Pending(g, i) && Resolved(Complete(g, y, r), i);
      assert ComposedInto(Complete(g, y, r), i, x);
    }
  }

  lemma ResolvedByCompose(g: Graph, o: StageId, i: StageId, x: StageId)
    requires ComposeClosed(g) && o in g.stages && i in g.stages
    requires !Resolved(g, x) && Resolved(Apply(g, StageComposed(o, i)), x)
    ensures TakesInner(Apply(g, StageComposed(o, i)), x)
  {
    hide ClosedExcept, Settle;
    ComposeFacts(g, o, i);
    var g1 := SetReference(g, o, i);
    var g' := Apply(g, StageComposed(o, i));
    if x == o {
      assert ComposedInto(g', i, o);
    } else {
      var i' :| ComposedInto(g1, i', x) && Pending(g1, i') && Resolved(g', i');
      assert ComposedInto(g', i', x);
    }
  }

  /** Whoever the last event resolved is its target or follows another stage. */
  lemma NewlyResolved(j: seq<Event>, forced: Forced, x: StageId)
    requires j != [] && Good(j, forced)
    requires !Resolved(ReplayAll(Init(j)), x) && Resolved(ReplayAll(j), x)
    ensures TakesInner(ReplayAll(j), x)
            || (Last(j).StageCompleted? && Last(j).stage == x && Pending(ReplayAll(Init(j)), x)
                && ReplayAll(j).stages[x].result == Some(Last(j).result))
  {
    hide TakesInner, Shape, Complete, Justified;
    var g := ReplayAll(Init(j));
    ReplayWellFormed(Init(j), forced);
    assert ReplayAll(j) == Apply(g, Last(j));
    match Last(j)
    case StageCompleted(y, r) =>
      assert ReplayAll(j) == Complete(g, y, r);
      ResolvedByCompletion(g, y, r, x);
    case StageComposed(o, i) => ResolvedByCompose(g, o, i, x);
    case StageAdded(_, _, _, _) => AddedResolvesNobody(g, Last(j), x);
    case _ =>
  }

  lemma ExplainedStays(j: seq<Event>, e: Event, g: Graph, g': Graph, x: StageId, forced: Forced)
    requires WellFormed(g) && Extends(g, g') && Resolved(g, x) && Explained(j, g, x, forced)
    ensures Resolved(g', x) && Explained(j + [e], g', x, forced)
  {
    hide WellFormed, ByStrategy, Trigger;
    if ByStrategy(j, g, x) {
      ByStrategyStays(j, e, g, g', x);
    } else {
      StageOf(g, x);
      ReadyStays(g, g', x);
    }
  }

  /** In every graph rebuilt from a good journal, a resolved stage that was not completed from
      outside has the result that its trigger, execution and result-handling strategies give, or
      was ready when a recovery failed it as lost. */
  lemma {:induction false} ResultsFollowStrategies(j: seq<Event>, forced: Forced, x: StageId)
    requires Good(j, forced) && Resolved(ReplayAll(j), x) && x !in forced.outside
    ensures Explained(j, ReplayAll(j), x, forced)
  {
    hide ByStrategy, Shape, Extends, Trigger, CompletedByReply, CompletedByTrigger;
    var g := ReplayAll(Init(j));
    var g' := ReplayAll(j);
    var e := Last(j);
    assert j == Init(j) + [e];
    ReplayWellFormed(Init(j), forced);
    ApplyKeeps(Init(j), e);
    if Resolved(g, x) {
      ResultsFollowStrategies(Init(j), forced, x);
      ExplainedStays(Init(j), e, g, g', x, forced);
    } else {
      NewlyResolved(j, forced, x);
      if TakesInner(g', x) {
        var i :| ComposedInto(g', i, x) && Resolved(g', i) && g'.stages[i].result == g'.stages[x].result;
        OuterByChain(j, forced, i, x);
      } else if CompletedByTrigger(g, x, e.result) {
        TargetByTrigger(Init(j), forced, x, e.result, g');
      } else if CompletedByReply(Init(j), g, x, e.result) {
        TargetByReply(Init(j), forced, x, e.result, g');
      } else {
        StageOf(g, x);
        ReadyStays(g, g', x);
      }
    }
  }

  // ----- The operations one by one -----

  /** A stage that comes into a graph is the one just added, with its operation's row. */
  lemma AddedFromTable(g: Graph, e: Event, x: StageId)
    requires WellFormed(g) && x !in g.stages && x in Apply(g, e).stages
    ensures StrategyOf(Apply(g, e).stages[x].operation) == Some(Apply(g, e).stages[x].strategy)
  {
    hide Shape, StrategyOf;
    if !e.StageAdded? {
      SameStages(g, e, x);
    } else if e.op.TerminationHook? {
      HookHasRow();
    }
  }

  lemma HookHasRow()
    ensures StrategyOf(TerminationHook).Some?
  {
  }

  lemma {:induction false} StrategyFromTable(j: seq<Event>, forced: Forced, x: StageId)
    requires Good(j, forced) && x in ReplayAll(j).stages
    ensures StrategyOf(ReplayAll(j).stages[x].operation) == Some(ReplayAll(j).stages[x].strategy)
  {
    hide StrategyOf, WellFormed, Justified, Apply;
    var g := ReplayAll(Init(j));
    ReplayWellFormed(Init(j), forced);
    ApplyKeeps(Init(j), Last(j));
    if x in g.stages {
      StrategyFromTable(Init(j), forced, x);
    } else {
      AddedFromTable(g, Last(j), x);
    }
  }

  lemma JoiningRows()
    ensures var s := StrategyOf(AllOf).value; s.trigger.WaitForAll? && s.success.SucceedWithEmpty? && s.failure.PropagateResult?
    ensures var s := StrategyOf(AnyOf).value; s.trigger.TriggerAny? && s.success.PropagateResult? && s.failure.PropagateResult?
    ensures StrategyOf(AnyOf).value.minDependencies == 1
  {
  }

  /** allOf: ready only with all dependencies resolved, empty success exactly when all
      succeeded, otherwise the first failure in list order. */
  lemma AllOfMeaning(j: seq<Event>, forced: Forced, x: StageId)
    requires Good(j, forced) && Resolved(ReplayAll(j), x) && Unforced(forced, x)
    requires ReplayAll(j).stages[x].operation.AllOf?
    ensures var g := ReplayAll(j); var rs := Inputs(g, x); var r := g.stages[x].result.value;
            && AllResolved(rs)
            && (r.successful <==> forall i :: 0 <= i < |rs| ==> Succeeded(rs[i]))
            && (r.successful ==> r == Result(true, EmptyDatum))
            && (!r.successful ==> exists k: nat :: FirstFailureAt(rs, k) && rs[k] == Some(r))
  {
    hide Good, ReplayAll, Answers, StrategyOf;
    ResultsFollowStrategies(j, forced, x);
    StrategyFromTable(j, forced, x);
    JoiningRows();
    var g := ReplayAll(j);
    var rs := Inputs(g, x);
    if !Trigger(g, x).status {
      var i: nat :| HandsOn(g.stages[x].strategy.trigger, rs, Trigger(g, x).status, g.stages[x].result.value, i);
      assert FirstFailureAt(rs, i);
    }
  }

  /** anyOf: the result of one of its dependencies; a failure only when all of them failed, and
      then the last one in list order. */
  lemma AnyOfMeaning(j: seq<Event>, forced: Forced, x: StageId)
    requires Good(j, forced) && Resolved(ReplayAll(j), x) && Unforced(forced, x)
    requires ReplayAll(j).stages[x].operation.AnyOf?
    ensures var g := ReplayAll(j); var rs := Inputs(g, x); var r := g.stages[x].result.value;
            && |rs| > 0 && Some(r) in rs
            && (r.successful <==> SomeSucceeded(rs))
            && (!r.successful <==> AllFailed(rs))
            && (!r.successful ==> rs[|rs| - 1] == Some(r))
  {
    hide Good, ReplayAll, Answers, StrategyOf;
    ResultsFollowStrategies(j, forced, x);
    StrategyFromTable(j, forced, x);
    JoiningRows();
    var g := ReplayAll(j);
    var rs := Inputs(g, x);
    var i: nat :| HandsOn(g.stages[x].strategy.trigger, rs, Trigger(g, x).status, g.stages[x].result.value, i);
    assert rs[i] == g.stages[x].result;
    if AllFailed(rs) { assert Failed(rs[i]); }
  }

  /** whenComplete: its parent's result, whatever the closure returned. */
  lemma WhenCompleteMeaning(j: seq<Event>, forced: Forced, x: StageId)
    requires Good(j, forced) && Resolved(ReplayAll(j), x) && Unforced(forced, x)
    requires ReplayAll(j).stages[x].operation.WhenComplete?
    ensures var g := ReplayAll(j);
            |g.stages[x].dependencies| == 1 && DependencyResult(g, g.stages[x].dependencies[0]) == g.stages[x].result
    ensures InvocationStarted(x) in j
  {
    hide Good, ReplayAll, Answers, HandsOn;
    ResultsFollowStrategies(j, forced, x);
    StrategyFromTable(j, forced, x);
  }

  /** The operations that run their closure on success and pass a failure on. */
  predicate PassesFailureOn(op: Operation) {
    op.AcceptEither? || op.ApplyToEither? || op.ThenAcceptBoth? || op.ThenApply? || op.ThenRun?
    || op.ThenAccept? || op.ThenCompose? || op.ThenCombine?
  }

  lemma PassingRow(op: Operation)
    requires PassesFailureOn(op)
    ensures StrategyOf(op).Some? && Invokes(StrategyOf(op).value.success) && StrategyOf(op).value.failure.PropagateResult?
  {
  }

  /** Such a stage either ran its closure, its trigger having succeeded, or carries the failure
      of a dependency and never invoked its closure in any generation. */
  lemma FailurePropagation(j: seq<Event>, forced: Forced, x: StageId)
    requires Good(j, forced) && Resolved(ReplayAll(j), x) && Unforced(forced, x)
    requires PassesFailureOn(ReplayAll(j).stages[x].operation)
    ensures var g := ReplayAll(j); var r := g.stages[x].result;
            && IsReady(g, x)
            && (InvocationStarted(x) in j <==> Trigger(g, x).status)
            && (InvocationStarted(x) !in j ==> Failed(r) && r in Inputs(g, x))
  {
    hide Good, ReplayAll, Answers, FirstFailureAt, StrategyOf, AllFailed;
    ResultsFollowStrategies(j, forced, x);
    StrategyFromTable(j, forced, x);
    PassingRow(ReplayAll(j).stages[x].operation);
    var g := ReplayAll(j);
    if InvocationStarted(x) in j { InvokedStaysReady(j, forced, x); }
    if !Trigger(g, x).status {
      var i: nat :| HandsOn(g.stages[x].strategy.trigger, Inputs(g, x), Trigger(g, x).status, g.stages[x].result.value, i);
      assert Inputs(g, x)[i] == g.stages[x].result;
    }
  }

  lemma PassThroughSuccess(j: seq<Event>, forced: Forced, x: StageId)
    requires Good(j, forced) && Resolved(ReplayAll(j), x) && ByStrategy(j, ReplayAll(j), x)
    requires var s := ReplayAll(j).stages[x];
             && |s.dependencies| == 1 && s.strategy.trigger.TriggerAny? && !s.operation.InvokeFunction?
             && s.strategy.success.PropagateResult? && Invokes(s.strategy.failure)
    ensures var g := ReplayAll(j); var rs := Inputs(g, x);
            && |rs| == 1 && rs[0].Some?
            && (InvocationStarted(x) in j <==> Failed(rs[0]))
            && (Succeeded(rs[0]) ==> g.stages[x].result == rs[0])
  {
    var g := ReplayAll(j);
    var rs := Inputs(g, x);
    SingleAny(rs);
    if InvocationStarted(x) in j { InvokedStaysReady(j, forced, x); }
    if Trigger(g, x).status {
      var i: nat :| HandsOn(TriggerAny, rs, true, g.stages[x].result.value, i);
      assert rs[i] == g.stages[x].result;
    }
  }

  lemma ExceptionallyRow(j: seq<Event>, forced: Forced, x: StageId)
    requires Good(j, forced) && x in ReplayAll(j).stages
    requires ReplayAll(j).stages[x].operation.Exceptionally? || ReplayAll(j).stages[x].operation.ExceptionallyCompose?
    ensures var s := ReplayAll(j).stages[x];
            && |s.dependencies| == 1 && s.strategy.trigger.TriggerAny?
            && s.strategy.success.PropagateResult? && Invokes(s.strategy.failure)
  {
    hide Good, ReplayAll;
    StrategyFromTable(j, forced, x);
    ReplayWellFormed(j, forced);
    assert StageOk(ReplayAll(j), x);
  }

  /** exceptionally and its composing variant: a success passes through untouched, and the
      closure runs exactly when the dependency failed. */
  lemma ExceptionallyMeaning(j: seq<Event>, forced: Forced, x: StageId)
    requires Good(j, forced) && Resolved(ReplayAll(j), x) && Unforced(forced, x)
    requires ReplayAll(j).stages[x].operation.Exceptionally? || ReplayAll(j).stages[x].operation.ExceptionallyCompose?
    ensures var g := ReplayAll(j); var rs := Inputs(g, x);
            && |rs| == 1 && rs[0].Some?
            && (InvocationStarted(x) in j <==> Failed(rs[0]))
            && (Succeeded(rs[0]) ==> g.stages[x].result == rs[0])
  {
    ResultsFollowStrategies(j, forced, x);
    ExceptionallyRow(j, forced, x);
    PassThroughSuccess(j, forced, x);
  }

  lemma SingleAny(rs: seq<Option<Result>>)
    requires |rs| == 1 && AnyOne(rs).Ready?
    ensures rs[0].Some? && AnyOne(rs).status == Succeeded(rs[0]) == !Failed(rs[0])
  {
  }

  /** Delays, given values and external completions resolve only from outside. */
  lemma UntriggeredNeedsOutside(j: seq<Event>, forced: Forced, x: StageId)
    requires Good(j, forced) && Resolved(ReplayAll(j), x)
    requires ReplayAll(j).stages[x].strategy.trigger.TriggerNever?
    ensures x in forced.outside
  {
    if x !in forced.outside { ResultsFollowStrategies(j, forced, x); }
  }

  // ----- Termination hooks -----

  /** No hook was completed from outside. */
  ghost predicate HooksInside(g: Graph, forced: Forced) {
    forall h: StageId :: IsHook(g, h) ==> h !in forced.outside
  }

  /** Nor failed as lost. */
  ghost predicate HooksUnforced(g: Graph, forced: Forced) {
    forall h: StageId :: IsHook(g, h) ==> Unforced(forced, h)
  }

  /** What a ready hook waited for: the root if it was added last, else the hook added next. */
  lemma ReadyHook(g: Graph, h: StageId)
    requires WellFormed(g) && IsHook(g, h) && IsReady(g, h)
    ensures |g.stages[h].dependencies| == 1
    ensures match g.stages[h].dependencies[0]
            case Root =>
              && Rank(g.state) >= 2 && g.terminationRoot == Some(TerminationResult(StatusSucceeded))
              && forall m: StageId :: IsHook(g, m) ==> m <= h
            case On(n) =>
              && IsHook(g, n) && Resolved(g, n) && h < n < |g.stages|
              && (forall m: StageId :: IsHook(g, m) && h < m ==> n <= m)
              && g.stages[n].strategy.resultHandling.ParentStageResult?
  {
    hide RefsOk, ComposeClosed;
    assert StageOk(g, h) && HookOk(g, h);
    var rs := Inputs(g, h);
    assert rs[0].Some?;
    match g.stages[h].dependencies[0]
    case Root =>
    case On(n) => assert StageOk(g, n);
  }

  /** A ready hook has termination begun and all later hooks resolved behind it, also after
      recoveries that failed hooks as lost. */
  lemma {:induction false} ReadyHookIsLast(j: seq<Event>, forced: Forced, h: StageId)
    requires Good(j, forced) && HooksInside(ReplayAll(j), forced)
    requires IsHook(ReplayAll(j), h) && IsReady(ReplayAll(j), h)
    ensures var g := ReplayAll(j);
            Rank(g.state) >= 2 && forall m: StageId :: IsHook(g, m) && h < m ==> Resolved(g, m)
    decreases |ReplayAll(j).stages| - h
  {
    hide Good, ReplayAll, WellFormed, Trigger;
    var g := ReplayAll(j);
    ReplayWellFormed(j, forced);
    ReadyHook(g, h);
    match g.stages[h].dependencies[0]
    case Root =>
    case On(n) =>
      ResultsFollowStrategies(j, forced, n);
      ReadyHookIsLast(j, forced, n);
  }

  /** When a hook is invoked, in whatever generation, the graph is terminating and every hook
      added after it is already resolved. */
  lemma HooksRunLastInFirstOut(j: seq<Event>, forced: Forced, k: nat, h: StageId, m: StageId)
    requires Good(j, forced) && k < |j| && j[k] == InvocationStarted(h)
    requires IsHook(ReplayAll(j[..k]), h) && HooksInside(ReplayAll(j[..k]), forced)
    ensures var g := ReplayAll(j[..k]);
            g.state.Terminating? && Pending(g, h) && (IsHook(g, m) && h < m ==> Resolved(g, m))
  {
    hide Good, KeysOk, ChainOk, RefsOk, ComposeClosed, Trigger, Justified;
    GoodAt(j, k, forced);
    ReadyHookIsLast(j[..k], forced, h);
    var g := ReplayAll(j[..k]);
    ReplayWellFormed(j[..k], forced);
    assert StageOk(g, h);
    assert h in PendingIn(g, TerminationPhase);
  }

  /** `m` is `h` or a hook added after it, and a recovery failed it as lost. */
  predicate LostHook(g: Graph, forced: Forced, h: StageId, m: StageId) { IsHook(g, m) && h <= m && m in forced.lost }

  /** Every resolved hook ends with the termination status, whatever its closure returned, unless
      it or a hook that ran before it was failed as lost; then it ends as lost. */
  lemma {:induction false} HooksEndWith(j: seq<Event>, forced: Forced, h: StageId)
    requires Good(j, forced) && HooksInside(ReplayAll(j), forced)
    requires IsHook(ReplayAll(j), h) && Resolved(ReplayAll(j), h)
    ensures var g := ReplayAll(j); var r := g.stages[h].result.value;
            r == TerminationResult(StatusSucceeded) || (r == StageLostResult() && exists m :: LostHook(g, forced, h, m))
    decreases |ReplayAll(j).stages| - h
  {
    hide Good, ReplayAll, Shape, Trigger;
    var g := ReplayAll(j);
    ReplayWellFormed(j, forced);
    ResultsFollowStrategies(j, forced, h);
    ReadyHook(g, h);
    StageOf(g, h);
    if !ByStrategy(j, g, h) {
      assert LostHook(g, forced, h, h);
    } else if g.stages[h].dependencies[0].On? {
      var n := g.stages[h].dependencies[0].stage;
      HooksEndWith(j, forced, n);
      if m :| LostHook(g, forced, n, m) { assert LostHook(g, forced, h, m); }
    }
  }

  /** Without recovery failures every resolved hook ends with the termination status. */
  lemma HooksEndWithStatus(j: seq<Event>, forced: Forced, h: StageId)
    requires Good(j, forced) && HooksUnforced(ReplayAll(j), forced)
    requires IsHook(ReplayAll(j), h) && Resolved(ReplayAll(j), h)
    ensures ReplayAll(j).stages[h].result == Some(Result(true, StatusDatum(StatusSucceeded)))
  {
    HooksEndWith(j, forced, h);
  }

  // ----- Main stages that wait for hooks -----

  /** The trigger of a main stage cannot be satisfied while the hooks are pending. */
  predicate WaitsForHooks(g: Graph, x: StageId) {
    && x in g.stages && g.stages[x].phase.MainPhase?
    && var deps := g.stages[x].dependencies;
       match g.stages[x].strategy.trigger
       case WaitForAll => exists i :: 0 <= i < |deps| && deps[i].On? && IsHook(g, deps[i].stage)
       case TriggerAny => forall i :: 0 <= i < |deps| ==> deps[i].On? && IsHook(g, deps[i].stage)
       case TriggerNever => false
  }

  /** Before termination no hook is resolved, so such a stage is not ready. */
  lemma NotReadyBeforeTermination(j: seq<Event>, forced: Forced, x: StageId)
    requires Good(j, forced) && HooksInside(ReplayAll(j), forced) && Rank(ReplayAll(j).state) < 2
    requires WaitsForHooks(ReplayAll(j), x)
    ensures !IsReady(ReplayAll(j), x)
  {
    hide Good, ReplayAll, Explained, ByStrategy;
    var g := ReplayAll(j);
    forall h: StageId | IsHook(g, h) ensures !Resolved(g, h) {
      if Resolved(g, h) {
        HookResolvedLate(j, forced, h);
      }
    }
    var rs := Inputs(g, x);
    if g.stages[x].strategy.trigger.WaitForAll? {
      var i :| 0 <= i < |rs| && g.stages[x].dependencies[i].On? && IsHook(g, g.stages[x].dependencies[i].stage);
      assert rs[i].None?;
      assert WaitAll(rs).NotReady?;
    } else {
      forall i | 0 <= i < |rs| ensures rs[i].None? { assert IsHook(g, g.stages[x].dependencies[i].stage); }
      assert AnyOne(rs).NotReady? by { assert |rs| > 0 ==> !Failed(rs[0]); }
    }
  }

  lemma HookResolvedLate(j: seq<Event>, forced: Forced, h: StageId)
    requires Good(j, forced) && HooksInside(ReplayAll(j), forced) && IsHook(ReplayAll(j), h) && Resolved(ReplayAll(j), h)
    ensures Rank(ReplayAll(j).state) >= 2
  {
    hide Good, ReplayAll;
    ResultsFollowStrategies(j, forced, h);
    ReadyHookIsLast(j, forced, h);
  }

  lemma ResolvedMeansReady(j: seq<Event>, forced: Forced, x: StageId)
    requires Good(j, forced) && x in ReplayAll(j).stages && x !in forced.outside && !IsReady(ReplayAll(j), x)
    ensures Pending(ReplayAll(j), x)
  {
    hide Good, ReplayAll, IsReady;
    if Resolved(ReplayAll(j), x) { ResultsFollowStrategies(j, forced, x); }
  }

  /** Stages only come into a graph by being added. */
  lemma {:induction false} PresentBefore(j: seq<Event>, forced: Forced, a: nat, x: StageId)
    requires Good(j, forced) && a <= |j| && x in ReplayAll(j).stages
    requires forall k :: a <= k < |j| ==> !j[k].StageAdded?
    ensures x in ReplayAll(j[..a]).stages
    decreases |j|
  {
    if a == |j| {
      assert j[..a] == j;
    } else {
      ReplayWellFormed(Init(j), forced);
      SameStages(ReplayAll(Init(j)), Last(j), x);
      PresentBefore(Init(j), forced, a, x);
      assert Init(j)[..a] == j[..a];
    }
  }

  lemma SameStages(g: Graph, e: Event, x: StageId)
    requires WellFormed(g) && !e.StageAdded? && x in Apply(g, e).stages
    ensures x in g.stages
  {
    hide Shape;
    match e
    case StageCompleted(y, r) => if y in g.stages { CompleteFacts(g, y, r); }
    case StageComposed(o, i) => if o in g.stages && i in g.stages { ComposeFacts(g, o, i); }
    case _ =>
  }

  /** What a main stage waits for is settled when it is added. */
  lemma WaitsSinceAdded(g: Graph, g': Graph, x: StageId)
    requires WellFormed(g) && WellFormed(g') && Extends(g, g') && x in g.stages && WaitsForHooks(g', x)
    ensures WaitsForHooks(g, x)
  {
    hide KeysOk, ChainOk, RefsOk, LifecycleOk, ComposeClosed;
    StageOf(g, x);
    StageOf(g', x);
    var deps := g.stages[x].dependencies;
    assert deps == g'.stages[x].dependencies;
    if g.stages[x].strategy.trigger.WaitForAll? {
      var i :| 0 <= i < |deps| && deps[i].On? && IsHook(g', deps[i].stage);
      assert IsHook(g, deps[i].stage);
    }
  }

  /** Such a stage is still pending wherever termination has not begun. */
  lemma WaitingBefore(j: seq<Event>, forced: Forced, x: StageId, a: nat)
    requires Good(j, forced) && HooksInside(ReplayAll(j), forced)
    requires WaitsForHooks(ReplayAll(j), x) && x !in forced.outside && a <= |j| && Rank(ReplayAll(j[..a]).state) < 2
    requires forall k :: a <= k < |j| ==> !j[k].StageAdded?
    ensures x in PendingIn(ReplayAll(j[..a]), MainPhase)
  {
    hide Good, WaitsForHooks, IsReady, KeysOk, StagesOk, ChainOk, RefsOk, ComposeClosed, ReplayAll;
    var g := ReplayAll(j[..a]);
    WaitsIsPresent(ReplayAll(j), x);
    PresentBefore(j, forced, a, x);
    GoodPrefix(j, a, forced);
    ReplayExtends(j, a, forced);
    ReplayWellFormed(j, forced);
    ReplayWellFormed(j[..a], forced);
    WaitsSinceAdded(g, ReplayAll(j), x);
    NotReadyBeforeTermination(j[..a], forced, x);
    ResolvedMeansReady(j[..a], forced, x);
    WaitsIsPresent(g, x);
  }

  lemma WaitsIsPresent(g: Graph, x: StageId)
    requires WaitsForHooks(g, x)
    ensures x in g.stages && g.stages[x].phase.MainPhase?
  {
  }

  /** A main stage may be made to wait for hooks, which wait for the graph to terminate: unless
      the stage or a hook is completed from outside, it stays pending and the graph, committed or
      not, never terminates. */
  lemma WaitingForHooksBlocks(j: seq<Event>, forced: Forced, x: StageId)
    requires Good(j, forced) && HooksInside(ReplayAll(j), forced)
    requires WaitsForHooks(ReplayAll(j), x) && x !in forced.outside
    ensures Pending(ReplayAll(j), x) && Rank(ReplayAll(j).state) < 2
  {
    hide Good, ReplayAll, WaitsForHooks, HooksInside;
    if Rank(ReplayAll(j).state) >= 2 {
      LifecycleHasPredecessor(j, forced, 2);
      var a :| 0 <= a < |j| && Step(j[a]) == 2;
      forall k | a <= k < |j| ensures !j[k].StageAdded? {
        if k > a { NothingAddedAfterTermination(j, forced, a, k); }
      }
      GoodAt(j, a, forced);
      WaitingBefore(j, forced, x, a);
      assert false;
    } else {
      assert j[..|j|] == j;
      WaitingBefore(j, forced, x, |j|);
    }
  }

  // ----- Replies -----

  /** A stage that ran and takes its reply has one of its journaled replies as its result. */
  lemma ReplyMeaning(j: seq<Event>, forced: Forced, x: StageId)
    requires Good(j, forced) && Resolved(ReplayAll(j), x) && Unforced(forced, x) && InvocationStarted(x) in j
    requires ReplayAll(j).stages[x].strategy.resultHandling.InvocationResult?
    ensures InvocationCompleted(x, ReplayAll(j).stages[x].result.value) in j
  {
    hide Good, ReplayAll, Trigger;
    ResultsFollowStrategies(j, forced, x);
    InvokedStaysReady(j, forced, x);
    StrategyOfInvoked(j, forced, x);
    var n: nat :| Answers(j, ReplayAll(j), x, ReplayAll(j).stages[x].result.value, n);
  }

  lemma StrategyOfInvoked(j: seq<Event>, forced: Forced, x: StageId)
    requires Good(j, forced) && InvocationStarted(x) in j
    ensures IsReady(ReplayAll(j), x)
    ensures Invokes(ExecOf(ReplayAll(j), x)) || ExecOf(ReplayAll(j), x).CompleteExternally?
  {
    hide Good, ReplayAll, Trigger, KeysOk, ChainOk, RefsOk, LifecycleOk, ComposeClosed;
    InvokedStaysReady(j, forced, x);
    ReplayWellFormed(j, forced);
    StageOf(ReplayAll(j), x);
  }

  lemma ComposingRow(op: Operation)
    requires op.ThenCompose? || op.ExceptionallyCompose?
    ensures StrategyOf(op).Some? && StrategyOf(op).value.resultHandling.ReferencedStageResult?
  {
  }

  /** A stage that ran and composes failed with its reply, failed because its reply named no stage or
      none that existed, or has the result of the stage its reply named. */
  lemma ComposeMeaning(j: seq<Event>, forced: Forced, x: StageId)
    requires Good(j, forced) && Resolved(ReplayAll(j), x) && Unforced(forced, x) && InvocationStarted(x) in j
    requires ReplayAll(j).stages[x].operation.ThenCompose? || ReplayAll(j).stages[x].operation.ExceptionallyCompose?
    ensures var g := ReplayAll(j); var r := g.stages[x].result.value;
            || (!r.successful && InvocationCompleted(x, r) in j)
            || (r == InternalError(InvalidStageResponse, "stage returned a non-stageref response")
                && exists d: Datum :: !d.StageRefDatum? && InvocationCompleted(x, Result(true, d)) in j)
            || (r == InternalError(InvalidStageResponse, "referenced stage not found ")
                && exists i: StageId :: InvocationCompleted(x, Result(true, StageRefDatum(i))) in j)
            || exists i: StageId :: InvocationCompleted(x, Result(true, StageRefDatum(i))) in j && Resolved(g, i) && g.stages[i].result == Some(r)
  {
    hide Good, ReplayAll, Trigger, HandsOn, DependencyResult, StrategyOf;
    ResultsFollowStrategies(j, forced, x);
    StrategyFromTable(j, forced, x);
    ComposingRow(ReplayAll(j).stages[x].operation);
    StrategyOfInvoked(j, forced, x);
    var n: nat :| Answers(j, ReplayAll(j), x, ReplayAll(j).stages[x].result.value, n);
    var d := j[n].result.datum;
    assert j[n] in j;
    if j[n].result.successful {
      assert j[n] == InvocationCompleted(x, Result(true, d));
      if d.StageRefDatum? { assert j[n] == InvocationCompleted(x, Result(true, StageRefDatum(d.stage))); }
    }
  }
}
